/**
 What reads, access-list loads and commits of `LatestState` come to: every answer at the moment it is
 given, and what each operation leaves behind when it is let run to its end.
 */
module LatestReads {
  import opened Common
  import opened StateChanges
  import opened LatestState

  // ----- answers at the moment they are given -----

  /** The thread gets one more answer, and is ready for the next read. */
  predicate Gets(before: Thread, after: Thread, a: Answer) {
    after.pc.Ready? && after.answers == before.answers + [a] && after.target == before.target
  }

  /** The value of `k` in the state left by all stored blocks. */
  predicate Current(s: State, k: Key, v: Value)
    requires |s.writes| > 0
  {
    Visible(v) == AsOf(s.writes, k, Tip(s))
  }

  /** A read of permanent storage gives the value at the tip, whether or not a commit is running. */
  lemma PermanentAnswerIsCurrent(start: State, steps: seq<Step>, t: ThreadId)
    requires Init(start) && ValidRun(start, steps) && CoveredRun(start, steps)
    requires t in Run(start, steps).threads && Run(start, steps).threads[t].pc.FromPermanent?
    ensures var s := Run(start, steps);
      var k, v := s.threads[t].pc.key, ReaderValue(s.latest, s.threads[t].pc.key);
      && Enabled(s, Act(t, ReadPermanent)) && |s.writes| > 0 && Current(s, k, v)
      && Gets(s.threads[t], Apply(s, Act(t, ReadPermanent)).threads[t], Found(k, v, |s.writes|))
  {
    RunPreservesInv(start, steps);
  }

  /**
   A cached value is the one at the tip unless the running commit has yet to cache that very key. So a
   reader without the state lock lags only then, and only by an answer from the cache.
   */
  lemma CachedAnswerIsCurrent(start: State, steps: seq<Step>, t: ThreadId)
    requires Init(start) && ValidRun(start, steps) && CoveredRun(start, steps)
    requires t in Run(start, steps).threads && Run(start, steps).threads[t].pc.Lookup?
    requires Run(start, steps).threads[t].pc.key in Run(start, steps).cache
    ensures var s := Run(start, steps);
      var k, v := s.threads[t].pc.key, s.cache[s.threads[t].pc.key];
      && Enabled(s, Act(t, LookupCache)) && |s.writes| > 0 && (k !in Due(s.committer) ==> Current(s, k, v))
      && Gets(s.threads[t], Apply(s, Act(t, LookupCache)).threads[t], Found(k, v, |s.writes|))
  {
    RunPreservesInv(start, steps);
    var s := Run(start, steps);
    assert FreshOrDue(s, s.threads[t].pc.key, s.cache[s.threads[t].pc.key]);
  }

  // ----- one operation to its end -----

  /** Only steps of the thread lead from one state to the other. */
  ghost predicate Goes(s: State, t: ThreadId, end: State) {
    exists steps :: Of(t, steps) && Reaches(s, steps, end)
  }

  predicate IsOf(t: ThreadId, step: Step) {
    (step.Act? && step.t == t) || (step.ReserveFill? && step.t == t) || (step.InsertFill? && step.t == t)
  }

  predicate Of(t: ThreadId, steps: seq<Step>) {
    forall i | 0 <= i < |steps| :: IsOf(t, steps[i])
  }

  lemma Stays(s: State, t: ThreadId)
    ensures Goes(s, t, s)
  {
    assert Of(t, []) && Reaches(s, [], s);
  }

  lemma Onward(s: State, t: ThreadId, step: Step, end: State)
    requires Enabled(s, step) && IsOf(t, step) && Goes(Apply(s, step), t, end)
    ensures Goes(s, t, end)
  {
    var rest :| Of(t, rest) && Reaches(Apply(s, step), rest, end);
    ReachesStep(s, step, rest, end);
    assert Of(t, [step] + rest);
  }

  /** The value found for a read that begins in `s`. */
  function FoundFor(s: State, target: Target, k: Key): Value {
    if Resolved(s, target, k).FromHistory? then
      WithAddress(k.address, AsOf(s.writes, k, target.block))
    else if k in s.cache then s.cache[k]
    else ReaderValue(s.latest, k)
  }

  /** What was read from the latest permanent state waits to be cached, unless it is for the pending block. */
  function FillsAfter(s: State, target: Target, k: Key): map<Key, Value> {
    if Resolved(s, target, k).FromHistory? || k in s.cache || target.Pending? then map[]
    else map[k := ReaderValue(s.latest, k)]
  }

  lemma LookupGoes(s: State, t: ThreadId, k: Key) returns (end: State)
    requires t in s.threads && s.threads[t].pc == Lookup(k) && s.threads[t].fills == map[]
    ensures Goes(s, t, end) && t in end.threads && end == SetThread(s, t, end.threads[t])
    ensures var v := if k in s.cache then s.cache[k] else ReaderValue(s.latest, k);
      && Gets(s.threads[t], end.threads[t], Found(k, v, |s.writes|))
      && end.threads[t].fills == if k in s.cache || s.threads[t].target.Pending? then map[] else map[k := v]
  {
    end := Apply(s, Act(t, LookupCache));
    if k in s.cache {
      Stays(end, t);
    } else {
      var missed := end;
      end := Apply(missed, Act(t, ReadPermanent));
      Stays(end, t);
      Onward(missed, t, Act(t, ReadPermanent), end);
    }
    Onward(s, t, Act(t, LookupCache), end);
  }

  lemma HistoryGoes(s: State, t: ThreadId, k: Key) returns (end: State)
    requires t in s.threads && s.threads[t].pc == FromHistory(k) && s.threads[t].fills == map[]
    requires s.threads[t].target.Pinned? || s.threads[t].target.Past?
    ensures Goes(s, t, end) && t in end.threads && end == SetThread(s, t, end.threads[t])
    ensures var v := WithAddress(k.address, AsOf(s.writes, k, s.threads[t].target.block));
      Gets(s.threads[t], end.threads[t], Found(k, v, |s.writes|)) && end.threads[t].fills == map[]
  {
    end := Apply(s, Act(t, ReadHistory));
    Stays(end, t);
    Onward(s, t, Act(t, ReadHistory), end);
  }

  lemma SetTwice(s: State, t: ThreadId, a: Thread, b: Thread)
    ensures SetThread(SetThread(s, t, a), t, b) == SetThread(s, t, b)
  {
    assert s.threads[t := a][t := b] == s.threads[t := b];
  }

  lemma ReadGoes(s: State, t: ThreadId, k: Key) returns (end: State)
    requires t in s.threads && Enabled(s, Act(t, BeginRead(k)))
    ensures Goes(s, t, end) && t in end.threads && end == SetThread(s, t, end.threads[t])
    ensures Gets(s.threads[t], end.threads[t], Found(k, FoundFor(s, s.threads[t].target, k), |s.writes|))
    ensures end.threads[t].fills == FillsAfter(s, s.threads[t].target, k)
  {
    var begun := s.threads[t].(pc := Resolved(s, s.threads[t].target, k));
    var next := SetThread(s, t, begun);
    assert Apply(s, Act(t, BeginRead(k))) == next && next.threads[t] == begun;
    if begun.pc.FromHistory? {
      end := HistoryGoes(next, t, k);
    } else {
      end := LookupGoes(next, t, k);
    }
    SetTwice(s, t, begun, end.threads[t]);
    Onward(s, t, Act(t, BeginRead(k)), end);
  }

  /** The value a read is to give. */
  ghost predicate Right(s: State, target: Target, k: Key, v: Value)
    requires |s.writes| > 0
  {
    match target
    case Pinned(b) => Visible(v) == AsOf(s.writes, k, b)
    case Past(b) => Visible(v) == AsOf(s.writes, k, b)
    case _ => (k in s.cache && v == s.cache[k]) || (k !in s.cache && Current(s, k, v))
  }

  lemma FoundIsRight(s: State, t: ThreadId, k: Key)
    requires Inv(s) && t in s.threads && Enabled(s, Act(t, BeginRead(k)))
    ensures Right(s, s.threads[t].target, k, FoundFor(s, s.threads[t].target, k))
  {
    assert ThreadOk(s, s.threads[t]);
    if k in s.cache { assert FreshOrDue(s, k, s.cache[k]); }
  }

  /**
   A read of any kind, let run, is answered for the key it was asked: as of its pinned or past block, or
   with the cached value, or else with the current one. Besides the thread nothing changes.
   */
  lemma ReadIsAnswered(s: State, t: ThreadId, k: Key) returns (end: State, v: Value)
    requires Inv(s) && t in s.threads && Enabled(s, Act(t, BeginRead(k)))
    ensures Goes(s, t, end) && t in end.threads && end == SetThread(s, t, end.threads[t])
    ensures Gets(s.threads[t], end.threads[t], Found(k, v, |s.writes|)) && Right(s, s.threads[t].target, k, v)
    ensures end.threads[t].fills == FillsAfter(s, s.threads[t].target, k)
  {
    FoundIsRight(s, t, k);
    end := ReadGoes(s, t, k);
    v := FoundFor(s, s.threads[t].target, k);
  }

  /** A call that asks for the header of its block gets it, from the lock or from permanent storage. */
  lemma HeaderIsAnswered(s: State, t: ThreadId) returns (end: State)
    requires Inv(s) && t in s.threads && Enabled(s, Act(t, ReadHeader))
    ensures var b := s.threads[t].target.block;
      b < |s.headers| && t in end.threads && Gets(s.threads[t], end.threads[t], Header(s.headers[b]))
    ensures Goes(s, t, end) && end == SetThread(s, t, end.threads[t])
  {
    assert ThreadOk(s, s.threads[t]);
    end := Apply(s, Act(t, ReadHeader));
    if end.threads[t].pc.HeaderFromPermanent? {
      var next := end;
      end := Apply(next, Act(t, ReadStoredHeader));
      Stays(end, t);
      Onward(next, t, Act(t, ReadStoredHeader), end);
    } else {
      Stays(end, t);
    }
    Onward(s, t, Act(t, ReadHeader), end);
  }

  // ----- by kind of reader -----

  /** A reader of some kind is started and, let run, reads one key. */
  ghost predicate Reads(s: State, t: ThreadId, kind: Kind, k: Key, v: Value, fills: map<Key, Value>) {
    && Enabled(s, Start(t, kind))
    && var started := Apply(s, Start(t, kind));
       exists end :: Goes(started, t, end) && t in end.threads
                     && end.threads[t].answers == [Found(k, v, |s.writes|)] && end.threads[t].fills == fills
  }

  lemma StartAndRead(s: State, t: ThreadId, kind: Kind, k: Key)
    requires Inv(s) && t !in s.threads && !kind.AccessListLoader? && (kind.Call? ==> s.committer.Idle?)
    ensures var target := NewThread(s, kind).target;
      Reads(s, t, kind, k, FoundFor(s, target, k), FillsAfter(s, target, k))
  {
    var started := Apply(s, Start(t, kind));
    var target := NewThread(s, kind).target;
    var end := ReadGoes(started, t, k);
    assert [] + [Found(k, FoundFor(s, target, k), |s.writes|)] == [Found(k, FoundFor(s, target, k), |s.writes|)];
    assert Goes(started, t, end);
  }

  /** What was not cached waits to be. */
  function Missing(s: State, k: Key): map<Key, Value> {
    if k in s.cache then map[] else map[k := ReaderValue(s.latest, k)]
  }

  /** The value in the cache, or else in the latest permanent state. */
  function LatestValue(s: State, k: Key): Value {
    if k in s.cache then s.cache[k] else ReaderValue(s.latest, k)
  }

  lemma MinedValue(s: State, k: Key)
    requires Inv(s) && s.committer.Idle?
    ensures s.mined == s.lockInfo.number && Visible(LatestValue(s, k)) == AsOf(s.writes, k, s.mined)
  {
    if k in s.cache { assert FreshOrDue(s, k, s.cache[k]); }
  }

  /** A call reads the mined block through cache and latest state, and has cached what was missing. */
  lemma CallReadsTheMinedBlock(s: State, t: ThreadId, k: Key)
    requires Inv(s) && t !in s.threads && s.committer.Idle?
    ensures Visible(LatestValue(s, k)) == AsOf(s.writes, k, s.mined)
    ensures Reads(s, t, Call, k, LatestValue(s, k), Missing(s, k))
  {
    MinedValue(s, k);
    StartAndRead(s, t, Call, k);
  }

  /** A reader of the latest state reads the same way, at any time. */
  lemma LatestReaderReadsTheLatest(s: State, t: ThreadId, k: Key)
    requires Inv(s) && t !in s.threads
    ensures Reads(s, t, LatestReader, k, LatestValue(s, k), Missing(s, k))
  {
    StartAndRead(s, t, LatestReader, k);
  }

  /** One of the pending state does, and has nothing cached. */
  lemma PendingReaderCachesNothing(s: State, t: ThreadId, k: Key)
    requires Inv(s) && t !in s.threads
    ensures Reads(s, t, PendingReader, k, LatestValue(s, k), map[])
  {
    StartAndRead(s, t, PendingReader, k);
  }

  /** A reader of a past block reads the history at that block, and has nothing cached. */
  lemma PastReaderReadsHistory(s: State, t: ThreadId, k: Key, b: nat)
    requires Inv(s) && t !in s.threads
    ensures Reads(s, t, PastReader(b), k, WithAddress(k.address, AsOf(s.writes, k, b)), map[])
  {
    StartAndRead(s, t, PastReader(b), k);
  }

  /** A call started while no commit runs can ask for its header, and gets that of the mined block. */
  lemma CallGetsItsHeader(s: State, t: ThreadId) returns (end: State)
    requires Inv(s) && t !in s.threads && s.committer.Idle?
    ensures Enabled(s, Start(t, Call)) && Goes(Apply(s, Start(t, Call)), t, end)
    ensures s.mined < |s.headers| && t in end.threads && end.threads[t].answers == [Header(s.headers[s.mined])]
  {
    StepPreservesInv(s, Start(t, Call));
    var started := Apply(s, Start(t, Call));
    end := HeaderIsAnswered(started, t);
    assert [] + [Header(s.headers[s.mined])] == [Header(s.headers[s.mined])];
  }

  // ----- caching what was read -----

  /** What waits is cached under its key unless the key is there or somebody is inserting it. */
  function Filled(cache: map<Key, Value>, reserved: set<Key>, fills: map<Key, Value>): map<Key, Value> {
    cache + (map k | k in fills && k !in cache && k !in reserved :: fills[k])
  }

  function FilledOne(cache: map<Key, Value>, reserved: set<Key>, k: Key, v: Value): map<Key, Value> {
    if k in cache || k in reserved then cache else cache[k := v]
  }

  lemma FilledStepwise(cache: map<Key, Value>, reserved: set<Key>, fills: map<Key, Value>, k: Key)
    requires k in fills
    ensures Filled(FilledOne(cache, reserved, k, fills[k]), reserved, fills - {k}) == Filled(cache, reserved, fills)
  {
  }

  /** The state with another thread and another cache. */
  function After(s: State, t: ThreadId, th: Thread, cache: map<Key, Value>): State {
    s.(threads := s.threads[t := th], cache := cache)
  }

  lemma AfterAfter(s: State, t: ThreadId, a: Thread, x: map<Key, Value>, b: Thread, y: map<Key, Value>)
    ensures After(After(s, t, a, x), t, b, y) == After(s, t, b, y)
  {
    assert s.threads[t := a][t := b] == s.threads[t := b];
  }

  lemma FillOne(s: State, t: ThreadId, k: Key, last: State)
    requires t in s.threads && k in s.threads[t].fills
    requires var th := s.threads[t];
      Goes(After(s, t, th.(fills := th.fills - {k}), FilledOne(s.cache, s.reserved.Keys, k, th.fills[k])), t, last)
    ensures Goes(s, t, last)
  {
    if k in s.cache || k in s.reserved {
      Onward(s, t, Act(t, SkipFill(k)), last);
    } else {
      var next := Apply(s, ReserveFill(t, k));
      assert next.reserved - {k} == s.reserved;
      Onward(next, t, InsertFill(t, k), last);
      Onward(s, t, ReserveFill(t, k), last);
    }
  }

  lemma {:induction false} FillAll(s: State, t: ThreadId)
    requires t in s.threads
    ensures var th := s.threads[t];
      Goes(s, t, After(s, t, th.(fills := map[]), Filled(s.cache, s.reserved.Keys, th.fills)))
    decreases s.threads[t].fills.Keys
  {
    var th := s.threads[t];
    var end := After(s, t, th.(fills := map[]), Filled(s.cache, s.reserved.Keys, th.fills));
    if th.fills == map[] {
      assert end == s;
      Stays(s, t);
    } else {
      var k :| k in th.fills;
      var left := th.(fills := th.fills - {k});
      var next := After(s, t, left, FilledOne(s.cache, s.reserved.Keys, k, th.fills[k]));
      assert next.threads[t] == left && next.reserved == s.reserved;
      FillAll(next, t);
      FilledStepwise(s.cache, s.reserved.Keys, th.fills, k);
      AfterAfter(s, t, left, next.cache, end.threads[t], end.cache);
      FillOne(s, t, k, end);
    }
  }

  // ----- access lists -----

  function Loaded(db: Database, keys: set<Key>): map<Key, Value> {
    map k | k in keys :: LoaderValue(db, k)
  }

  lemma LoadedStepwise(db: Database, fills: map<Key, Value>, keys: set<Key>, k: Key)
    requires k in keys
    ensures fills[k := LoaderValue(db, k)] + Loaded(db, keys - {k}) == fills + Loaded(db, keys)
  {
  }

  lemma {:induction false} LoadAll(s: State, t: ThreadId)
    requires t in s.threads && s.threads[t].target.Loader?
    ensures var th := s.threads[t];
      Goes(s, t, SetThread(s, t, th.(toLoad := {}, fills := th.fills + Loaded(s.latest, th.toLoad))))
    decreases s.threads[t].toLoad
  {
    var th := s.threads[t];
    var end := SetThread(s, t, th.(toLoad := {}, fills := th.fills + Loaded(s.latest, th.toLoad)));
    if th.toLoad == {} {
      assert th.fills + Loaded(s.latest, {}) == th.fills;
      assert end == s;
      Stays(s, t);
    } else {
      var k :| k in th.toLoad;
      var next := Apply(s, Act(t, LoadOne(k)));
      LoadAll(next, t);
      LoadedStepwise(s.latest, th.fills, th.toLoad, k);
      assert SetThread(next, t, end.threads[t]) == end;
      Onward(s, t, Act(t, LoadOne(k)), end);
    }
  }

  lemma GoesOn(a: State, t: ThreadId, b: State, c: State)
    requires Goes(a, t, b) && Goes(b, t, c)
    ensures Goes(a, t, c)
  {
    var first :| Of(t, first) && Reaches(a, first, b);
    var second :| Of(t, second) && Reaches(b, second, c);
    ReachesConcat(a, first, b, second, c);
    assert Of(t, first + second);
  }

  /**
   A loader, let run, caches every listed key that was missing, with its permanent value; entries that
   were there stay, and a key somebody else is inserting is left to them.
   */
  lemma AccessListIsLoaded(s: State, t: ThreadId)
    requires t in s.threads && s.threads[t].target.Loader? && s.threads[t].fills == map[]
    ensures var th := s.threads[t];
      Goes(s, t, After(s, t, th.(toLoad := {}), Filled(s.cache, s.reserved.Keys, Loaded(s.latest, th.toLoad))))
  {
    var th := s.threads[t];
    var loaded := SetThread(s, t, th.(toLoad := {}, fills := th.fills + Loaded(s.latest, th.toLoad)));
    LoadAll(s, t);
    assert map[] + Loaded(s.latest, th.toLoad) == Loaded(s.latest, th.toLoad);
    FillAll(loaded, t);
    var end := After(s, t, th.(toLoad := {}), Filled(s.cache, s.reserved.Keys, Loaded(s.latest, th.toLoad)));
    assert After(loaded, t, th.(toLoad := {}), end.cache) == end;
    GoesOn(s, t, loaded, end);
  }

  // ----- commits -----

  predicate OfCommitter(steps: seq<Step>) {
    forall i | 0 <= i < |steps| ::
      || steps[i].LockForCommit? || steps[i].SavePermanent? || steps[i].SetLockInfo? || steps[i].CacheOne?
      || steps[i].SetMined? || steps[i].Unlock?
  }

  /** Only steps of the committer lead from one state to the other. */
  ghost predicate Commits(s: State, end: State) {
    exists steps :: OfCommitter(steps) && Reaches(s, steps, end)
  }

  lemma CommitsOn(s: State, step: Step, end: State)
    requires Enabled(s, step) && OfCommitter([step]) && Commits(Apply(s, step), end)
    ensures Commits(s, end)
  {
    var rest :| OfCommitter(rest) && Reaches(Apply(s, step), rest, end);
    assert [step][0] == step;
    ReachesStep(s, step, rest, end);
    assert OfCommitter([step] + rest);
  }

  /** Every key the block touched, with what its execution ended with. */
  function Outcomes(changes: Changes, keys: set<Key>): map<Key, Value>
    requires keys <= changes.Keys
  {
    map k | k in keys :: WithAddress(k.address, Outcome(changes[k]))
  }

  function Published(s: State, info: BlockInfo, changes: Changes, due: set<Key>): State
    requires due <= changes.Keys
  {
    s.(cache := s.cache + Outcomes(changes, due), reserved := s.reserved - due, mined := info.number, committer := Idle)
  }

  lemma PublishedStepwise(s: State, changes: Changes, due: set<Key>, k: Key)
    requires k in due && due <= changes.Keys
    ensures s.cache[k := CachedValue(k, changes[k])] + Outcomes(changes, due - {k}) == s.cache + Outcomes(changes, due)
    ensures s.reserved - {k} - (due - {k}) == s.reserved - due
  {
  }

  lemma Release(s: State, info: BlockInfo, changes: Changes)
    requires s.committer == Caching(info, changes, {})
    ensures Commits(s, s.(mined := info.number, committer := Idle))
  {
    var next := Apply(s, SetMined);
    var end := Apply(next, Unlock);
    assert OfCommitter([]) && Reaches(end, [], end);
    CommitsOn(next, Unlock, end);
    CommitsOn(s, SetMined, end);
    assert end == s.(mined := info.number, committer := Idle);
  }

  lemma {:induction false} CacheAll(s: State, info: BlockInfo, changes: Changes, due: set<Key>)
    requires s.committer == Caching(info, changes, due) && due <= changes.Keys
    ensures Commits(s, Published(s, info, changes, due))
    decreases due
  {
    if due == {} {
      Release(s, info, changes);
      assert s.cache + Outcomes(changes, {}) == s.cache && s.reserved - {} == s.reserved;
    } else {
      var k :| k in due;
      var next := Apply(s, CacheOne(k));
      CacheAll(next, info, changes, due - {k});
      PublishedStepwise(s, changes, due, k);
      assert Published(next, info, changes, due - {k}) == Published(s, info, changes, due);
      CommitsOn(s, CacheOne(k), Published(s, info, changes, due));
    }
  }

  /** The state after a commit: database, history, header, lock value, cache and mined number. */
  function Committed(s: State, info: BlockInfo, changes: Changes): State {
    s.(latest := Commit(s.latest, changes),
       writes := s.writes + [Writes(s.latest, changes)],
       headers := s.headers + [info],
       lockInfo := info,
       mined := info.number,
       cache := s.cache + Outcomes(changes, changes.Keys),
       reserved := s.reserved - changes.Keys)
  }

  /** Database, history, header and lock value are written before the first cache entry. */
  lemma BatchLeads(s: State, info: BlockInfo, changes: Changes, end: State)
    requires Enabled(s, LockForCommit(info, changes))
    requires Commits(s.(latest := Commit(s.latest, changes), writes := s.writes + [Writes(s.latest, changes)],
                        headers := s.headers + [info], lockInfo := info,
                        committer := Caching(info, changes, changes.Keys)), end)
    ensures Commits(s, end)
  {
    var locked := Apply(s, LockForCommit(info, changes));
    var saved := Apply(locked, SavePermanent);
    CommitsOn(saved, SetLockInfo, end);
    CommitsOn(locked, SavePermanent, end);
    CommitsOn(s, LockForCommit(info, changes), end);
  }

  /** A commit that is begun, let run, does all of this, and touches no thread. */
  lemma CommitIsWhole(s: State, info: BlockInfo, changes: Changes)
    requires Enabled(s, LockForCommit(info, changes))
    ensures Commits(s, Committed(s, info, changes))
  {
    var caching := s.(latest := Commit(s.latest, changes), writes := s.writes + [Writes(s.latest, changes)],
                      headers := s.headers + [info], lockInfo := info,
                      committer := Caching(info, changes, changes.Keys));
    CacheAll(caching, info, changes, changes.Keys);
    assert Published(caching, info, changes, changes.Keys) == Committed(s, info, changes);
    BatchLeads(s, info, changes, Committed(s, info, changes));
  }

  /** One that the database refuses leaves everything as it was. */
  lemma RefusedCommitLeavesNoTrace(s: State, info: BlockInfo, changes: Changes)
    requires Enabled(s, LockForCommit(info, changes))
    ensures Reaches(s, [LockForCommit(info, changes), FailPermanent], s)
  {
    var locked := Apply(s, LockForCommit(info, changes));
    assert Apply(locked, FailPermanent) == s && Reaches(s, [], s);
    ReachesStep(locked, FailPermanent, [], s);
    assert [FailPermanent] + [] == [FailPermanent];
    ReachesStep(s, LockForCommit(info, changes), [FailPermanent], s);
    assert [LockForCommit(info, changes)] + [FailPermanent] == [LockForCommit(info, changes), FailPermanent];
  }
}
