/**
 Transactional seen: the serial worker executes transactions on the pending block while blocks
 are finished and committed and any number of other threads read, load and evict.

 A read looks in the pending block and in the last finished block, which are read together, and
 otherwise in the cache and then in permanent storage, each a step of its own. The storage below is
 the machine of `LatestState`, with all its threads.
 */
module PendingReads {
  import opened Common
  import opened StateChanges
  import L = LatestState

  datatype Pc = Ready | Lookup(key: Key) | FromPermanent(key: Key)

  /** `seen` is everything the current execution has read. */
  datatype Worker = Waiting | Executing(header: BlockInfo, seen: map<Key, Stored>, pc: Pc)

  /**
   `accepted` are the executions saved so far; the first `closed` of them are in finished blocks, the
   first `stored` in stored ones.
   */
  datatype System = System(
    core: L.State,
    origin: Database,
    accepted: seq<Changes>,
    closed: nat,
    stored: nat,
    pending: Changes,           // merged state of the pending block
    finished: Changes,          // of the last finished block, kept until the next one is finished
    finishedHeader: BlockInfo,
    committed: bool,            // the last finished block is in permanent storage
    worker: Worker)

  datatype Step =
    | StartTransaction
    | ReadTemporary(key: Key)
    | LookupCache
    | ReadPermanent
    | Save(changes: Changes)
    | Abandon
    | Finish(timestamp: nat)
    | Storage(step: L.Step)

  /** What an execution may end with: it has read all it touched, and keeps what it did not change. */
  ghost predicate Explains(seen: map<Key, Stored>, changes: Changes) {
    forall k | k in changes :: k in seen && !IsIgnored(k.address) && OriginalsMatch(seen[k], changes[k])
  }

  /** Blocks are finished and committed in turn; what is committed is the last finished block. */
  ghost predicate Enabled(s: System, step: Step) {
    match step
    case StartTransaction => s.worker.Waiting?
    case ReadTemporary(_) => s.worker.Executing? && s.worker.pc.Ready?
    case LookupCache => s.worker.Executing? && s.worker.pc.Lookup?
    case ReadPermanent => s.worker.Executing? && s.worker.pc.FromPermanent?
    case Save(changes) => s.worker.Executing? && s.worker.pc.Ready? && Explains(s.worker.seen, changes)
    case Abandon => s.worker.Executing? && s.worker.pc.Ready?
    case Finish(_) => s.committed && s.core.committer.Idle?
    case Storage(step) =>
      && L.Enabled(s.core, step)
      && !step.MovePending?
      && (step.LockForCommit? ==> step.info == s.finishedHeader && step.changes == s.finished)
  }

  function Answered(s: System, k: Key, v: Stored): System
    requires s.worker.Executing?
  {
    s.(worker := s.worker.(seen := s.worker.seen[k := v], pc := Ready))
  }

  ghost function Apply(s: System, step: Step): System
    requires Enabled(s, step)
  {
    match step
    case StartTransaction => s.(worker := Executing(s.core.pending, map[], Ready))
    case ReadTemporary(k) =>
      if k in s.pending then Answered(s, k, Outcome(s.pending[k]))
      else if k in s.finished then Answered(s, k, Outcome(s.finished[k]))
      else s.(worker := s.worker.(pc := Lookup(k)))
    case LookupCache =>
      var k := s.worker.pc.key;
      if k in s.core.cache then Answered(s, k, L.Visible(s.core.cache[k]))
      else s.(worker := s.worker.(pc := FromPermanent(k)))
    case ReadPermanent => Answered(s, s.worker.pc.key, Read(s.core.latest, s.worker.pc.key))
    case Save(changes) =>
      if s.worker.header != s.core.pending then s.(worker := Waiting)
      else s.(worker := Waiting, pending := Merge(s.pending, changes), accepted := s.accepted + [changes])
    case Abandon => s.(worker := Waiting)
    case Finish(timestamp) =>
      s.(core := L.Apply(s.core, L.MovePending(BlockInfo(s.core.pending.number + 1, timestamp))),
         closed := |s.accepted|, pending := map[],
         finished := s.pending, finishedHeader := s.core.pending, committed := false)
    case Storage(step) =>
      var core := L.Apply(s.core, step);
      if step.SavePermanent? then s.(core := core, committed := true, stored := s.closed) else s.(core := core)
  }

  ghost predicate ValidRun(s: System, steps: seq<Step>)
    decreases |steps|
  {
    steps == [] || (Enabled(s, steps[0]) && ValidRun(Apply(s, steps[0]), steps[1..]))
  }

  ghost function Run(s: System, steps: seq<Step>): System
    requires ValidRun(s, steps)
    decreases |steps|
  {
    if steps == [] then s else Run(Apply(s, steps[0]), steps[1..])
  }

  // ----- invariant -----

  /** The state left by all accepted transactions. */
  function Ideal(s: System): Database {
    CommitAll(s.origin, s.accepted)
  }

  /** The state left by all finished blocks. */
  function Base(s: System): Database {
    if s.committed then s.core.latest else Commit(s.core.latest, s.finished)
  }

  ghost predicate ChainOk(core: L.State) {
    L.ChainOk(core) && L.CommitterOk(core)
  }

  ghost predicate BlocksOk(s: System) {
    && s.core.pending.number == |s.core.headers| + (if s.committed then 0 else 1)
    && s.finishedHeader.number + 1 == s.core.pending.number
    && match s.core.committer
       case Idle => true
       case Locked(info, changes) => !s.committed && changes == s.finished
       case Saved(_, changes) => s.committed && changes == s.finished
       case Caching(_, changes, _) => s.committed && changes == s.finished
       case MinedSet(_) => s.committed
  }

  ghost predicate StateOk(s: System) {
    && (if s.committed then L.OutcomesStored(s.core.latest, s.finished) else CompleteFor(s.core.latest, s.finished))
    && CompleteFor(Base(s), s.pending)
    && SameState(Commit(Base(s), s.pending), Ideal(s))
    && RanInOrder(s.origin, s.accepted)
  }

  ghost predicate PrefixesOk(s: System) {
    && s.stored <= s.closed <= |s.accepted|
    && (s.committed ==> s.stored == s.closed)
    && SameState(s.core.latest, CommitAll(s.origin, s.accepted[..s.stored]))
    && SameState(Base(s), CommitAll(s.origin, s.accepted[..s.closed]))
  }

  ghost predicate WorkerOk(s: System) {
    s.worker.Executing? ==>
      && (forall k | k in s.worker.seen :: s.worker.seen[k] == Read(Ideal(s), k))
      && (!s.worker.pc.Ready? ==> s.worker.pc.key !in s.pending && s.worker.pc.key !in s.finished)
  }

  ghost predicate Inv(s: System) {
    ChainOk(s.core) && BlocksOk(s) && StateOk(s) && PrefixesOk(s) && WorkerOk(s)
  }

  /** A storage right after start-up, and nothing executed yet. */
  ghost predicate Init(s: System) {
    && L.Init(s.core) && s.core.pending.number == |s.core.headers|
    && s.origin == s.core.latest && s.accepted == [] && s.closed == s.stored == 0
    && s.pending == map[] && s.finished == map[] && s.finishedHeader == s.core.lockInfo && s.committed
    && s.worker == Waiting
  }

  /** If the worker finds an entry in the cache, it is the one of permanent storage. */
  ghost predicate Exact(s: System, step: Step)
    requires Enabled(s, step)
  {
    step == LookupCache && s.worker.pc.key in s.core.cache ==>
      L.Visible(s.core.cache[s.worker.pc.key]) == Read(s.core.latest, s.worker.pc.key)
  }

  ghost predicate ExactRun(s: System, steps: seq<Step>)
    requires ValidRun(s, steps)
    decreases |steps|
  {
    steps == [] || (Exact(s, steps[0]) && ExactRun(Apply(s, steps[0]), steps[1..]))
  }

  // ----- every step keeps the invariant -----

  lemma EmptyCommit(db: Database)
    ensures Commit(db, map[]) == db
  {
    assert Writes(db, map[]) == map[];
  }

  lemma InitIsInv(s: System)
    requires Init(s)
    ensures Inv(s)
  {
    EmptyCommit(s.core.latest);
  }

  /** Where the state left by all accepted transactions is found. */
  lemma LayersGiveTheIdeal(s: System, k: Key)
    requires StateOk(s)
    ensures Read(Ideal(s), k) ==
            if k in s.pending then Outcome(s.pending[k])
            else if k in s.finished then Outcome(s.finished[k])
            else Read(s.core.latest, k)
  {
    CommitStoresResults(Base(s), s.pending, k);
    assert Read(Ideal(s), k) == Read(Commit(Base(s), s.pending), k);
    if !s.committed {
      CommitStoresResults(s.core.latest, s.finished, k);
    }
  }

  lemma AppendAccepted(origin: Database, accepted: seq<Changes>, changes: Changes)
    requires RanInOrder(origin, accepted) && CompleteFor(CommitAll(origin, accepted), changes)
    ensures RanInOrder(origin, accepted + [changes])
    ensures CommitAll(origin, accepted + [changes]) == Commit(CommitAll(origin, accepted), changes)
  {
    assert (accepted + [changes])[..|accepted|] == accepted;
  }

  lemma SaveKeepsState(s: System, changes: Changes)
    requires StateOk(s) && WorkerOk(s) && Enabled(s, Save(changes)) && s.worker.header == s.core.pending
    ensures StateOk(Apply(s, Save(changes)))
  {
    var s' := Apply(s, Save(changes));
    var ideal, layered := Ideal(s), Commit(Base(s), s.pending);
    assert CompleteFor(ideal, changes);
    AppendAccepted(s.origin, s.accepted, changes);
    CompleteForSameState(ideal, layered, changes);
    MergeComposes(Base(s), s.pending, changes);
    assert Base(s') == Base(s) && s'.pending == Merge(s.pending, changes);
    assert Ideal(s') == Commit(ideal, changes);
    forall k ensures Read(Commit(Base(s'), s'.pending), k) == Read(Ideal(s'), k) {
      assert Read(Commit(Base(s), s'.pending), k) == Read(Commit(layered, changes), k);
    }
  }

  lemma SaveKeepsPrefixes(s: System, changes: Changes)
    requires PrefixesOk(s) && Enabled(s, Save(changes)) && s.worker.header == s.core.pending
    ensures PrefixesOk(Apply(s, Save(changes)))
  {
    var s' := Apply(s, Save(changes));
    assert s'.accepted[..s.stored] == s.accepted[..s.stored];
    assert s'.accepted[..s.closed] == s.accepted[..s.closed];
  }

  /** Most steps of the worker change nothing but the worker. */
  lemma WorkerKeepsInvIff(s: System, worker: Worker)
    requires Inv(s)
    ensures Inv(s.(worker := worker)) <==> WorkerOk(s.(worker := worker))
  {
    var s' := s.(worker := worker);
    assert Ideal(s') == Ideal(s) && Base(s') == Base(s);
  }

  lemma SaveKeepsInv(s: System, changes: Changes)
    requires Inv(s) && Enabled(s, Save(changes))
    ensures Inv(Apply(s, Save(changes)))
  {
    if s.worker.header == s.core.pending {
      SaveKeepsState(s, changes);
      SaveKeepsPrefixes(s, changes);
    } else {
      WorkerKeepsInvIff(s, Waiting);
    }
  }

  lemma FinishKeepsInv(s: System, timestamp: nat)
    requires Inv(s) && Enabled(s, Finish(timestamp))
    ensures Inv(Apply(s, Finish(timestamp)))
  {
    var s' := Apply(s, Finish(timestamp));
    EmptyCommit(Base(s'));
    assert Base(s') == Commit(Base(s), s.pending);
    assert s'.accepted[..s'.closed] == s.accepted;
  }

  lemma BatchKeepsChain(core: L.State)
    requires ChainOk(core) && L.Enabled(core, L.SavePermanent)
    ensures ChainOk(L.Apply(core, L.SavePermanent))
  {
    var changes := core.committer.changes;
    var core' := L.Apply(core, L.SavePermanent);
    forall k
      ensures Read(core'.latest, k) == L.AsOf(core'.writes, k, |core'.writes| - 1)
      ensures k in changes ==> Read(core'.latest, k) == Outcome(changes[k])
    {
      L.BatchReads(core.latest, core.writes, changes, k);
    }
  }

  /** The chain and the order of a commit do not depend on the cache or on the readers. */
  lemma StorageKeepsChain(core: L.State, step: L.Step)
    requires ChainOk(core) && L.Enabled(core, step) && !step.SavePermanent?
    ensures ChainOk(L.Apply(core, step))
  {
  }

  lemma SavePermanentKeepsInv(s: System)
    requires Inv(s) && Enabled(s, Storage(L.SavePermanent))
    ensures Inv(Apply(s, Storage(L.SavePermanent)))
  {
    var s' := Apply(s, Storage(L.SavePermanent));
    BatchKeepsChain(s.core);
    assert s'.core.latest == Base(s);
    forall k | k in s.finished ensures Read(s'.core.latest, k) == Outcome(s.finished[k]) {
      CommitStoresResults(s.core.latest, s.finished, k);
    }
  }

  lemma StorageKeepsInv(s: System, step: L.Step)
    requires Inv(s) && Enabled(s, Storage(step)) && !step.SavePermanent?
    ensures Inv(Apply(s, Storage(step)))
  {
    StorageKeepsChain(s.core, step);
    var s' := Apply(s, Storage(step));
    assert s'.core.latest == s.core.latest && s'.core.headers == s.core.headers;
    assert s'.core.pending == s.core.pending;
  }

  lemma AnswerKeepsInvIff(s: System, k: Key, v: Stored)
    requires Inv(s) && s.worker.Executing?
    ensures Inv(Answered(s, k, v)) <==> v == Read(Ideal(s), k)
  {
    var s' := Answered(s, k, v);
    WorkerKeepsInvIff(s, s'.worker);
    assert Ideal(s') == Ideal(s) && s'.worker.seen[k] == v;
  }

  lemma ReadTemporaryKeepsInv(s: System, k: Key)
    requires Inv(s) && Enabled(s, ReadTemporary(k))
    ensures Inv(Apply(s, ReadTemporary(k)))
  {
    LayersGiveTheIdeal(s, k);
    if k in s.pending {
      AnswerKeepsInvIff(s, k, Outcome(s.pending[k]));
    } else if k in s.finished {
      AnswerKeepsInvIff(s, k, Outcome(s.finished[k]));
    } else {
      WorkerKeepsInvIff(s, s.worker.(pc := Lookup(k)));
    }
  }

  lemma LookupKeepsInvIff(s: System)
    requires Inv(s) && Enabled(s, LookupCache)
    ensures Inv(Apply(s, LookupCache)) <==> Exact(s, LookupCache)
  {
    var k := s.worker.pc.key;
    LayersGiveTheIdeal(s, k);
    if k in s.core.cache {
      AnswerKeepsInvIff(s, k, L.Visible(s.core.cache[k]));
    } else {
      WorkerKeepsInvIff(s, s.worker.(pc := FromPermanent(k)));
    }
  }

  /**
   A transaction keeps reading the state left by all accepted transactions exactly as long as no
   cache entry it finds is stale; the pending and the last finished block never mislead it.
   */
  lemma StepKeepsInvIff(s: System, step: Step)
    requires Inv(s) && Enabled(s, step)
    ensures Inv(Apply(s, step)) <==> Exact(s, step)
  {
    match step
    case StartTransaction => WorkerKeepsInvIff(s, Apply(s, step).worker);
    case ReadTemporary(k) => ReadTemporaryKeepsInv(s, k);
    case LookupCache => LookupKeepsInvIff(s);
    case ReadPermanent =>
      var k := s.worker.pc.key;
      LayersGiveTheIdeal(s, k);
      AnswerKeepsInvIff(s, k, Read(s.core.latest, k));
    case Save(changes) => SaveKeepsInv(s, changes);
    case Abandon => WorkerKeepsInvIff(s, Waiting);
    case Finish(timestamp) => FinishKeepsInv(s, timestamp);
    case Storage(step) =>
      if step.SavePermanent? { SavePermanentKeepsInv(s); } else { StorageKeepsInv(s, step); }
  }

  // ----- whole runs -----

  ghost predicate InvThroughout(s: System, steps: seq<Step>)
    requires ValidRun(s, steps)
    decreases |steps|
  {
    Inv(s) && (steps == [] || InvThroughout(Apply(s, steps[0]), steps[1..]))
  }

  lemma {:induction false} InvThroughoutIffExact(s: System, steps: seq<Step>)
    requires Inv(s) && ValidRun(s, steps)
    ensures InvThroughout(s, steps) <==> ExactRun(s, steps)
    ensures ExactRun(s, steps) ==> Inv(Run(s, steps))
    decreases |steps|
  {
    if steps == [] {
    } else {
      StepKeepsInvIff(s, steps[0]);
      if Exact(s, steps[0]) {
        InvThroughoutIffExact(Apply(s, steps[0]), steps[1..]);
      }
    }
  }

  /** No cache entry is lost while a stale read of it waits to be cached. */
  ghost predicate CoveredRun(s: System, steps: seq<Step>)
    requires ValidRun(s, steps)
    decreases |steps|
  {
    steps == [] ||
    (var step := steps[0];
     (step.Storage? ==> L.Covered(s.core, step.step)) && CoveredRun(Apply(s, step), steps[1..]))
  }

  lemma StorageInvKept(s: System, step: Step)
    requires L.Inv(s.core) && Enabled(s, step) && (step.Storage? ==> L.Covered(s.core, step.step))
    ensures L.Inv(Apply(s, step).core)
  {
    match step
    case Storage(step) => L.StepPreservesInv(s.core, step);
    case Finish(timestamp) =>
      L.StepPreservesInv(s.core, L.MovePending(BlockInfo(s.core.pending.number + 1, timestamp)));
    case _ =>
  }

  /** A commit in progress is no excuse: what it has yet to cache is in the finished block. */
  lemma CoherentCacheIsExact(s: System, step: Step)
    requires Inv(s) && L.Inv(s.core) && Enabled(s, step)
    ensures Exact(s, step)
  {
    if step == LookupCache && s.worker.pc.key in s.core.cache {
      var k := s.worker.pc.key;
      assert k !in L.Due(s.core.committer);
      assert L.FreshOrDue(s.core, k, s.core.cache[k]);
    }
  }

  lemma {:induction false} CoveredRunIsExact(s: System, steps: seq<Step>)
    requires Inv(s) && L.Inv(s.core) && ValidRun(s, steps) && CoveredRun(s, steps)
    ensures ExactRun(s, steps)
    decreases |steps|
  {
    if steps == [] {
    } else {
      CoherentCacheIsExact(s, steps[0]);
      StepKeepsInvIff(s, steps[0]);
      StorageInvKept(s, steps[0]);
      CoveredRunIsExact(Apply(s, steps[0]), steps[1..]);
    }
  }

  lemma CoveredRunKeepsInv(s: System, steps: seq<Step>)
    requires Init(s) && ValidRun(s, steps) && CoveredRun(s, steps)
    ensures Inv(Run(s, steps))
  {
    InitIsInv(s);
    CoveredRunIsExact(s, steps);
    InvThroughoutIffExact(s, steps);
  }

  /**
   Whatever is finished, committed, cached and loaded meanwhile, a transaction reads the state left by
   all accepted transactions, from its first read to its last.
   */
  lemma TransactionsReadAllAccepted(s: System, steps: seq<Step>, k: Key)
    requires Init(s) && ValidRun(s, steps) && CoveredRun(s, steps)
    requires Run(s, steps).worker.Executing? && k in Run(s, steps).worker.seen
    ensures var end := Run(s, steps); end.worker.seen[k] == Read(CommitAll(end.origin, end.accepted), k)
  {
    CoveredRunKeepsInv(s, steps);
  }

  /** So execution is serial, and permanent storage always holds the effect of a prefix of it. */
  lemma ExecutionIsSerial(s: System, steps: seq<Step>)
    requires Init(s) && ValidRun(s, steps) && CoveredRun(s, steps)
    ensures var end := Run(s, steps);
      && RanInOrder(end.origin, end.accepted)
      && end.stored <= |end.accepted|
      && SameState(end.core.latest, CommitAll(end.origin, end.accepted[..end.stored]))
      && (end.committed && end.pending == map[] ==> SameState(end.core.latest, CommitAll(end.origin, end.accepted)))
  {
    CoveredRunKeepsInv(s, steps);
    EmptyCommit(Run(s, steps).core.latest);
  }

  /** And what is finished can be committed: its changes are complete for the stored state. */
  lemma FinishedBlockCanBeCommitted(s: System, steps: seq<Step>)
    requires Init(s) && ValidRun(s, steps) && CoveredRun(s, steps)
    ensures var end := Run(s, steps);
      Enabled(end, Storage(L.LockForCommit(end.finishedHeader, end.finished)))
      <==> !end.committed && end.core.committer.Idle? && L.NoGuards(end.core)
  {
    CoveredRunKeepsInv(s, steps);
  }

  // ----- how a transaction ends -----

  /** A save frees the worker; it is accepted exactly when the pending block is the one executed for. */
  lemma SaveIsAcceptedIff(s: System, changes: Changes)
    requires Inv(s) && Enabled(s, Save(changes))
    ensures var end := Apply(s, Save(changes));
      if s.worker.header == s.core.pending then
        end == s.(worker := Waiting, pending := Merge(s.pending, changes), accepted := s.accepted + [changes])
      else end == s.(worker := Waiting)
    ensures Enabled(Apply(s, Save(changes)), StartTransaction)
  {
  }

  /** A transaction that is given up frees it too, and leaves nothing behind. */
  lemma AbandonedLeavesNothing(s: System)
    requires s.worker.Executing? && s.worker.pc.Ready?
    ensures Enabled(s, Abandon) && Apply(s, Abandon) == s.(worker := Waiting)
  {
  }

  // ----- what a lost cache entry does to a transaction -----

  ghost predicate Misreads(s: System) {
    s.worker.Executing? && exists k :: k in s.worker.seen && s.worker.seen[k] != Read(Ideal(s), k)
  }

  ghost predicate CanMisread(s: System) {
    exists steps :: ValidRun(s, steps) && Misreads(Run(s, steps))
  }

  lemma MisreadAfter(s: System, step: Step)
    requires Enabled(s, step) && CanMisread(Apply(s, step))
    ensures CanMisread(s)
  {
    var rest :| ValidRun(Apply(s, step), rest) && Misreads(Run(Apply(s, step), rest));
    var steps := [step] + rest;
    assert steps[0] == step && steps[1..] == rest;
    assert ValidRun(s, steps) && Misreads(Run(s, steps));
  }

  lemma Advance(s: System, step: Step)
    requires Inv(s) && Enabled(s, step) && Exact(s, step)
    ensures Inv(Apply(s, step))
    ensures CanMisread(Apply(s, step)) ==> CanMisread(s)
  {
    StepKeepsInvIff(s, step);
    if CanMisread(Apply(s, step)) { MisreadAfter(s, step); }
  }

  /** A stale entry is read by the next transaction once no recent block holds its key. */
  lemma StaleEntryIsMisread(s: System, k: Key)
    requires s.worker.Waiting? && k !in s.pending && k !in s.finished
    requires k in s.core.cache && L.Visible(s.core.cache[k]) != Read(Ideal(s), k)
    ensures CanMisread(s)
  {
    var s1 := Apply(s, StartTransaction);
    var s2 := Apply(s1, ReadTemporary(k));
    var s3 := Apply(s2, LookupCache);
    assert k in s3.worker.seen && Misreads(s3);
    assert ValidRun(s3, []) && Run(s3, []) == s3;
    MisreadAfter(s2, LookupCache);
    MisreadAfter(s1, ReadTemporary(k));
    MisreadAfter(s, StartTransaction);
  }

  lemma AfterFinish(s: System, timestamp: nat) returns (end: System)
    requires Inv(s) && s.committed && s.core.committer.Idle?
    ensures end.core == s.core.(pending := BlockInfo(s.core.pending.number + 1, timestamp))
    ensures end.worker == s.worker && end.pending == map[]
    ensures end.finished == s.pending && end.finishedHeader == s.core.pending
    ensures Inv(end) && (CanMisread(end) ==> CanMisread(s))
  {
    Advance(s, Finish(timestamp));
    end := Apply(s, Finish(timestamp));
  }

  /** Finishing one more block is enough for that. */
  lemma StaleCacheIsMisread(s: System, k: Key)
    requires Inv(s) && s.committed && s.core.committer.Idle? && s.worker.Waiting? && k !in s.pending
    requires k in s.core.cache && L.Visible(s.core.cache[k]) != Read(s.core.latest, k)
    ensures CanMisread(s)
  {
    var next := AfterFinish(s, 0);
    LayersGiveTheIdeal(next, k);
    StaleEntryIsMisread(next, k);
  }

  predicate Commits(s: System, step: L.Step) {
    !step.MovePending? && (step.LockForCommit? ==> step.info == s.finishedHeader && step.changes == s.finished)
  }

  /** A run of the storage alone. */
  lemma {:induction false} StorageRun(s: System, steps: seq<L.Step>) returns (end: System)
    requires Inv(s) && L.ValidRun(s.core, steps)
    requires forall i | 0 <= i < |steps| :: Commits(s, steps[i])
    ensures Inv(end) && end.core == L.Run(s.core, steps)
    ensures end.origin == s.origin && end.accepted == s.accepted && end.worker == s.worker
    ensures end.pending == s.pending && end.finished == s.finished
    ensures L.SavePermanent in steps || s.committed ==> end.committed
    ensures CanMisread(end) ==> CanMisread(s)
    decreases |steps|
  {
    if steps == [] {
      end := s;
    } else {
      var step := Storage(steps[0]);
      assert Commits(s, steps[0]);
      Advance(s, step);
      var next := Apply(s, step);
      forall i | 0 <= i < |steps[1..]| ensures Commits(next, steps[1..][i]) {
        assert Commits(s, steps[i + 1]);
      }
      end := StorageRun(next, steps[1..]);
    }
  }

  lemma StorageRunIsMisread(s: System, steps: seq<L.Step>, k: Key)
    requires Inv(s) && s.worker.Waiting? && k !in s.pending
    requires L.ValidRun(s.core, steps) && L.SavePermanent in steps
    requires forall i | 0 <= i < |steps| :: Commits(s, steps[i])
    requires var core := L.Run(s.core, steps);
      core.committer.Idle? && k in core.cache && L.Visible(core.cache[k]) != Read(core.latest, k)
    ensures CanMisread(s)
  {
    var end := StorageRun(s, steps);
    StaleCacheIsMisread(end, k);
  }

  /** A transaction reads a key that no recent block and no cache entry holds. */
  lemma AfterRead(s: System, k: Key) returns (end: System)
    requires Inv(s) && s.worker.Waiting? && k !in s.pending && k !in s.finished && k !in s.core.cache
    ensures end == s.(worker := Executing(s.core.pending, map[k := Read(s.core.latest, k)], Ready))
    ensures Inv(end) && (CanMisread(end) ==> CanMisread(s))
  {
    var s1 := Apply(s, StartTransaction);
    var s2 := Apply(s1, ReadTemporary(k));
    var s3 := Apply(s2, LookupCache);
    end := Apply(s3, ReadPermanent);
    Advance(s, StartTransaction);
    Advance(s1, ReadTemporary(k));
    Advance(s2, LookupCache);
    Advance(s3, ReadPermanent);
  }

  /** It is saved as the first one of its block. */
  lemma AfterSave(s: System, changes: Changes) returns (end: System)
    requires Inv(s) && Enabled(s, Save(changes)) && s.worker.header == s.core.pending && s.pending == map[]
    ensures end == s.(worker := Waiting, pending := changes, accepted := s.accepted + [changes])
    ensures Inv(end) && (CanMisread(end) ==> CanMisread(s))
  {
    assert Merge(map[], changes) == changes;
    Advance(s, Save(changes));
    end := Apply(s, Save(changes));
  }

  /** A fresh storage, about to mine block 1. */
  const FRESH: System :=
    System(L.GENESIS.(pending := BlockInfo(1, 5)), map[], [], 0, 0, map[], map[], BlockInfo(0, 0), true, Waiting)

  const SET_SLOT: Changes := map[L.SLOT := SlotEntry(Changed(7))]

  function LateInsertion(loss: L.Step): seq<L.Step> {
    L.SlotRead() + L.SlotWrite() + L.SlotPublish() + [loss, L.ReserveFill(0, L.SLOT), L.InsertFill(0, L.SLOT)]
  }

  lemma LateInsertionCommits(s: System, loss: L.Step)
    requires loss == L.Evict(L.SLOT) || loss == L.Clear
    requires s.finished == SET_SLOT && s.finishedHeader == BlockInfo(1, 5)
    ensures L.SavePermanent in LateInsertion(loss)
    ensures forall i | 0 <= i < |LateInsertion(loss)| :: Commits(s, LateInsertion(loss)[i])
  {
    assert LateInsertion(loss)[5] == L.SavePermanent;
  }

  /**
   The side condition is needed by transactions too: once the next block is finished, the block that
   changed the slot is no longer looked at, and a value cached too late is read.
   */
  lemma LossInFlightIsMisread(loss: L.Step)
    requires loss == L.Evict(L.SLOT) || loss == L.Clear
    ensures Init(FRESH) && CanMisread(FRESH)
  {
    L.GenesisIsInit();
    InitIsInv(FRESH);
    var executed := AfterRead(FRESH, L.SLOT);
    var saved := AfterSave(executed, SET_SLOT);
    var mined := AfterFinish(saved, 0);
    assert mined.core == L.GENESIS;
    LateInsertionCommits(mined, loss);
    L.LossInFlightBreaksCoherence(loss);
    StorageRunIsMisread(mined, LateInsertion(loss), L.SLOT);
  }
}
