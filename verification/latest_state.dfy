/**
 Concurrent access to the latest state: any number of reading threads and access-list loaders
 run against one committer.

 Every access to shared memory is a step of its own: taking the state lock, looking up the
 cache, reading permanent storage, reserving and filling a missing cache entry, and, for the
 committer, the database batch, the lock value, each cache insertion and the mined number.
 */
module LatestState {
  import opened Common
  import opened StateChanges

  type ThreadId = nat

  /** What the cache and the read functions carry; accounts have their address again. */
  datatype Value =
    | AccountValue(address: Address, nonce: nat, balance: nat, bytecode: Option<Code>)
    | SlotValue(word: nat)

  /** What an execution sees of a value: the account's address is not part of it. */
  function Visible(v: Value): Stored {
    match v
    case AccountValue(_, n, b, c) => StoredAccount(n, b, c)
    case SlotValue(w) => StoredSlot(w)
  }

  function WithAddress(address: Address, stored: Stored): (v: Value)
    ensures Visible(v) == stored
  {
    match stored
    case StoredAccount(n, b, c) => AccountValue(address, n, b, c)
    case StoredSlot(w) => SlotValue(w)
  }

  /** A read of permanent storage answers an absent account with its own address. */
  function ReaderValue(db: Database, k: Key): Value {
    WithAddress(k.address, Read(db, k))
  }

  /** The access-list loader answers it with the default account, whose address is zero. */
  function LoaderValue(db: Database, k: Key): Value {
    WithAddress(if k in db then k.address else ZERO_ADDRESS, Read(db, k))
  }

  /** The value the committer puts in the cache for a key its block touched. */
  function CachedValue(k: Key, e: Entry): Value {
    WithAddress(k.address, Outcome(e))
  }

  // -------------------------------------------------------------------------
  // State
  // -------------------------------------------------------------------------

  /** Where the resolved target state of a read points. */
  datatype Target = Pinned(block: nat) | Latest | Pending | Past(block: nat) | Loader

  datatype Pc =
    | Ready
    | Lookup(key: Key)          // about to look in the cache
    | FromPermanent(key: Key)   // the cache missed, about to read permanent storage
    | FromHistory(key: Key)     // about to read the history at the target's block
    | HeaderFromPermanent       // about to read the stored header of the target's block

  datatype Answer =
    | Found(key: Key, value: Value, chainLength: nat)
    | Header(info: BlockInfo)

  /**
   `fills` are the values read from permanent storage that are waiting to be cached, `toLoad`
   the keys an access-list loader still has to read.
   */
  datatype Thread = Thread(target: Target, pc: Pc, fills: map<Key, Value>, toLoad: set<Key>, answers: seq<Answer>)

  datatype Committer =
    | Idle
    | Locked(info: BlockInfo, changes: Changes)
    | Saved(info: BlockInfo, changes: Changes)
    | Caching(info: BlockInfo, changes: Changes, due: set<Key>)
    | MinedSet(info: BlockInfo)

  datatype State = State(
    latest: Database,           // the column families holding the latest values
    writes: seq<Database>,      // the history column families: what each block wrote
    headers: seq<BlockInfo>,    // stored blocks by number
    lockInfo: BlockInfo,        // value inside the latest-state lock
    mined: nat,                 // the mined block number
    pending: BlockInfo,         // header of the pending block
    cache: map<Key, Value>,
    reserved: map<Key, ThreadId>,  // missing entries somebody is about to insert
    committer: Committer,
    threads: map<ThreadId, Thread>)

  /** History read: the last value written at or before block `at`. */
  function AsOf(writes: seq<Database>, k: Key, at: nat): Stored
    decreases at
  {
    if at < |writes| && k in writes[at] then writes[at][k]
    else if at == 0 then Default(k)
    else AsOf(writes, k, at - 1)
  }

  function Tip(s: State): nat
    requires |s.writes| > 0
  {
    |s.writes| - 1
  }

  /** The keys the committer wrote to permanent storage and has yet to put in the cache. */
  function Due(c: Committer): set<Key> {
    match c
    case Saved(_, changes) => changes.Keys
    case Caching(_, _, due) => due
    case _ => {}
  }

  /** `v` is the latest value of `k`, or the one before the block being committed. */
  ghost predicate FreshOrDue(s: State, k: Key, v: Value) {
    || Visible(v) == Read(s.latest, k)
    || (k in Due(s.committer) && |s.writes| > 1 && Visible(v) == AsOf(s.writes, k, |s.writes| - 2))
  }

  /** A value that waits to be cached was overtaken by a block the committer is done with for `k`. */
  ghost predicate StaleFill(s: State, t: ThreadId, k: Key) {
    t in s.threads && k in s.threads[t].fills && !FreshOrDue(s, k, s.threads[t].fills[k])
  }

  /** A read guard is held from resolving a pinned target until permanent storage was read. */
  predicate HoldsGuard(th: Thread) {
    th.target.Pinned? && (th.pc.Lookup? || th.pc.FromPermanent?)
  }

  predicate NoGuards(s: State) {
    forall t | t in s.threads :: !HoldsGuard(s.threads[t])
  }

  // -------------------------------------------------------------------------
  // Steps
  // -------------------------------------------------------------------------

  /** What a thread does on its own, changing nothing that is shared. */
  datatype Action =
    | ReadHeader
    | ReadStoredHeader
    | BeginRead(key: Key)
    | LookupCache
    | ReadPermanent
    | ReadHistory
    | LoadOne(key: Key)
    | SkipFill(key: Key)          // the entry is not missing, or somebody else is inserting it

  datatype Step =
    | Start(t: ThreadId, kind: Kind)
    | Act(t: ThreadId, action: Action)
    | ReserveFill(t: ThreadId, key: Key)
    | InsertFill(t: ThreadId, key: Key)
    | LockForCommit(info: BlockInfo, changes: Changes)
    | SavePermanent
    | FailPermanent
    | SetLockInfo
    | CacheOne(key: Key)
    | SetMined
    | Unlock
    | MovePending(info: BlockInfo)
    | Evict(key: Key)
    | Clear

  /** Calls pin the mined number when they start; pending reads have missed temporary storage. */
  datatype Kind = Call | LatestReader | PendingReader | PastReader(block: nat) | AccessListLoader(keys: set<Key>)

  function NewThread(s: State, kind: Kind): Thread {
    match kind
    case Call => Thread(Pinned(s.mined), Ready, map[], {}, [])
    case LatestReader => Thread(Latest, Ready, map[], {}, [])
    case PendingReader => Thread(Pending, Ready, map[], {}, [])
    case PastReader(b) => Thread(Past(b), Ready, map[], {}, [])
    case AccessListLoader(keys) => Thread(Loader, Ready, map[], keys, [])
  }

  /** Pinned reads and header reads take the state lock, which a running commit holds. */
  ghost predicate CanAct(s: State, th: Thread, action: Action) {
    match action
    case ReadHeader => th.pc.Ready? && th.fills == map[] && th.target.Pinned? && s.committer.Idle?
    case ReadStoredHeader => th.pc.HeaderFromPermanent? && th.target.Pinned?
    case BeginRead(_) =>
      th.pc.Ready? && th.fills == map[] && !th.target.Loader? && (th.target.Pinned? ==> s.committer.Idle?)
    case LookupCache => th.pc.Lookup?
    case ReadPermanent => th.pc.FromPermanent?
    case ReadHistory => th.pc.FromHistory? && (th.target.Pinned? || th.target.Past?)
    case LoadOne(k) => th.target.Loader? && k in th.toLoad
    case SkipFill(k) => k in th.fills && (k in s.cache || k in s.reserved)
  }

  ghost predicate Enabled(s: State, step: Step) {
    match step
    case Start(t, _) => t !in s.threads
    case Act(t, action) => t in s.threads && CanAct(s, s.threads[t], action)
    case ReserveFill(t, k) =>
      t in s.threads && k in s.threads[t].fills && k !in s.cache && k !in s.reserved
    case InsertFill(t, k) =>
      t in s.threads && k in s.threads[t].fills && k in s.reserved && s.reserved[k] == t
    case LockForCommit(info, changes) =>
      && s.committer.Idle?
      && NoGuards(s)
      && info.number == s.mined + 1
      && info.number < s.pending.number
      && info.number >= |s.headers|
      && CompleteFor(s.latest, changes)
    case SavePermanent => s.committer.Locked?
    case FailPermanent => s.committer.Locked?
    case SetLockInfo => s.committer.Saved?
    case CacheOne(k) => s.committer.Caching? && k in s.committer.due && k in s.committer.changes
    case SetMined => s.committer.Caching? && s.committer.due == {}
    case Unlock => s.committer.MinedSet?
    case MovePending(_) => true
    case Evict(k) => k in s.cache
    case Clear => true
  }

  /** The answer is returned. */
  function Answered(th: Thread, a: Answer): Thread {
    th.(pc := Ready, answers := th.answers + [a])
  }

  /** `resolve_mined_point`: a pinned read uses the latest state only while its block is the tip. */
  function Resolved(s: State, target: Target, k: Key): Pc {
    match target
    case Pinned(b) => if b >= s.lockInfo.number then Lookup(k) else FromHistory(k)
    case Past(_) => FromHistory(k)
    case _ => Lookup(k)
  }

  /** `read_block_info` with the number of the pinned block. */
  function HeaderRead(s: State, th: Thread): Thread
    requires th.target.Pinned?
  {
    if th.target.block == s.lockInfo.number + 1 then Answered(th, Header(s.pending))
    else if th.target.block == s.lockInfo.number then Answered(th, Header(s.lockInfo))
    else th.(pc := HeaderFromPermanent)
  }

  /** Values read from the latest column families wait to be cached, except for pending reads. */
  function PermanentRead(s: State, th: Thread): Thread
    requires th.pc.FromPermanent?
  {
    var k := th.pc.key;
    var v := ReaderValue(s.latest, k);
    Answered(th, Found(k, v, |s.writes|)).(fills := if th.target.Pending? then map[] else map[k := v])
  }

  ghost function AfterAction(s: State, th: Thread, action: Action): Thread
    requires CanAct(s, th, action)
  {
    match action
    case ReadHeader => HeaderRead(s, th)
    case ReadStoredHeader =>
      if th.target.block < |s.headers| then Answered(th, Header(s.headers[th.target.block])) else th.(pc := Ready)
    case BeginRead(k) => th.(pc := Resolved(s, th.target, k))
    case LookupCache =>
      if th.pc.key in s.cache then Answered(th, Found(th.pc.key, s.cache[th.pc.key], |s.writes|))
      else th.(pc := FromPermanent(th.pc.key))
    case ReadPermanent => PermanentRead(s, th)
    case ReadHistory =>
      var k := th.pc.key;
      Answered(th, Found(k, WithAddress(k.address, AsOf(s.writes, k, th.target.block)), |s.writes|))
    case LoadOne(k) => th.(toLoad := th.toLoad - {k}, fills := th.fills[k := LoaderValue(s.latest, k)])
    case SkipFill(k) => th.(fills := th.fills - {k})
  }

  function SetThread(s: State, t: ThreadId, th: Thread): State {
    s.(threads := s.threads[t := th])
  }

  ghost function Apply(s: State, step: Step): State
    requires Enabled(s, step)
  {
    match step
    case Start(t, kind) => SetThread(s, t, NewThread(s, kind))
    case Act(t, action) => SetThread(s, t, AfterAction(s, s.threads[t], action))
    case ReserveFill(t, k) => s.(reserved := s.reserved[k := t])
    case InsertFill(t, k) =>
      var th := s.threads[t];
      SetThread(s, t, th.(fills := th.fills - {k}))
        .(cache := s.cache[k := th.fills[k]], reserved := s.reserved - {k})
    case LockForCommit(info, changes) => s.(committer := Locked(info, changes))
    case SavePermanent =>
      var changes := s.committer.changes;
      s.(latest := Commit(s.latest, changes),
         writes := s.writes + [Writes(s.latest, changes)],
         headers := s.headers + [s.committer.info],
         committer := Saved(s.committer.info, changes))
    case FailPermanent => s.(committer := Idle)
    case SetLockInfo =>
      s.(lockInfo := s.committer.info,
         committer := Caching(s.committer.info, s.committer.changes, s.committer.changes.Keys))
    case CacheOne(k) =>
      s.(cache := s.cache[k := CachedValue(k, s.committer.changes[k])],
         reserved := s.reserved - {k},
         committer := s.committer.(due := s.committer.due - {k}))
    case SetMined => s.(mined := s.committer.info.number, committer := MinedSet(s.committer.info))
    case Unlock => s.(committer := Idle)
    case MovePending(info) => s.(pending := info)
    case Evict(k) => s.(cache := s.cache - {k})
    case Clear => s.(cache := map[], reserved := map[])
  }

  /** What the cache is not proof against: losing an entry while a stale read of it waits to be cached. */
  ghost predicate Covered(s: State, step: Step) {
    match step
    case Evict(k) => forall t :: !StaleFill(s, t, k)
    case Clear => forall t, k :: !StaleFill(s, t, k)
    case _ => true
  }

  ghost predicate ValidRun(s: State, steps: seq<Step>)
    decreases |steps|
  {
    steps == [] || (Enabled(s, steps[0]) && ValidRun(Apply(s, steps[0]), steps[1..]))
  }

  ghost function Run(s: State, steps: seq<Step>): State
    requires ValidRun(s, steps)
    decreases |steps|
  {
    if steps == [] then s else Run(Apply(s, steps[0]), steps[1..])
  }

  /** No entry is lost while a stale read of it waits to be cached, at any point of the run. */
  ghost predicate CoveredRun(s: State, steps: seq<Step>)
    requires ValidRun(s, steps)
    decreases |steps|
  {
    steps == [] || (Covered(s, steps[0]) && CoveredRun(Apply(s, steps[0]), steps[1..]))
  }

  // -------------------------------------------------------------------------
  // Invariant
  // -------------------------------------------------------------------------

  ghost predicate Synced(latest: Database, writes: seq<Database>)
    requires |writes| > 0
  {
    forall k :: Read(latest, k) == AsOf(writes, k, |writes| - 1)
  }

  ghost predicate ChainOk(s: State) {
    && |s.writes| == |s.headers| > 0
    && (forall n | 0 <= n < |s.headers| :: s.headers[n].number == n)
    && Synced(s.latest, s.writes)
  }

  ghost predicate OutcomesStored(latest: Database, changes: Changes) {
    forall k | k in changes :: Read(latest, k) == Outcome(changes[k])
  }

  /** The order of `commit_changes`: database, lock value, cache entries, mined number. */
  ghost predicate CommitterOk(s: State)
    requires ChainOk(s)
  {
    match s.committer
    case Idle => s.mined == Tip(s) && s.lockInfo == s.headers[Tip(s)]
    case Locked(info, changes) =>
      && s.mined == Tip(s) && s.lockInfo == s.headers[Tip(s)]
      && info.number == |s.headers|
      && CompleteFor(s.latest, changes)
    case Saved(info, changes) =>
      && s.mined == Tip(s) - 1 && s.lockInfo == s.headers[Tip(s) - 1] && info == s.headers[Tip(s)]
      && OutcomesStored(s.latest, changes)
    case Caching(info, changes, due) =>
      && s.mined == Tip(s) - 1 && s.lockInfo == info == s.headers[Tip(s)]
      && OutcomesStored(s.latest, changes) && due <= changes.Keys
    case MinedSet(info) => s.mined == Tip(s) && s.lockInfo == info == s.headers[Tip(s)]
  }

  ghost predicate CacheOk(s: State) {
    && (forall k | k in s.cache :: FreshOrDue(s, k, s.cache[k]))
    && s.reserved.Keys !! s.cache.Keys
  }

  /** `v` is the value of `k` at the tip of a chain of length `n`, or at the block before it. */
  ghost predicate AtMostOneBlockOld(s: State, k: Key, v: Value, n: nat) {
    && 1 <= n <= |s.writes|
    && (Visible(v) == AsOf(s.writes, k, n - 1) || (n > 1 && Visible(v) == AsOf(s.writes, k, n - 2)))
  }

  ghost predicate AnswerOk(s: State, target: Target, a: Answer)
    requires |s.writes| > 0
  {
    match (target, a)
    case (Pinned(b), Found(k, v, _)) => Visible(v) == AsOf(s.writes, k, b)
    case (Pinned(b), Header(info)) => b < |s.headers| && info == s.headers[b]
    case (Latest, Found(k, v, n)) => AtMostOneBlockOld(s, k, v, n)
    case (Pending, Found(k, v, n)) => AtMostOneBlockOld(s, k, v, n)
    case (Past(b), Found(k, v, n)) => n <= |s.writes| && (b < n ==> Visible(v) == AsOf(s.writes, k, b))
    case (_, _) => false
  }

  ghost predicate ThreadOk(s: State, th: Thread)
    requires |s.writes| > 0
  {
    && (th.target.Pinned? ==> th.target.block <= s.mined)
    && (HoldsGuard(th) ==> s.committer.Idle? && th.target.block == Tip(s))
    && (th.target.Loader? ==> th.pc.Ready?)
    && (th.target.Past? ==> th.pc.Ready? || th.pc.FromHistory?)
    && (forall k | k in th.fills :: k in s.cache || FreshOrDue(s, k, th.fills[k]))
    && (forall i | 0 <= i < |th.answers| :: AnswerOk(s, th.target, th.answers[i]))
  }

  ghost predicate ThreadsOk(s: State)
    requires |s.writes| > 0
  {
    forall t | t in s.threads :: ThreadOk(s, s.threads[t])
  }

  ghost predicate Inv(s: State) {
    ChainOk(s) && CommitterOk(s) && CacheOk(s) && ThreadsOk(s)
  }

  /** A storage right after start-up, with at least the genesis block. */
  ghost predicate Init(s: State) {
    && ChainOk(s)
    && s.committer == Idle && s.mined == Tip(s) && s.lockInfo == s.headers[Tip(s)]
    && s.cache == map[] && s.reserved == map[] && s.threads == map[]
  }

  // -------------------------------------------------------------------------
  // Every step keeps the invariant
  // -------------------------------------------------------------------------

  lemma {:induction false} AsOfAppend(writes: seq<Database>, w: Database, k: Key, at: nat)
    requires at < |writes|
    ensures AsOf(writes + [w], k, at) == AsOf(writes, k, at)
    decreases at
  {
    if k in writes[at] || at == 0 {
    } else {
      AsOfAppend(writes, w, k, at - 1);
    }
  }

  lemma ThreadStep(s: State, t: ThreadId, th: Thread)
    requires Inv(s) && ThreadOk(s, th)
    ensures Inv(SetThread(s, t, th))
  {
    var s' := SetThread(s, t, th);
    forall u | u in s'.threads ensures ThreadOk(s', s'.threads[u]) {
      assert ThreadOk(s, s'.threads[u]);
    }
  }

  lemma AnsweredOk(s: State, th: Thread, a: Answer)
    requires Inv(s) && ThreadOk(s, th) && AnswerOk(s, th.target, a)
    ensures ThreadOk(s, Answered(th, a))
  {
  }

  lemma ActionOk(s: State, th: Thread, action: Action)
    requires Inv(s) && ThreadOk(s, th) && CanAct(s, th, action)
    ensures ThreadOk(s, AfterAction(s, th, action))
  {
    match action
    case ReadHeader =>
      if th.target.block == s.lockInfo.number { AnsweredOk(s, th, Header(s.lockInfo)); }
    case ReadStoredHeader => AnsweredOk(s, th, Header(s.headers[th.target.block]));
    case LookupCache =>
      if th.pc.key in s.cache { AnsweredOk(s, th, Found(th.pc.key, s.cache[th.pc.key], |s.writes|)); }
    case ReadPermanent => AnsweredOk(s, th, Found(th.pc.key, ReaderValue(s.latest, th.pc.key), |s.writes|));
    case ReadHistory =>
      var k := th.pc.key;
      AnsweredOk(s, th, Found(k, WithAddress(k.address, AsOf(s.writes, k, th.target.block)), |s.writes|));
    case _ =>
  }

  lemma ReserveFillOk(s: State, t: ThreadId, k: Key)
    requires Inv(s) && k !in s.cache
    ensures Inv(s.(reserved := s.reserved[k := t]))
  {
    var s' := s.(reserved := s.reserved[k := t]);
    SameThreads(s, s');
    assert s'.reserved.Keys == s.reserved.Keys + {k};
  }

  /** Threads are unaffected when what they depend on stays or moves forward. */
  lemma SameThreads(s: State, s': State)
    requires Inv(s)
    requires s'.latest == s.latest && s'.writes == s.writes && s'.headers == s.headers && s'.threads == s.threads
    requires s.mined <= s'.mined
    requires s.committer.Idle? ==> s'.committer.Idle? || NoGuards(s)
    requires s.cache.Keys <= s'.cache.Keys
    requires forall k | k in Due(s.committer) :: k in Due(s'.committer) || k in s'.cache
    ensures ThreadsOk(s')
  {
    forall t | t in s'.threads ensures ThreadOk(s', s'.threads[t]) {
      assert ThreadOk(s, s.threads[t]);
    }
  }

  lemma FillMissingOk(s: State, k: Key, v: Value)
    requires Inv(s) && k !in s.cache && FreshOrDue(s, k, v)
    ensures Inv(s.(cache := s.cache[k := v], reserved := s.reserved - {k}))
  {
    SameThreads(s, s.(cache := s.cache[k := v], reserved := s.reserved - {k}));
  }

  lemma InsertFillOk(s: State, t: ThreadId, k: Key)
    requires Inv(s) && Enabled(s, InsertFill(t, k))
    ensures Inv(Apply(s, InsertFill(t, k)))
  {
    var th := s.threads[t];
    assert ThreadOk(s, th) && k !in s.cache;
    FillMissingOk(s, k, th.fills[k]);
    var filled := s.(cache := s.cache[k := th.fills[k]], reserved := s.reserved - {k});
    assert ThreadOk(filled, th);
    ThreadStep(filled, t, th.(fills := th.fills - {k}));
  }

  /** The database batch: what was the latest value is now the one before the block. */
  lemma BatchReads(latest: Database, writes: seq<Database>, changes: Changes, k: Key)
    requires |writes| > 0 && Synced(latest, writes) && CompleteFor(latest, changes)
    ensures var written := writes + [Writes(latest, changes)];
      && Read(Commit(latest, changes), k) == AsOf(written, k, |writes|)
      && Read(latest, k) == AsOf(written, k, |writes| - 1)
    ensures Read(Commit(latest, changes), k) == if k in changes then Outcome(changes[k]) else Read(latest, k)
  {
    CommitStoresResults(latest, changes, k);
    AsOfAppend(writes, Writes(latest, changes), k, |writes| - 1);
  }

  lemma SavePermanentOk(s: State)
    requires Inv(s) && s.committer.Locked?
    ensures Inv(Apply(s, SavePermanent))
  {
    var s' := Apply(s, SavePermanent);
    var changes := s.committer.changes;
    forall k
      ensures Read(s'.latest, k) == AsOf(s'.writes, k, Tip(s'))
      ensures Read(s.latest, k) == AsOf(s'.writes, k, Tip(s))
      ensures Read(s'.latest, k) == if k in changes then Outcome(changes[k]) else Read(s.latest, k)
    {
      BatchReads(s.latest, s.writes, changes, k);
    }
    forall t | t in s'.threads ensures ThreadOk(s', s'.threads[t]) {
      var th := s.threads[t];
      assert ThreadOk(s, th);
      forall i | 0 <= i < |th.answers| ensures AnswerOk(s', th.target, th.answers[i]) {
        AnswerSurvives(s, s', th.target, th.answers[i]);
      }
    }
  }

  lemma AgeSurvives(s: State, s': State, w: Database, k: Key, v: Value, n: nat)
    requires s'.writes == s.writes + [w] && AtMostOneBlockOld(s, k, v, n)
    ensures AtMostOneBlockOld(s', k, v, n)
  {
    AsOfAppend(s.writes, w, k, n - 1);
    if n > 1 { AsOfAppend(s.writes, w, k, n - 2); }
  }

  lemma AnswerSurvives(s: State, s': State, target: Target, a: Answer)
    requires Inv(s) && |s'.writes| == |s.writes| + 1 && |s'.headers| == |s.headers| + 1
    requires s'.writes[..|s.writes|] == s.writes && s'.headers[..|s.headers|] == s.headers
    requires target.Pinned? ==> target.block < |s.writes|
    requires AnswerOk(s, target, a)
    ensures AnswerOk(s', target, a)
  {
    var w := s'.writes[|s.writes|];
    assert s'.writes == s.writes + [w];
    match (target, a) {
      case (Pinned(b), Found(k, v, _)) => AsOfAppend(s.writes, w, k, b);
      case (Past(b), Found(k, v, n)) => if b < n { AsOfAppend(s.writes, w, k, b); }
      case (Latest, Found(k, v, n)) => AgeSurvives(s, s', w, k, v, n);
      case (Pending, Found(k, v, n)) => AgeSurvives(s, s', w, k, v, n);
      case (_, _) =>
    }
  }

  lemma CacheOneOk(s: State, k: Key)
    requires Inv(s) && Enabled(s, CacheOne(k))
    ensures Inv(Apply(s, CacheOne(k)))
  {
    var s' := Apply(s, CacheOne(k));
    SameThreads(s, s');
  }

  lemma LockForCommitOk(s: State, info: BlockInfo, changes: Changes)
    requires Inv(s) && Enabled(s, LockForCommit(info, changes))
    ensures Inv(Apply(s, LockForCommit(info, changes)))
  {
    SameThreads(s, Apply(s, LockForCommit(info, changes)));
  }

  lemma AdvanceOk(s: State, step: Step)
    requires Inv(s) && Enabled(s, step) && (step == SetLockInfo || step == SetMined)
    ensures Inv(Apply(s, step))
  {
    SameThreads(s, Apply(s, step));
  }

  lemma ReleaseOk(s: State, step: Step)
    requires Inv(s) && Enabled(s, step) && (step == FailPermanent || step == Unlock || step.MovePending?)
    ensures Inv(Apply(s, step))
  {
    SameThreads(s, Apply(s, step));
  }

  lemma LossOk(s: State, step: Step)
    requires Inv(s) && Enabled(s, step) && Covered(s, step)
    requires step.Evict? || step.Clear?
    ensures Inv(Apply(s, step))
  {
    var s' := Apply(s, step);
    forall t | t in s'.threads ensures ThreadOk(s', s'.threads[t]) {
      assert ThreadOk(s, s.threads[t]);
      forall k | k in s.threads[t].fills ensures k in s'.cache || FreshOrDue(s', k, s.threads[t].fills[k]) {
        assert step.Clear? || step.key == k ==> !StaleFill(s, t, k);
      }
    }
  }

  lemma StepPreservesInv(s: State, step: Step)
    requires Inv(s) && Enabled(s, step) && Covered(s, step)
    ensures Inv(Apply(s, step))
  {
    match step
    case Start(t, kind) => ThreadStep(s, t, NewThread(s, kind));
    case Act(t, action) =>
      ActionOk(s, s.threads[t], action);
      ThreadStep(s, t, AfterAction(s, s.threads[t], action));
    case ReserveFill(t, k) => ReserveFillOk(s, t, k);
    case InsertFill(t, k) => InsertFillOk(s, t, k);
    case SavePermanent => SavePermanentOk(s);
    case CacheOne(k) => CacheOneOk(s, k);
    case Evict(_) => LossOk(s, step);
    case Clear => LossOk(s, step);
    case LockForCommit(info, changes) => LockForCommitOk(s, info, changes);
    case SetLockInfo => AdvanceOk(s, step);
    case SetMined => AdvanceOk(s, step);
    case _ => ReleaseOk(s, step);
  }

  // -------------------------------------------------------------------------
  // Whole runs
  // -------------------------------------------------------------------------

  lemma {:induction false} RunPreservesInv(s: State, steps: seq<Step>)
    requires Inv(s) && ValidRun(s, steps) && CoveredRun(s, steps)
    ensures Inv(Run(s, steps))
    decreases |steps|
  {
    if steps == [] {
    } else {
      StepPreservesInv(s, steps[0]);
      RunPreservesInv(Apply(s, steps[0]), steps[1..]);
    }
  }

  /** The latest cache agrees with permanent storage on every key the committer is done with. */
  lemma CacheIsCoherent(s: State, steps: seq<Step>, k: Key)
    requires Init(s) && ValidRun(s, steps) && CoveredRun(s, steps)
    requires k in Run(s, steps).cache && k !in Due(Run(s, steps).committer)
    ensures Visible(Run(s, steps).cache[k]) == Read(Run(s, steps).latest, k)
  {
    RunPreservesInv(s, steps);
  }

  /** Reads without the state lock may see the state before a block being committed, never older. */
  lemma UnguardedReadsLagAtMostOneBlock(s: State, steps: seq<Step>, t: ThreadId, i: nat)
    requires Init(s) && ValidRun(s, steps) && CoveredRun(s, steps)
    requires t in Run(s, steps).threads && i < |Run(s, steps).threads[t].answers|
    requires Run(s, steps).threads[t].target == Latest || Run(s, steps).threads[t].target == Pending
    ensures var a := Run(s, steps).threads[t].answers[i];
      a.Found? && AtMostOneBlockOld(Run(s, steps), a.key, a.value, a.chainLength)
  {
    RunPreservesInv(s, steps);
    assert ThreadOk(Run(s, steps), Run(s, steps).threads[t]);
  }

  /** History only grows, and a thread keeps the target it started with. */
  ghost predicate Extends(s: State, s': State) {
    && |s.writes| <= |s'.writes| && s'.writes[..|s.writes|] == s.writes
    && |s.headers| <= |s'.headers| && s'.headers[..|s.headers|] == s.headers
    && (forall t | t in s.threads :: t in s'.threads && s'.threads[t].target == s.threads[t].target)
  }

  lemma StepExtends(s: State, step: Step)
    requires Enabled(s, step)
    ensures Extends(s, Apply(s, step))
  {
    if step.SavePermanent? {
      assert Apply(s, step).writes == s.writes + [Writes(s.latest, s.committer.changes)];
    }
  }

  lemma ExtendsTransitive(a: State, b: State, c: State)
    requires Extends(a, b) && Extends(b, c)
    ensures Extends(a, c)
  {
    assert c.writes[..|a.writes|] == c.writes[..|b.writes|][..|a.writes|];
    assert c.headers[..|a.headers|] == c.headers[..|b.headers|][..|a.headers|];
  }

  lemma {:induction false} RunExtends(s: State, steps: seq<Step>)
    requires ValidRun(s, steps)
    ensures Extends(s, Run(s, steps))
    decreases |steps|
  {
    if steps == [] {
    } else {
      var next := Apply(s, steps[0]);
      StepExtends(s, steps[0]);
      RunExtends(next, steps[1..]);
      ExtendsTransitive(s, next, Run(next, steps[1..]));
    }
  }

  lemma {:induction false} AsOfPrefix(writes: seq<Database>, longer: seq<Database>, k: Key, at: nat)
    requires at < |writes| <= |longer| && longer[..|writes|] == writes
    ensures AsOf(longer, k, at) == AsOf(writes, k, at)
    decreases at
  {
    assert longer[at] == longer[..|writes|][at];
    if k in writes[at] || at == 0 {
    } else {
      AsOfPrefix(writes, longer, k, at - 1);
    }
  }

  /**
   Snapshot isolation. A call pins the mined number in state `s`, which any run may have led to.
   Whatever is committed, cached or evicted afterwards, every account and slot it reads has the
   value of the pinned block in `s`, and the header it reads is that block's header.
   */
  lemma PinnedCallsReadOneSnapshot(start: State, before: seq<Step>, t: ThreadId, after: seq<Step>, i: nat)
    requires Init(start) && ValidRun(start, before) && CoveredRun(start, before)
    requires t !in Run(start, before).threads
    requires var pinned := Apply(Run(start, before), Start(t, Call));
      ValidRun(pinned, after) && CoveredRun(pinned, after)
      && t in Run(pinned, after).threads && i < |Run(pinned, after).threads[t].answers|
    ensures var s := Run(start, before);
      var answer := Run(Apply(s, Start(t, Call)), after).threads[t].answers[i];
      match answer
      case Found(k, v, _) => Visible(v) == AsOf(s.writes, k, s.mined)
      case Header(info) => s.mined < |s.headers| && info == s.headers[s.mined]
  {
    var s := Run(start, before);
    RunPreservesInv(start, before);
    var pinned := Apply(s, Start(t, Call));
    StepPreservesInv(s, Start(t, Call));
    RunPreservesInv(pinned, after);
    RunExtends(pinned, after);
    var end := Run(pinned, after);
    var th := end.threads[t];
    assert ThreadOk(end, th) && pinned.threads[t].target == Pinned(s.mined);
    var a := th.answers[i];
    assert AnswerOk(end, Pinned(s.mined), a);
    if a.Found? {
      AsOfPrefix(s.writes, end.writes, a.key, s.mined);
    } else {
      assert end.headers[s.mined] == end.headers[..|s.headers|][s.mined];
    }
  }

  // -------------------------------------------------------------------------
  // What losing an entry in flight does
  // -------------------------------------------------------------------------

  lemma StaleFillBreaksInv(s: State, step: Step, t: ThreadId, k: Key)
    requires Inv(s) && Enabled(s, step) && (step == Evict(k) || step == Clear) && StaleFill(s, t, k)
    ensures !Inv(Apply(s, step))
  {
    var s' := Apply(s, step);
    assert k !in s'.cache && StaleFill(s', t, k);
    assert !ThreadOk(s', s'.threads[t]);
  }

  /**
   Evicting an entry, during a commit or not, is harmless exactly when no read that predates its
   last change waits to be cached.
   */
  lemma EvictionIsSafeIff(s: State, k: Key)
    requires Inv(s) && k in s.cache
    ensures Inv(Apply(s, Evict(k))) <==> forall t :: !StaleFill(s, t, k)
  {
    if t :| StaleFill(s, t, k) {
      StaleFillBreaksInv(s, Evict(k), t, k);
    } else {
      LossOk(s, Evict(k));
    }
  }

  /** Clearing the cache is harmless exactly when no such read of any entry waits. */
  lemma ClearIsSafeIff(s: State)
    requires Inv(s)
    ensures Inv(Apply(s, Clear)) <==> forall t, k :: !StaleFill(s, t, k)
  {
    if t, k :| StaleFill(s, t, k) {
      StaleFillBreaksInv(s, Clear, t, k);
    } else {
      LossOk(s, Clear);
    }
  }

  /** The invariant holds in every state of a run, the first and the last included. */
  ghost predicate InvThroughout(s: State, steps: seq<Step>)
    requires ValidRun(s, steps)
    decreases |steps|
  {
    Inv(s) && (steps == [] || InvThroughout(Apply(s, steps[0]), steps[1..]))
  }

  /** So the side condition of the theorems on runs is exact. */
  lemma {:induction false} InvThroughoutIffCovered(s: State, steps: seq<Step>)
    requires Inv(s) && ValidRun(s, steps)
    ensures InvThroughout(s, steps) <==> CoveredRun(s, steps)
    decreases |steps|
  {
    if steps == [] {
    } else {
      var step := steps[0];
      if step.Evict? { EvictionIsSafeIff(s, step.key); }
      if step.Clear? { ClearIsSafeIff(s); }
      if Covered(s, step) {
        StepPreservesInv(s, step);
        InvThroughoutIffCovered(Apply(s, step), steps[1..]);
      }
    }
  }

  /** Otherwise three steps are enough to leave the cache wrong: the loss and the late insertion. */
  lemma LossUnderStaleFillBreaksTheCache(s: State, loss: Step, t: ThreadId, k: Key)
    requires Inv(s) && Enabled(s, loss) && (loss == Evict(k) || loss == Clear) && StaleFill(s, t, k)
    ensures var steps := [loss, ReserveFill(t, k), InsertFill(t, k)];
      && ValidRun(s, steps)
      && var end := Run(s, steps);
         end.committer == s.committer && end.latest == s.latest && k in end.cache && !FreshOrDue(end, k, end.cache[k])
  {
    var s1 := Apply(s, loss);
    assert ThreadOk(s, s.threads[t]) && k in s.cache && k !in s.reserved;
    var s2 := Apply(s1, ReserveFill(t, k));
    RunStep(s2, InsertFill(t, k), []);
    assert [InsertFill(t, k)] + [] == [InsertFill(t, k)];
    RunStep(s1, ReserveFill(t, k), [InsertFill(t, k)]);
    assert [ReserveFill(t, k)] + [InsertFill(t, k)] == [ReserveFill(t, k), InsertFill(t, k)];
    RunStep(s, loss, [ReserveFill(t, k), InsertFill(t, k)]);
    assert [loss] + [ReserveFill(t, k), InsertFill(t, k)] == [loss, ReserveFill(t, k), InsertFill(t, k)];
  }

  lemma RunStep(s: State, step: Step, rest: seq<Step>)
    requires Enabled(s, step)
    ensures ValidRun(s, [step] + rest) <==> ValidRun(Apply(s, step), rest)
    ensures ValidRun(Apply(s, step), rest) ==> Run(s, [step] + rest) == Run(Apply(s, step), rest)
    ensures ValidRun(Apply(s, step), rest) && Covered(s, step) ==>
            (CoveredRun(s, [step] + rest) <==> CoveredRun(Apply(s, step), rest))
  {
    assert ([step] + rest)[1..] == rest;
  }

  /** The two defaults for an absent account look the same to an execution and are not equal. */
  lemma LoadedAndReadDefaultsDiffer(db: Database, k: Key)
    ensures Visible(LoaderValue(db, k)) == Visible(ReaderValue(db, k)) == Read(db, k)
    ensures LoaderValue(db, k) == ReaderValue(db, k) <==>
            k in db || k.SlotKey? || k.address == ZERO_ADDRESS
  {
  }

  /** A storage with only the genesis block, all of whose state is the default. */
  const GENESIS: State :=
    State(map[], [map[]], [BlockInfo(0, 0)], BlockInfo(0, 0), 0, BlockInfo(2, 0), map[], map[], Idle, map[])

  const SLOT: Key := SlotKey(1, 0)

  /** A reader misses the cache and reads the slot. */
  function SlotRead(): seq<Step> {
    [Start(0, LatestReader), Act(0, BeginRead(SLOT)), Act(0, LookupCache), Act(0, ReadPermanent)]
  }

  /** Block 1 changes the slot: in permanent storage, and then in the cache. */
  function SlotWrite(): seq<Step> {
    [LockForCommit(BlockInfo(1, 5), map[SLOT := SlotEntry(Changed(7))]), SavePermanent, SetLockInfo]
  }

  function SlotPublish(): seq<Step> {
    [CacheOne(SLOT), SetMined, Unlock]
  }

  lemma {:induction false} RunConcat(s: State, a: seq<Step>, b: seq<Step>)
    requires ValidRun(s, a) && ValidRun(Run(s, a), b)
    ensures ValidRun(s, a + b) && Run(s, a + b) == Run(Run(s, a), b)
    ensures CoveredRun(s, a) && CoveredRun(Run(s, a), b) ==> CoveredRun(s, a + b)
    decreases |a|
  {
    if a == [] {
      assert a + b == b;
    } else {
      assert a + b == [a[0]] + (a[1..] + b) && [a[0]] + a[1..] == a;
      RunConcat(Apply(s, a[0]), a[1..], b);
    }
  }

  ghost predicate Reaches(s: State, steps: seq<Step>, end: State) {
    ValidRun(s, steps) && CoveredRun(s, steps) && Run(s, steps) == end
  }

  lemma ReachesStep(s: State, step: Step, rest: seq<Step>, end: State)
    requires Enabled(s, step) && Covered(s, step) && Reaches(Apply(s, step), rest, end)
    ensures Reaches(s, [step] + rest, end)
  {
    RunStep(s, step, rest);
  }

  lemma ReachesConcat(s: State, a: seq<Step>, mid: State, b: seq<Step>, end: State)
    requires Reaches(s, a, mid) && Reaches(mid, b, end)
    ensures Reaches(s, a + b, end)
  {
    RunConcat(s, a, b);
  }

  lemma AfterSlotRead() returns (end: State)
    ensures Reaches(GENESIS, SlotRead(), end)
    ensures end == GENESIS.(threads := end.threads) && end.threads.Keys == {0}
    ensures end.threads[0].pc == Ready && end.threads[0].fills == map[SLOT := SlotValue(0)]
  {
    var steps := SlotRead();
    var s1 := Apply(GENESIS, steps[0]);
    var s2 := Apply(s1, steps[1]);
    var s3 := Apply(s2, steps[2]);
    end := Apply(s3, steps[3]);
    assert Reaches(end, [], end);
    ReachesStep(s3, steps[3], [], end);
    assert steps[3..] == [steps[3]] + [];
    ReachesStep(s2, steps[2], steps[3..], end);
    assert steps[2..] == [steps[2]] + steps[3..];
    ReachesStep(s1, steps[1], steps[2..], end);
    assert steps[1..] == [steps[1]] + steps[2..];
    ReachesStep(GENESIS, steps[0], steps[1..], end);
    assert steps == [steps[0]] + steps[1..];
  }

  lemma AfterSlotWrite(s: State) returns (end: State)
    requires s == GENESIS.(threads := s.threads) && NoGuards(s)
    ensures Reaches(s, SlotWrite(), end)
    ensures end.committer == Caching(BlockInfo(1, 5), map[SLOT := SlotEntry(Changed(7))], {SLOT})
    ensures end.threads == s.threads && Read(end.latest, SLOT) == StoredSlot(7)
  {
    var steps := SlotWrite();
    var s1 := Apply(s, steps[0]);
    var s2 := Apply(s1, SavePermanent);
    CommitStoresResults(s1.latest, s1.committer.changes, SLOT);
    end := Apply(s2, SetLockInfo);
    assert end.committer.changes.Keys == {SLOT};
    assert Reaches(end, [], end);
    ReachesStep(s2, SetLockInfo, [], end);
    assert steps[2..] == [steps[2]] + [];
    ReachesStep(s1, SavePermanent, steps[2..], end);
    assert steps[1..] == [steps[1]] + steps[2..];
    ReachesStep(s, steps[0], steps[1..], end);
    assert steps == [steps[0]] + steps[1..];
  }

  lemma AfterSlotPublish(s: State) returns (end: State)
    requires s.committer == Caching(BlockInfo(1, 5), map[SLOT := SlotEntry(Changed(7))], {SLOT})
    ensures Reaches(s, SlotPublish(), end)
    ensures end.committer == Idle && end.threads == s.threads && SLOT in end.cache && end.latest == s.latest
  {
    var steps := SlotPublish();
    var s1 := Apply(s, CacheOne(SLOT));
    assert s1.committer.due == {};
    var s2 := Apply(s1, SetMined);
    end := Apply(s2, Unlock);
    assert Reaches(end, [], end);
    ReachesStep(s2, Unlock, [], end);
    assert steps[2..] == [steps[2]] + [];
    ReachesStep(s1, SetMined, steps[2..], end);
    assert steps[1..] == [steps[1]] + steps[2..];
    ReachesStep(s, CacheOne(SLOT), steps[1..], end);
    assert steps == [steps[0]] + steps[1..];
  }

  lemma GenesisIsInit()
    ensures Init(GENESIS)
  {
  }

  lemma StaleFillIsReachable() returns (end: State)
    ensures Reaches(GENESIS, SlotRead() + SlotWrite() + SlotPublish(), end)
    ensures end.committer == Idle && SLOT in end.cache && StaleFill(end, 0, SLOT)
  {
    var s := AfterSlotRead();
    var written := AfterSlotWrite(s);
    end := AfterSlotPublish(written);
    ReachesConcat(GENESIS, SlotRead(), s, SlotWrite(), written);
    ReachesConcat(GENESIS, SlotRead() + SlotWrite(), written, SlotPublish(), end);
  }

  /**
   The side condition is needed: a reader is between reading and caching while a block changes
   the slot, the new entry is evicted or the cache cleared, and the old value is cached for good.
   */
  lemma LossInFlightBreaksCoherence(loss: Step)
    requires loss == Evict(SLOT) || loss == Clear
    ensures Init(GENESIS)
    ensures var steps := SlotRead() + SlotWrite() + SlotPublish() + [loss, ReserveFill(0, SLOT), InsertFill(0, SLOT)];
      && ValidRun(GENESIS, steps)
      && Run(GENESIS, steps).committer == Idle
      && SLOT in Run(GENESIS, steps).cache
      && Visible(Run(GENESIS, steps).cache[SLOT]) != Read(Run(GENESIS, steps).latest, SLOT)
  {
    GenesisIsInit();
    var end := StaleFillIsReachable();
    var covered := SlotRead() + SlotWrite() + SlotPublish();
    RunPreservesInv(GENESIS, covered);
    LossUnderStaleFillBreaksTheCache(end, loss, 0, SLOT);
    RunConcat(GENESIS, covered, [loss, ReserveFill(0, SLOT), InsertFill(0, SLOT)]);
  }
}
