/**
 Who takes which lock when: every path through the miner, the importers included, as a sequence of
 lock operations. What the paths do with the blocks is the subject of `Mining`.
 Source: src/eth/miner/miner.rs, src/eth/storage/stratus_storage.rs,
 src/eth/follower/importer/importers.
 */
module Locking {
  import opened Common
  import opened Locks

  datatype Op = Take(lock: Lock) | Drop(lock: Lock) | Work

  /** What a thread has still to do, and the locks it has. */
  datatype Thread = Thread(ops: seq<Op>, held: set<Lock>)

  type State = map<ThreadId, Thread>

  // ----- paths -----

  /** `reaches`: whether a commit gets as far as the state lock, or is refused before. */
  datatype Job =
    | Save                                         // without automine
    | SaveAndMine(saved: bool, reaches: bool)      // with automine
    | MineOnce(reaches: bool)
    | IntervalTick(attempts: seq<bool>)            // every attempt to commit
    | ImportAsFakeLeader(attempts: seq<bool>)      // none if the block is not the expected one
    | ImportReexecuted(matches: bool, reaches: bool)
    | ImportReplicated(reaches: bool)
    | Reset
    | ReadLatest

  /** Something done under a lock. */
  function Under(lock: Lock, inner: seq<Op>): seq<Op> {
    [Take(lock)] + (inner + [Drop(lock)])
  }

  function CommitOps(reaches: bool): seq<Op> {
    Under(Commit, [Work] + if reaches then Under(StateWrite, [Work]) else [])
  }

  function Retries(attempts: seq<bool>): seq<Op> {
    if attempts == [] then [] else CommitOps(attempts[0]) + Retries(attempts[1..])
  }

  function MineAndCommitOps(attempts: seq<bool>): seq<Op> {
    Under(MineAndCommit, Under(Mine, [Work]) + Retries(attempts))
  }

  function Path(job: Job): seq<Op> {
    match job
    case Save => [Work]
    case SaveAndMine(saved, reaches) =>
      Under(SaveExecution, [Work] + if saved then MineAndCommitOps([reaches]) else [])
    case MineOnce(reaches) => MineAndCommitOps([reaches])
    case IntervalTick(attempts) => MineAndCommitOps(attempts)
    case ImportAsFakeLeader(attempts) => MineAndCommitOps(attempts)
    case ImportReexecuted(matches, reaches) => Under(Mine, [Work]) + if matches then CommitOps(reaches) else []
    case ImportReplicated(reaches) => [Work] + CommitOps(reaches)
    case Reset => Under(SaveExecution, Under(MineAndCommit, Under(Mine, CommitOps(true))))
    case ReadLatest => Under(StateRead, [Work])
  }

  // ----- steps -----

  datatype Step = Spawn(t: ThreadId, job: Job) | Advance(t: ThreadId)

  function ClaimOf(th: Thread): Claim {
    Claim(th.held, if th.ops != [] && th.ops[0].Take? then Some(th.ops[0].lock) else None)
  }

  function ClaimsOf(s: State): Claims {
    map t | t in s :: ClaimOf(s[t])
  }

  predicate Enabled(s: State, step: Step) {
    match step
    case Spawn(t, _) => t !in s
    case Advance(t) => t in s && s[t].ops != [] && (s[t].ops[0].Take? ==> Available(ClaimsOf(s), s[t].ops[0].lock))
  }

  function HeldAfter(held: set<Lock>, op: Op): set<Lock> {
    match op
    case Take(lock) => held + {lock}
    case Drop(lock) => held - {lock}
    case Work => held
  }

  function Apply(s: State, step: Step): State
    requires Enabled(s, step)
  {
    match step
    case Spawn(t, job) => s[t := Thread(Path(job), {})]
    case Advance(t) => s[t := Thread(s[t].ops[1..], HeldAfter(s[t].held, s[t].ops[0]))]
  }

  predicate ValidRun(s: State, steps: seq<Step>)
    decreases |steps|
  {
    steps == [] || (Enabled(s, steps[0]) && ValidRun(Apply(s, steps[0]), steps[1..]))
  }

  function Run(s: State, steps: seq<Step>): State
    requires ValidRun(s, steps)
    decreases |steps|
  {
    if steps == [] then s else Run(Apply(s, steps[0]), steps[1..])
  }

  // ----- the order of the locks -----

  /** Locks are taken in order, only held ones are dropped, and `end` are left. */
  predicate Ordered(held: set<Lock>, ops: seq<Op>, end: set<Lock>)
    decreases |ops|
  {
    if ops == [] then held == end
    else
      && (ops[0].Take? ==> Above(held, ops[0].lock))
      && (ops[0].Drop? ==> ops[0].lock in held)
      && Ordered(HeldAfter(held, ops[0]), ops[1..], end)
  }

  lemma {:induction false} OrderedConcat(held: set<Lock>, a: seq<Op>, mid: set<Lock>, b: seq<Op>, end: set<Lock>)
    requires Ordered(held, a, mid) && Ordered(mid, b, end)
    ensures Ordered(held, a + b, end)
    decreases |a|
  {
    if a == [] {
      assert a + b == b;
    } else {
      assert (a + b)[0] == a[0] && (a + b)[1..] == a[1..] + b;
      OrderedConcat(HeldAfter(held, a[0]), a[1..], mid, b, end);
    }
  }

  /** A lock that is taken, used and dropped. */
  lemma OrderedUnder(held: set<Lock>, lock: Lock, inner: seq<Op>)
    requires Above(held, lock) && Ordered(held + {lock}, inner, held + {lock})
    ensures Ordered(held, Under(lock, inner), held)
  {
    assert lock !in held;
    assert held + {lock} - {lock} == held;
    assert [Drop(lock)][1..] == [];
    OrderedConcat(held + {lock}, inner, held + {lock}, [Drop(lock)], held);
    assert Under(lock, inner)[1..] == inner + [Drop(lock)];
  }

  lemma OrderedWork(held: set<Lock>)
    ensures Ordered(held, [Work], held)
  {
    assert [Work][1..] == [];
  }

  lemma WorkUnderIsOrdered(held: set<Lock>, lock: Lock)
    requires Above(held, lock)
    ensures Ordered(held, Under(lock, [Work]), held)
  {
    OrderedWork(held + {lock});
    OrderedUnder(held, lock, [Work]);
  }

  lemma CommitIsOrdered(held: set<Lock>, reaches: bool)
    requires Above(held, Commit)
    ensures Ordered(held, CommitOps(reaches), held)
  {
    var inside := held + {Commit};
    var batch := if reaches then Under(StateWrite, [Work]) else [];
    OrderedWork(inside);
    WorkUnderIsOrdered(inside, StateWrite);
    OrderedConcat(inside, [Work], inside, batch, inside);
    OrderedUnder(held, Commit, [Work] + batch);
  }

  lemma {:induction false} RetriesAreOrdered(held: set<Lock>, attempts: seq<bool>)
    requires Above(held, Commit)
    ensures Ordered(held, Retries(attempts), held)
    decreases |attempts|
  {
    if attempts == [] {
    } else {
      CommitIsOrdered(held, attempts[0]);
      RetriesAreOrdered(held, attempts[1..]);
      OrderedConcat(held, CommitOps(attempts[0]), held, Retries(attempts[1..]), held);
    }
  }

  lemma MineAndCommitIsOrdered(held: set<Lock>, attempts: seq<bool>)
    requires Above(held, MineAndCommit)
    ensures Ordered(held, MineAndCommitOps(attempts), held)
  {
    var inside := held + {MineAndCommit};
    WorkUnderIsOrdered(inside, Mine);
    RetriesAreOrdered(inside, attempts);
    OrderedConcat(inside, Under(Mine, [Work]), inside, Retries(attempts), inside);
    OrderedUnder(held, MineAndCommit, Under(Mine, [Work]) + Retries(attempts));
  }

  lemma ResetIsOrdered()
    ensures Ordered({}, Path(Reset), {})
  {
    var save := {} + {SaveExecution};
    var mineAndCommit := save + {MineAndCommit};
    CommitIsOrdered(mineAndCommit + {Mine}, true);
    OrderedUnder(mineAndCommit, Mine, CommitOps(true));
    OrderedUnder(save, MineAndCommit, Under(Mine, CommitOps(true)));
    OrderedUnder({}, SaveExecution, Under(MineAndCommit, Under(Mine, CommitOps(true))));
  }

  lemma SaveAndMineIsOrdered(saved: bool, reaches: bool)
    ensures Ordered({}, Path(SaveAndMine(saved, reaches)), {})
  {
    var held := {} + {SaveExecution};
    var mining := if saved then MineAndCommitOps([reaches]) else [];
    OrderedWork(held);
    MineAndCommitIsOrdered(held, [reaches]);
    OrderedConcat(held, [Work], held, mining, held);
    OrderedUnder({}, SaveExecution, [Work] + mining);
  }

  /** Every path takes its locks in the one order and leaves none behind. */
  lemma PathsAreOrdered(job: Job)
    ensures Ordered({}, Path(job), {})
  {
    match job
    case Save => OrderedWork({});
    case SaveAndMine(saved, reaches) => SaveAndMineIsOrdered(saved, reaches);
    case MineOnce(reaches) => MineAndCommitIsOrdered({}, [reaches]);
    case IntervalTick(attempts) => MineAndCommitIsOrdered({}, attempts);
    case ImportAsFakeLeader(attempts) => MineAndCommitIsOrdered({}, attempts);
    case ImportReexecuted(matches, reaches) =>
      WorkUnderIsOrdered({}, Mine);
      CommitIsOrdered({}, reaches);
      OrderedConcat({}, Under(Mine, [Work]), {}, if matches then CommitOps(reaches) else [], {});
    case ImportReplicated(reaches) =>
      OrderedWork({});
      CommitIsOrdered({}, reaches);
      OrderedConcat({}, [Work], {}, CommitOps(reaches), {});
    case Reset => ResetIsOrdered();
    case ReadLatest => WorkUnderIsOrdered({}, StateRead);
  }

  // ----- no deadlock -----

  predicate Inv(s: State) {
    forall t | t in s :: Ordered(s[t].held, s[t].ops, {})
  }

  lemma {:induction false} RunKeepsInv(s: State, steps: seq<Step>)
    requires Inv(s) && ValidRun(s, steps)
    ensures Inv(Run(s, steps))
    decreases |steps|
  {
    if steps == [] {
    } else {
      if steps[0].Spawn? { PathsAreOrdered(steps[0].job); }
      RunKeepsInv(Apply(s, steps[0]), steps[1..]);
    }
  }

  /**
   For any number of threads on any of the paths, importers and resets included: while one is not
   through, some thread can step.
   */
  lemma NoDeadlock(steps: seq<Step>, t: ThreadId)
    requires ValidRun(map[], steps) && t in Run(map[], steps) && Run(map[], steps)[t].ops != []
    ensures exists u :: Enabled(Run(map[], steps), Advance(u))
  {
    RunKeepsInv(map[], steps);
    var s := Run(map[], steps);
    forall v | v in s ensures InOrder(ClaimsOf(s)[v]) && (Busy(ClaimsOf(s)[v]) ==> s[v].ops != []) {
      assert Ordered(s[v].held, s[v].ops, {});
    }
    var u := BlockedByOneThatCanStep(ClaimsOf(s), t);
    assert Enabled(s, Advance(u));
  }

  // ----- what the locks are for -----

  /** The locks a path takes, in order. */
  function Takes(ops: seq<Op>): seq<Lock> {
    if ops == [] then [] else (if ops[0].Take? then [ops[0].lock] else []) + Takes(ops[1..])
  }

  lemma {:induction false} TakesConcat(a: seq<Op>, b: seq<Op>)
    ensures Takes(a + b) == Takes(a) + Takes(b)
  {
    if a == [] {
      assert a + b == b;
    } else {
      assert (a + b)[0] == a[0] && (a + b)[1..] == a[1..] + b;
      TakesConcat(a[1..], b);
    }
  }

  lemma TakesUnder(lock: Lock, inner: seq<Op>)
    ensures Takes(Under(lock, inner)) == [lock] + Takes(inner)
  {
    TakesConcat([Take(lock)], inner + [Drop(lock)]);
    TakesConcat(inner, [Drop(lock)]);
    assert [Take(lock)][1..] == [] && [Drop(lock)][1..] == [];
  }

  lemma TakesWork()
    ensures Takes([Work]) == []
  {
    assert [Work][1..] == [];
  }

  function CommitLocks(reaches: bool): seq<Lock> {
    if reaches then [Commit, StateWrite] else [Commit]
  }

  lemma TakesCommit(reaches: bool)
    ensures Takes(CommitOps(reaches)) == CommitLocks(reaches)
  {
    TakesWork();
    TakesUnder(StateWrite, [Work]);
    var batch := if reaches then Under(StateWrite, [Work]) else [];
    TakesConcat([Work], batch);
    TakesUnder(Commit, [Work] + batch);
  }

  /** The locks of the attempts, one after the other. */
  function AttemptLocks(attempts: seq<bool>): seq<Lock> {
    if attempts == [] then []
    else AttemptLocks(attempts[..|attempts| - 1]) + CommitLocks(attempts[|attempts| - 1])
  }

  lemma {:induction false} RetriesConcat(a: seq<bool>, last: bool)
    ensures Retries(a + [last]) == Retries(a) + CommitOps(last)
  {
    if a == [] {
      assert [last][1..] == [] && a + [last] == [last];
    } else {
      assert (a + [last])[0] == a[0] && (a + [last])[1..] == a[1..] + [last];
      RetriesConcat(a[1..], last);
    }
  }

  lemma {:induction false} TakesRetries(attempts: seq<bool>)
    ensures Takes(Retries(attempts)) == AttemptLocks(attempts)
  {
    if attempts == [] {
    } else {
      var before, last := attempts[..|attempts| - 1], attempts[|attempts| - 1];
      assert attempts == before + [last];
      RetriesConcat(before, last);
      TakesRetries(before);
      TakesCommit(last);
      TakesConcat(Retries(before), CommitOps(last));
    }
  }

  lemma TakesMineAndCommit(attempts: seq<bool>)
    ensures Takes(MineAndCommitOps(attempts)) == [MineAndCommit, Mine] + AttemptLocks(attempts)
  {
    TakesWork();
    TakesUnder(Mine, [Work]);
    TakesRetries(attempts);
    TakesConcat(Under(Mine, [Work]), Retries(attempts));
    TakesUnder(MineAndCommit, Under(Mine, [Work]) + Retries(attempts));
  }

  /** Which locks each job takes: local mining under its own, imports without it, a reset all of them. */
  function LocksOf(job: Job): seq<Lock> {
    match job
    case Save => []
    case SaveAndMine(saved, reaches) =>
      [SaveExecution] + if saved then [MineAndCommit, Mine] + CommitLocks(reaches) else []
    case MineOnce(reaches) => [MineAndCommit, Mine] + CommitLocks(reaches)
    case IntervalTick(attempts) => [MineAndCommit, Mine] + AttemptLocks(attempts)
    case ImportAsFakeLeader(attempts) => [MineAndCommit, Mine] + AttemptLocks(attempts)
    case ImportReexecuted(matches, reaches) => [Mine] + if matches then CommitLocks(reaches) else []
    case ImportReplicated(reaches) => CommitLocks(reaches)
    case Reset => [SaveExecution, MineAndCommit, Mine, Commit, StateWrite]
    case ReadLatest => [StateRead]
  }

  lemma OneAttempt(reaches: bool)
    ensures AttemptLocks([reaches]) == CommitLocks(reaches)
  {
    assert [reaches][..0] == [];
  }

  lemma TakesNested(a: Lock, b: Lock, c: Lock, inner: seq<Op>)
    ensures Takes(Under(a, Under(b, Under(c, inner)))) == [a, b, c] + Takes(inner)
  {
    TakesUnder(c, inner);
    TakesUnder(b, Under(c, inner));
    TakesUnder(a, Under(b, Under(c, inner)));
  }

  lemma ResetTakes(reaches: bool)
    requires reaches
    ensures Takes(Under(SaveExecution, Under(MineAndCommit, Under(Mine, CommitOps(reaches))))) == LocksOf(Reset)
  {
    TakesNested(SaveExecution, MineAndCommit, Mine, CommitOps(reaches));
    TakesCommit(reaches);
  }

  lemma SaveAndMineTakes(saved: bool, reaches: bool)
    ensures Takes(Path(SaveAndMine(saved, reaches))) == LocksOf(SaveAndMine(saved, reaches))
  {
    TakesWork();
    OneAttempt(reaches);
    TakesMineAndCommit([reaches]);
    var mining := if saved then MineAndCommitOps([reaches]) else [];
    TakesConcat([Work], mining);
    TakesUnder(SaveExecution, [Work] + mining);
  }

  lemma ImportsTake(matches: bool, reaches: bool)
    ensures Takes(Path(ImportReexecuted(matches, reaches))) == LocksOf(ImportReexecuted(matches, reaches))
    ensures Takes(Path(ImportReplicated(reaches))) == LocksOf(ImportReplicated(reaches))
  {
    TakesWork();
    TakesUnder(Mine, [Work]);
    TakesCommit(reaches);
    TakesConcat(Under(Mine, [Work]), if matches then CommitOps(reaches) else []);
    TakesConcat([Work], CommitOps(reaches));
  }

  lemma PathsTake(job: Job)
    ensures Takes(Path(job)) == LocksOf(job)
  {
    match job
    case Save => TakesWork();
    case SaveAndMine(saved, reaches) => SaveAndMineTakes(saved, reaches);
    case MineOnce(reaches) =>
      OneAttempt(reaches);
      TakesMineAndCommit([reaches]);
    case IntervalTick(attempts) => TakesMineAndCommit(attempts);
    case ImportAsFakeLeader(attempts) => TakesMineAndCommit(attempts);
    case ImportReexecuted(matches, reaches) => ImportsTake(matches, reaches);
    case ImportReplicated(reaches) => ImportsTake(true, reaches);
    case Reset => ResetTakes(true);
    case ReadLatest =>
      TakesWork();
      TakesUnder(StateRead, [Work]);
  }

  /** No two threads have the same lock, except to read the state, which no other then writes. */
  predicate Exclusive(s: State) {
    forall t, u | t in s && u in s && t != u ::
      && s[t].held * s[u].held <= {StateRead}
      && !(StateWrite in s[t].held && StateRead in s[u].held)
  }

  lemma StepKeepsExclusive(s: State, step: Step)
    requires Exclusive(s) && Enabled(s, step)
    ensures Exclusive(Apply(s, step))
  {
    if step.Advance? && s[step.t].ops[0].Take? {
      forall u | u in s ensures !Blocks(s[step.t].ops[0].lock, ClaimOf(s[u])) {
        assert ClaimsOf(s)[u] == ClaimOf(s[u]);
      }
    }
  }

  lemma {:induction false} RunKeepsExclusive(s: State, steps: seq<Step>)
    requires Exclusive(s) && ValidRun(s, steps)
    ensures Exclusive(Run(s, steps))
    decreases |steps|
  {
    if steps == [] {
    } else {
      StepKeepsExclusive(s, steps[0]);
      RunKeepsExclusive(Apply(s, steps[0]), steps[1..]);
    }
  }

  /** In every run the locks exclude: two threads never mine, commit or write the state at once. */
  lemma LocksExclude(steps: seq<Step>)
    requires ValidRun(map[], steps)
    ensures Exclusive(Run(map[], steps))
  {
    RunKeepsExclusive(map[], steps);
  }

  /** Everybody else is through. */
  predicate Alone(s: State, t: ThreadId) {
    Inv(s) && t in s && forall u | u in s && u != t :: s[u].ops == []
  }

  lemma AloneAdvances(s: State, t: ThreadId)
    requires Alone(s, t) && s[t].ops != []
    ensures Enabled(s, Advance(t)) && Alone(Apply(s, Advance(t)), t)
  {
    var op := s[t].ops[0];
    assert Ordered(s[t].held, s[t].ops, {});
    if op.Take? {
      forall u | u in s ensures !Blocks(op.lock, ClaimsOf(s)[u]) {
        assert Ordered(s[u].held, s[u].ops, {});
      }
    }
  }

  /** A thread that is alone gets to the end of its path, and has no lock there. */
  lemma {:induction false} AloneGetsThrough(s: State, t: ThreadId) returns (steps: seq<Step>)
    requires Alone(s, t)
    ensures ValidRun(s, steps) && Run(s, steps) == s[t := Thread([], {})]
    decreases |s[t].ops|
  {
    if s[t].ops == [] {
      steps := [];
      assert s[t].held == {} && s[t := Thread([], {})] == s;
    } else {
      AloneAdvances(s, t);
      var next := Apply(s, Advance(t));
      var rest := AloneGetsThrough(next, t);
      steps := [Advance(t)] + rest;
      assert steps[1..] == rest && next[t := Thread([], {})] == s[t := Thread([], {})];
    }
  }

  /** Every job can be started when nobody is at work, and gets through. */
  lemma EveryJobGetsThrough(s: State, t: ThreadId, job: Job) returns (steps: seq<Step>)
    requires Inv(s) && t !in s && forall u | u in s :: s[u].ops == []
    ensures ValidRun(s, [Spawn(t, job)] + steps) && Run(s, [Spawn(t, job)] + steps) == s[t := Thread([], {})]
  {
    var started := Apply(s, Spawn(t, job));
    PathsAreOrdered(job);
    steps := AloneGetsThrough(started, t);
    assert ([Spawn(t, job)] + steps)[1..] == steps;
    assert started[t := Thread([], {})] == s[t := Thread([], {})];
  }

  /** Readers share the state lock: a second one gets in beside the first. */
  lemma ReadersShare(t: ThreadId, u: ThreadId)
    requires t != u
    ensures var steps := [Spawn(t, ReadLatest), Spawn(u, ReadLatest), Advance(t), Advance(u)];
      && ValidRun(map[], steps)
      && var end := Run(map[], steps); t in end && u in end && end[t].held == end[u].held == {StateRead}
  {
    var s1 := Apply(map[], Spawn(t, ReadLatest));
    var s2 := Apply(s1, Spawn(u, ReadLatest));
    assert Path(ReadLatest)[0] == Take(StateRead);
    var s3 := Apply(s2, Advance(t));
    assert s3[t].ops[0] == Work;
    var s4 := Apply(s3, Advance(u));
    assert ValidRun(s4, []) && Run(s4, []) == s4;
    assert ValidRun(s3, [Advance(u)]) && Run(s3, [Advance(u)]) == s4;
    assert [Advance(t), Advance(u)][1..] == [Advance(u)];
    assert ValidRun(s2, [Advance(t), Advance(u)]) && Run(s2, [Advance(t), Advance(u)]) == s4;
    var last3 := [Spawn(u, ReadLatest), Advance(t), Advance(u)];
    assert last3[1..] == [Advance(t), Advance(u)] && ValidRun(s1, last3) && Run(s1, last3) == s4;
    var steps := [Spawn(t, ReadLatest), Spawn(u, ReadLatest), Advance(t), Advance(u)];
    assert steps[1..] == last3;
  }
}
