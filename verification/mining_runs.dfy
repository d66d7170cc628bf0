/**
 What a job of the mining protocol comes to when nobody is in its way: the blocks and transactions it
 leaves behind, lock by lock and step by step of `Mining`.
 */
module MiningRuns {
  import opened Common
  import opened Locks
  import opened Mining

  /** Every other thread is through. */
  ghost predicate Alone(s: State, t: ThreadId) {
    Inv(s) && t in s.threads && forall u | u in s.threads && u != t :: s.threads[u].pc.Done?
  }

  ghost predicate Reaches(s: State, end: State) {
    exists steps :: ValidRun(s, steps) && Run(s, steps) == end
  }

  lemma OneStep(s: State, step: Step)
    requires Enabled(s, step)
    ensures Reaches(s, Apply(s, step))
  {
    var end := Apply(s, step);
    assert ValidRun(end, []) && Run(end, []) == end;
    assert [step][1..] == [];
    assert ValidRun(s, [step]) && Run(s, [step]) == end;
  }

  lemma {:induction false} RunConcat(s: State, a: seq<Step>, b: seq<Step>)
    requires ValidRun(s, a) && ValidRun(Run(s, a), b)
    ensures ValidRun(s, a + b) && Run(s, a + b) == Run(Run(s, a), b)
    decreases |a|
  {
    if a == [] {
      assert a + b == b;
    } else {
      assert (a + b)[0] == a[0] && (a + b)[1..] == a[1..] + b;
      RunConcat(Apply(s, a[0]), a[1..], b);
    }
  }

  lemma Onward(a: State, b: State, c: State)
    requires Reaches(a, b) && Reaches(b, c)
    ensures Reaches(a, c)
  {
    var first :| ValidRun(a, first) && Run(a, first) == b;
    var second :| ValidRun(b, second) && Run(b, second) == c;
    RunConcat(a, first, second);
  }

  lemma DoneBlocksNobody(th: Thread, lock: Lock)
    requires th.held == Holds(th.pc) && th.pc.Done?
    ensures !Blocks(lock, ClaimOf(th))
  {
  }

  lemma NobodyBlocksItself(s: State, t: ThreadId)
    requires Inv(s) && t in s.threads && Wants(s.threads[t].pc).Some?
    ensures !Blocks(Wants(s.threads[t].pc).value, ClaimsOf(s)[t])
  {
    ClaimsAreInOrder(s, t);
  }

  /** A thread that is alone gets every lock it wants. */
  lemma Take(s: State, t: ThreadId) returns (next: State)
    requires Alone(s, t) && Wants(s.threads[t].pc).Some?
    ensures Reaches(s, next) && Alone(next, t) && next.ledger == s.ledger
    ensures next.threads[t].pc == Acquired(s.threads[t].pc) && next.threads[t].hash == s.threads[t].hash
  {
    var lock := Wants(s.threads[t].pc).value;
    NobodyBlocksItself(s, t);
    forall u | u in s.threads ensures !Blocks(lock, ClaimsOf(s)[u]) {
      if u != t {
        assert ThreadOk(s, u, s.threads[u]);
        DoneBlocksNobody(s.threads[u], lock);
      }
    }
    StepPreservesInv(s, Acquire(t));
    OneStep(s, Acquire(t));
    next := Apply(s, Acquire(t));
  }

  lemma Go(s: State, t: ThreadId, timestamp: nat, choice: bool) returns (next: State)
    requires Alone(s, t) && Wants(s.threads[t].pc).None? && !s.threads[t].pc.Done?
    ensures Reaches(s, next) && Alone(next, t)
    ensures next.ledger == NextLedger(s.ledger, s.threads[t], timestamp, choice)
    ensures next.threads[t].pc == NextPc(s.ledger, s.threads[t], choice) && next.threads[t].hash == s.threads[t].hash
  {
    StepPreservesInv(s, Act(t, timestamp, choice));
    OneStep(s, Act(t, timestamp, choice));
    next := Apply(s, Act(t, timestamp, choice));
  }

  /** The number of a block in hand is accepted unless a block was given up. */
  lemma InHandIsAccepted(s: State, t: ThreadId)
    requires Inv(s) && t in s.threads && s.threads[t].pc.CheckNumbers? && !s.ledger.lost
    ensures NumberAccepted(s.ledger, s.threads[t].pc.block)
    ensures s.ledger.phase == Finished(s.threads[t].pc.block)
  {
    assert ThreadOk(s, t, s.threads[t]);
    CheckOk(s.ledger, s.threads[t].pc.block, s.threads[t].pc.ctx.retry);
  }

  /** Up to the point where the database is to accept the batch. */
  lemma ToTheBatch(s: State, t: ThreadId) returns (next: State)
    requires Alone(s, t) && s.threads[t].pc.WantCommit? && !s.ledger.lost
    ensures Reaches(s, next) && Alone(next, t)
    ensures next.threads[t].pc == WriteBlock(s.threads[t].pc.ctx, s.threads[t].pc.block)
    ensures next.ledger == s.ledger.(phase := Checked(s.threads[t].pc.block))
    ensures s.ledger.phase == Finished(s.threads[t].pc.block)
  {
    var locked := Take(s, t);
    InHandIsAccepted(locked, t);
    var checked := Go(locked, t, 0, true);
    next := Take(checked, t);
    Onward(s, locked, checked);
    Onward(s, checked, next);
  }

  function Stored(l: Ledger, block: Block): Ledger {
    l.(chain := l.chain + [block], mined := block.info.number, phase := Empty)
  }

  lemma WriteAndPublish(s: State, t: ThreadId) returns (end: State)
    requires Alone(s, t) && s.threads[t].pc.WriteBlock?
    ensures Reaches(s, end) && Alone(end, t) && end.threads[t].pc == Done(Success)
    ensures end.ledger == Stored(s.ledger, s.threads[t].pc.block)
  {
    var written := Go(s, t, 0, true);
    end := Go(written, t, 0, true);
    Onward(s, written, end);
  }

  /** The batch is refused, and the same block is to be committed again. */
  lemma FailAndRetry(s: State, t: ThreadId) returns (again: State)
    requires Alone(s, t) && s.threads[t].pc.WantCommit? && s.threads[t].pc.ctx.retry && !s.ledger.lost
    ensures Reaches(s, again) && Alone(again, t) && again.threads[t].pc == s.threads[t].pc
    ensures again.ledger == s.ledger
  {
    var ready := ToTheBatch(s, t);
    again := Go(ready, t, 0, false);
    Onward(s, ready, again);
  }

  lemma {:induction false} CommitAfterFailures(s: State, t: ThreadId, failures: nat) returns (end: State)
    requires Alone(s, t) && s.threads[t].pc.WantCommit? && !s.ledger.lost
    requires failures > 0 ==> s.threads[t].pc.ctx.retry
    ensures Reaches(s, end) && Alone(end, t) && end.threads[t].pc == Done(Success)
    ensures end.ledger == Stored(s.ledger, s.threads[t].pc.block)
    decreases failures
  {
    if failures == 0 {
      var ready := ToTheBatch(s, t);
      end := WriteAndPublish(ready, t);
      Onward(s, ready, end);
    } else {
      var again := FailAndRetry(s, t);
      end := CommitAfterFailures(again, t, failures - 1);
      Onward(s, again, end);
    }
  }

  /** The ledger once the pending block is finished and stored. */
  function PendingStored(l: Ledger, timestamp: nat): Ledger {
    var number := l.pending.info.number;
    l.(pending := Block(BlockInfo(number + 1, timestamp), []), chain := l.chain + [l.pending], mined := number,
       finished := l.finished + [l.pending], phase := Empty)
  }

  lemma FinishThePending(s: State, t: ThreadId, timestamp: nat) returns (next: State)
    requires Alone(s, t) && s.threads[t].pc.FinishPending?
    ensures Reaches(s, next) && Alone(next, t)
    ensures next.threads[t].pc == WantCommit(s.threads[t].pc.ctx, s.ledger.pending)
    ensures next.ledger == FinishBlock(s.ledger, timestamp)
  {
    var mined := Go(s, t, timestamp, true);
    next := Go(mined, t, 0, true);
    Onward(s, mined, next);
  }

  lemma ToThePending(s: State, t: ThreadId) returns (next: State)
    requires Alone(s, t) && s.threads[t].pc.WantMineAndCommit?
    ensures Reaches(s, next) && Alone(next, t) && next.ledger == s.ledger
    ensures next.threads[t].pc == FinishPending(s.threads[t].pc.ctx)
  {
    var outer := Take(s, t);
    next := Take(outer, t);
    Onward(s, outer, next);
  }

  lemma MineAndCommit(s: State, t: ThreadId, timestamp: nat, failures: nat) returns (end: State)
    requires Alone(s, t) && s.threads[t].pc.WantMineAndCommit? && !s.ledger.lost
    requires failures > 0 ==> s.threads[t].pc.ctx.retry
    ensures Reaches(s, end) && Alone(end, t) && end.threads[t].pc == Done(Success)
    ensures end.ledger == PendingStored(s.ledger, timestamp)
  {
    var locked := ToThePending(s, t);
    var finished := FinishThePending(locked, t, timestamp);
    end := CommitAfterFailures(finished, t, failures);
    Onward(s, locked, finished);
    Onward(s, finished, end);
  }

  /** Every thread is through. */
  ghost predicate Quiet(s: State) {
    Inv(s) && forall u | u in s.threads :: s.threads[u].pc.Done?
  }

  ghost predicate IsThrough(s: State, t: ThreadId) {
    Quiet(s) && t in s.threads && s.threads[t].pc == Done(Success)
  }

  lemma Begin(s: State, t: ThreadId, job: Job) returns (next: State)
    requires Quiet(s) && t !in s.threads
    ensures Reaches(s, next) && Alone(next, t)
    ensures next.ledger == s.ledger && next.threads[t] == StartOf(job)
  {
    StepPreservesInv(s, Spawn(t, job));
    OneStep(s, Spawn(t, job));
    next := Apply(s, Spawn(t, job));
  }

  /**
   Mining once, and a tick of the interval miner however often the database refuses the batch, store
   the pending block.
   */
  lemma MiningStoresThePendingBlock(s: State, t: ThreadId, job: Job, timestamp: nat, failures: nat)
    returns (end: State)
    requires Quiet(s) && t !in s.threads && !s.ledger.lost
    requires job == IntervalTick || (job == MineOnce && failures == 0)
    ensures Reaches(s, end) && IsThrough(end, t)
    ensures end.ledger == PendingStored(s.ledger, timestamp)
  {
    var started := Begin(s, t, job);
    end := MineAndCommit(started, t, timestamp, failures);
    Onward(s, started, end);
  }

  function WithAccepted(l: Ledger, tx: Tx): Ledger {
    l.(pending := Block(l.pending.info, Push(l.pending.txs, tx)), accepted := l.accepted + [tx])
  }

  /** With automine the save happens under a lock of its own, and the block is mined and stored. */
  lemma SaveAndMine(s: State, t: ThreadId, timestamp: nat) returns (end: State)
    requires Alone(s, t) && s.threads[t].pc == WantSave(s.ledger.pending.info) && !s.ledger.lost
    ensures Reaches(s, end) && IsThrough(end, t)
    ensures end.ledger == PendingStored(Accept(s.ledger, Tx(s.threads[t].hash, s.ledger.pending.info)), timestamp)
  {
    var locked := Take(s, t);
    var saved := Go(locked, t, 0, true);
    end := MineAndCommit(saved, t, timestamp, 0);
    Onward(s, locked, saved);
    Onward(s, saved, end);
  }

  lemma SaveOnly(s: State, t: ThreadId) returns (end: State)
    requires Alone(s, t) && s.threads[t].pc == Save(s.ledger.pending.info, false)
    ensures Reaches(s, end) && IsThrough(end, t)
    ensures end.ledger == Accept(s.ledger, Tx(s.threads[t].hash, s.ledger.pending.info))
  {
    end := Go(s, t, 0, true);
  }

  lemma Execute(s: State, t: ThreadId, hash: nat, max: nat, automine: bool) returns (next: State)
    requires Quiet(s) && t !in s.threads
    ensures Reaches(s, next) && Alone(next, t) && next.ledger == s.ledger && next.threads[t].hash == hash
    ensures var info := s.ledger.pending.info;
      next.threads[t].pc == if automine then WantSave(info) else Save(info, false)
  {
    var started := Begin(s, t, SendTransaction(hash, max));
    next := Go(started, t, 0, automine);
    Onward(s, started, next);
  }

  /** A transaction is executed once, for the pending block, and accepted; automine stores it as well. */
  lemma SendingStoresTheTransaction(s: State, t: ThreadId, hash: nat, max: nat, automine: bool, timestamp: nat)
    returns (end: State)
    requires Quiet(s) && t !in s.threads && !s.ledger.lost
    ensures Reaches(s, end) && IsThrough(end, t)
    ensures var accepted := WithAccepted(s.ledger, Tx(hash, s.ledger.pending.info));
      end.ledger == if automine then PendingStored(accepted, timestamp) else accepted
  {
    var executed := Execute(s, t, hash, max, automine);
    if automine {
      end := SaveAndMine(executed, t, timestamp);
    } else {
      end := SaveOnly(executed, t);
    }
    Onward(s, executed, end);
  }

  predicate TakesAll(pc: Pc) {
    || pc.ResetWantSave? || pc.ResetWantMineAndCommit? || pc.ResetWantMine? || pc.ResetWantCommit?
    || pc.ResetWantState?
  }

  lemma TakesInOrder(pc: Pc)
    requires TakesAll(pc)
    ensures Wants(pc).Some?
    ensures if pc == ResetWantState then Acquired(pc) == Reset
            else TakesAll(Acquired(pc)) && Rank(Wants(pc).value) < Rank(Wants(Acquired(pc)).value)
  {
  }

  lemma {:induction false} TakeAll(s: State, t: ThreadId) returns (end: State)
    requires Alone(s, t) && TakesAll(s.threads[t].pc)
    ensures Reaches(s, end) && Alone(end, t) && end.ledger == s.ledger && end.threads[t].pc == Reset
    decreases 6 - Rank(Wants(s.threads[t].pc).value)
  {
    TakesInOrder(s.threads[t].pc);
    var next := Take(s, t);
    if s.threads[t].pc == ResetWantState {
      end := next;
    } else {
      end := TakeAll(next, t);
      Onward(s, next, end);
    }
  }

  const ALL_LOCKS: set<Lock> := {SaveExecution, Lock.MineAndCommit, Mine, Commit, StateWrite}

  lemma LeaveInside(s: State, t: ThreadId) returns (end: State)
    requires Alone(s, t) && (s.threads[t].pc == Reset || s.threads[t].pc == Reading)
    ensures ClaimsOf(s)[t].held == if s.threads[t].pc == Reading then {StateRead} else ALL_LOCKS
    ensures Reaches(s, end) && IsThrough(end, t) && end.ledger == s.ledger
  {
    assert ThreadOk(s, t, s.threads[t]);
    end := Go(s, t, 0, true);
  }

  lemma ReadersPass(th: Thread)
    requires th.held == Holds(th.pc) && (th.pc.Done? || th.pc == Reading || th.pc == WantRead)
    ensures !Blocks(StateRead, ClaimOf(th))
  {
  }

  /** A second reader gets in beside the first. */
  lemma ReadersShare(s: State, t: ThreadId)
    requires Inv(s) && t in s.threads && s.threads[t].pc == WantRead
    requires forall u | u in s.threads && u != t :: s.threads[u].pc.Done? || s.threads[u].pc.Reading?
    ensures Enabled(s, Acquire(t)) && Apply(s, Acquire(t)).threads[t].pc == Reading
    ensures forall u | u in s.threads && u != t :: Apply(s, Acquire(t)).threads[u] == s.threads[u]
  {
    forall u | u in s.threads ensures !Blocks(StateRead, ClaimsOf(s)[u]) {
      assert ThreadOk(s, u, s.threads[u]);
      ReadersPass(s.threads[u]);
    }
  }

  /** A reset comes to hold every lock, and a reader the state lock; here they change nothing. */
  lemma OthersGetThrough(s: State, t: ThreadId, job: Job) returns (inside: State, end: State)
    requires Quiet(s) && t !in s.threads && (job == ResetStorage || job == ReadLatest)
    ensures Reaches(s, inside) && Reaches(inside, end) && IsThrough(end, t) && end.ledger == s.ledger
    ensures t in inside.threads
    ensures ClaimsOf(inside)[t].held == if job == ReadLatest then {StateRead} else ALL_LOCKS
  {
    var started := Begin(s, t, job);
    if job == ResetStorage {
      inside := TakeAll(started, t);
    } else {
      inside := Take(started, t);
    }
    Onward(s, started, inside);
    end := LeaveInside(inside, t);
  }
}
