/**
 Automine: when every transaction is saved with automine on, only one transaction can enter a block at a
 time, whoever else mines beside the senders.
 */
module Automining {
  import opened Common
  import opened Locks
  import opened Mining

  /** Every transaction of the run meets automine switched on. */
  ghost predicate AlwaysAutomine(s: State, steps: seq<Step>)
    requires ValidRun(s, steps)
    decreases |steps|
  {
    steps == [] ||
    (var step := steps[0];
     && (step.Act? && s.threads[step.t].pc.ReadHeader? ==> step.choice)
     && AlwaysAutomine(Apply(s, step), steps[1..]))
  }

  /** The thread has saved its transaction and not yet finished the block. */
  predicate MinesItsOwn(pc: Pc) {
    (pc.WantMineAndCommit? || pc.WantMine? || pc.FinishPending?) && pc.ctx.holdsSave
  }

  predicate SavesUnlocked(pc: Pc) {
    pc.Save? && !pc.automine
  }

  predicate AtMostOne(b: Block) {
    |b.txs| <= 1
  }

  ghost predicate OneAtATime(s: State) {
    && (forall t | t in s.threads :: !SavesUnlocked(s.threads[t].pc))
    && AtMostOne(s.ledger.pending)
    && (s.ledger.pending.txs != [] ==> exists t :: t in s.threads && MinesItsOwn(s.threads[t].pc))
    && (forall i | 0 <= i < |s.ledger.finished| :: AtMostOne(s.ledger.finished[i]))
  }

  /** A thread that is about to save under automine has the lock of whoever mines its own. */
  lemma SaverIsAlone(s: State, t: ThreadId)
    requires Inv(s) && OneAtATime(s) && t in s.threads && s.threads[t].pc.Save?
    ensures s.ledger.pending.txs == []
  {
    assert ThreadOk(s, t, s.threads[t]) && !SavesUnlocked(s.threads[t].pc);
    assert SaveExecution in s.threads[t].held;
    forall u | u in s.threads ensures !MinesItsOwn(s.threads[u].pc) {
      assert ThreadOk(s, u, s.threads[u]);
      assert u != t ==> SaveExecution !in s.threads[u].held;
    }
  }

  lemma ActKeepsOne(s: State, t: ThreadId, timestamp: nat, choice: bool)
    requires Inv(s) && OneAtATime(s) && Enabled(s, Act(t, timestamp, choice))
    requires s.threads[t].pc.ReadHeader? ==> choice
    ensures OneAtATime(Apply(s, Act(t, timestamp, choice)))
  {
    var s' := Apply(s, Act(t, timestamp, choice));
    var pc := s.threads[t].pc;
    if pc.Save? {
      SaverIsAlone(s, t);
      assert !SavesUnlocked(pc);
      if pc.info == s.ledger.pending.info { assert MinesItsOwn(s'.threads[t].pc); }
    } else if pc.FinishPending? {
      assert s'.ledger.pending.txs == [];
    } else {
      assert !MinesItsOwn(pc) && s'.ledger.pending == s.ledger.pending;
      forall u | u in s.threads && MinesItsOwn(s.threads[u].pc) ensures s'.threads[u] == s.threads[u] {}
    }
  }

  lemma AcquireKeepsOne(s: State, t: ThreadId)
    requires Inv(s) && OneAtATime(s) && Enabled(s, Acquire(t))
    ensures OneAtATime(Apply(s, Acquire(t)))
  {
    var s' := Apply(s, Acquire(t));
    if u :| u in s.threads && MinesItsOwn(s.threads[u].pc) {
      assert MinesItsOwn(s'.threads[u].pc);
    }
  }

  lemma StepKeepsOne(s: State, step: Step)
    requires Inv(s) && OneAtATime(s) && Enabled(s, step)
    requires step.Act? && s.threads[step.t].pc.ReadHeader? ==> step.choice
    ensures OneAtATime(Apply(s, step))
  {
    match step
    case Spawn(t, job) =>
      if u :| u in s.threads && MinesItsOwn(s.threads[u].pc) {
        assert MinesItsOwn(Apply(s, step).threads[u].pc);
      }
    case Acquire(t) => AcquireKeepsOne(s, t);
    case Act(t, timestamp, choice) => ActKeepsOne(s, t, timestamp, choice);
  }

  lemma {:induction false} RunKeepsOne(s: State, steps: seq<Step>)
    requires Inv(s) && OneAtATime(s) && ValidRun(s, steps) && AlwaysAutomine(s, steps)
    ensures OneAtATime(Run(s, steps))
    decreases |steps|
  {
    if steps == [] {
    } else {
      StepKeepsOne(s, steps[0]);
      StepPreservesInv(s, steps[0]);
      RunKeepsOne(Apply(s, steps[0]), steps[1..]);
    }
  }

  /** Every block of such a run, stored, finished or pending, has at most one transaction. */
  lemma AutominedBlocksHoldOne(start: State, steps: seq<Step>, n: nat)
    requires Init(start) && ValidRun(start, steps) && AlwaysAutomine(start, steps)
    ensures var l := Run(start, steps).ledger;
      && AtMostOne(l.pending)
      && (forall i | 0 <= i < |l.finished| :: AtMostOne(l.finished[i]))
      && (|start.ledger.chain| <= n < |l.chain| ==> AtMostOne(l.chain[n]))
  {
    RunKeepsOne(start, steps);
    if |start.ledger.chain| <= n < |Run(start, steps).ledger.chain| {
      StoredIsFinished(start, steps, n);
    }
  }
}
