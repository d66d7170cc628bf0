/**
 What the runs of the mining protocol leave behind, told by the calls that were made: which transactions
 a block holds and in which order, what a sender is told, and how often it executes.
 */
module MiningHistory {
  import opened Common
  import opened Locks
  import opened Mining

  // ----- the order of transactions in a block -----

  /** Of the accepted transactions, those executed for a header. */
  function For(accepted: seq<Tx>, info: BlockInfo): seq<Tx> {
    if accepted == [] then []
    else
      var last := accepted[|accepted| - 1];
      For(accepted[..|accepted| - 1], info) + if last.input == info then [last] else []
  }

  function PushAll(txs: seq<Tx>): seq<Tx> {
    if txs == [] then [] else Push(PushAll(txs[..|txs| - 1]), txs[|txs| - 1])
  }

  /** A new hash goes last, a known one keeps its place, and nothing else moves. */
  lemma {:induction false} PushKeepsPlaces(txs: seq<Tx>, tx: Tx)
    ensures !HasHash(txs, tx.hash) ==> Push(txs, tx) == txs + [tx]
    ensures HasHash(txs, tx.hash) ==>
      exists i :: 0 <= i < |txs| && txs[i].hash == tx.hash && Push(txs, tx) == txs[i := tx]
  {
    if txs == [] {
    } else if txs[0].hash == tx.hash {
      assert Push(txs, tx) == txs[0 := tx];
    } else {
      PushKeepsPlaces(txs[1..], tx);
      HasHashSplit(txs, tx.hash);
      if HasHash(txs[1..], tx.hash) {
        var i :| 0 <= i < |txs[1..]| && txs[1..][i].hash == tx.hash && Push(txs[1..], tx) == txs[1..][i := tx];
        assert Push(txs, tx) == txs[i + 1 := tx];
      } else {
        assert txs == [txs[0]] + txs[1..];
      }
    }
  }

  /** The block holds the accepted transactions of its header, pushed in the order of acceptance. */
  predicate Replays(b: Block, accepted: seq<Tx>) {
    b.txs == PushAll(For(accepted, b.info))
  }

  ghost predicate AllReplay(l: Ledger) {
    Replays(l.pending, l.accepted) && forall i | 0 <= i < |l.finished| :: Replays(l.finished[i], l.accepted)
  }

  lemma ForAppend(accepted: seq<Tx>, tx: Tx, info: BlockInfo)
    ensures For(accepted + [tx], info) == For(accepted, info) + if tx.input == info then [tx] else []
  {
    assert (accepted + [tx])[..|accepted|] == accepted;
  }

  lemma PushAllAppend(txs: seq<Tx>, tx: Tx)
    ensures PushAll(txs + [tx]) == Push(PushAll(txs), tx)
  {
    assert (txs + [tx])[..|txs|] == txs;
  }

  lemma AcceptReplays(l: Ledger, tx: Tx)
    requires AllReplay(l) && BlocksOk(l) && tx.input == l.pending.info
    ensures AllReplay(Accept(l, tx))
  {
    ForAppend(l.accepted, tx, l.pending.info);
    PushAllAppend(For(l.accepted, l.pending.info), tx);
    forall i | 0 <= i < |l.finished| ensures Replays(l.finished[i], l.accepted + [tx]) {
      ForAppend(l.accepted, tx, l.finished[i].info);
      assert l.finished[i].info.number != tx.input.number && Replays(l.finished[i], l.accepted);
      assert For(l.accepted, l.finished[i].info) + [] == For(l.accepted, l.finished[i].info);
    }
  }

  lemma {:induction false} NothingForLater(accepted: seq<Tx>, info: BlockInfo)
    requires forall i | 0 <= i < |accepted| :: accepted[i].input.number < info.number
    ensures For(accepted, info) == []
  {
    if accepted == [] {
    } else {
      NothingForLater(accepted[..|accepted| - 1], info);
    }
  }

  lemma FinishReplays(l: Ledger, timestamp: nat)
    requires AllReplay(l) && LedgerOk(l)
    ensures AllReplay(FinishBlock(l, timestamp))
  {
    var l' := FinishBlock(l, timestamp);
    forall i | 0 <= i < |l.accepted| ensures l.accepted[i].input.number < l'.pending.info.number {
      assert Settled(l, l.accepted[i]);
    }
    NothingForLater(l.accepted, l'.pending.info);
  }

  lemma OthersReplay(l: Ledger, th: Thread, timestamp: nat, choice: bool)
    requires AllReplay(l) && !th.pc.FinishPending? && !(th.pc.Save? && th.pc.info == l.pending.info)
    ensures AllReplay(NextLedger(l, th, timestamp, choice))
  {
    var l' := NextLedger(l, th, timestamp, choice);
    assert l'.pending == l.pending && l'.finished == l.finished && l'.accepted == l.accepted;
  }

  lemma NextReplays(l: Ledger, th: Thread, timestamp: nat, choice: bool)
    requires LedgerOk(l) && AllReplay(l)
    ensures AllReplay(NextLedger(l, th, timestamp, choice))
  {
    if th.pc.FinishPending? {
      FinishReplays(l, timestamp);
    } else if th.pc.Save? && th.pc.info == l.pending.info {
      AcceptReplays(l, Tx(th.hash, th.pc.info));
    } else {
      OthersReplay(l, th, timestamp, choice);
    }
  }

  lemma StepReplays(s: State, step: Step)
    requires Inv(s) && Enabled(s, step) && AllReplay(s.ledger)
    ensures AllReplay(Apply(s, step).ledger)
  {
    if step.Act? { NextReplays(s.ledger, s.threads[step.t], step.timestamp, step.choice); }
  }

  lemma {:induction false} RunReplays(s: State, steps: seq<Step>)
    requires Inv(s) && ValidRun(s, steps) && AllReplay(s.ledger)
    ensures AllReplay(Run(s, steps).ledger)
    decreases |steps|
  {
    if steps == [] {
    } else {
      StepReplays(s, steps[0]);
      StepPreservesInv(s, steps[0]);
      RunReplays(Apply(s, steps[0]), steps[1..]);
    }
  }

  /** Every block the run stores holds its transactions in the order in which their saves were accepted. */
  lemma StoredBlocksReplayAccepted(start: State, steps: seq<Step>, n: nat)
    requires Init(start) && ValidRun(start, steps)
    requires |start.ledger.chain| <= n < |Run(start, steps).ledger.chain|
    ensures var l := Run(start, steps).ledger; Replays(l.chain[n], l.accepted)
  {
    RunReplays(start, steps);
    StoredIsFinished(start, steps, n);
  }

  // ----- what a sender is told -----

  /** How often a thread executes its transaction in a run. */
  ghost function Executions(s: State, steps: seq<Step>, t: ThreadId): nat
    requires ValidRun(s, steps)
    decreases |steps|
  {
    if steps == [] then 0
    else
      (if steps[0].Act? && steps[0].t == t && s.threads[t].pc.ReadHeader? then 1 else 0)
      + Executions(Apply(s, steps[0]), steps[1..], t)
  }

  ghost function AttemptsOf(s: State, t: ThreadId): nat {
    if t in s.threads then s.threads[t].attempts else 0
  }

  lemma {:induction false} AttemptsCountExecutions(s: State, steps: seq<Step>, t: ThreadId)
    requires ValidRun(s, steps)
    ensures AttemptsOf(Run(s, steps), t) == AttemptsOf(s, t) + Executions(s, steps, t)
    decreases |steps|
  {
    if steps == [] {
    } else {
      var next := Apply(s, steps[0]);
      assert AttemptsOf(next, t) == AttemptsOf(s, t)
        + if steps[0].Act? && steps[0].t == t && s.threads[t].pc.ReadHeader? then 1 else 0;
      AttemptsCountExecutions(next, steps[1..], t);
    }
  }

  predicate HasSaved(pc: Pc) {
    pc == Done(Success) || pc == Done(CommitError) || (!pc.Done? && !pc.ReadHeader? && !pc.WantSave? && !pc.Save?)
  }

  /** The thread sends this transaction, and what it has come to agrees with what was accepted. */
  ghost predicate SenderOk(l: Ledger, th: Thread, hash: nat, max: nat) {
    && th.hash == hash && th.maxAttempts == max
    && (HasSaved(th.pc) ==> exists i :: 0 <= i < |l.accepted| && l.accepted[i].hash == hash)
    && (th.pc == Done(InputMismatch) ==> th.attempts == AttemptLimit(max))
    && (th.pc.Save? ==> th.attempts > 0)
    && (th.pc.WantSave? ==> th.attempts > 0)
  }

  lemma AcceptedStays(l: Ledger, th: Thread, hash: nat, max: nat, l': Ledger)
    requires SenderOk(l, th, hash, max) && l.accepted <= l'.accepted
    ensures SenderOk(l', th, hash, max)
  {
    if i :| 0 <= i < |l.accepted| && l.accepted[i].hash == hash {
      assert l'.accepted[i] == l.accepted[i];
    }
  }

  lemma SenderActs(l: Ledger, th: Thread, timestamp: nat, choice: bool, hash: nat, max: nat)
    requires SenderOk(l, th, hash, max) && Wants(th.pc).None? && !th.pc.Done?
    requires th.attempts <= AttemptLimit(max) && (th.pc == ReadHeader ==> th.attempts < AttemptLimit(max))
    ensures SenderOk(NextLedger(l, th, timestamp, choice), WithPc(th, NextPc(l, th, choice)), hash, max)
  {
    var l' := NextLedger(l, th, timestamp, choice);
    assert l.accepted <= l'.accepted;
    AcceptedStays(l, th, hash, max, l');
    if th.pc.Save? && th.pc.info == l.pending.info {
      assert l'.accepted[|l.accepted|].hash == hash;
    }
  }

  lemma AcceptedGrows(l: Ledger, th: Thread, timestamp: nat, choice: bool)
    ensures l.accepted <= NextLedger(l, th, timestamp, choice).accepted
  {
  }

  /** Taking a lock does not change whether the thread has saved. */
  lemma SenderAcquires(l: Ledger, th: Thread, hash: nat, max: nat)
    requires SenderOk(l, th, hash, max) && Wants(th.pc).Some?
    ensures SenderOk(l, WithPc(th, Acquired(th.pc)), hash, max)
  {
  }

  lemma StepKeepsSender(s: State, step: Step, t: ThreadId, hash: nat, max: nat)
    requires Inv(s) && Enabled(s, step) && t in s.threads && SenderOk(s.ledger, s.threads[t], hash, max)
    ensures t in Apply(s, step).threads && SenderOk(Apply(s, step).ledger, Apply(s, step).threads[t], hash, max)
  {
    match step
    case Spawn(_, _) =>
    case Acquire(u) => if u == t { SenderAcquires(s.ledger, s.threads[t], hash, max); }
    case Act(u, timestamp, choice) =>
      if u == t {
        assert ThreadOk(s, t, s.threads[t]);
        SenderActs(s.ledger, s.threads[t], timestamp, choice, hash, max);
      } else {
        AcceptedGrows(s.ledger, s.threads[u], timestamp, choice);
        AcceptedStays(s.ledger, s.threads[t], hash, max, Apply(s, step).ledger);
      }
  }

  lemma {:induction false} RunKeepsSender(s: State, steps: seq<Step>, t: ThreadId, hash: nat, max: nat)
    requires Inv(s) && ValidRun(s, steps) && t in s.threads && SenderOk(s.ledger, s.threads[t], hash, max)
    ensures t in Run(s, steps).threads && SenderOk(Run(s, steps).ledger, Run(s, steps).threads[t], hash, max)
    decreases |steps|
  {
    if steps == [] {
    } else {
      StepKeepsSender(s, steps[0], t, hash, max);
      StepPreservesInv(s, steps[0]);
      RunKeepsSender(Apply(s, steps[0]), steps[1..], t, hash, max);
    }
  }

  /**
   In every run: a sender that is told of success, or of an error while mining, has had its transaction
   accepted; it executes at most as often as allowed, and exactly so often when told of a mismatch.
   */
  lemma SendersAreToldTheTruth(
    start: State, before: seq<Step>, t: ThreadId, hash: nat, max: nat, after: seq<Step>)
    requires Init(start) && ValidRun(start, before) && t !in Run(start, before).threads
    requires ValidRun(Apply(Run(start, before), Spawn(t, SendTransaction(hash, max))), after)
    ensures var sent := Apply(Run(start, before), Spawn(t, SendTransaction(hash, max)));
      var end := Run(sent, after);
      && t in end.threads
      && (end.threads[t].pc == Done(Success) || end.threads[t].pc == Done(CommitError) ==>
          exists i :: 0 <= i < |end.ledger.accepted| && end.ledger.accepted[i].hash == hash)
      && Executions(sent, after, t) <= AttemptLimit(max)
      && (end.threads[t].pc == Done(InputMismatch) ==> Executions(sent, after, t) == AttemptLimit(max))
  {
    RunPreservesInv(start, before);
    var s := Run(start, before);
    StepPreservesInv(s, Spawn(t, SendTransaction(hash, max)));
    var sent := Apply(s, Spawn(t, SendTransaction(hash, max)));
    RunKeepsSender(sent, after, t, hash, max);
    AttemptsCountExecutions(sent, after, t);
    RunPreservesInv(sent, after);
    assert ThreadOk(Run(sent, after), t, Run(sent, after).threads[t]);
  }

  // ----- readers and writers -----

  /** While a block is written nobody reads the latest state under its lock. */
  ghost predicate ReadersOut(s: State) {
    forall t, u | t in s.threads && u in s.threads ::
      !(StateWrite in s.threads[t].held && s.threads[u].pc.Reading?)
  }

  lemma AcquireKeepsReadersOut(s: State, t: ThreadId)
    requires Inv(s) && ReadersOut(s) && Enabled(s, Acquire(t))
    ensures ReadersOut(Apply(s, Acquire(t)))
  {
    var th := s.threads[t];
    assert ThreadOk(s, t, th);
    HoldsOfAcquired(th.pc);
    forall u | u in s.threads ensures !Blocks(Wants(th.pc).value, ClaimOf(s.threads[u])) {
      assert ClaimsOf(s)[u] == ClaimOf(s.threads[u]);
    }
    WriterOrReader(th.pc);
  }

  /** The state lock is acquired in the form that is wanted. */
  lemma WriterOrReader(pc: Pc)
    requires Wants(pc).Some?
    ensures StateWrite in Holds(Acquired(pc)) ==> Wants(pc) == Some(StateWrite) || StateWrite in Holds(pc)
    ensures Acquired(pc) == Reading ==> Wants(pc) == Some(StateRead)
    ensures StateWrite !in Holds(pc)
  {
  }

  lemma NobodyActsIntoReading(l: Ledger, th: Thread, choice: bool)
    requires Wants(th.pc).None?
    ensures NextPc(l, th, choice) != Reading
  {
  }

  lemma ActKeepsReadersOut(s: State, t: ThreadId, timestamp: nat, choice: bool)
    requires Inv(s) && ReadersOut(s) && Enabled(s, Act(t, timestamp, choice))
    ensures ReadersOut(Apply(s, Act(t, timestamp, choice)))
  {
    assert ThreadOk(s, t, s.threads[t]);
    HoldsOfNext(s.ledger, s.threads[t], choice);
    NobodyActsIntoReading(s.ledger, s.threads[t], choice);
  }

  lemma StepKeepsReadersOut(s: State, step: Step)
    requires Inv(s) && ReadersOut(s) && Enabled(s, step)
    ensures ReadersOut(Apply(s, step))
  {
    match step
    case Spawn(_, _) =>
    case Acquire(t) => AcquireKeepsReadersOut(s, t);
    case Act(t, timestamp, choice) => ActKeepsReadersOut(s, t, timestamp, choice);
  }

  lemma {:induction false} WritersExcludeReaders(s: State, steps: seq<Step>)
    requires Inv(s) && ReadersOut(s) && ValidRun(s, steps)
    ensures ReadersOut(Run(s, steps))
    decreases |steps|
  {
    if steps == [] {
    } else {
      StepKeepsReadersOut(s, steps[0]);
      StepPreservesInv(s, steps[0]);
      WritersExcludeReaders(Apply(s, steps[0]), steps[1..]);
    }
  }
}
