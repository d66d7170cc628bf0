/**
 The counting semaphore: a permit counter behind a mutex, with a condition variable on which
 threads sleep while there is no permit. Every step below is one that can be observed from outside
 the mutex or inside it; waking up without being notified is allowed at any time.
 Source: src/utils.rs.
 */
module CountingSemaphore {

  type Thread = nat

  /** The mutex and what the thread that has it is about to do. */
  datatype Critical =
    | Free
    | Checking(thread: Thread, wasWoken: bool)  // at the head of the wait loop
    | Taken(thread: Thread)                     // has a permit, still has the mutex
    | Returned(thread: Thread)                  // has given the permit back, has not notified
    | Notified(thread: Thread)                  // still has the mutex

  datatype State = State(
    permits: nat,
    critical: Critical,
    entering: set<Thread>,  // want the mutex to acquire
    sleeping: set<Thread>,  // wait on the condition variable
    woken: set<Thread>,     // woken, want the mutex back
    holding: set<Thread>,   // have a permit
    leaving: set<Thread>)   // want the mutex to release

  datatype Step =
    | Acquire(thread: Thread)
    | LockToAcquire(thread: Thread)
    | Relock(thread: Thread)
    | Check
    | FinishAcquire
    | Release(thread: Thread)
    | LockToRelease(thread: Thread)
    | Notify(thread: Thread)
    | NotifyNobody
    | FinishRelease
    | WakeSpuriously(thread: Thread)

  function Busy(c: Critical): set<Thread> {
    if c.Free? then {} else {c.thread}
  }

  function Known(s: State): set<Thread> {
    Busy(s.critical) + s.entering + s.sleeping + s.woken + s.holding + s.leaving
  }

  predicate Enabled(s: State, step: Step) {
    match step
    case Acquire(t) => t !in Known(s)
    case LockToAcquire(t) => s.critical.Free? && t in s.entering
    case Relock(t) => s.critical.Free? && t in s.woken
    case Check => s.critical.Checking?
    case FinishAcquire => s.critical.Taken?
    case Release(t) => t in s.holding
    case LockToRelease(t) => s.critical.Free? && t in s.leaving
    case Notify(t) => s.critical.Returned? && t in s.sleeping
    case NotifyNobody => s.critical.Returned? && s.sleeping == {}
    case FinishRelease => s.critical.Notified?
    case WakeSpuriously(t) => t in s.sleeping
  }

  function Apply(s: State, step: Step): State
    requires Enabled(s, step)
  {
    match step
    case Acquire(t) => s.(entering := s.entering + {t})
    case LockToAcquire(t) => s.(critical := Checking(t, false), entering := s.entering - {t})
    case Relock(t) => s.(critical := Checking(t, true), woken := s.woken - {t})
    case Check =>
      if s.permits == 0 then s.(critical := Free, sleeping := s.sleeping + {s.critical.thread})
      else s.(critical := Taken(s.critical.thread), permits := s.permits - 1)
    case FinishAcquire => s.(critical := Free, holding := s.holding + {s.critical.thread})
    case Release(t) => s.(holding := s.holding - {t}, leaving := s.leaving + {t})
    case LockToRelease(t) => s.(critical := Returned(t), leaving := s.leaving - {t}, permits := s.permits + 1)
    case Notify(t) =>
      s.(critical := Notified(s.critical.thread), sleeping := s.sleeping - {t}, woken := s.woken + {t})
    case NotifyNobody => s.(critical := Notified(s.critical.thread))
    case FinishRelease => s.(critical := Free)
    case WakeSpuriously(t) => s.(sleeping := s.sleeping - {t}, woken := s.woken + {t})
  }

  predicate ValidRun(s: State, steps: seq<Step>)
    decreases |steps|
  {
    steps == [] || (Enabled(s, steps[0]) && ValidRun(Apply(s, steps[0]), steps[1..]))
  }

  function Run(s: State, steps: seq<Step>): State
    requires ValidRun(s, steps)
    decreases |steps|
  {
    if steps == [] then s else Run(Apply(s, steps[0]), steps[1..])
  }

  function Init(permits: nat): State {
    State(permits, Free, {}, {}, {}, {}, {})
  }

  // ----- invariant -----

  /** A thread is in one place at a time. */
  predicate Apart(s: State) {
    && s.entering !! s.sleeping !! s.woken !! s.holding !! s.leaving
    && Busy(s.critical) !! (s.entering + s.sleeping + s.woken + s.holding + s.leaving)
  }

  /** Threads that have a permit, whether or not they are on their way in or out. */
  function Holders(s: State): nat {
    |s.holding| + |s.leaving| + if s.critical.Taken? then 1 else 0
  }

  predicate Conserved(s: State, total: nat) {
    s.permits + Holders(s) == total
  }

  /** Woken waiters that have not looked at the counter again, and a notification that is due. */
  function OnTheirWay(s: State): nat {
    |s.woken| + if (s.critical.Checking? && s.critical.wasWoken) || s.critical.Returned? then 1 else 0
  }

  /** A free permit never goes unnoticed while a thread sleeps. */
  predicate NoLostWakeup(s: State) {
    s.sleeping != {} ==> s.permits <= OnTheirWay(s)
  }

  predicate Inv(s: State, total: nat) {
    Apart(s) && Conserved(s, total) && NoLostWakeup(s)
  }

  lemma StepKeepsApart(s: State, step: Step)
    requires Apart(s) && Enabled(s, step)
    ensures Apart(Apply(s, step))
  {
  }

  lemma StepConserves(s: State, step: Step, total: nat)
    requires Conserved(s, total) && Enabled(s, step)
    requires s.holding !! s.leaving && Busy(s.critical) !! s.holding
    ensures Conserved(Apply(s, step), total)
  {
    match step
    case FinishAcquire => assert |s.holding + {s.critical.thread}| == |s.holding| + 1;
    case Release(t) =>
      assert |s.holding - {t}| == |s.holding| - 1;
      assert |s.leaving + {t}| == |s.leaving| + 1;
    case LockToRelease(t) => assert |s.leaving - {t}| == |s.leaving| - 1;
    case _ =>
  }

  lemma StepLosesNoWakeup(s: State, step: Step)
    requires NoLostWakeup(s) && Enabled(s, step) && s.sleeping !! s.woken
    ensures NoLostWakeup(Apply(s, step))
  {
    match step
    case Relock(t) => assert |s.woken - {t}| == |s.woken| - 1;
    case Notify(t) => assert |s.woken + {t}| == |s.woken| + 1;
    case WakeSpuriously(t) => assert |s.woken + {t}| == |s.woken| + 1;
    case _ =>
  }

  lemma StepKeepsInv(s: State, step: Step, total: nat)
    requires Inv(s, total) && Enabled(s, step)
    ensures Inv(Apply(s, step), total)
  {
    StepKeepsApart(s, step);
    StepConserves(s, step, total);
    StepLosesNoWakeup(s, step);
  }

  lemma {:induction false} RunKeepsInv(s: State, steps: seq<Step>, total: nat)
    requires Inv(s, total) && ValidRun(s, steps)
    ensures Inv(Run(s, steps), total)
    decreases |steps|
  {
    if steps == [] {
    } else {
      StepKeepsInv(s, steps[0], total);
      RunKeepsInv(Apply(s, steps[0]), steps[1..], total);
    }
  }

  // ----- what it guarantees -----

  /** In every interleaving, free permits and permits in use add up to the initial count. */
  lemma PermitsAreConserved(total: nat, steps: seq<Step>)
    requires ValidRun(Init(total), steps)
    ensures var s := Run(Init(total), steps); s.permits + Holders(s) == total && |s.holding| <= total
  {
    RunKeepsInv(Init(total), steps, total);
  }

  /**
   In every interleaving, barging acquirers included: while a thread sleeps, at least as many woken
   waiters are on their way to the counter as there are free permits, a notification that is due
   standing for one of them.
   */
  lemma NoWakeupIsLost(total: nat, steps: seq<Step>)
    requires ValidRun(Init(total), steps)
    ensures var s := Run(Init(total), steps); s.sleeping != {} ==> s.permits <= OnTheirWay(s)
  {
    RunKeepsInv(Init(total), steps, total);
  }

  /** A step of a thread that is awake: neither a new caller nor an unprompted wakeup. */
  predicate Progress(s: State, step: Step) {
    Enabled(s, step) && !step.Acquire? && !step.WakeSpuriously?
  }

  /** Nobody waits for nothing: with a permit in the world, some thread that is awake can step. */
  lemma SomeThreadCanStep(total: nat, steps: seq<Step>)
    requires total > 0 && ValidRun(Init(total), steps)
    requires var s := Run(Init(total), steps); Known(s) != {}
    ensures exists step :: Progress(Run(Init(total), steps), step)
  {
    RunKeepsInv(Init(total), steps, total);
    var s := Run(Init(total), steps);
    var step := AwakeStep(s, total);
    assert Progress(s, step);
  }

  /** The step: the mutex owner's, or else that of a thread that wants the mutex or has a permit. */
  lemma AwakeStep(s: State, total: nat) returns (step: Step)
    requires Inv(s, total) && total > 0 && Known(s) != {}
    ensures Progress(s, step)
  {
    match s.critical
    case Checking(_, _) => step := Check;
    case Taken(_) => step := FinishAcquire;
    case Notified(_) => step := FinishRelease;
    case Returned(_) =>
      if s.sleeping == {} {
        step := NotifyNobody;
      } else {
        var t :| t in s.sleeping;
        step := Notify(t);
      }
    case Free =>
      if s.entering != {} {
        var t :| t in s.entering;
        step := LockToAcquire(t);
      } else if s.woken != {} {
        var t :| t in s.woken;
        step := Relock(t);
      } else if s.leaving != {} {
        var t :| t in s.leaving;
        step := LockToRelease(t);
      } else {
        assert s.holding != {};
        var t :| t in s.holding;
        step := Release(t);
      }
  }

  // ----- what the two operations come to -----

  /** Nobody appears but by acquiring, and nobody leaves but at the end of a release. */
  lemma NobodyVanishes(s: State, step: Step)
    requires Apart(s) && Enabled(s, step)
    ensures Known(Apply(s, step)) ==
            match step
            case Acquire(t) => Known(s) + {t}
            case FinishRelease => Known(s) - {s.critical.thread}
            case _ => Known(s)
  {
    match step
    case Acquire(t) => assert Known(Apply(s, step)) == Known(s) + {t};
    case FinishRelease => assert Known(Apply(s, step)) == Known(s) - {s.critical.thread};
    case _ => assert Known(Apply(s, step)) == Known(s);
  }

  predicate Leads(s: State, steps: seq<Step>, end: State) {
    ValidRun(s, steps) && Run(s, steps) == end
  }

  lemma OnceMore(s: State, step: Step, rest: seq<Step>, end: State)
    requires Enabled(s, step) && Leads(Apply(s, step), rest, end)
    ensures Leads(s, [step] + rest, end)
  {
    assert ([step] + rest)[1..] == rest;
  }

  /** A thread with the mutex takes a free permit, or goes to sleep. */
  function Looked(s: State, t: Thread): State {
    if s.permits > 0 then s.(critical := Free, permits := s.permits - 1, holding := s.holding + {t})
    else s.(critical := Free, sleeping := s.sleeping + {t})
  }

  lemma LookLeads(s: State) returns (steps: seq<Step>)
    requires s.critical.Checking?
    ensures Leads(s, steps, Looked(s, s.critical.thread))
  {
    var next := Apply(s, Check);
    if s.permits == 0 {
      OnceMore(s, Check, [], next);
      steps := [Check] + [];
    } else {
      var end := Apply(next, FinishAcquire);
      OnceMore(next, FinishAcquire, [], end);
      OnceMore(s, Check, [FinishAcquire] + [], end);
      steps := [Check] + ([FinishAcquire] + []);
    }
  }

  /** A thread that acquires while nobody has the mutex gets a permit if there is one, and sleeps if not. */
  lemma AcquireTakesAPermit(s: State, t: Thread) returns (steps: seq<Step>)
    requires s.critical.Free? && t !in Known(s)
    ensures Leads(s, steps, Looked(s, t))
  {
    var entered := Apply(s, Acquire(t));
    var locked := Apply(entered, LockToAcquire(t));
    assert entered.entering - {t} == s.entering;
    assert locked == s.(critical := Checking(t, false));
    var looks := LookLeads(locked);
    OnceMore(entered, LockToAcquire(t), looks, Looked(s, t));
    OnceMore(s, Acquire(t), [LockToAcquire(t)] + looks, Looked(s, t));
    steps := [Acquire(t)] + ([LockToAcquire(t)] + looks);
  }

  /** So does one that was woken. */
  lemma WokenTakesAPermit(s: State, t: Thread) returns (steps: seq<Step>)
    requires s.critical.Free? && t in s.woken
    ensures Leads(s, steps, Looked(s.(woken := s.woken - {t}), t))
  {
    var locked := Apply(s, Relock(t));
    var end := Looked(s.(woken := s.woken - {t}), t);
    var looks := LookLeads(locked);
    assert Looked(locked, t) == end;
    OnceMore(s, Relock(t), looks, end);
    steps := [Relock(t)] + looks;
  }

  lemma ReturnLeads(s: State, woken: set<Thread>) returns (steps: seq<Step>)
    requires s.critical.Returned?
    requires if s.sleeping == {} then woken == {} else exists u :: u in s.sleeping && woken == {u}
    ensures Leads(s, steps, s.(critical := Free, sleeping := s.sleeping - woken, woken := s.woken + woken))
  {
    var end := s.(critical := Free, sleeping := s.sleeping - woken, woken := s.woken + woken);
    if s.sleeping == {} {
      var notified := Apply(s, NotifyNobody);
      assert s.sleeping - {} == s.sleeping && s.woken + {} == s.woken;
      OnceMore(notified, FinishRelease, [], end);
      OnceMore(s, NotifyNobody, [FinishRelease] + [], end);
      steps := [NotifyNobody] + ([FinishRelease] + []);
    } else {
      var u :| u in s.sleeping && woken == {u};
      var notified := Apply(s, Notify(u));
      OnceMore(notified, FinishRelease, [], end);
      OnceMore(s, Notify(u), [FinishRelease] + [], end);
      steps := [Notify(u)] + ([FinishRelease] + []);
    }
  }

  /** A release gives the permit back and wakes one sleeper, whichever, if there is one. */
  lemma ReleaseWakesOne(s: State, t: Thread, woken: set<Thread>) returns (steps: seq<Step>)
    requires Apart(s) && s.critical.Free? && t in s.holding
    requires if s.sleeping == {} then woken == {} else exists u :: u in s.sleeping && woken == {u}
    ensures Leads(s, steps, s.(permits := s.permits + 1, holding := s.holding - {t}, sleeping := s.sleeping - woken,
                               woken := s.woken + woken))
  {
    var end := s.(permits := s.permits + 1, holding := s.holding - {t}, sleeping := s.sleeping - woken,
                  woken := s.woken + woken);
    var leaving := Apply(s, Release(t));
    var returned := Apply(leaving, LockToRelease(t));
    assert returned.leaving == s.leaving;
    var rest := ReturnLeads(returned, woken);
    OnceMore(leaving, LockToRelease(t), rest, end);
    OnceMore(s, Release(t), [LockToRelease(t)] + rest, end);
    steps := [Release(t)] + ([LockToRelease(t)] + rest);
  }

  /** A wakeup without a permit is harmless: the thread goes back to sleep. */
  lemma SpuriousWakeupIsHarmless(s: State, t: Thread) returns (steps: seq<Step>)
    requires Apart(s) && s.critical.Free? && t in s.sleeping && s.permits == 0
    ensures Leads(s, [WakeSpuriously(t)] + steps, s)
  {
    var awake := Apply(s, WakeSpuriously(t));
    steps := WokenTakesAPermit(awake, t);
    assert awake.woken - {t} == s.woken && awake.sleeping + {t} == s.sleeping;
    assert Looked(awake.(woken := awake.woken - {t}), t) == s;
    OnceMore(s, WakeSpuriously(t), steps, s);
  }
}
