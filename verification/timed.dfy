/**
 The `#[timed]` attribute: which statements of a function body are timing markers, what the body is
 rewritten to, and what the rewritten function does.
 Source: crates/stratus_metrics/macros/src/timed_attribute.rs, crates/stratus_metrics/src/lib.rs.

 Statements other than markers are numbered operations with any effect on the caller's world, any
 duration and any way to end. Label expressions are not part of the model.
 */
module Timed {
  import opened Common

  // ----- source: a body with markers -----

  /** `Duration` holds its expression, or nothing when its tokens are not one expression. */
  datatype Stmt =
    | Plain(op: nat)
    | Start(arguments: bool)
    | End(arguments: bool)
    | Duration(expression: Option<nat>)

  datatype Window = Window(start: Option<nat>, end: Option<nat>, duration: Option<(nat, nat)>)

  datatype MarkerError =
    | ArgumentsNotAccepted(at: nat)
    | DuplicateMarker(at: nat)
    | MissingDuration(at: nat)
    | StartNotBeforeEnd

  predicate SameMarker(a: Stmt, b: Stmt) {
    (a.Start? && b.Start?) || (a.End? && b.End?) || (a.Duration? && b.Duration?)
  }

  predicate Repeated(body: seq<Stmt>, i: nat)
    requires i < |body|
  {
    exists j | 0 <= j < i :: SameMarker(body[j], body[i])
  }

  /** What is wrong with a statement, given the ones before it. */
  ghost function Fault(body: seq<Stmt>, i: nat): Option<MarkerError>
    requires i < |body|
  {
    match body[i]
    case Plain(_) => None
    case Start(arguments) =>
      if arguments then Some(ArgumentsNotAccepted(i)) else if Repeated(body, i) then Some(DuplicateMarker(i)) else None
    case End(arguments) =>
      if arguments then Some(ArgumentsNotAccepted(i)) else if Repeated(body, i) then Some(DuplicateMarker(i)) else None
    case Duration(expression) =>
      if expression.None? then Some(MissingDuration(i))
      else if Repeated(body, i) then Some(DuplicateMarker(i))
      else None
  }

  ghost predicate NoFault(body: seq<Stmt>, n: nat)
    requires n <= |body|
  {
    forall i | 0 <= i < n :: Fault(body, i) == None
  }

  ghost predicate FirstFault(body: seq<Stmt>, e: MarkerError) {
    !e.StartNotBeforeEnd? && e.at < |body| && Fault(body, e.at) == Some(e) && NoFault(body, e.at)
  }

  /** The window names the position of each marker among the first `n` statements. */
  predicate Marks(w: Window, body: seq<Stmt>, n: nat)
    requires n <= |body|
  {
    && (w.start.Some? ==> w.start.value < n)
    && (w.end.Some? ==> w.end.value < n)
    && (w.duration.Some? ==> w.duration.value.0 < n)
    && forall i | 0 <= i < n :: MarksAt(w, i, body[i])
  }

  predicate MarksAt(w: Window, i: nat, statement: Stmt) {
    && (statement.Start? <==> w.start == Some(i))
    && (statement.End? <==> w.end == Some(i))
    && (statement.Duration? <==> w.duration.Some? && w.duration.value.0 == i)
    && (statement.Duration? ==> statement.expression == Some(w.duration.value.1))
  }

  predicate InOrder(w: Window) {
    w.start.Some? && w.end.Some? ==> w.start.value < w.end.value
  }

  /** A marker has come before exactly when the window has it. */
  lemma RepeatedIff(w: Window, body: seq<Stmt>, i: nat)
    requires i < |body| && Marks(w, body, i)
    ensures body[i].Start? ==> (Repeated(body, i) <==> w.start.Some?)
    ensures body[i].End? ==> (Repeated(body, i) <==> w.end.Some?)
    ensures body[i].Duration? ==> (Repeated(body, i) <==> w.duration.Some?)
  {
    assert body[i].Start? && w.start.Some? ==> SameMarker(body[w.start.value], body[i]);
    assert body[i].End? && w.end.Some? ==> SameMarker(body[w.end.value], body[i]);
    assert body[i].Duration? && w.duration.Some? ==> SameMarker(body[w.duration.value.0], body[i]);
  }

  /**
   The markers of a body. It is accepted exactly when no statement has a fault and the start comes
   before the end; otherwise the error is the first fault, or else that of the order.
   */
  method TimingWindow(body: seq<Stmt>) returns (r: Result<Window, MarkerError>)
    ensures r.Ok? ==> NoFault(body, |body|) && Marks(r.value, body, |body|) && InOrder(r.value)
    ensures r.Err? ==> FirstFault(body, r.error) || r.error.StartNotBeforeEnd?
    ensures r == Err(StartNotBeforeEnd) ==>
              NoFault(body, |body|) && exists i, j | 0 <= j < i < |body| :: body[i].Start? && body[j].End?
  {
    var w := Window(None, None, None);
    for i := 0 to |body|
      invariant Marks(w, body, i)
      invariant NoFault(body, i)
    {
      RepeatedIff(w, body, i);
      match body[i] {
        case Plain(_) =>
        case Start(arguments) =>
          if arguments {
            return Err(ArgumentsNotAccepted(i));
          }
          if w.start.Some? {
            return Err(DuplicateMarker(i));
          }
          w := w.(start := Some(i));
        case End(arguments) =>
          if arguments {
            return Err(ArgumentsNotAccepted(i));
          }
          if w.end.Some? {
            return Err(DuplicateMarker(i));
          }
          w := w.(end := Some(i));
        case Duration(expression) =>
          if expression.None? {
            return Err(MissingDuration(i));
          }
          if w.duration.Some? {
            return Err(DuplicateMarker(i));
          }
          w := w.(duration := Some((i, expression.value)));
      }
    }
    if w.start.Some? && w.end.Some? && w.start.value >= w.end.value {
      assert body[w.start.value].Start? && body[w.end.value].End?;
      return Err(StartNotBeforeEnd);
    }
    return Ok(w);
  }

  // ----- meaning of a body -----

  datatype Flow<V> = Continue | Return(value: V) | Panic

  datatype Effect<W, V> = Effect(world: W, took: int, flow: Flow<V>)

  type Semantics<!W, V> = (nat, W) -> Effect<W, V>

  datatype State<W> = State(world: W, time: int, trace: seq<nat>)

  function Executed<W, V>(s: State<W>, op: nat, e: Effect<W, V>): State<W> {
    State(e.world, s.time + e.took, s.trace + [op])
  }

  /** The operations of a body in order, up to the first that does not continue; markers do nothing. */
  function Exec<W, V>(sem: Semantics<W, V>, body: seq<Stmt>, s: State<W>): (State<W>, Flow<V>)
    decreases |body|
  {
    if body == [] then (s, Continue)
    else
      match body[0]
      case Plain(op) =>
        var e := sem(op, s.world);
        if e.flow.Continue? then Exec(sem, body[1..], Executed(s, op, e)) else (Executed(s, op, e), e.flow)
      case _ => Exec(sem, body[1..], s)
  }

  /** The operations of a body, without its markers. */
  function Operations(body: seq<Stmt>): seq<nat> {
    if body == [] then []
    else Operations(body[..|body| - 1]) + if body[|body| - 1].Plain? then [body[|body| - 1].op] else []
  }

  lemma {:induction false} OperationsFromFront(first: Stmt, rest: seq<Stmt>)
    ensures Operations([first] + rest) == (if first.Plain? then [first.op] else []) + Operations(rest)
    decreases |rest|
  {
    var body := [first] + rest;
    if rest == [] {
      assert body == [first] && body[..0] == [];
    } else {
      assert body[..|body| - 1] == [first] + rest[..|rest| - 1];
      OperationsFromFront(first, rest[..|rest| - 1]);
    }
  }

  /** What a body has done: its operations in order, each once, all of them if it got to its end. */
  lemma {:induction false} ExecDoesOperations<W, V>(sem: Semantics<W, V>, body: seq<Stmt>, s: State<W>) returns (n: nat)
    ensures n <= |Operations(body)| && Exec(sem, body, s).0.trace == s.trace + Operations(body)[..n]
    ensures Exec(sem, body, s).1.Continue? ==> n == |Operations(body)|
    decreases |body|
  {
    if body == [] {
      n := 0;
    } else {
      OperationsFromFront(body[0], body[1..]);
      assert body == [body[0]] + body[1..];
      if body[0].Plain? {
        var e := sem(body[0].op, s.world);
        if e.flow.Continue? {
          var m := ExecDoesOperations(sem, body[1..], Executed(s, body[0].op, e));
          n := m + 1;
          assert Operations(body)[..n] == [body[0].op] + Operations(body[1..])[..m];
        } else {
          n := 1;
        }
      } else {
        n := ExecDoesOperations(sem, body[1..], s);
        assert Operations(body) == Operations(body[1..]);
      }
    }
  }

  // ----- target: the rewritten function -----

  /** One statement of the rewritten body; the last three vanish when metrics are compiled out. */
  datatype Code = Keep(statement: Stmt) | SetStart | SetEnd | SetDuration(expression: nat)

  function CodeAt(w: Window, i: nat, statement: Stmt): Code {
    if w.start == Some(i) then SetStart
    else if w.end == Some(i) then SetEnd
    else if w.duration.Some? && w.duration.value.0 == i then SetDuration(w.duration.value.1)
    else Keep(statement)
  }

  function Rewritten(w: Window, body: seq<Stmt>): (code: seq<Code>)
    ensures |code| == |body|
    ensures forall i | 0 <= i < |body| :: code[i] == CodeAt(w, i, body[i])
  {
    seq(|body|, i requires 0 <= i < |body| => CodeAt(w, i, body[i]))
  }

  /** Variables of the instrumentation. */
  datatype Registers = Registers(start: int, end: Option<int>, duration: Option<int>)

  /** A duration expression gives a value, or leaves the body; either way it may change the world. */
  datatype Evaluated<W, V> = Value(world: W, duration: int) | Returns(world: W, value: V) | Panics(world: W)

  type Durations<!W, V> = (nat, W) -> Evaluated<W, V>

  /** What a time marker leaves in the registers, when metrics are compiled in. */
  function Touched<W>(metrics: bool, code: Code, s: State<W>, r: Registers): Registers {
    if metrics && code.SetStart? then r.(start := s.time)
    else if metrics && code.SetEnd? then r.(end := Some(s.time))
    else r
  }

  /** The body as a closure or an async block: a return leaves the block, not the function. */
  function Operate<W, V>(sem: Semantics<W, V>, durations: Durations<W, V>, metrics: bool, code: seq<Code>,
                         s: State<W>, r: Registers): (State<W>, Registers, Flow<V>)
    decreases |code|
  {
    if code == [] then (s, r, Continue)
    else
      match code[0]
      case Keep(Plain(op)) =>
        var e := sem(op, s.world);
        if e.flow.Continue? then Operate(sem, durations, metrics, code[1..], Executed(s, op, e), r)
        else (Executed(s, op, e), r, e.flow)
      case SetDuration(x) =>
        if !metrics then Operate(sem, durations, metrics, code[1..], s, r)
        else
          (match durations(x, s.world)
           case Value(world, d) =>
             Operate(sem, durations, metrics, code[1..], s.(world := world), r.(duration := Some(d)))
           case Returns(world, v) => (s.(world := world), r, Return(v))
           case Panics(world) => (s.(world := world), r, Panic))
      case marker => Operate(sem, durations, metrics, code[1..], s, Touched(metrics, marker, s, r))
  }

  /** The published duration, with `now` the time after the body. */
  function Elapsed(r: Registers, now: int): int {
    match r.duration
    case Some(d) => d
    case None => (if r.end.Some? then r.end.value else now) - r.start
  }

  datatype Outcome<W, V> = Outcome(state: State<W>, flow: Flow<V>, recorded: Option<int>)

  function Timed<W, V>(sem: Semantics<W, V>, durations: Durations<W, V>, metrics: bool, w: Window, body: seq<Stmt>,
                       s: State<W>): Outcome<W, V>
  {
    var (after, r, flow) := Operate(sem, durations, metrics, Rewritten(w, body), s, Registers(s.time, None, None));
    Outcome(after, flow, if metrics && !flow.Panic? then Some(Elapsed(r, after.time)) else None)
  }

  // ----- the rewriting preserves meaning -----

  /** The state at a marker from `i` on, if the body gets there. */
  function Seen<W, V>(sem: Semantics<W, V>, body: seq<Stmt>, i: nat, marker: Option<nat>, s: State<W>): Option<State<W>>
    requires marker.Some? ==> marker.value < |body|
  {
    if marker.Some? && i <= marker.value && Exec(sem, body[i..marker.value], s).1.Continue?
    then Some(Exec(sem, body[i..marker.value], s).0) else None
  }

  function DurationMarker(w: Window): Option<nat> {
    if w.duration.Some? then Some(w.duration.value.0) else None
  }

  /** A duration expression that only gives a value. */
  predicate Harmless<W(==), V>(durations: Durations<W, V>, x: nat, world: W) {
    durations(x, world).Value? && durations(x, world).world == world
  }

  /** From `i` on, the duration expression is harmless if it is reached. */
  predicate HarmlessFrom<W(==), V>(sem: Semantics<W, V>, durations: Durations<W, V>, w: Window, body: seq<Stmt>,
                                   i: nat, s: State<W>)
    requires Marks(w, body, |body|)
  {
    var seen := Seen(sem, body, i, DurationMarker(w), s);
    seen.Some? ==> Harmless(durations, w.duration.value.1, seen.value.world)
  }

  function DurationOf<W, V>(e: Evaluated<W, V>): int {
    if e.Value? then e.duration else 0
  }

  /** The registers a run ends with: those of the markers it got to, and otherwise what they were. */
  function Marked<W, V>(sem: Semantics<W, V>, durations: Durations<W, V>, w: Window, body: seq<Stmt>, i: nat,
                        s: State<W>, r: Registers): Registers
    requires Marks(w, body, |body|)
  {
    var start, end, duration :=
      Seen(sem, body, i, w.start, s), Seen(sem, body, i, w.end, s), Seen(sem, body, i, DurationMarker(w), s);
    Registers(
      if start.Some? then start.value.time else r.start,
      if end.Some? then Some(end.value.time) else r.end,
      if duration.Some? then Some(DurationOf(durations(w.duration.value.1, duration.value.world))) else r.duration)
  }

  /** A marker further on is seen from the next statement as from this one, if this one continues. */
  lemma SeenFromNext<W, V>(sem: Semantics<W, V>, body: seq<Stmt>, i: nat, marker: Option<nat>, s: State<W>)
    requires i < |body| && (marker.Some? ==> marker.value < |body| && marker.value != i)
    ensures body[i].Plain? ==>
              var e := sem(body[i].op, s.world);
              Seen(sem, body, i, marker, s)
              == if e.flow.Continue? then Seen(sem, body, i + 1, marker, Executed(s, body[i].op, e)) else None
    ensures !body[i].Plain? ==> Seen(sem, body, i, marker, s) == Seen(sem, body, i + 1, marker, s)
  {
    if marker.Some? && i < marker.value {
      var before := body[i..marker.value];
      assert before[0] == body[i] && before[1..] == body[i + 1..marker.value];
    }
  }

  lemma SeenHere<W, V>(sem: Semantics<W, V>, body: seq<Stmt>, i: nat, s: State<W>)
    requires i < |body|
    ensures Seen(sem, body, i, Some(i), s) == Some(s)
    ensures Seen(sem, body, i + 1, Some(i), s) == None
  {
    assert body[i..i] == [];
  }

  /** What a marker does to the registers when the duration expression is harmless. */
  function Noted<W, V>(durations: Durations<W, V>, metrics: bool, code: Code, s: State<W>, r: Registers): Registers {
    if metrics && code.SetDuration? then r.(duration := Some(DurationOf(durations(code.expression, s.world))))
    else Touched(metrics, code, s, r)
  }

  /** The duration expression, if it is this statement, is harmless here; if not, what is reached next is. */
  lemma HarmlessNext<W, V>(sem: Semantics<W, V>, durations: Durations<W, V>, w: Window, body: seq<Stmt>, i: nat,
                           s: State<W>)
    requires Marks(w, body, |body|) && i < |body| && HarmlessFrom(sem, durations, w, body, i, s)
    ensures body[i].Plain? && sem(body[i].op, s.world).flow.Continue? ==>
              HarmlessFrom(sem, durations, w, body, i + 1, Executed(s, body[i].op, sem(body[i].op, s.world)))
    ensures !body[i].Plain? ==> HarmlessFrom(sem, durations, w, body, i + 1, s)
    ensures body[i].Duration? ==> Harmless(durations, w.duration.value.1, s.world)
  {
    assert MarksAt(w, i, body[i]);
    if DurationMarker(w) == Some(i) {
      SeenHere(sem, body, i, s);
    } else {
      SeenFromNext(sem, body, i, DurationMarker(w), s);
    }
  }

  /** One statement of the rewritten body. */
  lemma OperateStep<W, V>(sem: Semantics<W, V>, durations: Durations<W, V>, metrics: bool,
                          w: Window, body: seq<Stmt>, i: nat, s: State<W>, r: Registers)
    requires Marks(w, body, |body|) && i < |body| && (metrics ==> HarmlessFrom(sem, durations, w, body, i, s))
    ensures var code := Rewritten(w, body);
            Operate(sem, durations, metrics, code[i..], s, r) ==
            if body[i].Plain? then
              var e := sem(body[i].op, s.world);
              if e.flow.Continue? then Operate(sem, durations, metrics, code[i + 1..], Executed(s, body[i].op, e), r)
              else (Executed(s, body[i].op, e), r, e.flow)
            else Operate(sem, durations, metrics, code[i + 1..], s, Noted(durations, metrics, code[i], s, r))
  {
    var code := Rewritten(w, body);
    assert code[i..][0] == code[i] && code[i..][1..] == code[i + 1..];
    assert MarksAt(w, i, body[i]);
    if metrics { HarmlessNext(sem, durations, w, body, i, s); }
  }

  lemma {:induction false} OperateIsExec<W, V>(sem: Semantics<W, V>, durations: Durations<W, V>, metrics: bool,
                                               w: Window, body: seq<Stmt>, i: nat, s: State<W>, r: Registers)
    requires Marks(w, body, |body|) && i <= |body| && (metrics ==> HarmlessFrom(sem, durations, w, body, i, s))
    ensures var (after, registers, flow) := Operate(sem, durations, metrics, Rewritten(w, body)[i..], s, r);
            (after, flow) == Exec(sem, body[i..], s)
    decreases |body| - i
  {
    if i == |body| {
    } else {
      OperateStep(sem, durations, metrics, w, body, i, s, r);
      if metrics { HarmlessNext(sem, durations, w, body, i, s); }
      assert body[i..][0] == body[i] && body[i..][1..] == body[i + 1..];
      if body[i].Plain? {
        var e := sem(body[i].op, s.world);
        if e.flow.Continue? {
          OperateIsExec(sem, durations, metrics, w, body, i + 1, Executed(s, body[i].op, e), r);
        }
      } else {
        var next := Noted(durations, metrics, Rewritten(w, body)[i], s, r);
        OperateIsExec(sem, durations, metrics, w, body, i + 1, s, next);
      }
    }
  }

  /** What is marked from here on is what is marked from the next statement on. */
  lemma MarkedFromNext<W, V>(sem: Semantics<W, V>, durations: Durations<W, V>, w: Window, body: seq<Stmt>, i: nat,
                             s: State<W>, r: Registers)
    requires Marks(w, body, |body|) && i < |body|
    ensures body[i].Plain? ==>
              var e := sem(body[i].op, s.world);
              Marked(sem, durations, w, body, i, s, r) ==
              if e.flow.Continue? then Marked(sem, durations, w, body, i + 1, Executed(s, body[i].op, e), r) else r
    ensures !body[i].Plain? ==>
              Marked(sem, durations, w, body, i, s, r)
              == Marked(sem, durations, w, body, i + 1, s, Noted(durations, true, CodeAt(w, i, body[i]), s, r))
  {
    assert MarksAt(w, i, body[i]);
    SeenHere(sem, body, i, s);
    if w.start != Some(i) { SeenFromNext(sem, body, i, w.start, s); }
    if w.end != Some(i) { SeenFromNext(sem, body, i, w.end, s); }
    if DurationMarker(w) != Some(i) { SeenFromNext(sem, body, i, DurationMarker(w), s); }
  }

  lemma {:induction false} OperateMarks<W, V>(sem: Semantics<W, V>, durations: Durations<W, V>,
                                              w: Window, body: seq<Stmt>, i: nat, s: State<W>, r: Registers)
    requires Marks(w, body, |body|) && i <= |body| && HarmlessFrom(sem, durations, w, body, i, s)
    ensures Operate(sem, durations, true, Rewritten(w, body)[i..], s, r).1 == Marked(sem, durations, w, body, i, s, r)
    decreases |body| - i
  {
    if i == |body| {
    } else {
      OperateStep(sem, durations, true, w, body, i, s, r);
      HarmlessNext(sem, durations, w, body, i, s);
      MarkedFromNext(sem, durations, w, body, i, s, r);
      if body[i].Plain? {
        var e := sem(body[i].op, s.world);
        if e.flow.Continue? {
          OperateMarks(sem, durations, w, body, i + 1, Executed(s, body[i].op, e), r);
        }
      } else {
        OperateMarks(sem, durations, w, body, i + 1, s, Noted(durations, true, Rewritten(w, body)[i], s, r));
      }
    }
  }

  /** The rewritten function does what the original body does. */
  predicate SameMeaning<W(==), V(==)>(sem: Semantics<W, V>, durations: Durations<W, V>, metrics: bool, w: Window,
                                      body: seq<Stmt>, s: State<W>)
  {
    var timed := Timed(sem, durations, metrics, w, body, s);
    (timed.state, timed.flow) == Exec(sem, body, s)
  }

  /**
   For every body, with metrics compiled in or out, the rewritten function runs exactly the
   operations of the original, once and in order, and ends the same way: by falling off the end,
   by an early return with the same value, or by the same panic. With metrics compiled in, a
   duration expression that is reached has to be harmless.
   */
  lemma MeaningIsPreserved<W, V>(sem: Semantics<W, V>, durations: Durations<W, V>, metrics: bool, w: Window,
                                 body: seq<Stmt>, s: State<W>)
    requires Marks(w, body, |body|) && (metrics ==> HarmlessFrom(sem, durations, w, body, 0, s))
    ensures SameMeaning(sem, durations, metrics, w, body, s)
  {
    OperateIsExec(sem, durations, metrics, w, body, 0, s, Registers(s.time, None, None));
    assert Rewritten(w, body)[0..] == Rewritten(w, body) && body[0..] == body;
  }

  /** No marker. */
  const NOTHING: Window := Window(None, None, None)

  lemma BareDurationTells<W, V>(sem: Semantics<W, V>, durations: Durations<W, V>, x: nat, s: State<W>)
    ensures SameMeaning(sem, durations, true, NOTHING.(duration := Some((0, x))), [Duration(Some(x))], s)
       <==> Harmless(durations, x, s.world)
  {
    var w, body := NOTHING.(duration := Some((0, x))), [Duration(Some(x))];
    var code := Rewritten(w, body);
    assert code == [SetDuration(x)] && code[1..] == [] && body[1..] == [];
    assert Exec(sem, body, s) == Exec(sem, body[1..], s) == (s, Continue);
    var r := Registers(s.time, None, None);
    match durations(x, s.world)
    case Value(world, d) =>
      assert Operate(sem, durations, true, code, s, r) == (s.(world := world), r.(duration := Some(d)), Continue);
      assert s.(world := world) == s <==> world == s.world;
    case Returns(world, v) => assert Operate(sem, durations, true, code, s, r) == (s.(world := world), r, Return(v));
    case Panics(world) => assert Operate(sem, durations, true, code, s, r) == (s.(world := world), r, Panic);
  }

  ghost predicate AlwaysSame<W(!new), V(!new)>(sem: Semantics<W, V>, durations: Durations<W, V>, x: nat) {
    forall w: Window, body: seq<Stmt>, s: State<W>
      | Marks(w, body, |body|) && (w.duration.Some? ==> w.duration.value.1 == x) ::
      SameMeaning(sem, durations, true, w, body, s)
  }

  /**
   So an expression may stand in a duration marker of any body without changing what the body does
   with metrics compiled in, if and only if it gives a value and changes nothing in every world.
   */
  lemma MeaningIsPreservedIff<W(!new), V(!new)>(sem: Semantics<W, V>, durations: Durations<W, V>, x: nat)
    ensures AlwaysSame(sem, durations, x) <==> forall world :: Harmless(durations, x, world)
  {
    if AlwaysSame(sem, durations, x) {
      forall world ensures Harmless(durations, x, world) {
        var w, body := NOTHING.(duration := Some((0, x))), [Duration(Some(x))];
        var s := State(world, 0, []);
        assert MarksAt(w, 0, body[0]) && Marks(w, body, |body|);
        BareDurationTells(sem, durations, x, s);
        assert SameMeaning(sem, durations, true, w, body, s);
      }
    }
    if forall world :: Harmless(durations, x, world) {
      forall w: Window, body: seq<Stmt>, s: State<W>
        | Marks(w, body, |body|) && (w.duration.Some? ==> w.duration.value.1 == x)
        ensures SameMeaning(sem, durations, true, w, body, s)
      {
        MeaningIsPreserved(sem, durations, true, w, body, s);
      }
    }
  }

  /** What is to be recorded, in terms of the original body only. */
  function Expected<W, V>(
    sem: Semantics<W, V>, durations: Durations<W, V>, w: Window, body: seq<Stmt>, s: State<W>): int
    requires Marks(w, body, |body|)
  {
    var start, end, duration :=
      Seen(sem, body, 0, w.start, s), Seen(sem, body, 0, w.end, s), Seen(sem, body, 0, DurationMarker(w), s);
    if duration.Some? then DurationOf(durations(w.duration.value.1, duration.value.world))
    else
      (if end.Some? then end.value.time else Exec(sem, body, s).0.time)
      - (if start.Some? then start.value.time else s.time)
  }

  /**
   The duration is recorded exactly once the body has ended without a panic: the override if its
   marker was reached, and otherwise the time from the start marker, or from the entry, to the end
   marker, or to the end of the body.
   */
  lemma RecordedDuration<W, V>(
    sem: Semantics<W, V>, durations: Durations<W, V>, w: Window, body: seq<Stmt>, s: State<W>)
    requires Marks(w, body, |body|) && HarmlessFrom(sem, durations, w, body, 0, s)
    ensures Timed(sem, durations, true, w, body, s).recorded ==
            if Exec(sem, body, s).1.Panic? then None else Some(Expected(sem, durations, w, body, s))
    ensures Timed(sem, durations, false, w, body, s).recorded == None
  {
    MeaningIsPreserved(sem, durations, true, w, body, s);
    OperateMarks(sem, durations, w, body, 0, s, Registers(s.time, None, None));
    assert Rewritten(w, body)[0..] == Rewritten(w, body);
  }

  // ----- a monotone clock -----

  ghost predicate Monotone<W(!new), V>(sem: Semantics<W, V>) {
    forall op, world :: sem(op, world).took >= 0
  }

  lemma {:induction false} TimePasses<W(!new), V>(sem: Semantics<W, V>, body: seq<Stmt>, s: State<W>)
    requires Monotone(sem)
    ensures Exec(sem, body, s).0.time >= s.time
    decreases |body|
  {
    if body == [] {
    } else {
      match body[0]
      case Plain(op) => TimePasses(sem, body[1..], Executed(s, op, sem(op, s.world)));
      case _ => TimePasses(sem, body[1..], s);
    }
  }

  lemma {:induction false} ExecSplits<W, V>(sem: Semantics<W, V>, a: seq<Stmt>, b: seq<Stmt>, s: State<W>)
    ensures Exec(sem, a + b, s) ==
            if Exec(sem, a, s).1.Continue? then Exec(sem, b, Exec(sem, a, s).0) else Exec(sem, a, s)
    decreases |a|
  {
    if a == [] {
      assert a + b == b;
    } else {
      assert (a + b)[0] == a[0] && (a + b)[1..] == a[1..] + b;
      match a[0]
      case Plain(op) => ExecSplits(sem, a[1..], b, Executed(s, op, sem(op, s.world)));
      case _ => ExecSplits(sem, a[1..], b, s);
    }
  }

  /** What is reached later is seen later, and the body ends no earlier. */
  lemma SeenInOrder<W(!new), V>(sem: Semantics<W, V>, body: seq<Stmt>, i: nat, j: nat, s: State<W>)
    requires Monotone(sem) && i <= j <= |body| && Exec(sem, body[..j], s).1.Continue?
    ensures Exec(sem, body[..i], s).1.Continue?
    ensures Exec(sem, body[..i], s).0.time <= Exec(sem, body[..j], s).0.time <= Exec(sem, body, s).0.time
  {
    assert body[..j] == body[..i] + body[i..j] && body == body[..j] + body[j..];
    ExecSplits(sem, body[..i], body[i..j], s);
    ExecSplits(sem, body[..j], body[j..], s);
    TimePasses(sem, body[i..j], Exec(sem, body[..i], s).0);
    TimePasses(sem, body[j..], Exec(sem, body[..j], s).0);
  }

  /** With a monotone clock a measured duration is never negative. */
  lemma DurationIsNotNegative<W(!new), V>(sem: Semantics<W, V>, durations: Durations<W, V>, w: Window, body: seq<Stmt>,
                                          s: State<W>)
    requires Monotone(sem) && Marks(w, body, |body|) && InOrder(w)
    requires Seen(sem, body, 0, DurationMarker(w), s).None?
    ensures Expected(sem, durations, w, body, s) >= 0
  {
    TimePasses(sem, body, s);
    if w.start.Some? {
      assert body[0..w.start.value] == body[..w.start.value];
      TimePasses(sem, body[..w.start.value], s);
    }
    if w.end.Some? {
      assert body[0..w.end.value] == body[..w.end.value];
      TimePasses(sem, body[..w.end.value], s);
    }
    var start, end := Seen(sem, body, 0, w.start, s), Seen(sem, body, 0, w.end, s);
    if start.Some? && end.Some? {
      SeenInOrder(sem, body, w.start.value, w.end.value, s);
    } else if start.Some? {
      SeenInOrder(sem, body, w.start.value, w.start.value, s);
    }
  }
}
