/** The playable containers: `Sequence` runs its children one after the
  * other, `Parallel` runs them together, and `WaitTicks` is done once enough
  * server ticks have passed. The children are opaque playables: a container
  * is described by the calls it makes on them, as a list of events, and by
  * what their `isDone` answers, which it is given. */
module Orchestration {
  import opened Wrappers
  import opened JavaInt

  /** A call a container makes: `start`, `tick` or `stop` on child `i`, or
    * running the completion callback. */
  datatype Event = Started(i: nat) | Ticked(i: nat) | Stopped(i: nat) | Completed

  /** How many times the completion callback ran. */
  function Completions(es: seq<Event>): (r: nat)
    ensures r <= |es|
    ensures r == 0 <==> Completed !in es
  {
    if |es| == 0 then 0 else Completions(es[..|es| - 1]) + (if es[|es| - 1] == Completed then 1 else 0)
  }

  lemma {:induction false} CompletionsAppend(a: seq<Event>, b: seq<Event>)
    ensures Completions(a + b) == Completions(a) + Completions(b)
    decreases |b|
  {
    if |b| == 0 {
      assert a + b == a;
    } else {
      assert (a + b)[..|a + b| - 1] == a + b[..|b| - 1];
      CompletionsAppend(a, b[..|b| - 1]);
    }
  }

  // -------------------------------------------------------------- sequence

  /** The fields of a `Sequence` that its calls change. */
  datatype SeqState = SeqState(index: int, fired: bool)

  /** What a caller does to a sequence: start it, tick it (the current child
    * answering `isDone` with `childDone` after its tick), or stop it. */
  datatype SeqOp = SeqStart | SeqTick(childDone: bool) | SeqStop

  /** `fireIfNeeded`: the callback runs once the index is past the end, and
    * only if it has not run since the last start. */
  function SeqFire(size: nat, hasCallback: bool, st: SeqState): (r: (SeqState, seq<Event>))
    ensures r.0.index == st.index
    ensures r.1 == [] || r.1 == [Completed]
    ensures r.1 == [Completed] <==> !st.fired && hasCallback && st.index >= size
    ensures r.0.fired == (st.fired || r.1 == [Completed])
  {
    if !st.fired && hasCallback && st.index >= size then (st.(fired := true), [Completed]) else (st, [])
  }

  /** `start`: the index goes to 0, completion is re-armed, and only the
    * first child is started. */
  function SeqStartStep(size: nat, st: SeqState): (r: (SeqState, seq<Event>))
    ensures r.0 == SeqState(0, false)
    ensures r.1 == if size > 0 then [Started(0)] else []
  {
    (SeqState(0, false), if size > 0 then [Started(0)] else [])
  }

  /** `tick`: nothing when the index is out of range; otherwise the current
    * child is ticked, and if it is then done it is stopped, the index
    * advances and the next child is started, or completion fires after the
    * last. */
  function SeqTickStep(size: nat, hasCallback: bool, st: SeqState, childDone: bool): (r: (SeqState, seq<Event>))
    ensures st.index < 0 || st.index >= size ==> r == (st, [])
    ensures 0 <= st.index < size ==> |r.1| >= 1 && r.1[0] == Ticked(st.index)
    ensures 0 <= st.index < size && !childDone ==> r == (st, [Ticked(st.index)])
    ensures 0 <= st.index < size && childDone ==>
      && r.0.index == st.index + 1
      && |r.1| >= 2 && r.1[0] == Ticked(st.index) && r.1[1] == Stopped(st.index)
      && (st.index + 1 < size ==> r == (SeqState(st.index + 1, st.fired), [Ticked(st.index), Stopped(st.index), Started(st.index + 1)]))
      && (st.index + 1 == size ==> r.1[2..] == SeqFire(size, hasCallback, SeqState(size, st.fired)).1)
  {
    if st.index < 0 || st.index >= size then (st, [])
    else
      var i := st.index;
      if !childDone then (st, [Ticked(i)])
      else
        var next := st.(index := i + 1);
        if i + 1 < size then (next, [Ticked(i), Stopped(i), Started(i + 1)])
        else
          var f := SeqFire(size, hasCallback, next);
          (f.0, [Ticked(i), Stopped(i)] + f.1)
  }

  /** `stop`: the current child, if any, is stopped; then completion may
    * fire. */
  function SeqStopStep(size: nat, hasCallback: bool, st: SeqState): (r: (SeqState, seq<Event>))
    ensures r.0.index == st.index
    ensures 0 <= st.index < size ==> r.1 == [Stopped(st.index)] + SeqFire(size, hasCallback, st).1
    ensures !(0 <= st.index < size) ==> r.1 == SeqFire(size, hasCallback, st).1
  {
    var stopped := if 0 <= st.index < size then [Stopped(st.index)] else [];
    var f := SeqFire(size, hasCallback, st);
    (f.0, stopped + f.1)
  }

  function SeqStep(size: nat, hasCallback: bool, st: SeqState, op: SeqOp): (SeqState, seq<Event>)
  {
    match op
    case SeqStart => SeqStartStep(size, st)
    case SeqTick(d) => SeqTickStep(size, hasCallback, st, d)
    case SeqStop => SeqStopStep(size, hasCallback, st)
  }

  /** A run of calls, in order: the final state and every event. */
  function SeqRun(size: nat, hasCallback: bool, st: SeqState, ops: seq<SeqOp>): (SeqState, seq<Event>)
    decreases |ops|
  {
    if |ops| == 0 then (st, [])
    else
      var first := SeqStep(size, hasCallback, st, ops[0]);
      var rest := SeqRun(size, hasCallback, first.0, ops[1..]);
      (rest.0, first.1 + rest.1)
  }

  /** One call other than `start` runs the callback at most once, and only
    * if it had not run; the flag records it. The index never goes back, and
    * the callback runs only past the end. */
  lemma SeqStepCompletion(size: nat, hasCallback: bool, st: SeqState, op: SeqOp)
    requires !op.SeqStart?
    ensures var r := SeqStep(size, hasCallback, st, op);
      && Completions(r.1) + (if st.fired then 1 else 0) == (if r.0.fired then 1 else 0)
      && r.0.index >= st.index
      && (st.fired ==> r.0.fired)
      && (Completed in r.1 ==> hasCallback && r.0.index >= size)
  {
    var r := SeqStep(size, hasCallback, st, op);
    match op
    case SeqTick(d) =>
      if 0 <= st.index < size && d && st.index + 1 == size {
        var f := SeqFire(size, hasCallback, SeqState(size, st.fired));
        assert r.1 == [Ticked(st.index), Stopped(st.index)] + f.1;
        CompletionsAppend([Ticked(st.index), Stopped(st.index)], f.1);
        assert Completions([Ticked(st.index), Stopped(st.index)]) == 0;
      } else if 0 <= st.index < size && d {
        assert Completions(r.1) == 0;
      }
    case SeqStop =>
      var stopped := if 0 <= st.index < size then [Stopped(st.index)] else [];
      var f := SeqFire(size, hasCallback, st);
      assert r.1 == stopped + f.1;
      CompletionsAppend(stopped, f.1);
      assert Completions(stopped) == 0;
  }

  /** Between two starts the completion callback runs at most once: the
    * number of runs plus the flag before equals the flag after. It only
    * runs once the sequence is done, and only if there is one. */
  lemma {:induction false} SeqCompletesAtMostOnce(size: nat, hasCallback: bool, st: SeqState, ops: seq<SeqOp>)
    requires forall k :: 0 <= k < |ops| ==> !ops[k].SeqStart?
    ensures var r := SeqRun(size, hasCallback, st, ops);
      && Completions(r.1) + (if st.fired then 1 else 0) == (if r.0.fired then 1 else 0)
      && Completions(r.1) <= 1
      && r.0.index >= st.index
      && (Completed in r.1 ==> hasCallback && r.0.index >= size)
    decreases |ops|
  {
    if |ops| > 0 {
      var first := SeqStep(size, hasCallback, st, ops[0]);
      SeqStepCompletion(size, hasCallback, st, ops[0]);
      SeqCompletesAtMostOnce(size, hasCallback, first.0, ops[1..]);
      var rest := SeqRun(size, hasCallback, first.0, ops[1..]);
      CompletionsAppend(first.1, rest.1);
      assert SeqRun(size, hasCallback, st, ops) == (rest.0, first.1 + rest.1);
    }
  }

  /** `n` ticks on each of which the current child reports done. */
  function DoneTicks(n: nat): (r: seq<SeqOp>)
    ensures |r| == n && forall k :: 0 <= k < n ==> r[k] == SeqTick(true)
  {
    seq(n, _ => SeqTick(true))
  }

  /** When every child is done on its first tick, each tick moves to the next
    * child, and the tick after which the last child is done leaves the
    * sequence done with the callback run. */
  lemma {:induction false} SeqAdvances(size: nat, hasCallback: bool, st: SeqState, n: nat)
    requires 0 <= st.index && st.index + n <= size && !st.fired
    ensures var r := SeqRun(size, hasCallback, st, DoneTicks(n));
      && r.0.index == st.index + n
      && r.0.fired == (hasCallback && n > 0 && st.index + n == size)
    decreases n
  {
    if n > 0 {
      var first := SeqStep(size, hasCallback, st, SeqTick(true));
      assert DoneTicks(n)[0] == SeqTick(true) && DoneTicks(n)[1..] == DoneTicks(n - 1);
      if st.index + 1 < size {
        SeqAdvances(size, hasCallback, first.0, n - 1);
      } else {
        assert n == 1;
        assert DoneTicks(0) == [];
      }
    }
  }

  /** A sequence without children is done as soon as it starts, but a tick
    * finds its index out of range and does nothing: only `stop` runs the
    * callback. */
  lemma EmptySequenceCompletesOnStop(st: SeqState)
    ensures var started := SeqStartStep(0, st).0;
      && started.index >= 0
      && SeqTickStep(0, true, started, true) == (started, [])
      && SeqStopStep(0, true, started).1 == [Completed]
  {
  }

  /** `Sequence`: the children run one at a time, in list order. */
  class Sequence {
    const size: nat
    const hasCallback: bool
    var index: int
    var completionFired: bool
    /** The calls made so far. */
    var events: seq<Event>

    function State(): SeqState
      reads this
    {
      SeqState(index, completionFired)
    }

    /** Not started: the index is -1. */
    constructor (size: nat, hasCallback: bool)
      ensures this.size == size && this.hasCallback == hasCallback
      ensures index == -1 && !completionFired && events == []
      ensures !IsDone()
    {
      this.size := size;
      this.hasCallback := hasCallback;
      index := -1;
      completionFired := false;
      events := [];
    }

    /** `isDone`: the index is past the last child. */
    predicate IsDone()
      reads this
    {
      index >= size
    }

    method Start()
      modifies this
      ensures State() == SeqStartStep(size, old(State())).0
      ensures events == old(events) + SeqStartStep(size, old(State())).1
    {
      completionFired := false;
      index := 0;
      if size > 0 {
        events := events + [Started(0)];
      }
    }

    /** `tick`, given the current child's `isDone` after its tick. */
    method Tick(childDone: bool)
      modifies this
      ensures State() == SeqTickStep(size, hasCallback, old(State()), childDone).0
      ensures events == old(events) + SeqTickStep(size, hasCallback, old(State()), childDone).1
    {
      if index < 0 || index >= size {
        return;
      }
      var cur := index;
      events := events + [Ticked(cur)];
      if childDone {
        events := events + [Stopped(cur)];
        index := index + 1;
        if index < size {
          events := events + [Started(index)];
        } else {
          FireIfNeeded();
        }
      }
    }

    method Stop()
      modifies this
      ensures State() == SeqStopStep(size, hasCallback, old(State())).0
      ensures events == old(events) + SeqStopStep(size, hasCallback, old(State())).1
    {
      if index >= 0 && index < size {
        events := events + [Stopped(index)];
      }
      FireIfNeeded();
    }

    method FireIfNeeded()
      modifies this
      ensures State() == SeqFire(size, hasCallback, old(State())).0
      ensures events == old(events) + SeqFire(size, hasCallback, old(State())).1
    {
      if !completionFired && hasCallback && index >= size {
        completionFired := true;
        events := events + [Completed];
      }
    }
  }

  // -------------------------------------------------------------- parallel

  /** What a caller does to a parallel block: start it, tick it or stop it,
    * each child then answering `isDone` as `done` says. */
  datatype ParOp = ParStart | ParTick(done: seq<bool>) | ParStop(done: seq<bool>)

  /** `allMatch(Playable::isDone)`: true for no children. */
  predicate AllDone(done: seq<bool>)
  {
    forall k :: 0 <= k < |done| ==> done[k]
  }

  /** The same call on every child, in list order. */
  function ToAll(size: nat, call: nat -> Event): (r: seq<Event>)
    ensures |r| == size && forall k :: 0 <= k < size ==> r[k] == call(k)
  {
    seq(size, k requires 0 <= k < size => call(k))
  }

  function StartCall(k: nat): Event { Started(k) }
  function TickCall(k: nat): Event { Ticked(k) }
  function StopCall(k: nat): Event { Stopped(k) }

  /** `fireIfNeeded`: once, when every child is done. */
  function ParFire(hasCallback: bool, fired: bool, done: seq<bool>): (r: (bool, seq<Event>))
    ensures r.1 == [] || r.1 == [Completed]
    ensures r.1 == [Completed] <==> !fired && hasCallback && AllDone(done)
    ensures r.0 == (fired || r.1 == [Completed])
  {
    if !fired && hasCallback && AllDone(done) then (true, [Completed]) else (fired, [])
  }

  function ParStep(size: nat, hasCallback: bool, fired: bool, op: ParOp): (bool, seq<Event>)
  {
    match op
    case ParStart => (false, ToAll(size, StartCall))
    case ParTick(done) =>
      var f := ParFire(hasCallback, fired, done);
      (f.0, ToAll(size, TickCall) + f.1)
    case ParStop(done) =>
      var f := ParFire(hasCallback, fired, done);
      (f.0, ToAll(size, StopCall) + f.1)
  }

  function ParRun(size: nat, hasCallback: bool, fired: bool, ops: seq<ParOp>): (bool, seq<Event>)
    decreases |ops|
  {
    if |ops| == 0 then (fired, [])
    else
      var first := ParStep(size, hasCallback, fired, ops[0]);
      var rest := ParRun(size, hasCallback, first.0, ops[1..]);
      (rest.0, first.1 + rest.1)
  }

  lemma ToAllNoCompletion(size: nat, call: nat -> Event)
    requires forall k :: call(k) != Completed
    ensures Completions(ToAll(size, call)) == 0
  {
    var es := ToAll(size, call);
    forall k | 0 <= k < |es|
      ensures es[k] != Completed
    {
      assert es[k] == call(k);
    }
  }

  /** Between two starts a parallel block runs its callback at most once,
    * and only on a call after which every child reported done. */
  lemma {:induction false} ParCompletesAtMostOnce(size: nat, hasCallback: bool, fired: bool, ops: seq<ParOp>)
    requires forall k :: 0 <= k < |ops| ==> !ops[k].ParStart?
    ensures var r := ParRun(size, hasCallback, fired, ops);
      && Completions(r.1) + (if fired then 1 else 0) == (if r.0 then 1 else 0)
      && Completions(r.1) <= 1
      && (Completed in r.1 ==> hasCallback && exists k :: 0 <= k < |ops| && AllDone(ops[k].done))
    decreases |ops|
  {
    if |ops| > 0 {
      var op := ops[0];
      var first := ParStep(size, hasCallback, fired, op);
      var f := ParFire(hasCallback, fired, op.done);
      var calls := if op.ParTick? then ToAll(size, TickCall) else ToAll(size, StopCall);
      assert first.1 == calls + f.1;
      ToAllNoCompletion(size, if op.ParTick? then TickCall else StopCall);
      CompletionsAppend(calls, f.1);
      ParCompletesAtMostOnce(size, hasCallback, first.0, ops[1..]);
      var rest := ParRun(size, hasCallback, first.0, ops[1..]);
      CompletionsAppend(first.1, rest.1);
      if Completed in first.1 + rest.1 {
        if Completed in rest.1 {
          var k :| 0 <= k < |ops[1..]| && AllDone(ops[1..][k].done);
          assert ops[k + 1] == ops[1..][k];
        } else {
          assert Completed in f.1;
        }
      }
    }
  }

  /** A parallel block without children is done, and its first tick runs
    * the callback. */
  lemma EmptyParallelCompletesOnFirstTick()
    ensures AllDone([])
    ensures ParStep(0, true, false, ParTick([])) == (true, [Completed])
  {
    var f := ParFire(true, false, []);
    var calls := ToAll(0, TickCall);
    assert calls == [] && f.1 == [Completed];
    assert calls + f.1 == [Completed];
  }

  /** `Parallel`: every child runs on every call. */
  class Parallel {
    const size: nat
    const hasCallback: bool
    var completionFired: bool
    var events: seq<Event>

    constructor (size: nat, hasCallback: bool)
      ensures this.size == size && this.hasCallback == hasCallback && !completionFired && events == []
    {
      this.size := size;
      this.hasCallback := hasCallback;
      completionFired := false;
      events := [];
    }

    /** `isDone`: every child reports done. */
    predicate IsDone(done: seq<bool>)
    {
      AllDone(done)
    }

    /** The same call on every child, in list order. */
    method CallAll(call: nat -> Event)
      modifies this
      ensures events == old(events) + ToAll(size, call)
      ensures completionFired == old(completionFired)
    {
      var k := 0;
      while k < size
        invariant 0 <= k <= size
        invariant events == old(events) + ToAll(k, call)
        invariant completionFired == old(completionFired)
      {
        events := events + [call(k)];
        k := k + 1;
      }
    }

    method Start()
      modifies this
      ensures (completionFired, events) == (ParStep(size, hasCallback, old(completionFired), ParStart).0,
                                            old(events) + ParStep(size, hasCallback, old(completionFired), ParStart).1)
    {
      completionFired := false;
      CallAll(StartCall);
    }

    /** `tick`, given each child's `isDone` after every child was ticked. */
    method Tick(done: seq<bool>)
      requires |done| == size
      modifies this
      ensures (completionFired, events) == (ParStep(size, hasCallback, old(completionFired), ParTick(done)).0,
                                            old(events) + ParStep(size, hasCallback, old(completionFired), ParTick(done)).1)
    {
      ghost var f := ParFire(hasCallback, completionFired, done);
      ghost var calls := ToAll(size, TickCall);
      assert ParStep(size, hasCallback, completionFired, ParTick(done)) == (f.0, calls + f.1);
      CallAll(TickCall);
      assert events == old(events) + calls;
      FireIfNeeded(done);
      assert events == old(events) + (calls + f.1);
    }

    method Stop(done: seq<bool>)
      requires |done| == size
      modifies this
      ensures (completionFired, events) == (ParStep(size, hasCallback, old(completionFired), ParStop(done)).0,
                                            old(events) + ParStep(size, hasCallback, old(completionFired), ParStop(done)).1)
    {
      ghost var f := ParFire(hasCallback, completionFired, done);
      ghost var calls := ToAll(size, StopCall);
      assert ParStep(size, hasCallback, completionFired, ParStop(done)) == (f.0, calls + f.1);
      CallAll(StopCall);
      assert events == old(events) + calls;
      FireIfNeeded(done);
      assert events == old(events) + (calls + f.1);
    }

    method FireIfNeeded(done: seq<bool>)
      modifies this
      ensures completionFired == ParFire(hasCallback, old(completionFired), done).0
      ensures events == old(events) + ParFire(hasCallback, old(completionFired), done).1
    {
      if !completionFired && hasCallback && AllDone(done) {
        completionFired := true;
        events := events + [Completed];
      }
    }
  }

  // ------------------------------------------------------------ wait ticks

  /** A playback context, known by an identifier; the model is handed the
    * tick its clock reports. */
  type Context = nat

  /** The fields of a `WaitTicks`. */
  datatype WaitState = WaitState(ticks: int, start: int, context: Option<Context>)

  /** `isDone`: false when the recorded start is negative; otherwise the
    * context's clock, which fails on a context never recorded, against a
    * 64-bit difference. */
  function WaitDone(w: WaitState, now: int): (r: Result<bool>)
    ensures w.start < 0 ==> r == Ok(false)
    ensures w.start >= 0 && w.context.None? ==> r.Err? && r.failure.NullPointer?
    ensures w.start >= 0 && w.context.Some? ==> r == Ok(Wrap64(now - w.start) >= w.ticks)
  {
    if w.start < 0 then Ok(false)
    else if w.context.None? then Err(NullPointer("context"))
    else Ok(Wrap64(now - w.start) >= w.ticks)
  }

  /** The fields as the constructor leaves them: a `long` field starts at
    * 0 and a reference at null. */
  function WaitAsConstructed(ticks: int): WaitState
  {
    WaitState(ticks, 0, None)
  }

  /** As constructed, `start` is 0, so `isDone` before `start` gets past the
    * negative-start guard and dereferences the null context. */
  lemma UnstartedWaitFails(ticks: int, now: int)
    ensures WaitDone(WaitAsConstructed(ticks), now).Err?
    ensures WaitDone(WaitAsConstructed(ticks), now).failure.NullPointer?
  {
  }

  /** The fields with a start of -1, the guard's evident intent. */
  function WaitUnstarted(ticks: int): WaitState
  {
    WaitState(ticks, -1, None)
  }

  /** With a start of -1 a wait is not done before it starts, and never
    * fails. */
  lemma UnstartedWaitNotDone(ticks: int, now: int)
    ensures WaitDone(WaitUnstarted(ticks), now) == Ok(false)
  {
  }

  /** `start`: the current tick and the context are recorded. */
  function WaitStart(w: WaitState, now: int, ctx: Context): (r: WaitState)
    ensures r.ticks == w.ticks && r.start == now && r.context == Some(ctx)
  {
    w.(start := now, context := Some(ctx))
  }

  /** Once started, `isDone` never fails: a recorded start has its context. */
  lemma StartedWaitNeverFails(w: WaitState, now: int, ctx: Context, later: int)
    ensures WaitDone(WaitStart(w, now, ctx), later).Ok?
  {
  }

  /** A wait of zero ticks or fewer is done at the tick it starts on (a
    * start on a negative tick never is). */
  lemma NonPositiveWaitDoneAtStart(w: WaitState, now: int, ctx: Context)
    requires w.ticks <= 0 && 0 <= now
    ensures WaitDone(WaitStart(w, now, ctx), now) == Ok(true)
  {
    assert Wrap64(now - now) == 0;
  }

  /** On a non-negative clock that does not go back, a wait once done stays
    * done: the difference of two non-negative 64-bit ticks does not wrap. */
  lemma WaitStaysDone(w: WaitState, now: int, later: int)
    requires w.start >= 0 && w.context.Some? && IsInt64(later) && IsInt64(w.start)
    requires 0 <= now <= later
    requires WaitDone(w, now) == Ok(true)
    ensures WaitDone(w, later) == Ok(true)
  {
    assert IsInt64(now - w.start) && IsInt64(later - w.start);
  }

  /** `WaitTicks`, with the start at -1 until `start` is called. */
  class WaitTicks {
    const ticks: int
    var start: int
    var context: Option<Context>

    function State(): WaitState
      reads this
    {
      WaitState(ticks, start, context)
    }

    /** A recorded start comes with its context. */
    ghost predicate Valid()
      reads this
    {
      start >= 0 ==> context.Some?
    }

    /** Starts at -1, the guard's evident intent, rather than at the 0 the
      * Java field is left at (`WaitAsConstructed`). */
    constructor (ticks: int)
      requires IsInt64(ticks)
      ensures Valid() && State() == WaitUnstarted(ticks)
    {
      this.ticks := ticks;
      start := -1;
      context := None;
    }

    method Start(now: int, ctx: Context)
      requires IsInt64(now)
      modifies this
      ensures Valid() && State() == WaitStart(old(State()), now, ctx)
    {
      start := now;
      context := Some(ctx);
    }

    /** `tick` and `stop` change nothing. */
    method Tick()
    {
    }

    method Stop()
    {
    }

    /** `isDone`, given the tick the recorded context's clock reports. */
    method IsDone(now: int) returns (done: bool)
      requires Valid()
      ensures WaitDone(State(), now) == Ok(done)
      ensures done <==> start >= 0 && Wrap64(now - start) >= ticks
    {
      if start < 0 {
        return false;
      }
      done := Wrap64(now - start) >= ticks;
    }
  }
}
