/** The per-element session of `ripple` as a state machine over values:
    the closure variables `removeDiv`, `touchStartTimeOutId` and
    `touchEndTimeOutId`, the overlays created so far and the removals their
    fade-outs scheduled. Handlers and timer firings are transitions; any
    pending timer may fire next, so nothing proved here depends on timing. */
module Machine {
  import opened Wrappers
  import opened Config
  import opened Gate

  /** Where a ripple overlay is in its life: shown, fading out with its
      removal scheduled, or detached from the document. */
  datatype Phase = Live | Fading | Removed

  /** A created overlay (`divParent`) and the strike point its circle is centred on. */
  datatype Overlay = Overlay(phase: Phase, strike: Point)

  /** One session. Overlays are identified by their index in `overlays`
      (creation order). `recorded` is `removeDiv`; `startPending` is the start
      timer with the press event it captured; `endPending` is the end timer;
      `removals` holds one entry per scheduled, uncancellable `remove()`. */
  datatype State = State(
    recorded: Option<nat>,
    startPending: Option<PressEvent>,
    endPending: bool,
    overlays: seq<Overlay>,
    removals: multiset<nat>)

  /** A freshly bound element. */
  const Idle: State := State(None, None, false, [], multiset{})

  /** Every overlay reference in the state names a created overlay. */
  ghost predicate WellFormed(st: State) {
    && (st.recorded.Some? ==> st.recorded.value < |st.overlays|)
    && (forall i :: i in st.removals ==> i < |st.overlays|)
  }

  /** The session invariant: while a start timer is pending nothing is
      recorded; a Live overlay is the recorded one (so at most one is Live);
      no removal is scheduled for a Live overlay; every Fading overlay has a
      removal scheduled. */
  ghost predicate Inv(st: State) {
    && WellFormed(st)
    && (st.startPending.Some? ==> st.recorded.None?)
    && (forall i :: 0 <= i < |st.overlays| && st.overlays[i].phase == Live ==> st.recorded == Some(i))
    && (forall i :: i in st.removals ==> st.overlays[i].phase != Live)
    && (forall i :: 0 <= i < |st.overlays| && st.overlays[i].phase == Fading ==> i in st.removals)
  }

  /** Setting `opacity = 0`: a Live overlay starts fading; a fading or
      detached one stays as it is. */
  function FadeOut(p: Phase): Phase {
    if p == Live then Fading else p
  }

  /** `removeRipple(div)`: with an overlay, fade it out and schedule one more
      removal of it; with none, do nothing. The record and timers are untouched. */
  function RemoveRipple(st: State, div: Option<nat>): (r: State)
    requires WellFormed(st) && (div.Some? ==> div.value < |st.overlays|)
    ensures WellFormed(r)
    ensures r.recorded == st.recorded && r.startPending == st.startPending && r.endPending == st.endPending
    ensures |r.overlays| == |st.overlays|
    ensures forall i :: 0 <= i < |st.overlays| && div != Some(i) ==> r.overlays[i] == st.overlays[i]
    ensures div.None? ==> r.removals == st.removals
    ensures div.Some? && st.overlays[div.value].phase == Live ==> r.overlays[div.value].phase == Fading
    ensures div.Some? && st.overlays[div.value].phase != Live ==>
              r.overlays[div.value].phase == st.overlays[div.value].phase
    ensures div.Some? ==>
              && r.overlays[div.value].strike == st.overlays[div.value].strike
              && r.removals == st.removals + multiset{div.value}
  {
    match div
    case None => st
    case Some(i) =>
      var o := st.overlays[i];
      st.(overlays := st.overlays[i := o.(phase := FadeOut(o.phase))],
          removals := st.removals + multiset{i})
  }

  /** The `touchmove` handler: clears both timer slots and nothing else. */
  function OnMove(st: State): (r: State)
    ensures r.startPending.None? && !r.endPending
    ensures r.recorded == st.recorded && r.overlays == st.overlays && r.removals == st.removals
  {
    st.(startPending := None, endPending := false)
  }

  /** The press handler: cancels the pending start timer, retires the
      recorded overlay and forgets it, and schedules a start timer carrying
      this press. Nothing about the press is checked here. */
  function OnPress(st: State, e: PressEvent): (r: State)
    requires WellFormed(st)
    ensures WellFormed(r)
    ensures r.startPending == Some(e) && r.recorded.None? && r.endPending == st.endPending
    ensures r.overlays == RemoveRipple(st, st.recorded).overlays
    ensures r.removals == RemoveRipple(st, st.recorded).removals
  {
    RemoveRipple(st.(startPending := None), st.recorded).(recorded := None, startPending := Some(e))
  }

  /** The release handler: replaces any pending end timer by a new one. */
  function OnRelease(st: State): (r: State)
    ensures r.endPending
    ensures r.recorded == st.recorded && r.startPending == st.startPending
    ensures r.overlays == st.overlays && r.removals == st.removals
  {
    st.(endPending := true)
  }

  /** The start timer fires: `removeDiv = createRipple(e)`. A declined press
      records nothing; otherwise one new Live overlay is created at the strike
      point and recorded. */
  function StartFires(s: Settings, el: NodeId, st: State, exclusion: set<NodeId>, off: Offset): (r: State)
    requires WellFormed(st) && st.startPending.Some?
    ensures WellFormed(r)
    ensures r.startPending.None? && r.endPending == st.endPending && r.removals == st.removals
    ensures Declines(s, el, st.startPending.value, exclusion) ==>
              r.recorded.None? && r.overlays == st.overlays
    ensures !Declines(s, el, st.startPending.value, exclusion) ==>
              r.recorded == Some(|st.overlays|) &&
              r.overlays == st.overlays + [Overlay(Live, StrikePoint(st.startPending.value, off))]
  {
    match CreateRipple(s, el, st.startPending.value, exclusion, off)
    case None => st.(startPending := None, recorded := None)
    case Some(p) =>
      st.(startPending := None, recorded := Some(|st.overlays|), overlays := st.overlays + [Overlay(Live, p)])
  }

  /** The end timer fires: `removeRipple(removeDiv)` on whatever is recorded
      now. The record itself is kept. */
  function EndFires(st: State): (r: State)
    requires WellFormed(st) && st.endPending
    ensures WellFormed(r)
    ensures !r.endPending && r.recorded == st.recorded && r.startPending == st.startPending
    ensures r.overlays == RemoveRipple(st, st.recorded).overlays
    ensures r.removals == RemoveRipple(st, st.recorded).removals
  {
    RemoveRipple(st.(endPending := false), st.recorded)
  }

  /** A scheduled `divParent.remove()` fires: that overlay is detached and
      one of its scheduled removals is used up. */
  function RemovalFires(st: State, i: nat): (r: State)
    requires WellFormed(st) && i in st.removals
    ensures WellFormed(r)
    ensures r.recorded == st.recorded && r.startPending == st.startPending && r.endPending == st.endPending
    ensures |r.overlays| == |st.overlays| && r.overlays[i].phase == Removed
    ensures r.overlays[i].strike == st.overlays[i].strike
    ensures forall j :: 0 <= j < |st.overlays| && j != i ==> r.overlays[j] == st.overlays[j]
    ensures r.removals == st.removals - multiset{i}
  {
    st.(overlays := st.overlays[i := st.overlays[i].(phase := Removed)],
        removals := st.removals - multiset{i})
  }

  /** What can happen to a session next. Timer firings carry what the
      DOM helpers report at that moment: the excluded nodes and the offset. */
  datatype Input =
    | Move
    | Press(e: PressEvent)
    | Release
    | StartTimer(exclusion: set<NodeId>, off: Offset)
    | EndTimer
    | RemovalTimer(id: nat)

  /** A firing whose timer is not pending is one that was cleared: it does nothing. */
  function Step(s: Settings, el: NodeId, st: State, input: Input): (r: State)
    requires WellFormed(st)
    ensures WellFormed(r)
  {
    match input
    case Move => OnMove(st)
    case Press(e) => OnPress(st, e)
    case Release => OnRelease(st)
    case StartTimer(exclusion, off) =>
      if st.startPending.Some? then StartFires(s, el, st, exclusion, off) else st
    case EndTimer => if st.endPending then EndFires(st) else st
    case RemovalTimer(i) => if i in st.removals then RemovalFires(st, i) else st
  }

  /** The session after a sequence of inputs, oldest first. */
  function Run(s: Settings, el: NodeId, st: State, inputs: seq<Input>): (r: State)
    requires WellFormed(st)
    ensures WellFormed(r)
    decreases |inputs|
  {
    if inputs == [] then st else Run(s, el, Step(s, el, st, inputs[0]), inputs[1..])
  }

  lemma InvIdle()
    ensures Inv(Idle)
  {
  }

  lemma PressKeepsInv(st: State, e: PressEvent)
    requires Inv(st)
    ensures Inv(OnPress(st, e))
  {
  }

  lemma StartKeepsInv(s: Settings, el: NodeId, st: State, exclusion: set<NodeId>, off: Offset)
    requires Inv(st) && st.startPending.Some?
    ensures Inv(StartFires(s, el, st, exclusion, off))
  {
  }

  lemma EndKeepsInv(st: State)
    requires Inv(st) && st.endPending
    ensures Inv(EndFires(st))
  {
  }

  lemma RemovalKeepsInv(st: State, k: nat)
    requires Inv(st) && k in st.removals
    ensures Inv(RemovalFires(st, k))
  {
  }

  /** Every handler and every timer firing keeps the session invariant. */
  lemma StepKeepsInv(s: Settings, el: NodeId, st: State, input: Input)
    requires Inv(st)
    ensures Inv(Step(s, el, st, input))
  {
    match input
    case Move =>
    case Press(e) => PressKeepsInv(st, e);
    case Release =>
    case StartTimer(exclusion, off) =>
      if st.startPending.Some? { StartKeepsInv(s, el, st, exclusion, off); }
    case EndTimer =>
      if st.endPending { EndKeepsInv(st); }
    case RemovalTimer(k) =>
      if k in st.removals { RemovalKeepsInv(st, k); }
  }

  /** Any sequence of inputs keeps the session invariant. */
  lemma {:induction false} RunKeepsInv(s: Settings, el: NodeId, st: State, inputs: seq<Input>)
    requires Inv(st)
    ensures Inv(Run(s, el, st, inputs))
    decreases |inputs|
  {
    if inputs != [] {
      StepKeepsInv(s, el, st, inputs[0]);
      RunKeepsInv(s, el, Step(s, el, st, inputs[0]), inputs[1..]);
    }
  }

  /** Never two ripples shown at once for one element: after any inputs from
      a fresh binding, at most one overlay is Live, and it is the recorded one. */
  lemma AtMostOneLive(s: Settings, el: NodeId, inputs: seq<Input>)
    ensures var r := Run(s, el, Idle, inputs);
      forall i, j ::
        (0 <= i < |r.overlays| && 0 <= j < |r.overlays| &&
         r.overlays[i].phase == Live && r.overlays[j].phase == Live) ==> i == j && r.recorded == Some(i)
  {
    RunKeepsInv(s, el, Idle, inputs);
  }

  /** A press retires the overlay it finds recorded (its fade-out begins and
      its removal is scheduled), and afterwards no overlay is Live. */
  lemma PressRetiresPrevious(st: State, e: PressEvent)
    requires Inv(st)
    ensures var r := OnPress(st, e);
      && (forall i :: 0 <= i < |r.overlays| ==> r.overlays[i].phase != Live)
      && (st.recorded.Some? && st.overlays[st.recorded.value].phase == Live ==>
            r.overlays[st.recorded.value].phase == Fading && st.recorded.value in r.removals)
  {
  }

  /** The rank of a phase along an overlay's life. */
  function Rank(p: Phase): nat {
    match p
    case Live => 0
    case Fading => 1
    case Removed => 2
  }

  /** `later` extends `earlier`: overlays are only appended, keep their
      strike point, and only move forward from Live to Fading to Removed. */
  ghost predicate Evolves(earlier: State, later: State) {
    && |earlier.overlays| <= |later.overlays|
    && forall i :: 0 <= i < |earlier.overlays| ==>
         later.overlays[i].strike == earlier.overlays[i].strike &&
         Rank(earlier.overlays[i].phase) <= Rank(later.overlays[i].phase)
  }

  lemma StepEvolves(s: Settings, el: NodeId, st: State, input: Input)
    requires WellFormed(st)
    ensures Evolves(st, Step(s, el, st, input))
  {
  }

  /** No overlay ever comes back: whatever happens, an overlay never returns
      to an earlier phase, never moves, and none is dropped from the list of
      created overlays. */
  lemma {:induction false} RunEvolves(s: Settings, el: NodeId, st: State, inputs: seq<Input>)
    requires WellFormed(st)
    ensures Evolves(st, Run(s, el, st, inputs))
    decreases |inputs|
  {
    if inputs != [] {
      var mid := Step(s, el, st, inputs[0]);
      StepEvolves(s, el, st, inputs[0]);
      RunEvolves(s, el, mid, inputs[1..]);
    }
  }

  /** The inputs contain no press. */
  predicate NoPress(inputs: seq<Input>) {
    forall k :: 0 <= k < |inputs| ==> !inputs[k].Press?
  }

  /** Without a press, a session whose start slot is empty, or holds a
      multi-touch press, never creates an overlay. */
  lemma {:induction false} NoPressNoRipple(s: Settings, el: NodeId, st: State, inputs: seq<Input>)
    requires WellFormed(st) && NoPress(inputs)
    requires st.startPending.None? || MultiTouch(st.startPending.value)
    ensures |Run(s, el, st, inputs).overlays| == |st.overlays|
    decreases |inputs|
  {
    if inputs != [] {
      var mid := Step(s, el, st, inputs[0]);
      assert !inputs[0].Press?;
      assert |mid.overlays| == |st.overlays|;
      assert NoPress(inputs[1..]) by {
        forall k | 0 <= k < |inputs[1..]| ensures !inputs[1..][k].Press? {
          assert inputs[1..][k] == inputs[k + 1];
        }
      }
      NoPressNoRipple(s, el, mid, inputs[1..]);
    }
  }

  /** The inputs contain no firing of the start timer. */
  predicate NoStartFiring(inputs: seq<Input>) {
    forall k :: 0 <= k < |inputs| ==> !inputs[k].StartTimer?
  }

  /** Running `[input] + rest` is one step followed by the rest. */
  lemma RunCons(s: Settings, el: NodeId, st: State, input: Input, rest: seq<Input>)
    requires WellFormed(st)
    ensures Run(s, el, st, [input] + rest) == Run(s, el, Step(s, el, st, input), rest)
  {
  }

  /** Running `a` then `b` is running `a + b`. */
  lemma {:induction false} RunAppend(s: Settings, el: NodeId, st: State, a: seq<Input>, b: seq<Input>)
    requires WellFormed(st)
    ensures Run(s, el, st, a + b) == Run(s, el, Run(s, el, st, a), b)
    decreases |a|
  {
    if a == [] {
      assert a + b == b;
    } else {
      assert a + b == [a[0]] + (a[1..] + b);
      RunCons(s, el, st, a[0], a[1..] + b);
      RunAppend(s, el, Step(s, el, st, a[0]), a[1..], b);
    }
  }

  /** Only the start timer creates overlays: inputs without its firing
      leave the number of overlays as it was. */
  lemma {:induction false} NoStartFiringNoRipple(s: Settings, el: NodeId, st: State, inputs: seq<Input>)
    requires WellFormed(st) && NoStartFiring(inputs)
    ensures |Run(s, el, st, inputs).overlays| == |st.overlays|
    decreases |inputs|
  {
    if inputs != [] {
      assert !inputs[0].StartTimer?;
      assert NoStartFiring(inputs[1..]) by {
        forall k | 0 <= k < |inputs[1..]| ensures !inputs[1..][k].StartTimer? {
          assert inputs[1..][k] == inputs[k + 1];
        }
      }
      NoStartFiringNoRipple(s, el, Step(s, el, st, inputs[0]), inputs[1..]);
    }
  }

  /** A move arriving before the start timer fires means that press never
      creates an overlay. Before the move anything but the start timer's
      firing may happen (releases, end timers, removals, other moves, other
      presses); after it, anything but a new press. */
  lemma MoveCancelsPress(s: Settings, el: NodeId, st: State, e: PressEvent,
                         mid: seq<Input>, later: seq<Input>)
    requires WellFormed(st) && NoStartFiring(mid) && NoPress(later)
    ensures |Run(s, el, st, [Press(e)] + mid + [Move] + later).overlays| == |st.overlays|
  {
    var pressed := OnPress(st, e);
    assert [Press(e)] + mid + [Move] + later == [Press(e)] + (mid + ([Move] + later));
    RunCons(s, el, st, Press(e), mid + ([Move] + later));
    RunAppend(s, el, pressed, mid, [Move] + later);
    var before := Run(s, el, pressed, mid);
    NoStartFiringNoRipple(s, el, pressed, mid);
    RunCons(s, el, before, Move, later);
    NoPressNoRipple(s, el, OnMove(before), later);
  }

  /** A press with two touch points never creates an overlay, whatever the
      state before it and whatever follows until the next press. */
  lemma MultiTouchNeverCreates(s: Settings, el: NodeId, st: State, e: PressEvent, later: seq<Input>)
    requires WellFormed(st) && NoPress(later) && MultiTouch(e)
    ensures |Run(s, el, st, [Press(e)] + later).overlays| == |st.overlays|
  {
    assert ([Press(e)] + later)[0] == Press(e);
    assert ([Press(e)] + later)[1..] == later;
    NoPressNoRipple(s, el, OnPress(st, e), later);
  }
}
