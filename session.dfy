/** The imperative side of `ripple`: one `ElementSession` object per bound
    element holds the closure variables its handlers update in place, and
    `Ripple` resolves the settings and installs a session on every element
    that is not self-closing. Each handler and timer firing is proved to
    perform the corresponding transition of `Machine` and to keep its
    invariant. */
module Session {
  import opened Wrappers
  import opened Config
  import opened Gate
  import opened Machine

  /** The per-element closure state. */
  class ElementSession {
    const el: NodeId
    const settings: Settings
    /** `timeout`: the delay of both the start and the end timer. */
    const timeout: int

    /** `removeDiv` */
    var recorded: Option<nat>
    /** `touchStartTimeOutId`, with the press event its callback captured */
    var startPending: Option<PressEvent>
    /** `touchEndTimeOutId` */
    var endPending: bool
    /** every overlay this element has created, by creation order */
    var overlays: seq<Overlay>
    /** the scheduled `divParent.remove()` calls */
    var removals: multiset<nat>

    /** The session as a value of the state machine. */
    function Snapshot(): State
      reads this
    {
      State(recorded, startPending, endPending, overlays, removals)
    }

    ghost predicate Valid()
      reads this
    {
      Inv(Snapshot())
    }

    /** Binding a session: nothing recorded, no timer pending, and the
        delay fixed by the input mode. */
    constructor (el: NodeId, settings: Settings, isTouch: bool)
      ensures Valid() && Snapshot() == Idle
      ensures this.el == el && this.settings == settings
      ensures timeout == ModeFor(settings, isTouch).delay
    {
      this.el := el;
      this.settings := settings;
      timeout := if isTouch then settings.touchScrollTimeout else 0;
      recorded := None;
      startPending := None;
      endPending := false;
      overlays := [];
      removals := multiset{};
    }

    /** `removeRipple(div)` */
    method RemoveRipple(div: Option<nat>)
      requires WellFormed(Snapshot()) && (div.Some? ==> div.value < |overlays|)
      modifies this
      ensures Snapshot() == Machine.RemoveRipple(old(Snapshot()), div)
    {
      if div.Some? {
        var i := div.value;
        overlays := overlays[i := overlays[i].(phase := FadeOut(overlays[i].phase))];
        removals := removals + multiset{i};
      }
    }

    /** The `touchmove` handler. */
    method Move()
      requires Valid()
      modifies this
      ensures Valid() && Snapshot() == OnMove(old(Snapshot()))
    {
      startPending := None;
      endPending := false;
      StepKeepsInv(settings, el, old(Snapshot()), Input.Move);
    }

    /** The press handler (`touchstart` or `mousedown`). */
    method Press(e: PressEvent)
      requires Valid()
      modifies this
      ensures Valid() && Snapshot() == OnPress(old(Snapshot()), e)
    {
      startPending := None;
      if recorded.Some? {
        RemoveRipple(recorded);
        recorded := None;
      }
      startPending := Some(e);
      PressKeepsInv(old(Snapshot()), e);
    }

    /** The release handler (`touchend touchcancel` or `mouseleave mouseup`). */
    method Release()
      requires Valid()
      modifies this
      ensures Valid() && Snapshot() == OnRelease(old(Snapshot()))
    {
      endPending := false;  // clearTimeout(touchEndTimeOutId)
      endPending := true;   // touchEndTimeOutId = setTimeout(...)
      StepKeepsInv(settings, el, old(Snapshot()), Input.Release);
    }

    /** The start timer's callback: `removeDiv = createRipple(e)`, given the
        nodes `triggerExcept` matches and the element's offset right now. */
    method StartTimerFires(exclusion: set<NodeId>, off: Offset)
      requires Valid() && startPending.Some?
      modifies this
      ensures Valid() && Snapshot() == StartFires(settings, el, old(Snapshot()), exclusion, off)
    {
      var e := startPending.value;
      startPending := None;
      var created := CreateRipple(settings, el, e, exclusion, off);
      match created {
        case None =>
          recorded := None;
        case Some(p) =>
          overlays := overlays + [Overlay(Live, p)];
          recorded := Some(|overlays| - 1);
      }
      StartKeepsInv(settings, el, old(Snapshot()), exclusion, off);
    }

    /** The end timer's callback: `removeRipple(removeDiv)`. */
    method EndTimerFires()
      requires Valid() && endPending
      modifies this
      ensures Valid() && Snapshot() == EndFires(old(Snapshot()))
    {
      endPending := false;
      RemoveRipple(recorded);
      EndKeepsInv(old(Snapshot()));
    }

    /** A scheduled `divParent.remove()` of overlay `i` runs. */
    method RemovalTimerFires(i: nat)
      requires Valid() && i in removals
      modifies this
      ensures Valid() && Snapshot() == RemovalFires(old(Snapshot()), i)
    {
      overlays := overlays[i := overlays[i].(phase := Removed)];
      removals := removals - multiset{i};
      RemovalKeepsInv(old(Snapshot()), i);
    }
  }

  /** An element to bind, with what `isSelfTag` reports for it. */
  datatype Element = Element(id: NodeId, selfClosing: bool)

  /** The message logged for each self-closing element. */
  const SelfTagError: string := "Ripple is not allowed on self closing tag you need to wrap it"

  /** The elements that get a session, in order: every one that is not self-closing. */
  function Bindable(elements: seq<Element>): (ids: seq<NodeId>)
    ensures |ids| <= |elements|
    ensures forall id :: id in ids <==>
              exists k :: 0 <= k < |elements| && elements[k].id == id && !elements[k].selfClosing
    decreases |elements|
  {
    if elements == [] then []
    else
      var last := elements[|elements| - 1];
      var init := elements[..|elements| - 1];
      var before := Bindable(init);
      assert forall k :: 0 <= k < |init| ==> init[k] == elements[k];
      if last.selfClosing then before else before + [last.id]
  }

  /** The number of self-closing elements, each of which logs one error. */
  function SelfClosingCount(elements: seq<Element>): nat
    decreases |elements|
  {
    if elements == [] then 0
    else SelfClosingCount(elements[..|elements| - 1]) + (if elements[|elements| - 1].selfClosing then 1 else 0)
  }

  /** Every element is either bound or reported. */
  lemma {:induction false} BoundOrReported(elements: seq<Element>)
    ensures |Bindable(elements)| + SelfClosingCount(elements) == |elements|
    decreases |elements|
  {
    if elements != [] {
      BoundOrReported(elements[..|elements| - 1]);
    }
  }

  /** `ripple(elements, option)`: resolve the settings once, then walk the
      elements in order, logging an error for each self-closing one and
      installing a fresh, idle session on every other one. */
  method Ripple(elements: seq<Element>, option: Options, isTouch: bool)
    returns (sessions: seq<ElementSession>, log: seq<string>)
    ensures |sessions| == |Bindable(elements)|
    ensures forall k :: 0 <= k < |sessions| ==>
              && fresh(sessions[k])
              && sessions[k].el == Bindable(elements)[k]
              && sessions[k].settings == Resolve(option)
              && sessions[k].timeout == ModeFor(Resolve(option), isTouch).delay
              && sessions[k].Valid() && sessions[k].Snapshot() == Idle
    ensures forall j, k :: 0 <= j < k < |sessions| ==> sessions[j] != sessions[k]
    ensures log == seq(SelfClosingCount(elements), _ => SelfTagError)
  {
    var settings := Resolve(option);
    sessions, log := [], [];
    var n := 0;
    while n < |elements|
      invariant 0 <= n <= |elements|
      invariant |sessions| == |Bindable(elements[..n])|
      invariant forall k :: 0 <= k < |sessions| ==>
                  && fresh(sessions[k])
                  && sessions[k].el == Bindable(elements[..n])[k]
                  && sessions[k].settings == settings
                  && sessions[k].timeout == ModeFor(settings, isTouch).delay
                  && sessions[k].Valid() && sessions[k].Snapshot() == Idle
      invariant forall j, k :: 0 <= j < k < |sessions| ==> sessions[j] != sessions[k]
      invariant log == seq(SelfClosingCount(elements[..n]), _ => SelfTagError)
    {
      var el := elements[n];
      assert elements[..n + 1][..n] == elements[..n];
      if el.selfClosing {
        log := log + [SelfTagError];
      } else {
        var session := new ElementSession(el.id, settings, isTouch);
        sessions := sessions + [session];
      }
      n := n + 1;
    }
    assert elements[..n] == elements;
  }
}
