/** `createRipple`: the checks that decline a press when its start timer
    fires, and the strike point of the ripple otherwise. */
module Gate {
  import opened Wrappers
  import opened Config

  /** A DOM node, by identity. */
  type NodeId = int

  /** Page coordinates, or coordinates relative to an element. */
  datatype Point = Point(x: int, y: int)

  /** `offset(el)`: the element's top-left corner in page coordinates. */
  datatype Offset = Offset(top: int, left: int)

  /** The press event a start timer captures: the node it was dispatched
      to, its `touches` list (`None` for a mouse event, which has none) and
      its pointer page coordinates `pageX`/`pageY`. */
  datatype PressEvent = PressEvent(target: NodeId, touches: Option<seq<Point>>, page: Point)

  /** `e.touches[1]` exists: a second finger is down. */
  predicate MultiTouch(e: PressEvent) {
    e.touches.Some? && |e.touches.value| >= 2
  }

  /** Where the press is in page coordinates: the first touch point when one
      exists; otherwise reading `e.touches[0].pageX` throws and the handler
      falls back to the pointer's `pageX`/`pageY`. */
  function ContactPoint(e: PressEvent): Point {
    match e.touches
    case Some(ts) => if |ts| >= 1 then ts[0] else e.page
    case None => e.page
  }

  /** The strike point `cx`, `cy`: the contact point relative to the element. */
  function StrikePoint(e: PressEvent, off: Offset): (p: Point)
    ensures Point(p.x + off.left, p.y + off.top) == ContactPoint(e)
  {
    var c := ContactPoint(e);
    Point(c.x - off.left, c.y - off.top)
  }

  /** Whether `createRipple` returns before creating anything: the target
      is one of the excluded nodes, or a child of the element while
      `triggerOnChild` is off, or a second touch point is down. */
  predicate Declines(s: Settings, el: NodeId, e: PressEvent, exclusion: set<NodeId>) {
    e.target in exclusion || (e.target != el && !s.triggerOnChild) || MultiTouch(e)
  }

  /** `createRipple` on element `el` for press `e`, given the nodes that
      `triggerExcept` matches inside `el` and the element's offset at that
      moment: the strike point of the new ripple, or `None` when declined. */
  function CreateRipple(s: Settings, el: NodeId, e: PressEvent, exclusion: set<NodeId>, off: Offset): (r: Option<Point>)
    ensures r.None? <==> Declines(s, el, e, exclusion)
    ensures r.Some? ==> Point(r.value.x + off.left, r.value.y + off.top) == ContactPoint(e)
    ensures r.Some? && e.touches.Some? && e.touches.value != [] ==>
              r.value == Point(e.touches.value[0].x - off.left, e.touches.value[0].y - off.top)
    ensures r.Some? && (e.touches.None? || e.touches.value == []) ==>
              r.value == Point(e.page.x - off.left, e.page.y - off.top)
  {
    if e.target in exclusion then None
    else if e.target != el && !s.triggerOnChild then None
    else if MultiTouch(e) then None
    else Some(StrikePoint(e, off))
  }

  /** Whether a press is declined does not depend on where the element is. */
  lemma DeclineIgnoresOffset(s: Settings, el: NodeId, e: PressEvent, exclusion: set<NodeId>, off1: Offset, off2: Offset)
    ensures CreateRipple(s, el, e, exclusion, off1).None? == CreateRipple(s, el, e, exclusion, off2).None?
  {
  }

  /** A press on the element itself, not excluded, with at most one touch
      point always produces a ripple, whatever `triggerOnChild` says. */
  lemma OwnTargetCreates(s: Settings, el: NodeId, e: PressEvent, exclusion: set<NodeId>, off: Offset)
    requires e.target == el && el !in exclusion && !MultiTouch(e)
    ensures CreateRipple(s, el, e, exclusion, off) == Some(StrikePoint(e, off))
  {
  }
}
