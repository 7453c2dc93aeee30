/** Concrete runs of one session: a click shown and removed, a tap
    cancelled by scrolling, a press on a child ignored, and the behaviours
    of the handlers that a reader might not expect. */
module Scenarios {
  import opened Wrappers
  import opened Config
  import opened Gate
  import opened Machine

  /** The bound element, one of its children, and the element at the page origin. */
  const El: NodeId := 1
  const Child: NodeId := 2
  const AtOrigin: Offset := Offset(0, 0)

  /** A mouse press on the element at page point (10, 10). */
  const Click: PressEvent := PressEvent(El, None, Point(10, 10))

  /** The start timer firing with nothing excluded. */
  const Fire: Input := StartTimer({}, AtOrigin)

  /** The states a single click goes through with default settings. */
  const Pressed: State := State(None, Some(Click), false, [], multiset{})
  const Shown: State := State(Some(0), None, false, [Overlay(Live, Point(10, 10))], multiset{})
  const Releasing: State := Shown.(endPending := true)
  const Faded: State := State(Some(0), None, false, [Overlay(Fading, Point(10, 10))], multiset{0})

  /** Press and fire: the click's ripple is shown and recorded. */
  lemma ClickShows(s: Settings, rest: seq<Input>)
    ensures Run(s, El, Idle, [Press(Click), Fire] + rest) == Run(s, El, Shown, rest)
  {
    var afterPress := [Fire] + rest;
    assert [Press(Click), Fire] + rest == [Press(Click)] + afterPress;
    assert OnPress(Idle, Click) == Pressed;
    RunCons(s, El, Idle, Press(Click), afterPress);
    assert CreateRipple(s, El, Click, {}, AtOrigin) == Some(Point(10, 10));
    assert StartFires(s, El, Pressed, {}, AtOrigin) == Shown;
    RunCons(s, El, Pressed, Fire, rest);
  }

  /** Release and end timer: the shown ripple fades and stays recorded. */
  lemma ReleaseFades(s: Settings, rest: seq<Input>)
    ensures Run(s, El, Shown, [Release, EndTimer] + rest) == Run(s, El, Faded, rest)
  {
    assert [Release, EndTimer] + rest == [Release] + ([EndTimer] + rest);
    RunCons(s, El, Shown, Release, [EndTimer] + rest);
    RunCons(s, El, Releasing, EndTimer, rest);
    assert Step(s, El, Releasing, EndTimer) == Faded;
  }

  /** With default settings in mouse mode the start timer has no
      delay, and a press at (10, 10) on an element at the origin creates one
      Live ripple centred at (10, 10) once it fires. */
  lemma ClickShowsRipple()
    ensures ModeFor(Resolve(NoOptions), false).delay == 0
    ensures Run(Resolve(NoOptions), El, Idle, [Press(Click), Fire]).overlays == [Overlay(Live, Point(10, 10))]
  {
    ClickShows(Resolve(NoOptions), []);
    assert [Press(Click), Fire] + [] == [Press(Click), Fire];
  }

  /** Continuing that click, a release fades the ripple, and its scheduled
      removal detaches it. The record still names the detached overlay. */
  lemma ClickRippleRemoved()
    ensures Run(Resolve(NoOptions), El, Idle, [Press(Click), Fire, Release, EndTimer, RemovalTimer(0)])
            == State(Some(0), None, false, [Overlay(Removed, Point(10, 10))], multiset{})
  {
    var s := Resolve(NoOptions);
    assert [Press(Click), Fire, Release, EndTimer, RemovalTimer(0)]
        == [Press(Click), Fire] + ([Release, EndTimer] + [RemovalTimer(0)]);
    ClickShows(s, [Release, EndTimer] + [RemovalTimer(0)]);
    ReleaseFades(s, [RemovalTimer(0)]);
    assert [RemovalTimer(0)] == [RemovalTimer(0)] + [];
    RunCons(s, El, Faded, RemovalTimer(0), []);
  }

  /** With `touchScrollTimeout: 50` on a touch runtime the start
      timer waits 50 ms, and a move before it fires means no ripple at all. */
  lemma ScrollCancelsTap(tap: PressEvent, later: seq<Input>)
    requires NoPress(later)
    ensures var o := NoOptions.(touchScrollTimeout := Some(50));
      && ModeFor(Resolve(o), true).delay == 50
      && Run(Resolve(o), El, Idle, [Press(tap), Move] + later).overlays == []
  {
    var o := NoOptions.(touchScrollTimeout := Some(50));
    assert [Press(tap)] + [] + [Move] + later == [Press(tap), Move] + later;
    MoveCancelsPress(Resolve(o), El, Idle, tap, [], later);
  }

  /** With `triggerOnChild: false` a press whose target is a
      child of the element creates nothing and records nothing. */
  lemma ChildPressIgnored()
    ensures var s := Resolve(NoOptions.(triggerOnChild := Some(false)));
      var r := Run(s, El, Idle, [Press(PressEvent(Child, None, Point(10, 10))), Fire]);
      r.overlays == [] && r.recorded.None? && r.startPending.None?
  {
    var s := Resolve(NoOptions.(triggerOnChild := Some(false)));
    var e := PressEvent(Child, None, Point(10, 10));
    assert [Press(e), Fire] == [Press(e)] + ([Fire] + []);
    RunCons(s, El, Idle, Press(e), [Fire] + []);
    RunCons(s, El, OnPress(Idle, e), Fire, []);
  }

  /** A release never clears the record: two releases after one ripple fade
      the same overlay twice and schedule its removal twice. */
  lemma ReleaseKeepsRecord()
    ensures var r := Run(DefaultSettings, El, Idle, [Press(Click), Fire, Release, EndTimer, Release, EndTimer]);
      r.recorded == Some(0) && r.overlays == [Overlay(Fading, Point(10, 10))] && r.removals == multiset{0, 0}
  {
    var s := DefaultSettings;
    assert [Press(Click), Fire, Release, EndTimer, Release, EndTimer]
        == [Press(Click), Fire] + ([Release, EndTimer] + [Release, EndTimer]);
    ClickShows(s, [Release, EndTimer] + [Release, EndTimer]);
    ReleaseFades(s, [Release, EndTimer]);
    FadedFadesAgain(s);
  }

  /** A second release and end timer on the faded, still recorded ripple. */
  lemma FadedFadesAgain(s: Settings)
    ensures Run(s, El, Faded, [Release, EndTimer]) == Faded.(removals := multiset{0, 0})
  {
    var again := Faded.(endPending := true);
    assert [Release, EndTimer] == [Release] + ([EndTimer] + []);
    RunCons(s, El, Faded, Release, [EndTimer] + []);
    RunCons(s, El, again, EndTimer, []);
    assert Step(s, El, again, EndTimer) == Faded.(removals := multiset{0, 0});
  }

  /** A multi-touch press is only declined when its start timer fires: the
      press handler has already retired the ripple shown before it. */
  lemma MultiTouchStillRetires(pinch: PressEvent)
    requires MultiTouch(pinch)
    ensures var r := Run(DefaultSettings, El, Idle, [Press(Click), Fire, Press(pinch), Fire]);
      r.overlays == [Overlay(Fading, Point(10, 10))] && r.recorded.None? && r.removals == multiset{0}
  {
    var s := DefaultSettings;
    var retired := State(None, Some(pinch), false, [Overlay(Fading, Point(10, 10))], multiset{0});
    assert [Press(Click), Fire, Press(pinch), Fire] == [Press(Click), Fire] + [Press(pinch), Fire];
    ClickShows(s, [Press(pinch), Fire]);
    assert [Press(pinch), Fire] == [Press(pinch)] + [Fire];
    RunCons(s, El, Shown, Press(pinch), [Fire]);
    assert Step(s, El, Shown, Press(pinch)) == retired;
    RunCons(s, El, retired, Fire, []);
  }

  /** A move after a release cancels the pending retirement: the ripple stays
      Live with no timer left that would retire it. */
  lemma MoveCancelsRetirement()
    ensures Run(DefaultSettings, El, Idle, [Press(Click), Fire, Release, Move]) == Shown
  {
    var s := DefaultSettings;
    assert [Press(Click), Fire, Release, Move] == [Press(Click), Fire] + [Release, Move];
    ClickShows(s, [Release, Move]);
    assert [Release, Move] == [Release] + [Move];
    RunCons(s, El, Shown, Release, [Move]);
    RunCons(s, El, Releasing, Move, []);
  }

  /** The state after the first click's release, once a second click has
      been pressed: the first ripple fading, the end timer still pending. */
  const Again: State := State(None, Some(Click), true, [Overlay(Fading, Point(10, 10))], multiset{0})

  lemma SecondClickRetiresFirst(s: Settings, rest: seq<Input>)
    ensures Run(s, El, Shown, [Release, Press(Click)] + rest) == Run(s, El, Again, rest)
  {
    assert [Release, Press(Click)] + rest == [Release] + ([Press(Click)] + rest);
    RunCons(s, El, Shown, Release, [Press(Click)] + rest);
    RunCons(s, El, Releasing, Press(Click), rest);
    assert Step(s, El, Releasing, Press(Click)) == Again;
  }

  /** The session once the second click's ripple is shown. */
  const SecondShown: State :=
    State(Some(1), None, false, [Overlay(Fading, Point(10, 10)), Overlay(Live, Point(10, 10))], multiset{0})

  /** From `Again`, the end timer finds nothing recorded and the start timer
      then shows the second ripple. */
  lemma EndFindsNothing(s: Settings)
    ensures Run(s, El, Again, [EndTimer, Fire]) == SecondShown
  {
    var quiet := Again.(endPending := false);
    assert [EndTimer, Fire] == [EndTimer] + ([Fire] + []);
    RunCons(s, El, Again, EndTimer, [Fire] + []);
    assert Step(s, El, Again, EndTimer) == quiet;
    RunCons(s, El, quiet, Fire, []);
    assert CreateRipple(s, El, Click, {}, AtOrigin) == Some(Point(10, 10));
    assert Step(s, El, quiet, Fire) == SecondShown;
  }

  /** A second press before the first release's end timer fires: that timer
      finds nothing recorded, and the second ripple is left Live with no
      retirement pending. */
  lemma SecondPressOutlivesRelease()
    ensures var r := Run(DefaultSettings, El, Idle, [Press(Click), Fire, Release, Press(Click), EndTimer, Fire]);
      && r.overlays == [Overlay(Fading, Point(10, 10)), Overlay(Live, Point(10, 10))]
      && r.recorded == Some(1) && !r.endPending && r.startPending.None?
  {
    var s := DefaultSettings;
    assert [Press(Click), Fire, Release, Press(Click), EndTimer, Fire]
        == [Press(Click), Fire] + ([Release, Press(Click)] + [EndTimer, Fire]);
    ClickShows(s, [Release, Press(Click)] + [EndTimer, Fire]);
    SecondClickRetiresFirst(s, [EndTimer, Fire]);
    EndFindsNothing(s);
  }
}
