/** Settings resolution of `ripple(elmnt, option)`: the caller's option
    object is spread over `defaultOption`, destructured with defaults for
    `triggerOnChild` and `triggerExcept`, and the input mode (touch or mouse)
    fixes the event names and the start/end timer delay. */
module Config {
  import opened Wrappers

  /** The caller's option object; a field is `None` when its key is absent. */
  datatype Options = Options(
    background: Option<string>,
    opacity: Option<real>,
    zIndex: Option<int>,
    duration: Option<int>,
    timing: Option<string>,
    outDuration: Option<int>,
    touchScrollTimeout: Option<int>,
    height: Option<string>,
    width: Option<string>,
    triggerOnChild: Option<bool>,
    triggerExcept: Option<string>)

  /** `{}`: the option object `ripple` uses when the caller gives none. */
  const NoOptions: Options :=
    Options(None, None, None, None, None, None, None, None, None, None, None)

  /** `defaultOption`: seven keys with a fixed value, the others absent. */
  const DefaultOptions: Options :=
    Options(Some("rgb(150,150,150)"), Some(0.5), Some(99), Some(700), Some("ease"),
            Some(800), Some(100), None, None, None, None)

  /** The resolved settings, shared read-only by every element bound in one call. */
  datatype Settings = Settings(
    background: string,
    opacity: real,
    zIndex: int,
    duration: int,
    timing: string,
    outDuration: int,
    touchScrollTimeout: int,
    height: Option<string>,
    width: Option<string>,
    triggerOnChild: bool,
    triggerExcept: string)

  /** The settings a call with no options resolves to. */
  const DefaultSettings: Settings :=
    Settings("rgb(150,150,150)", 0.5, 99, 700, "ease", 800, 100, None, None, true, "_")

  /** One key of `{...base, ...top}`: present in `top` wins. */
  function Pick<T>(base: Option<T>, top: Option<T>): Option<T> {
    if top.Some? then top else base
  }

  /** Object spread `{...base, ...top}`, key by key. */
  function Spread(base: Options, top: Options): Options {
    Options(
      Pick(base.background, top.background),
      Pick(base.opacity, top.opacity),
      Pick(base.zIndex, top.zIndex),
      Pick(base.duration, top.duration),
      Pick(base.timing, top.timing),
      Pick(base.outDuration, top.outDuration),
      Pick(base.touchScrollTimeout, top.touchScrollTimeout),
      Pick(base.height, top.height),
      Pick(base.width, top.width),
      Pick(base.triggerOnChild, top.triggerOnChild),
      Pick(base.triggerExcept, top.triggerExcept))
  }

  /** The merge and destructuring at the top of `ripple`: every option the
      caller supplies wins, every absent one takes its default, and
      `triggerOnChild` and `triggerExcept` default to `true` and `"_"`. */
  function Resolve(o: Options): (s: Settings)
    ensures s.background == o.background.GetOr("rgb(150,150,150)")
    ensures s.opacity == o.opacity.GetOr(0.5)
    ensures s.zIndex == o.zIndex.GetOr(99)
    ensures s.duration == o.duration.GetOr(700)
    ensures s.timing == o.timing.GetOr("ease")
    ensures s.outDuration == o.outDuration.GetOr(800)
    ensures s.touchScrollTimeout == o.touchScrollTimeout.GetOr(100)
    ensures s.height == o.height && s.width == o.width
    ensures s.triggerOnChild == o.triggerOnChild.GetOr(true)
    ensures s.triggerExcept == o.triggerExcept.GetOr("_")
  {
    var m := Spread(DefaultOptions, o);
    Settings(m.background.value, m.opacity.value, m.zIndex.value, m.duration.value,
             m.timing.value, m.outDuration.value, m.touchScrollTimeout.value,
             m.height, m.width,
             if m.triggerOnChild.Some? then m.triggerOnChild.value else true,
             if m.triggerExcept.Some? then m.triggerExcept.value else "_")
  }

  /** The option object that spells out every field of `s`. */
  function Spelled(s: Settings): Options {
    Options(Some(s.background), Some(s.opacity), Some(s.zIndex), Some(s.duration),
            Some(s.timing), Some(s.outDuration), Some(s.touchScrollTimeout),
            s.height, s.width, Some(s.triggerOnChild), Some(s.triggerExcept))
  }

  /** Calling with no options gives exactly the `defaultOption` values, with
      `triggerOnChild` true and `triggerExcept` `"_"`. */
  lemma ResolveNoOptions()
    ensures Resolve(NoOptions) == DefaultSettings
  {
  }

  /** Options that spell out every setting resolve to those settings: nothing
      the caller supplies is overridden by a default. */
  lemma ResolveSpelled(s: Settings)
    ensures Resolve(Spelled(s)) == s
  {
  }

  /** The event names and the timer delay chosen once per `ripple` call from
      whether the runtime has touch support. */
  datatype InputMode = InputMode(pressEvents: string, releaseEvents: string, delay: int)

  /** `createRippleEvents`, `removeRippleEvents` and each element's `timeout`:
      touch events and the scroll-cancel window on a touch runtime, mouse
      events and no delay otherwise. */
  function ModeFor(s: Settings, isTouch: bool): (m: InputMode)
    ensures isTouch ==> m == InputMode("touchstart", "touchend touchcancel", s.touchScrollTimeout)
    ensures !isTouch ==> m == InputMode("mousedown", "mouseleave mouseup", 0)
  {
    InputMode(if isTouch then "touchstart" else "mousedown",
              if isTouch then "touchend touchcancel" else "mouseleave mouseup",
              if isTouch then s.touchScrollTimeout else 0)
  }

  /** The delay never depends on the options in mouse mode, and in touch mode
      it is the caller's `touchScrollTimeout` or 100 when absent. */
  lemma DelayOfOptions(o: Options, isTouch: bool)
    ensures ModeFor(Resolve(o), isTouch).delay ==
            if isTouch then o.touchScrollTimeout.GetOr(100) else 0
  {
  }
}
