/** The adapter of src/index.tsx: it keeps a virtualized list or grid (the "surface") in
    step with the page's own scroll position, in both directions.

    DOM reads are inputs (`Env`); the imperative calls `ref.current.scrollTo(...)` and
    `window.scrollTo(...)` are returned as commands (`SurfaceCommand`, `PageCommand`). */
module WindowScroller {
  import opened Wrappers
  import opened ScrollPosition

  // ---------------------------------------------------------------------------------
  // Inputs and commands
  // ---------------------------------------------------------------------------------

  /** The wrapper element `outerRef.current`: its layout offsets `offsetTop`/`offsetLeft`. */
  datatype OuterElement = OuterElement(offsetTop: int, offsetLeft: int)

  /** What one handler invocation reads: the page's scroll properties, the wrapper element
      (`None` while `outerRef` is unset) and whether the surface ref `ref.current` is set. */
  datatype Env = Env(page: Page, outer: Option<OuterElement>, surfaceMounted: bool)

  /** A call into the surface: `scrollTo(top)` on a list, `scrollTo({scrollLeft, scrollTop})`
      on a grid. */
  datatype SurfaceCommand =
    | ListScrollTo(scrollTop: int)
    | GridScrollTo(scrollLeft: int, scrollTop: int)

  /** A call `window.scrollTo(x, y)`. */
  datatype PageCommand = WindowScrollTo(x: int, y: int)

  /** The surface's scroll notification. In list mode only `scrollOffset` is used, in grid
      mode only `scrollLeft` and `scrollTop`. */
  datatype ScrollEvent = ScrollEvent(scrollLeft: int, scrollTop: int, scrollOffset: int,
                                     scrollUpdateWasRequested: bool)

  // ---------------------------------------------------------------------------------
  // Reads
  // ---------------------------------------------------------------------------------

  /** The file's own `windowScrollPositionKey` table: `y` reads `pageYOffset`, `x` reads
      `pageXOffset`. */
  function WindowKeyOf(axis: Axis): (k: WindowKey)
    ensures k == PageYOffset <==> axis == Y
    ensures k == PageXOffset <==> axis == X
  {
    match axis
    case Y => PageYOffset
    case X => PageXOffset
  }

  /** The file's own `documentScrollPositionKey` table: `y` reads `scrollTop`, `x` reads
      `scrollLeft`. */
  function DocumentKeyOf(axis: Axis): (k: DocumentKey)
    ensures k == ScrollTop <==> axis == Y
    ensures k == ScrollLeft <==> axis == X
  {
    match axis
    case Y => ScrollTop
    case X => ScrollLeft
  }

  /** The file's own copy of the accessor, `getScrollPosition`, over its own key tables:
      it agrees with `getWindowScrollPosition` on every page. */
  function GetScrollPosition(page: Page, axis: Axis): (r: int)
    ensures r == GetWindowScrollPosition(page, axis)
  {
    Or(page.window.Get(WindowKeyOf(axis)),
       Or(page.documentElement.Get(DocumentKeyOf(axis)),
          Or(page.body.Get(DocumentKeyOf(axis)), 0)))
  }

  /** `const { offsetTop = 0, offsetLeft = 0 } = outerRef.current || {}`, vertical part. */
  function OffsetTop(outer: Option<OuterElement>): int {
    if outer.Some? then outer.value.offsetTop else 0
  }

  /** The horizontal part of the same destructuring. */
  function OffsetLeft(outer: Option<OuterElement>): int {
    if outer.Some? then outer.value.offsetLeft else 0
  }

  /** `Math.min`. */
  function Min(a: int, b: int): (m: int)
    ensures m <= a && m <= b
    ensures m == a || m == b
  {
    if a <= b then a else b
  }

  // ---------------------------------------------------------------------------------
  // Page -> surface
  // ---------------------------------------------------------------------------------

  /** One invocation of the throttled `handleWindowScroll`: the surface is told to scroll to
      the page position measured from the wrapper element, on both axes for a grid and on the
      vertical axis only for a list; nothing is called while the surface ref is unset. */
  function HandleWindowScroll(isGrid: bool, env: Env): (r: Option<SurfaceCommand>)
    ensures r.Some? <==> env.surfaceMounted
    ensures r.Some? ==> (r.value.GridScrollTo? <==> isGrid)
    ensures r.Some? ==>
              r.value.scrollTop + OffsetTop(env.outer) == GetScrollPosition(env.page, Y)
    ensures r.Some? && isGrid ==>
              r.value.scrollLeft + OffsetLeft(env.outer) == GetScrollPosition(env.page, X)
  {
    var scrollTop := GetScrollPosition(env.page, Y) - OffsetTop(env.outer);
    var scrollLeft := GetScrollPosition(env.page, X) - OffsetLeft(env.outer);
    if !env.surfaceMounted then None
    else if isGrid then Some(GridScrollTo(scrollLeft, scrollTop))
    else Some(ListScrollTo(scrollTop))
  }

  /** With no wrapper element the offsets read as 0 and the surface follows the page as is. */
  lemma UnsetOuterRefTargetsPagePosition(isGrid: bool, page: Page)
    ensures var r := HandleWindowScroll(isGrid, Env(page, None, true));
            r.Some? && r.value.scrollTop == GetWindowScrollPosition(page, Y)
            && (isGrid ==> r.value.scrollLeft == GetWindowScrollPosition(page, X))
  {
  }

  // ---------------------------------------------------------------------------------
  // Surface -> page
  // ---------------------------------------------------------------------------------

  /** `onScroll`: a notification the surface did not flag as a requested update is ignored;
      otherwise each reported offset is shifted by the smaller of the page position and the
      element offset, and the page is scrolled there unless it is already there. */
  function OnScroll(isGrid: bool, ev: ScrollEvent, env: Env): (r: Option<PageCommand>)
    ensures !ev.scrollUpdateWasRequested ==> r.None?
    ensures var top := GetScrollPosition(env.page, Y);
            var adjusted := ev.scrollOffset + Min(top, OffsetTop(env.outer));
            !isGrid ==>
              (r.Some? <==> ev.scrollUpdateWasRequested && adjusted != top)
              && (r.Some? ==> r.value == WindowScrollTo(0, adjusted))
    ensures var top := GetScrollPosition(env.page, Y);
            var left := GetScrollPosition(env.page, X);
            var adjTop := ev.scrollTop + Min(top, OffsetTop(env.outer));
            var adjLeft := ev.scrollLeft + Min(left, OffsetLeft(env.outer));
            isGrid ==>
              (r.Some? <==> ev.scrollUpdateWasRequested && (adjTop != top || adjLeft != left))
              && (r.Some? ==> r.value == WindowScrollTo(adjLeft, adjTop))
  {
    if !ev.scrollUpdateWasRequested then None
    else
      var top := GetScrollPosition(env.page, Y);
      var left := GetScrollPosition(env.page, X);
      var offsetTop := OffsetTop(env.outer);
      var offsetLeft := OffsetLeft(env.outer);
      var scrollOffset := ev.scrollOffset + Min(top, offsetTop);
      var scrollTop := ev.scrollTop + Min(top, offsetTop);
      var scrollLeft := ev.scrollLeft + Min(left, offsetLeft);
      if !isGrid && scrollOffset != top then Some(WindowScrollTo(0, scrollOffset))
      else if isGrid && (scrollTop != top || scrollLeft != left) then
        Some(WindowScrollTo(scrollLeft, scrollTop))
      else None
  }

  /** Once the page has scrolled past the top of the element, a list's page command puts the
      element's top exactly `scrollOffset` above the viewport top: the page lands where the
      surface says it is. Above the element, the command is `scrollOffset` past the page
      position instead. */
  lemma ListCommandPlacesPage(ev: ScrollEvent, env: Env)
    requires OnScroll(false, ev, env).Some?
    ensures var top := GetWindowScrollPosition(env.page, Y);
            var cmd := OnScroll(false, ev, env).value;
            cmd.x == 0
            && (top >= OffsetTop(env.outer) ==> cmd.y - OffsetTop(env.outer) == ev.scrollOffset)
            && (top < OffsetTop(env.outer) ==> cmd.y - top == ev.scrollOffset)
  {
  }

  /** Scrolling to where the page already is is never issued: if the adjusted offsets equal
      the page position, no command follows, in either mode. */
  lemma SamePositionIsNoOp(isGrid: bool, ev: ScrollEvent, env: Env)
    requires var top := GetWindowScrollPosition(env.page, Y);
             var left := GetWindowScrollPosition(env.page, X);
             (isGrid ==> ev.scrollTop + Min(top, OffsetTop(env.outer)) == top
                         && ev.scrollLeft + Min(left, OffsetLeft(env.outer)) == left)
             && (!isGrid ==> ev.scrollOffset + Min(top, OffsetTop(env.outer)) == top)
    ensures OnScroll(isGrid, ev, env).None?
  {
  }

  // ---------------------------------------------------------------------------------
  // The two directions together
  // ---------------------------------------------------------------------------------

  /** The notification of a surface that obeyed `c` exactly, flagged as a requested update.
      A list reports its offset in `scrollOffset`; the fields a mode ignores are 0. */
  function Echo(c: SurfaceCommand): (ev: ScrollEvent)
    ensures ev.scrollUpdateWasRequested
    ensures c.ListScrollTo? ==> ev.scrollOffset == c.scrollTop
    ensures c.GridScrollTo? ==> ev.scrollLeft == c.scrollLeft && ev.scrollTop == c.scrollTop
  {
    match c
    case ListScrollTo(t) => ScrollEvent(0, t, t, true)
    case GridScrollTo(l, t) => ScrollEvent(l, t, 0, true)
  }

  /** A surface that cannot scroll before its own start: negative offsets become 0. */
  function Clamp(c: SurfaceCommand): (d: SurfaceCommand)
    ensures d.ListScrollTo? == c.ListScrollTo?
    ensures d.scrollTop >= 0 && (c.scrollTop >= 0 ==> d.scrollTop == c.scrollTop)
    ensures d.GridScrollTo? ==> d.scrollLeft >= 0 && (c.scrollLeft >= 0 ==> d.scrollLeft == c.scrollLeft)
  {
    match c
    case ListScrollTo(t) => ListScrollTo(if t < 0 then 0 else t)
    case GridScrollTo(l, t) => GridScrollTo(if l < 0 then 0 else l, if t < 0 then 0 else t)
  }

  /** No ping-pong: when the page has scrolled past the element on every axis the mode uses,
      the surface's report of the target it was just given leads to no page scroll. */
  lemma NoPingPongPastElement(isGrid: bool, env: Env)
    requires env.surfaceMounted
    requires GetWindowScrollPosition(env.page, Y) >= OffsetTop(env.outer)
    requires isGrid ==> GetWindowScrollPosition(env.page, X) >= OffsetLeft(env.outer)
    ensures OnScroll(isGrid, Echo(HandleWindowScroll(isGrid, env).value), env).None?
  {
  }

  /** With a surface that clamps negative offsets to 0, the round trip is silent wherever
      the page is, above the element included. */
  lemma NoPingPongWithClampingSurface(isGrid: bool, env: Env)
    requires env.surfaceMounted
    ensures OnScroll(isGrid, Echo(Clamp(HandleWindowScroll(isGrid, env).value)), env).None?
  {
  }

  /** Without that clamp the round trip is not silent above the element: page at 0, element
      at 100, the list is told -100, reports -100, and the page is sent to -100. */
  lemma PingPongAboveElementWithoutClamp()
    ensures var page := Page(WindowOffsets(Some(0), Some(0)), ScrollBox(None, None),
                             ScrollBox(None, None));
            var env := Env(page, Some(OuterElement(100, 0)), true);
            HandleWindowScroll(false, env) == Some(ListScrollTo(-100))
            && OnScroll(false, Echo(ListScrollTo(-100)), env) == Some(WindowScrollTo(0, -100))
  {
  }

  // ---------------------------------------------------------------------------------
  // Style
  // ---------------------------------------------------------------------------------

  datatype Length = Auto | Percent(p: nat)
  datatype Display = InlineBlock
  datatype Style = Style(width: Length, height: Length, display: Display)

  /** The style handed to the wrapper: full height, inline block, and a width that follows
      the content for a grid and fills the container for a list. */
  function WrapperStyle(isGrid: bool): (s: Style)
    ensures s.height == Percent(100) && s.display == InlineBlock
    ensures s.width == Auto <==> isGrid
    ensures !isGrid ==> s.width == Percent(100)
  {
    Style(if isGrid then Auto else Percent(100), Percent(100), InlineBlock)
  }

  // ---------------------------------------------------------------------------------
  // Lifecycle: listener registration, throttle, teardown
  // ---------------------------------------------------------------------------------

  /** `Created` before the effect runs, `Mounted` while the listener is registered,
      `Unmounted` after the cleanup, for good. */
  datatype Phase = Created | Mounted | Unmounted

  /** The adapter's observable state: whether the page listener is registered, whether the
      throttle holds a trailing call, and the logs of calls made into the surface and page. */
  datatype State = State(phase: Phase, listening: bool, pending: bool,
                         surfaceCalls: seq<SurfaceCommand>, pageCalls: seq<PageCommand>)

  /** What can happen to an adapter instance. `PageScroll(leading, env)` is a page scroll
      event; `leading` is the throttle's clock decision (call now, or keep a trailing call).
      `ThrottleFires(env)` is the end of the throttle window. */
  datatype Event =
    | Effect
    | PageScroll(leading: bool, env: Env)
    | ThrottleFires(env: Env)
    | SurfaceScroll(ev: ScrollEvent, env: Env)
    | Cleanup

  function Initial(): State {
    State(Created, false, false, [], [])
  }

  /** The listener is registered exactly while mounted; a trailing call exists only while
      the listener does; nothing reaches the surface before mounting. */
  predicate Inv(s: State) {
    (s.phase == Mounted <==> s.listening)
    && (s.pending ==> s.listening)
    && (s.phase == Created ==> s.surfaceCalls == [])
  }

  /** `s.surfaceCalls` is a prefix of `t.surfaceCalls`, and likewise for `pageCalls`. */
  predicate Extends(s: State, t: State) {
    |s.surfaceCalls| <= |t.surfaceCalls| && t.surfaceCalls[..|s.surfaceCalls|] == s.surfaceCalls
    && |s.pageCalls| <= |t.pageCalls| && t.pageCalls[..|s.pageCalls|] == s.pageCalls
  }

  /** Run `handleWindowScroll` now and log its call into the surface, if any. */
  function Invoke(isGrid: bool, s: State, env: Env): State {
    match HandleWindowScroll(isGrid, env)
    case Some(c) => s.(surfaceCalls := s.surfaceCalls + [c])
    case None => s
  }

  /** One event. The effect registers the listener once; a page scroll reaches the handler
      only while the listener is registered, and a call made now drops any trailing one; the cleanup cancels the trailing call and
      removes the listener; `onScroll` does not depend on the lifecycle. */
  function Step(isGrid: bool, s: State, e: Event): (t: State)
    ensures Inv(s) ==> Inv(t)
    ensures Extends(s, t)
    ensures Inv(s) && s.phase == Unmounted ==>
              t.phase == Unmounted && t.surfaceCalls == s.surfaceCalls
    ensures e.Cleanup? ==> t.phase == Unmounted && !t.listening && !t.pending
  {
    match e
    case Effect =>
      if s.phase == Created then s.(phase := Mounted, listening := true) else s
    case PageScroll(leading, env) =>
      if !s.listening then s
      else if leading then Invoke(isGrid, s.(pending := false), env)
      else s.(pending := true)
    case ThrottleFires(env) =>
      if !s.pending then s else Invoke(isGrid, s.(pending := false), env)
    case SurfaceScroll(ev, env) =>
      (match OnScroll(isGrid, ev, env)
       case Some(c) => s.(pageCalls := s.pageCalls + [c])
       case None => s)
    case Cleanup =>
      s.(phase := Unmounted, listening := false, pending := false)
  }

  /** A sequence of events, in order. */
  function Run(isGrid: bool, s: State, events: seq<Event>): State
    decreases |events|
  {
    if events == [] then s else Run(isGrid, Step(isGrid, s, events[0]), events[1..])
  }

  /** Every reachable state keeps the lifecycle invariant. */
  lemma {:induction false} RunPreservesInv(isGrid: bool, s: State, events: seq<Event>)
    requires Inv(s)
    ensures Inv(Run(isGrid, s, events))
    decreases |events|
  {
    if events != [] {
      RunPreservesInv(isGrid, Step(isGrid, s, events[0]), events[1..]);
    }
  }

  /** The logs only grow: no event takes back a call already made. */
  lemma {:induction false} RunExtends(isGrid: bool, s: State, events: seq<Event>)
    ensures Extends(s, Run(isGrid, s, events))
    decreases |events|
  {
    if events != [] {
      var s1 := Step(isGrid, s, events[0]);
      RunExtends(isGrid, s1, events[1..]);
      var t := Run(isGrid, s, events);
      assert t.surfaceCalls[..|s.surfaceCalls|] == t.surfaceCalls[..|s1.surfaceCalls|][..|s.surfaceCalls|];
      assert t.pageCalls[..|s.pageCalls|] == t.pageCalls[..|s1.pageCalls|][..|s.pageCalls|];
    }
  }

  /** Teardown safety: after the cleanup, whatever page scrolls and throttle timers follow,
      no call reaches the surface and the adapter stays unmounted. */
  lemma {:induction false} NoSurfaceCallAfterCleanup(isGrid: bool, s: State, events: seq<Event>)
    requires Inv(s) && s.phase == Unmounted
    ensures Run(isGrid, s, events).phase == Unmounted
    ensures Run(isGrid, s, events).surfaceCalls == s.surfaceCalls
    decreases |events|
  {
    if events != [] {
      NoSurfaceCallAfterCleanup(isGrid, Step(isGrid, s, events[0]), events[1..]);
    }
  }

  /** Teardown safety from any reachable state: the cleanup event, followed by anything,
      leaves the surface log exactly as it was when the cleanup ran. */
  lemma CleanupSilencesSurface(isGrid: bool, events: seq<Event>, k: nat)
    requires k < |events| && events[k].Cleanup?
    ensures Run(isGrid, Run(isGrid, Initial(), events[..k + 1]), events[k + 1..]).surfaceCalls
            == Run(isGrid, Initial(), events[..k + 1]).surfaceCalls
  {
    var before := Run(isGrid, Initial(), events[..k]);
    RunPreservesInv(isGrid, Initial(), events[..k]);
    RunSplit(isGrid, Initial(), events[..k], [events[k]]);
    assert events[..k + 1] == events[..k] + [events[k]];
    var after := Run(isGrid, Initial(), events[..k + 1]);
    assert after == Step(isGrid, before, Cleanup);
    NoSurfaceCallAfterCleanup(isGrid, after, events[k + 1..]);
  }

  /** Running two event sequences one after the other is running their concatenation. */
  lemma {:induction false} RunSplit(isGrid: bool, s: State, a: seq<Event>, b: seq<Event>)
    ensures Run(isGrid, s, a + b) == Run(isGrid, Run(isGrid, s, a), b)
    decreases |a|
  {
    if a == [] {
      assert a + b == b;
    } else {
      assert (a + b)[0] == a[0];
      assert (a + b)[1..] == a[1..] + b;
      RunSplit(isGrid, Step(isGrid, s, a[0]), a[1..], b);
    }
  }

  /** Idempotence: a second immediate page scroll with the same page and element sends the
      surface the same target again, so it does not drift. */
  lemma RepeatedPageScrollIsIdempotent(isGrid: bool, s: State, env: Env)
    requires s.listening && env.surfaceMounted
    ensures var s1 := Step(isGrid, s, PageScroll(true, env));
            var s2 := Step(isGrid, s1, PageScroll(true, env));
            |s1.surfaceCalls| == |s.surfaceCalls| + 1
            && s2.surfaceCalls == s1.surfaceCalls + [s1.surfaceCalls[|s1.surfaceCalls| - 1]]
  {
  }

  /** A deferred page scroll runs exactly once, at the end of the throttle window, and reads
      the page as it is then, not as it was when the event arrived. */
  lemma TrailingCallReadsLatestPage(isGrid: bool, s: State, early: Env, late: Env)
    requires s.listening && !s.pending && late.surfaceMounted
    ensures var s1 := Step(isGrid, s, PageScroll(false, early));
            var s2 := Step(isGrid, s1, ThrottleFires(late));
            var s3 := Step(isGrid, s2, ThrottleFires(late));
            s1.surfaceCalls == s.surfaceCalls
            && s2.surfaceCalls == s.surfaceCalls + [HandleWindowScroll(isGrid, late).value]
            && s3 == s2
  {
  }

  /** The two directions in sequence, in either mode: once the page is past the element on each axis
      the mode uses, a page
      scroll followed by the surface's report of the target adds no page call. */
  lemma NoPingPongInTrace(isGrid: bool, s: State, env: Env)
    requires s.listening && env.surfaceMounted
    requires GetWindowScrollPosition(env.page, Y) >= OffsetTop(env.outer)
    requires isGrid ==> GetWindowScrollPosition(env.page, X) >= OffsetLeft(env.outer)
    ensures var c := HandleWindowScroll(isGrid, env).value;
            Run(isGrid, s, [PageScroll(true, env), SurfaceScroll(Echo(c), env)]).pageCalls
              == s.pageCalls
  {
    var c := HandleWindowScroll(isGrid, env).value;
    NoPingPongPastElement(isGrid, env);
    var s1 := Step(isGrid, s, PageScroll(true, env));
    assert [PageScroll(true, env), SurfaceScroll(Echo(c), env)][1..] == [SurfaceScroll(Echo(c), env)];
    assert Run(isGrid, s1, [SurfaceScroll(Echo(c), env)]) == Step(isGrid, s1, SurfaceScroll(Echo(c), env));
  }

  // ---------------------------------------------------------------------------------
  // The component instance
  // ---------------------------------------------------------------------------------

  const DefaultThrottleTime: nat := 10

  /** One mounted `ReactWindowScroller`: its mode, its throttle interval, and the lifecycle
      state the effect and its cleanup update. */
  class Scroller {
    const isGrid: bool
    const throttleTime: nat
    var phase: Phase
    var listening: bool
    var pending: bool
    var surfaceCalls: seq<SurfaceCommand>
    var pageCalls: seq<PageCommand>

    function Snapshot(): State
      reads this
    {
      State(phase, listening, pending, surfaceCalls, pageCalls)
    }

    ghost predicate Valid()
      reads this
    {
      Inv(Snapshot())
    }

    constructor (isGrid: bool, throttleTime: nat := DefaultThrottleTime)
      ensures this.isGrid == isGrid && this.throttleTime == throttleTime
      ensures Valid() && Snapshot() == Initial()
    {
      this.isGrid := isGrid;
      this.throttleTime := throttleTime;
      phase := Created;
      listening := false;
      pending := false;
      surfaceCalls := [];
      pageCalls := [];
    }

    /** The effect: `window.addEventListener('scroll', handleWindowScroll)`. */
    method Mount()
      requires Valid()
      modifies this
      ensures Valid() && Snapshot() == Step(isGrid, old(Snapshot()), Effect)
    {
      if phase == Created {
        phase := Mounted;
        listening := true;
      }
    }

    /** The body of `handleWindowScroll`, run now. */
    method RunHandler(env: Env)
      requires Valid() && listening
      modifies this`surfaceCalls
      ensures Valid() && Snapshot() == Invoke(isGrid, old(Snapshot()), env)
    {
      var c := HandleWindowScroll(isGrid, env);
      if c.Some? {
        surfaceCalls := surfaceCalls + [c.value];
      }
    }

    /** A page scroll event reaching the throttled listener. */
    method WindowScrolled(leading: bool, env: Env)
      requires Valid()
      modifies this
      ensures Valid() && Snapshot() == Step(isGrid, old(Snapshot()), PageScroll(leading, env))
    {
      if listening {
        if leading {
          pending := false;
          RunHandler(env);
        } else {
          pending := true;
        }
      }
    }

    /** The throttle window ends: the trailing call, if one is kept, runs now. */
    method ThrottleFired(env: Env)
      requires Valid()
      modifies this
      ensures Valid() && Snapshot() == Step(isGrid, old(Snapshot()), ThrottleFires(env))
    {
      if pending {
        pending := false;
        RunHandler(env);
      }
    }

    /** `onScroll`, wired to the surface: logs the `window.scrollTo` it issues, if any. */
    method SurfaceScrolled(ev: ScrollEvent, env: Env)
      requires Valid()
      modifies this
      ensures Valid() && Snapshot() == Step(isGrid, old(Snapshot()), SurfaceScroll(ev, env))
    {
      var c := OnScroll(isGrid, ev, env);
      if c.Some? {
        pageCalls := pageCalls + [c.value];
      }
    }

    /** The cleanup: `handleWindowScroll.cancel()`, then `removeEventListener`. */
    method Unmount()
      requires Valid()
      modifies this
      ensures Valid() && Snapshot() == Step(isGrid, old(Snapshot()), Cleanup)
      ensures phase == Unmounted && !listening && !pending
    {
      pending := false;
      listening := false;
      phase := Unmounted;
    }
  }
}
