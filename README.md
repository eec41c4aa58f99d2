# react-window-scroller, modelled in Dafny

`ReactWindowScroller` lets a virtualized list or grid (the *surface*) scroll with the page
instead of inside its own box. It works in two directions:

- **Page → surface.** A throttled page-scroll listener, `handleWindowScroll`, reads the page
  position. It subtracts the wrapper element's offset and calls the surface's `scrollTo`.
  A grid gets both axes. A list gets the vertical axis only.
- **Surface → page.** The surface's `onScroll` notification is ignored unless it is flagged
  as a requested update. Otherwise each reported offset is shifted by
  `min(page position, element offset)`, and `window.scrollTo` is called unless the page is
  already there.

The page position comes from a three-level fallback (`window`, then `documentElement`, then
`body`, then 0). The library also provides `elementPageOffset`, which gives an element's
position on the page.

The model has four modules:

- `Wrappers` holds `Option`.
- `ScrollPosition` models `src/lib/getScrollPosition.tsx`.
- `ElementOffset` models `src/lib/elementPageOffset.tsx`.
- `WindowScroller` models `src/index.tsx`. It has:
  - pure functions for the two handlers and the style;
  - a pure event semantics (`Step`/`Run`) for the lifecycle;
  - a class `Scroller` whose methods are proved against `Step`.

DOM reads are parameters:

- the page's scroll properties (`Page`), where an `undefined` property is `None`;
- the wrapper element's `offsetTop`/`offsetLeft`;
- the bounding rectangle;
- whether the surface ref is set.

The imperative calls are returned as commands, or logged by the class.

`src/index.tsx` does not call `elementPageOffset`. It reads `outerRef.current.offsetTop` and
`offsetLeft` directly. These are layout offsets, not page positions, and the model follows the
code. `src/index.tsx` also declares its own copy of the scroll accessor and of its two key
tables. `WindowScroller.WindowKeyOf`, `WindowScroller.DocumentKeyOf` and
`WindowScroller.GetScrollPosition` model that copy, and the last is proved to agree with
`ScrollPosition.GetWindowScrollPosition`.

## Model

| member | source | states |
|---|---|---|
| `ScrollPosition.WindowScrollPositionKey` | src/lib/getScrollPosition.tsx:1-4 | axis `y` reads `pageYOffset` and axis `x` reads `pageXOffset`, and nothing else |
| `ScrollPosition.DocumentScrollPositionKey` | src/lib/getScrollPosition.tsx:6-9 | axis `y` reads `scrollTop` and axis `x` reads `scrollLeft`, and nothing else |
| `ScrollPosition.GetWindowScrollPosition` | src/lib/getScrollPosition.tsx:11-18 | a truthy window offset is returned; otherwise a truthy `documentElement` offset; otherwise a truthy `body` offset; otherwise 0 |
| `ScrollPosition.ZeroIffNoSourceTruthy` | src/lib/getScrollPosition.tsx:13-16 | the result is 0 exactly when all three sources are 0 or absent |
| `ScrollPosition.ResultIsASourceOrZero` | src/lib/getScrollPosition.tsx:12-17 | the result is always one of the three read values or 0 |
| `ScrollPosition.AxisIndependence` | src/lib/getScrollPosition.tsx:11-18 | each axis's result depends only on that axis's three properties |
| `ElementOffset.ElementPageOffset` | src/lib/elementPageOffset.tsx:4-14 | an unset ref gives `{}`; the two fields are both present or both absent; when mounted, page offset minus page scroll is the rectangle's top and left |
| `ElementOffset.UnmountedReadsAsZero` | src/lib/elementPageOffset.tsx:7-13 | an unmounted element reads as offset 0 on both axes under the callers' `= 0` default |
| `ElementOffset.FieldsDependOnOwnAxis` | src/lib/elementPageOffset.tsx:10-11 | `offsetTop` depends only on `rect.top` and the vertical scroll; `offsetLeft` depends only on `rect.left` and the horizontal scroll |
| `ElementOffset.PageOffsetIsScrollInvariant` | src/lib/elementPageOffset.tsx:9-12 | scrolling by `d` while the rectangle moves by `-d` leaves the page offset unchanged |
| `WindowScroller.WindowKeyOf` | src/index.tsx:10-13 | the component's own table: axis `y` reads `pageYOffset` and axis `x` reads `pageXOffset`, and nothing else |
| `WindowScroller.DocumentKeyOf` | src/index.tsx:15-18 | the component's own table: axis `y` reads `scrollTop` and axis `x` reads `scrollLeft`, and nothing else |
| `WindowScroller.GetScrollPosition` | src/index.tsx:20-24 | the component's private accessor equals the library's `getWindowScrollPosition` on every page and axis |
| `WindowScroller.HandleWindowScroll` | src/index.tsx:79-90 | a call is made iff the surface ref is set; it is the two-axis form iff `isGrid`; target plus element offset is the page position on each axis the mode uses, with a missing element counted as offset 0 |
| `WindowScroller.UnsetOuterRefTargetsPagePosition` | src/index.tsx:80-83 | with `outerRef` unset the surface target is the page position itself |
| `WindowScroller.OnScroll` | src/index.tsx:99-123 | no command unless `scrollUpdateWasRequested`; list mode: `(0, scrollOffset + min(top, offsetTop))` iff that differs from `top`; grid mode: `(adjLeft, adjTop)` iff either axis differs; at most one command |
| `WindowScroller.ListCommandPlacesPage` | src/index.tsx:107-116 | once the page is past the element, the commanded `y` minus `offsetTop` is the reported `scrollOffset`; above the element, the commanded `y` minus `top` is |
| `WindowScroller.SamePositionIsNoOp` | src/index.tsx:115-120 | when the adjusted offsets equal the page position, nothing is issued in either mode |
| `WindowScroller.NoPingPongPastElement` | src/index.tsx:80-120 | when the page is past the element, the surface reporting the target it was sent causes no page scroll, in both modes |
| `WindowScroller.NoPingPongWithClampingSurface` | src/index.tsx:80-120 | if the surface clamps negative targets to 0, the round trip is silent at every page position |
| `WindowScroller.PingPongAboveElementWithoutClamp` | src/index.tsx:82-116 | without that clamp: page 0, element 100 gives surface target -100, and the echo gives `window.scrollTo(0, -100)` |
| `WindowScroller.WrapperStyle` | src/index.tsx:128-132 | height `100%` and `inline-block` always; width `auto` iff grid, otherwise `100%` |
| `WindowScroller.Step` | src/index.tsx:78-123 | each event keeps the lifecycle invariant and only appends to the call logs; after the cleanup the state stays unmounted and makes no surface calls; the cleanup leaves no listener and no pending call |
| `WindowScroller.RunPreservesInv` | src/index.tsx:92-96 | every event sequence keeps the invariant: listener registered iff mounted, and a pending call only while listening |
| `WindowScroller.RunExtends` | src/index.tsx:86-119 | calls already made to the surface or the page are never taken back |
| `WindowScroller.NoSurfaceCallAfterCleanup` | src/index.tsx:93-96 | after teardown, no sequence of page scrolls or throttle timers reaches the surface |
| `WindowScroller.CleanupSilencesSurface` | src/index.tsx:92-96 | from the initial state, after a cleanup at any point the surface log is frozen for the rest of the run |
| `WindowScroller.RepeatedPageScrollIsIdempotent` | src/index.tsx:79-90 | two immediate page scrolls with the same page and element send the same target twice, so there is no drift |
| `WindowScroller.TrailingCallReadsLatestPage` | src/index.tsx:79-90 | a deferred scroll makes no call until the throttle fires; it then fires once and uses the page as read at firing time |
| `WindowScroller.NoPingPongInTrace` | src/index.tsx:79-123 | with the page past the element, a page scroll followed by the surface's echo adds no page call |
| `WindowScroller.Scroller.constructor` | src/index.tsx:68-77 | a new instance, with `throttleTime` defaulting to 10, has no listener, no pending call and empty call logs |
| `WindowScroller.Scroller.Mount` | src/index.tsx:78-92 | the effect registers the listener once, as `Step` on `Effect` |
| `WindowScroller.Scroller.RunHandler` | src/index.tsx:79-90 | only while the listener is registered: runs `handleWindowScroll` now and logs its surface call, if any, keeping the lifecycle invariant |
| `WindowScroller.Scroller.WindowScrolled` | src/index.tsx:79-92 | a page scroll reaches the handler only while listening; it runs now, dropping any trailing call, or is kept as the trailing call |
| `WindowScroller.Scroller.ThrottleFired` | src/index.tsx:79-90 | a kept trailing call runs once and is cleared |
| `WindowScroller.Scroller.SurfaceScrolled` | src/index.tsx:99-123 | logs the `window.scrollTo` that `onScroll` issues, if any |
| `WindowScroller.Scroller.Unmount` | src/index.tsx:93-96 | cancels the pending throttled call and removes the listener; the instance is unmounted for good |

## Left out

- Numbers are unbounded integers. JavaScript's `NaN` (falsy in `||`) and fractional offsets are not modelled.
- In grid mode the reported `scrollOffset` is `NaN`. The model never uses it there, so it carries no meaning.
- The throttle (lodash `throttle`, src/index.tsx:1, 79-90) is a library outside this model, and it is timed by a clock. The model keeps only what is observable:
  - a page scroll either runs the handler now, which drops any pending trailing call, or leaves one pending trailing call; the clock's choice is the `leading` input;
  - a `ThrottleFires` event runs the pending call;
  - `cancel` clears it.
  - `throttleTime` (default 10 ms) is stored but has no effect in the model.
- React machinery (`useRef`, `useEffect`, `useCallback`) is left out. Refs are `Option` inputs, and the effect and its cleanup are the `Effect`/`Cleanup` events. The effect re-running when `isGrid` changes is not modelled, because the mode is fixed for an instance's life.
- The render-prop call `children({...})` (src/index.tsx:125-134) is left out, except for the style it hands over.
- DOM access is left out: `window`, `document`, `getBoundingClientRect`, `addEventListener` and `window.scrollTo`. Reads are parameters and writes are returned commands. The browser's own clamping of `window.scrollTo` is not modelled.
- The surface (react-window) is outside this model. `Echo` and `Clamp` are assumptions about how it reports and bounds offsets, and they are stated as hypotheses of the lemmas that use them.
- TypeScript's conditional prop types and `as any` casts are typing only.
