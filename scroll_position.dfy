/** The page-scroll accessor of src/lib/getScrollPosition.tsx: the page's scroll offset
    along one axis, read from the first of three DOM sources that holds a truthy value. */
module ScrollPosition {
  import opened Wrappers

  datatype Axis = X | Y

  /** The `window` properties that may hold the page offset. */
  datatype WindowKey = PageXOffset | PageYOffset

  /** The element properties (`documentElement`, `body`) that may hold the page offset. */
  datatype DocumentKey = ScrollLeft | ScrollTop

  /** The scroll properties of `window`; `None` is a property the engine leaves `undefined`. */
  datatype WindowOffsets = WindowOffsets(pageXOffset: Option<int>, pageYOffset: Option<int>) {
    function Get(key: WindowKey): Option<int> {
      match key
      case PageXOffset => pageXOffset
      case PageYOffset => pageYOffset
    }
  }

  /** The scroll properties of one element (`document.documentElement` or `document.body`). */
  datatype ScrollBox = ScrollBox(scrollLeft: Option<int>, scrollTop: Option<int>) {
    function Get(key: DocumentKey): Option<int> {
      match key
      case ScrollLeft => scrollLeft
      case ScrollTop => scrollTop
    }
  }

  /** Everything the accessor reads from the host page. */
  datatype Page = Page(window: WindowOffsets, documentElement: ScrollBox, body: ScrollBox)

  /** The key table `windowScrollPositionKey`: `y` reads `pageYOffset`, `x` reads `pageXOffset`. */
  function WindowScrollPositionKey(axis: Axis): (k: WindowKey)
    ensures k == PageYOffset <==> axis == Y
    ensures k == PageXOffset <==> axis == X
  {
    match axis
    case Y => PageYOffset
    case X => PageXOffset
  }

  /** The key table `documentScrollPositionKey`: `y` reads `scrollTop`, `x` reads `scrollLeft`. */
  function DocumentScrollPositionKey(axis: Axis): (k: DocumentKey)
    ensures k == ScrollTop <==> axis == Y
    ensures k == ScrollLeft <==> axis == X
  {
    match axis
    case Y => ScrollTop
    case X => ScrollLeft
  }

  /** JavaScript truthiness of a numeric property: present and not 0 (NaN is not modelled). */
  predicate Truthy(v: Option<int>) {
    v.Some? && v.value != 0
  }

  /** JavaScript's `v || fallback` on a numeric property. */
  function Or(v: Option<int>, fallback: int): (r: int)
    ensures Truthy(v) ==> r == v.value
    ensures !Truthy(v) ==> r == fallback
  {
    if v.Some? && v.value != 0 then v.value else fallback
  }

  /** The three reads, in the order the `||` chain tries them. */
  function WindowSource(page: Page, axis: Axis): Option<int> {
    page.window.Get(WindowScrollPositionKey(axis))
  }

  function DocumentSource(page: Page, axis: Axis): Option<int> {
    page.documentElement.Get(DocumentScrollPositionKey(axis))
  }

  function BodySource(page: Page, axis: Axis): Option<int> {
    page.body.Get(DocumentScrollPositionKey(axis))
  }

  /** `getWindowScrollPosition`: the first truthy source, else 0. It never fails. */
  function GetWindowScrollPosition(page: Page, axis: Axis): (r: int)
    ensures Truthy(WindowSource(page, axis)) ==> r == WindowSource(page, axis).value
    ensures (!Truthy(WindowSource(page, axis)) && Truthy(DocumentSource(page, axis))) ==>
              r == DocumentSource(page, axis).value
    ensures (!Truthy(WindowSource(page, axis)) && !Truthy(DocumentSource(page, axis))
             && Truthy(BodySource(page, axis))) ==>
              r == BodySource(page, axis).value
    ensures (!Truthy(WindowSource(page, axis)) && !Truthy(DocumentSource(page, axis))
             && !Truthy(BodySource(page, axis))) ==>
              r == 0
  {
    Or(WindowSource(page, axis), Or(DocumentSource(page, axis), Or(BodySource(page, axis), 0)))
  }

  /** The result is 0 exactly when no source holds a truthy value: a 0 read from one source
      never hides a non-zero read from a later one. */
  lemma ZeroIffNoSourceTruthy(page: Page, axis: Axis)
    ensures GetWindowScrollPosition(page, axis) == 0 <==>
              !Truthy(WindowSource(page, axis)) && !Truthy(DocumentSource(page, axis))
              && !Truthy(BodySource(page, axis))
  {
  }

  /** The result is always one of the three sources' values or the default 0. */
  lemma ResultIsASourceOrZero(page: Page, axis: Axis)
    ensures var r := GetWindowScrollPosition(page, axis);
            r == 0 || Some(r) == WindowSource(page, axis) || Some(r) == DocumentSource(page, axis)
            || Some(r) == BodySource(page, axis)
  {
  }

  /** Each axis reads only its own properties: two pages that agree on the vertical
      properties give the same vertical position, and likewise for the horizontal ones. */
  lemma AxisIndependence(p: Page, q: Page)
    ensures p.window.pageYOffset == q.window.pageYOffset
            && p.documentElement.scrollTop == q.documentElement.scrollTop
            && p.body.scrollTop == q.body.scrollTop ==>
              GetWindowScrollPosition(p, Y) == GetWindowScrollPosition(q, Y)
    ensures p.window.pageXOffset == q.window.pageXOffset
            && p.documentElement.scrollLeft == q.documentElement.scrollLeft
            && p.body.scrollLeft == q.body.scrollLeft ==>
              GetWindowScrollPosition(p, X) == GetWindowScrollPosition(q, X)
  {
  }
}
