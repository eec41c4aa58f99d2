/** The element page-offset calculator of src/lib/elementPageOffset.tsx: an element's
    position on the whole page is its viewport rectangle shifted by the page scroll. */
module ElementOffset {
  import opened Wrappers
  import opened ScrollPosition

  /** The part of `getBoundingClientRect()` that is read: viewport-relative top and left. */
  datatype Rect = Rect(top: int, left: int)

  /** `{ offsetTop?, offsetLeft? }`: absent fields when the element is not mounted. */
  datatype PageOffset = PageOffset(offsetTop: Option<int>, offsetLeft: Option<int>)

  /** `elementPageOffset`: `rect` is the bounding rectangle of `outerRef.current`, or `None`
      when the ref is unset. */
  function ElementPageOffset(rect: Option<Rect>, page: Page): (r: PageOffset)
    ensures rect.None? <==> r == PageOffset(None, None)
    ensures r.offsetTop.Some? <==> r.offsetLeft.Some?
    ensures rect.Some? ==>
              r.offsetTop.Some? && r.offsetTop.value - GetWindowScrollPosition(page, Y) == rect.value.top
    ensures rect.Some? ==>
              r.offsetLeft.Some? && r.offsetLeft.value - GetWindowScrollPosition(page, X) == rect.value.left
  {
    match rect
    case Some(box) =>
      PageOffset(Some(box.top + GetWindowScrollPosition(page, Y)),
                 Some(box.left + GetWindowScrollPosition(page, X)))
    case None => PageOffset(None, None)
  }

  /** Callers read an absent field as 0, so an unmounted element sits at the page origin. */
  lemma UnmountedReadsAsZero(page: Page)
    ensures ElementPageOffset(None, page).offsetTop.GetOr(0) == 0
    ensures ElementPageOffset(None, page).offsetLeft.GetOr(0) == 0
  {
  }

  /** The vertical field depends only on the rectangle's top and the vertical scroll
      properties; the horizontal field only on its left and the horizontal ones. */
  lemma FieldsDependOnOwnAxis(a: Rect, b: Rect, p: Page, q: Page)
    ensures a.top == b.top && GetWindowScrollPosition(p, Y) == GetWindowScrollPosition(q, Y) ==>
              ElementPageOffset(Some(a), p).offsetTop == ElementPageOffset(Some(b), q).offsetTop
    ensures a.left == b.left && GetWindowScrollPosition(p, X) == GetWindowScrollPosition(q, X) ==>
              ElementPageOffset(Some(a), p).offsetLeft == ElementPageOffset(Some(b), q).offsetLeft
  {
  }

  /** Scrolling the page moves the element's rectangle in the viewport but not its page
      position: if the vertical scroll grows by `d` and the rectangle's top drops by `d`,
      the page offset is unchanged. */
  lemma PageOffsetIsScrollInvariant(a: Rect, p: Page, q: Page, d: int)
    requires GetWindowScrollPosition(q, Y) == GetWindowScrollPosition(p, Y) + d
    requires GetWindowScrollPosition(q, X) == GetWindowScrollPosition(p, X)
    ensures ElementPageOffset(Some(Rect(a.top - d, a.left)), q) == ElementPageOffset(Some(a), p)
  {
  }
}
