/** Pure arithmetic of the project-gallery pager: the inset, how many cards
    fit in the viewport, the page count, the page/card clamps, the
    scroll-position-to-card mapping and the drag rule.  Pixel quantities are
    reals (half the window width may be fractional, and so may a scroll
    offset or a pointer position); card, page and indicator numbers are ints. */
module GalleryMath {

  /** Width of one project card (320 px) plus the gap that follows it (24 px). */
  const CardWidth: int := 320 + 24

  /** Half a card: the inset is chosen so the first card sits half outside the viewport. */
  const HalfCard: int := 160

  function MaxReal(a: real, b: real): real { if a >= b then a else b }

  /** JavaScript's Math.floor. */
  function Floor(x: real): (r: int)
    ensures r as real <= x < r as real + 1.0
  {
    x.Floor
  }

  /** JavaScript's Math.round: the nearest integer, halves rounded up. */
  function Round(x: real): (r: int)
    ensures x - 0.5 < r as real <= x + 0.5
  {
    Floor(x + 0.5)
  }

  /** The leading inset of the gallery for a window `innerWidth` pixels wide. */
  function PaddingOffset(innerWidth: int): (p: real)
    ensures innerWidth <= 2 * HalfCard ==> p == 0.0
    ensures innerWidth > 2 * HalfCard ==> p > 0.0 && p == innerWidth as real / 2.0 - HalfCard as real
  {
    MaxReal(0.0, innerWidth as real / 2.0 - HalfCard as real)
  }

  /** Width left for whole cards once the inset is taken off both sides. */
  function VisibleWidth(galleryWidth: int, innerWidth: int): real
  {
    galleryWidth as real - PaddingOffset(innerWidth) * 2.0
  }

  /** Cards per page: as many whole cards as fit in the visible width, but
      never fewer than one, whatever the widths. */
  function CardsPerView(galleryWidth: int, innerWidth: int): (k: int)
    ensures k >= 1
    ensures k == 1 || (k * CardWidth) as real <= VisibleWidth(galleryWidth, innerWidth)
    ensures VisibleWidth(galleryWidth, innerWidth) < ((k + 1) * CardWidth) as real
  {
    var fit := Floor(VisibleWidth(galleryWidth, innerWidth) / CardWidth as real);
    if fit >= 1 then fit else 1
  }

  /** Number of pages: the card count divided by the cards per page, rounded
      up.  Not clamped to at least one: no cards means no pages. */
  function TotalPages(totalCards: int, cardsPerView: int): (r: int)
    requires cardsPerView >= 1
    ensures (r - 1) * cardsPerView < totalCards <= r * cardsPerView
  {
    var q := (totalCards + cardsPerView - 1) / cardsPerView;
    var m := (totalCards + cardsPerView - 1) % cardsPerView;
    assert totalCards + cardsPerView - 1 == q * cardsPerView + m;
    assert (q - 1) * cardsPerView == q * cardsPerView - cardsPerView;
    q
  }

  /** `Math.max(0, Math.min(i, count - 1))`: an index forced into
      [0, count - 1], or 0 when count is not positive. */
  function Clamp(i: int, count: int): (r: int)
    ensures 0 <= r
    ensures count >= 1 ==> r < count
    ensures count <= 0 ==> r == 0
    ensures 0 <= i < count ==> r == i
    ensures i < 0 ==> r == 0
    ensures count >= 1 && i >= count ==> r == count - 1
  {
    var upper := if i <= count - 1 then i else count - 1;
    if upper >= 0 then upper else 0
  }

  /** The page that holds card `cardIndex`: `Math.floor(cardIndex / cardsPerView)`. */
  function PageOfCard(cardIndex: int, cardsPerView: int): (p: int)
    requires cardsPerView >= 1
    ensures p * cardsPerView <= cardIndex < (p + 1) * cardsPerView
  {
    var q := cardIndex / cardsPerView;
    assert cardIndex == q * cardsPerView + cardIndex % cardsPerView;
    assert (q + 1) * cardsPerView == q * cardsPerView + cardsPerView;
    q
  }

  /** Scroll offset at which page `page` starts: the inset plus the width of
      every card on the earlier pages. */
  function PageOffset(padding: real, page: int, cardsPerView: int): real
  {
    padding + (page * cardsPerView * CardWidth) as real
  }

  /** The card nearest the viewport's start: the scroll offset past the inset
      (never negative), in card widths, rounded to the nearest card. */
  function CenterCardIndex(scrollPosition: real, padding: real): (c: int)
    ensures c >= 0
    ensures var adjusted := MaxReal(0.0, scrollPosition - padding);
      (c * CardWidth) as real - CardWidth as real / 2.0 <= adjusted
      && adjusted < (c * CardWidth) as real + CardWidth as real / 2.0
  {
    Round(MaxReal(0.0, scrollPosition - padding) / CardWidth as real)
  }

  /** Active flags of `n` indicators when indicator `active` is highlighted. */
  function Highlight(n: nat, active: int): seq<bool>
  {
    seq(n, i => i == active)
  }

  /** Number of active indicators. */
  function CountActive(s: seq<bool>): nat
  {
    if s == [] then 0 else CountActive(s[..|s| - 1]) + (if s[|s| - 1] then 1 else 0)
  }

  /** Highlighting one indicator activates exactly that one when it exists,
      and none otherwise. */
  lemma {:induction false} HighlightCount(n: nat, active: int)
    ensures CountActive(Highlight(n, active)) == if 0 <= active < n then 1 else 0
  {
    if n > 0 {
      assert Highlight(n, active)[..n - 1] == Highlight(n - 1, active);
      HighlightCount(n - 1, active);
    }
  }

  /** With at least one card, the indicator refresh marks exactly one
      indicator, the one of the clamped center card, whatever the scroll offset. */
  lemma ExactlyOneIndicatorActive(totalCards: nat, scrollPosition: real, padding: real)
    requires totalCards >= 1
    ensures var a := Clamp(CenterCardIndex(scrollPosition, padding), totalCards);
      0 <= a < totalCards
      && CountActive(Highlight(totalCards, a)) == 1
      && forall i :: 0 <= i < totalCards ==> (Highlight(totalCards, a)[i] <==> i == a)
  {
    HighlightCount(totalCards, Clamp(CenterCardIndex(scrollPosition, padding), totalCards));
  }

  /** Builds the indicator strip: one indicator per card, the first active. */
  method BuildIndicators(totalCards: nat) returns (flags: seq<bool>)
    ensures flags == Highlight(totalCards, 0)
  {
    flags := [];
    var i := 0;
    while i < totalCards
      invariant 0 <= i <= totalCards
      invariant |flags| == i
      invariant forall j :: 0 <= j < i ==> flags[j] == (j == 0)
    {
      flags := flags + [i == 0];
      i := i + 1;
    }
  }

  /** If the browser lands exactly on the offset requested for page `page`,
      reading the position back yields the first card of that page and the
      page itself. */
  lemma PageRoundTrip(padding: real, page: nat, cardsPerView: int)
    requires cardsPerView >= 1
    ensures CenterCardIndex(PageOffset(padding, page, cardsPerView), padding) == page * cardsPerView
    ensures PageOfCard(page * cardsPerView, cardsPerView) == page
  {
  }

  /** Drag rule: the new scroll offset is the offset at mouse-down minus twice
      the pointer's travel since then. */
  function DragScroll(startScroll: real, startX: real, x: real): real
  {
    startScroll - (x - startX) * 2.0
  }

  /** A drag moves the content twice as far as the pointer, the other way,
      and returning the pointer to where it went down restores the offset. */
  lemma DragProperties(startScroll: real, startX: real, x1: real, x2: real)
    ensures DragScroll(startScroll, startX, startX) == startScroll
    ensures DragScroll(startScroll, startX, x1) - DragScroll(startScroll, startX, x2) == 2.0 * (x2 - x1)
    ensures x1 > startX ==> DragScroll(startScroll, startX, x1) < startScroll
  {
  }

  /** Whether the resize debounce reloads the page.  It recomputes the cards
      per page as `Math.floor(galleryWidth / 344)`, without the inset and
      without the clamp to one; a result of 0 gives a page count of Infinity
      or NaN, which never equals the stored page count. */
  function ResizeReloads(galleryWidth: nat, totalCards: nat, totalPages: int): (reload: bool)
    ensures galleryWidth < CardWidth ==> reload
    ensures galleryWidth >= CardWidth ==> (reload <==> TotalPages(totalCards, galleryWidth / CardWidth) != totalPages)
  {
    var newCardsPerView := galleryWidth / CardWidth;
    if newCardsPerView == 0 then true
    else TotalPages(totalCards, newCardsPerView) != totalPages
  }

  /** The resize rule and the initial rule disagree: in a 1200 px window with
      a 1200 px gallery the inset leaves room for one card per page, so seven
      cards make seven pages; the resize rule ignores the inset, finds three
      per page and reloads, although nothing changed size. */
  lemma ResizeReloadsWithoutWidthChange()
    ensures CardsPerView(1200, 1200) == 1
    ensures TotalPages(7, CardsPerView(1200, 1200)) == 7
    ensures ResizeReloads(1200, 7, TotalPages(7, CardsPerView(1200, 1200)))
  {
  }

  /** Without an inset (a window at most 320 px wide) the resize rule agrees
      with set-up: a resize that keeps a gallery at least one card wide
      never reloads. */
  lemma ResizeAgreesWithoutInset(galleryWidth: nat, innerWidth: int, totalCards: nat)
    requires innerWidth <= 2 * HalfCard && galleryWidth >= CardWidth
    ensures !ResizeReloads(galleryWidth, totalCards, TotalPages(totalCards, CardsPerView(galleryWidth, innerWidth)))
  {
  }

  /** Worked example from set-up to scroll offset: a 1000 px gallery in a
      narrow window (no inset) with seven cards has two cards per page and
      four pages, and the last page starts at 2064 px. */
  lemma WorkedExample()
    ensures var k := CardsPerView(1000, 320);
      k == 2
      && TotalPages(7, k) == 4
      && Clamp(3, TotalPages(7, k)) == 3
      && PageOffset(PaddingOffset(320), Clamp(3, TotalPages(7, k)), k) == 2064.0
  {
  }
}
