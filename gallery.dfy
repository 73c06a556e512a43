/** The project-gallery pager as an object: its fields are the variables the
    gallery closure captures, its methods are the event handlers and timer
    callbacks.  What a handler reads from the page (window width, gallery
    width, scroll offset, pointer position) is a parameter; what it writes to
    the gallery's scroll offset is returned as a ScrollRequest. */
module Gallery {
  import opened GalleryMath

  /** What a handler asks of the gallery's scroll offset. */
  datatype ScrollRequest =
    | NoScroll              // the offset is left alone
    | SmoothTo(left: real)  // an animated scroll to `left`
    | JumpTo(left: real)    // an immediate assignment of `left`

  class ProjectsGallery {
    /** Number of project cards in the gallery. */
    const totalCards: nat
    /** Whether the page has an indicator strip. */
    const hasIndicators: bool
    /** Cards per page, computed once when the gallery is set up. */
    const cardsPerView: int
    /** Number of pages, computed once when the gallery is set up. */
    const totalPages: int

    /** The current page. */
    var currentIndex: int
    /** Set while an animated scroll started by the pager is presumed running. */
    var isScrolling: bool
    var prevDisabled: bool
    var nextDisabled: bool
    /** Active flag of each indicator, in order. */
    var indicators: seq<bool>

    /** Settle callbacks (600 ms) scheduled and not yet run; they are never cancelled. */
    var pendingSettles: nat
    /** The single debounced scroll callback (100 ms) is scheduled. */
    var scrollDebouncePending: bool
    /** The single debounced resize callback (250 ms) is scheduled. */
    var resizeDebouncePending: bool
    /** The one-off layout callback (100 ms after set-up) is scheduled. */
    var layoutPending: bool

    /** Drag state: the mouse is down, where it went down, and the scroll offset then. */
    var isDown: bool
    var startX: real
    var scrollLeft: real

    ghost predicate Valid()
      reads this
    {
      cardsPerView >= 1
      && totalPages == TotalPages(totalCards, cardsPerView)
      // the current page is a page, or 0 when there are none
      && 0 <= currentIndex && (currentIndex == 0 || currentIndex < totalPages)
      // the buttons always agree with the current page
      && prevDisabled == (currentIndex == 0)
      && nextDisabled == (currentIndex >= totalPages - 1)
      // the guard is only ever up while a settle callback will take it down
      && (isScrolling ==> pendingSettles > 0)
      // one indicator per card, exactly one of them active
      && (!hasIndicators ==> indicators == [])
      && (hasIndicators ==> |indicators| == totalCards && (totalCards >= 1 ==> CountActive(indicators) == 1))
    }

    /** The indicator that the current scroll offset highlights. */
    function ActiveCard(scrollPosition: real, innerWidth: int): int
      reads this
    {
      Clamp(CenterCardIndex(scrollPosition, PaddingOffset(innerWidth)), totalCards)
    }

    /** The drag state and the timers other than the settle callbacks are as before. */
    twostate predicate DragAndTimersUnchanged()
      reads this
    {
      isDown == old(isDown) && startX == old(startX) && scrollLeft == old(scrollLeft)
      && scrollDebouncePending == old(scrollDebouncePending)
      && resizeDebouncePending == old(resizeDebouncePending)
      && layoutPending == old(layoutPending)
    }

    /** What `scrollToPage(page)` does.  If the clamped page is the current
        one, nothing at all changes and no scroll is requested.  Otherwise the
        clamped page becomes current, a smooth scroll to its start is
        requested, the guard goes up, one more settle callback is pending and
        the buttons follow the page; the indicators, the drag state and the
        other timers are untouched. */
    twostate predicate PageChange(page: int, innerWidth: int, req: ScrollRequest)
      reads this
    {
      var target := Clamp(page, totalPages);
      if target == old(currentIndex) then
        req == NoScroll
        && currentIndex == old(currentIndex) && isScrolling == old(isScrolling)
        && prevDisabled == old(prevDisabled) && nextDisabled == old(nextDisabled)
        && indicators == old(indicators) && pendingSettles == old(pendingSettles)
        && DragAndTimersUnchanged()
      else
        req == SmoothTo(PageOffset(PaddingOffset(innerWidth), target, cardsPerView))
        && currentIndex == target && isScrolling
        && pendingSettles == old(pendingSettles) + 1
        && prevDisabled == (target == 0) && nextDisabled == (target >= totalPages - 1)
        && indicators == old(indicators)
        && DragAndTimersUnchanged()
    }

    /** Set-up of a gallery whose container and both buttons exist: computes
        the layout, builds one indicator per card, brings the buttons and the
        indicators up to date with the scroll offset `scrollPosition`, and
        schedules the layout callback. */
    constructor (totalCards: nat, hasIndicators: bool, galleryWidth: int, innerWidth: int, scrollPosition: real)
      ensures Valid()
      ensures this.totalCards == totalCards && this.hasIndicators == hasIndicators
      ensures cardsPerView == CardsPerView(galleryWidth, innerWidth)
      ensures totalPages == TotalPages(totalCards, cardsPerView)
      ensures currentIndex == 0 && !isScrolling && pendingSettles == 0
      ensures prevDisabled && nextDisabled == (totalPages <= 1)
      ensures indicators == if hasIndicators then Highlight(totalCards, ActiveCard(scrollPosition, innerWidth)) else []
      ensures layoutPending && !scrollDebouncePending && !resizeDebouncePending && !isDown
    {
      this.totalCards := totalCards;
      this.hasIndicators := hasIndicators;
      var k := CardsPerView(galleryWidth, innerWidth);
      cardsPerView := k;
      totalPages := TotalPages(totalCards, k);
      currentIndex := 0;
      isScrolling := false;
      pendingSettles := 0;
      scrollDebouncePending, resizeDebouncePending := false, false;
      isDown, startX, scrollLeft := false, 0.0, 0.0;
      prevDisabled, nextDisabled := false, false;
      indicators := [];
      new;
      if hasIndicators {
        indicators := BuildIndicators(totalCards);
        HighlightCount(totalCards, 0);
      }
      layoutPending := true;
      UpdateButtons();
      UpdateIndicators(scrollPosition, innerWidth);
    }

    /** `initProjectsGallery`: nothing at all is set up unless the container
        and both buttons exist; the indicator strip is optional. */
    static method Init(hasGallery: bool, hasPrev: bool, hasNext: bool, hasIndicators: bool,
                       totalCards: nat, galleryWidth: int, innerWidth: int, scrollPosition: real)
      returns (g: ProjectsGallery?)
      ensures g == null <==> !(hasGallery && hasPrev && hasNext)
      ensures g != null ==>
                fresh(g) && g.Valid() && g.currentIndex == 0
                && g.totalCards == totalCards && g.hasIndicators == hasIndicators
                && g.cardsPerView == CardsPerView(galleryWidth, innerWidth)
                && g.totalPages == TotalPages(totalCards, g.cardsPerView)
                && !g.isScrolling && g.pendingSettles == 0
                && g.layoutPending && !g.scrollDebouncePending && !g.resizeDebouncePending && !g.isDown
                && g.indicators == (if hasIndicators then Highlight(totalCards, g.ActiveCard(scrollPosition, innerWidth)) else [])
    {
      if !(hasGallery && hasPrev && hasNext) {
        return null;
      }
      g := new ProjectsGallery(totalCards, hasIndicators, galleryWidth, innerWidth, scrollPosition);
    }

    /** `updateButtons`: prev is disabled exactly on the first page, next
        exactly on the last page or beyond. */
    method UpdateButtons()
      modifies this`prevDisabled, this`nextDisabled
      ensures prevDisabled == (currentIndex == 0)
      ensures nextDisabled == (currentIndex >= totalPages - 1)
    {
      prevDisabled := currentIndex == 0;
      nextDisabled := currentIndex >= totalPages - 1;
    }

    /** `updateIndicators`: every indicator is toggled, active exactly when it
        is the clamped card nearest the scroll offset. */
    method UpdateIndicators(scrollPosition: real, innerWidth: int)
      requires Valid()
      modifies this`indicators
      ensures Valid()
      ensures indicators == Highlight(|old(indicators)|, ActiveCard(scrollPosition, innerWidth))
    {
      if !hasIndicators {
        return;
      }
      var active := Clamp(CenterCardIndex(scrollPosition, PaddingOffset(innerWidth)), totalCards);
      var i := 0;
      while i < |indicators|
        invariant 0 <= i <= |indicators| == |old(indicators)|
        invariant forall j :: 0 <= j < i ==> indicators[j] == (j == active)
      {
        indicators := indicators[i := i == active];
        i := i + 1;
      }
      assert indicators == Highlight(totalCards, active);
      if totalCards >= 1 {
        HighlightCount(totalCards, active);
      }
    }

    /** `scrollToPage(page)`, for any integer page. */
    method ScrollToPage(page: int, innerWidth: int) returns (req: ScrollRequest)
      requires Valid()
      modifies this
      ensures Valid()
      ensures PageChange(page, innerWidth, req)
      ensures currentIndex == Clamp(page, totalPages)
    {
      var target := Clamp(page, totalPages);
      if target == currentIndex {
        return NoScroll;
      }
      currentIndex := target;
      var scrollPosition := PaddingOffset(innerWidth) + (currentIndex * cardsPerView * CardWidth) as real;
      isScrolling := true;
      req := SmoothTo(scrollPosition);
      UpdateButtons();
      pendingSettles := pendingSettles + 1;
    }

    /** `scrollToCard(cardIndex)`: goes to the page that holds the card.  An
        indicator click calls this directly, so unlike the buttons it acts
        even while the guard is up. */
    method ScrollToCard(cardIndex: int, innerWidth: int) returns (req: ScrollRequest)
      requires Valid()
      modifies this
      ensures Valid()
      ensures PageChange(PageOfCard(cardIndex, cardsPerView), innerWidth, req)
    {
      var targetPage := PageOfCard(cardIndex, cardsPerView);
      req := ScrollToPage(targetPage, innerWidth);
    }

    /** Click on the prev button: one page back, unless on the first page or
        while the guard is up, in which case nothing changes. */
    method PrevClicked(innerWidth: int) returns (req: ScrollRequest)
      requires Valid()
      modifies this
      ensures Valid()
      ensures if old(currentIndex) > 0 && !old(isScrolling) then
          currentIndex == old(currentIndex) - 1 && req.SmoothTo? && PageChange(old(currentIndex) - 1, innerWidth, req)
        else
          req == NoScroll && unchanged(this)
    {
      if currentIndex > 0 && !isScrolling {
        req := ScrollToPage(currentIndex - 1, innerWidth);
      } else {
        req := NoScroll;
      }
    }

    /** Click on the next button: one page on, unless on the last page or
        while the guard is up, in which case nothing changes. */
    method NextClicked(innerWidth: int) returns (req: ScrollRequest)
      requires Valid()
      modifies this
      ensures Valid()
      ensures if old(currentIndex) < totalPages - 1 && !old(isScrolling) then
          currentIndex == old(currentIndex) + 1 && req.SmoothTo? && PageChange(old(currentIndex) + 1, innerWidth, req)
        else
          req == NoScroll && unchanged(this)
    {
      if currentIndex < totalPages - 1 && !isScrolling {
        req := ScrollToPage(currentIndex + 1, innerWidth);
      } else {
        req := NoScroll;
      }
    }

    /** The settle callback of an animated scroll: the guard comes down and
        the indicators follow the scroll offset; the page stays. */
    method SettleFired(scrollPosition: real, innerWidth: int)
      requires Valid() && pendingSettles > 0
      modifies this
      ensures Valid()
      ensures !isScrolling && pendingSettles == old(pendingSettles) - 1
      ensures indicators == Highlight(|old(indicators)|, ActiveCard(scrollPosition, innerWidth))
      ensures currentIndex == old(currentIndex)
      ensures prevDisabled == old(prevDisabled) && nextDisabled == old(nextDisabled)
      ensures DragAndTimersUnchanged()
    {
      pendingSettles := pendingSettles - 1;
      isScrolling := false;
      UpdateIndicators(scrollPosition, innerWidth);
    }

    /** A native scroll event: ignored while the guard is up, otherwise it
        (re)schedules the single debounced scroll callback. */
    method ScrollEvent()
      requires Valid()
      modifies this`scrollDebouncePending
      ensures Valid()
      ensures scrollDebouncePending == (old(scrollDebouncePending) || !isScrolling)
    {
      if isScrolling {
        return;
      }
      scrollDebouncePending := true;
    }

    /** The debounced scroll callback: the page of the card nearest the
        scroll offset becomes current if it is a page and differs from the
        current one (then the buttons follow); the indicators are refreshed in
        every case.  The guard is not consulted here. */
    method ScrollDebounceFired(scrollPosition: real, innerWidth: int)
      requires Valid() && scrollDebouncePending
      modifies this
      ensures Valid()
      ensures !scrollDebouncePending
      ensures var newPage := PageOfCard(CenterCardIndex(scrollPosition, PaddingOffset(innerWidth)), cardsPerView);
        currentIndex == if newPage != old(currentIndex) && 0 <= newPage < totalPages then newPage else old(currentIndex)
      ensures currentIndex != old(currentIndex) ==> 0 <= currentIndex < totalPages
      ensures indicators == Highlight(|old(indicators)|, ActiveCard(scrollPosition, innerWidth))
      ensures isScrolling == old(isScrolling) && pendingSettles == old(pendingSettles)
      ensures isDown == old(isDown) && startX == old(startX) && scrollLeft == old(scrollLeft)
      ensures resizeDebouncePending == old(resizeDebouncePending) && layoutPending == old(layoutPending)
    {
      scrollDebouncePending := false;
      var centerCardIndex := CenterCardIndex(scrollPosition, PaddingOffset(innerWidth));
      var newPageIndex := PageOfCard(centerCardIndex, cardsPerView);
      if newPageIndex != currentIndex && newPageIndex >= 0 && newPageIndex < totalPages {
        currentIndex := newPageIndex;
        UpdateButtons();
      }
      UpdateIndicators(scrollPosition, innerWidth);
    }

    /** A window resize event: (re)schedules the single debounced resize callback. */
    method ResizeEvent()
      modifies this`resizeDebouncePending
      ensures resizeDebouncePending
    {
      resizeDebouncePending := true;
    }

    /** The debounced resize callback: says whether the page reloads (the
        reload itself is left to the browser); the pager state is kept. */
    method ResizeDebounceFired(galleryWidth: nat) returns (reload: bool)
      requires Valid() && resizeDebouncePending
      modifies this`resizeDebouncePending
      ensures Valid() && !resizeDebouncePending
      ensures reload == ResizeReloads(galleryWidth, totalCards, totalPages)
    {
      resizeDebouncePending := false;
      var newCardsPerView := galleryWidth / CardWidth;
      if newCardsPerView == 0 {
        // Math.ceil(n / 0) is Infinity or NaN, never equal to totalPages
        reload := true;
      } else {
        var newTotalPages := TotalPages(totalCards, newCardsPerView);
        reload := newTotalPages != totalPages;
      }
    }

    /** The layout callback 100 ms after set-up: jumps to the inset so the
        first card sits half outside, then refreshes the indicators from the
        offset the gallery reports afterwards (`scrollAfter`). */
    method LayoutFired(innerWidth: int, scrollAfter: real) returns (req: ScrollRequest)
      requires Valid() && layoutPending
      modifies this
      ensures Valid() && !layoutPending
      ensures req == JumpTo(PaddingOffset(innerWidth))
      ensures indicators == Highlight(|old(indicators)|, ActiveCard(scrollAfter, innerWidth))
      ensures currentIndex == old(currentIndex) && isScrolling == old(isScrolling)
      ensures pendingSettles == old(pendingSettles)
      ensures isDown == old(isDown) && startX == old(startX) && scrollLeft == old(scrollLeft)
      ensures scrollDebouncePending == old(scrollDebouncePending)
      ensures resizeDebouncePending == old(resizeDebouncePending)
    {
      layoutPending := false;
      var initialPaddingOffset := PaddingOffset(innerWidth);
      var initialScroll := if initialPaddingOffset > 0.0 then initialPaddingOffset else 0.0;
      req := JumpTo(initialScroll);
      UpdateIndicators(scrollAfter, innerWidth);
    }

    /** Mouse down on the gallery: a drag starts at the pointer's position
        within the gallery and the current scroll offset. */
    method MouseDown(pageX: real, galleryLeft: real, scrollPosition: real)
      modifies this`isDown, this`startX, this`scrollLeft
      ensures isDown && startX == pageX - galleryLeft && scrollLeft == scrollPosition
    {
      isDown := true;
      startX := pageX - galleryLeft;
      scrollLeft := scrollPosition;
    }

    /** Mouse leaving the gallery ends a drag. */
    method MouseLeave()
      modifies this`isDown
      ensures !isDown
    {
      isDown := false;
    }

    /** Mouse up ends a drag. */
    method MouseUp()
      modifies this`isDown
      ensures !isDown
    {
      isDown := false;
    }

    /** Mouse move: during a drag the scroll offset is set from the drag
        rule; otherwise nothing happens.  No state of the pager changes. */
    method MouseMove(pageX: real, galleryLeft: real) returns (req: ScrollRequest)
      ensures req == if isDown then JumpTo(DragScroll(scrollLeft, startX, pageX - galleryLeft)) else NoScroll
    {
      if !isDown {
        return NoScroll;
      }
      var x := pageX - galleryLeft;
      var walk := (x - startX) * 2.0;
      req := JumpTo(scrollLeft - walk);
    }
  }

  /** A button click starts an animated scroll and raises the guard; a
      second button click is then ignored, but a click on the last card's
      indicator still starts another one.  The first settle callback drops the
      guard although the second scroll's settle callback is still pending. */
  method IndicatorClickDuringScroll(g: ProjectsGallery, innerWidth: int, scrollPosition: real)
    requires g.Valid() && g.totalPages >= 3 && g.currentIndex == 0 && !g.isScrolling && g.pendingSettles == 0
    modifies g
    ensures g.Valid()
    ensures g.currentIndex == g.totalPages - 1
    ensures !g.isScrolling && g.pendingSettles == 1
  {
    var req := g.NextClicked(innerWidth);
    assert g.currentIndex == 1 && g.isScrolling;
    req := g.NextClicked(innerWidth);
    assert req == NoScroll && g.currentIndex == 1;
    var lastCard := (g.totalPages - 1) * g.cardsPerView;
    PageRoundTrip(PaddingOffset(innerWidth), g.totalPages - 1, g.cardsPerView);
    req := g.ScrollToCard(lastCard, innerWidth);
    assert g.currentIndex == g.totalPages - 1 && g.pendingSettles == 2;
    g.SettleFired(scrollPosition, innerWidth);
  }

  /** The guard only stops new scroll events: a debounced scroll callback
      scheduled just before a button click is not cancelled, and when it fires
      during the animation it reads the old offset and moves the pager back.
      The animation still ends on the next page's offset, with the pager on
      page 0 and prev disabled. */
  method StaleDebounceDuringScroll(g: ProjectsGallery, innerWidth: int) returns (req: ScrollRequest)
    requires g.Valid() && g.totalPages >= 2 && g.currentIndex == 0 && !g.isScrolling
    requires innerWidth <= 2 * HalfCard
    modifies g
    ensures g.Valid()
    ensures req == SmoothTo(PageOffset(0.0, 1, g.cardsPerView))
    ensures g.currentIndex == 0 && g.prevDisabled && !g.isScrolling
  {
    g.ScrollEvent();
    req := g.NextClicked(innerWidth);
    assert g.currentIndex == 1 && g.isScrolling && g.scrollDebouncePending;
    assert CenterCardIndex(0.0, PaddingOffset(innerWidth)) == 0;
    assert PageOfCard(0, g.cardsPerView) == 0;
    g.ScrollDebounceFired(0.0, innerWidth);
    assert g.currentIndex == 0 && g.isScrolling;
    g.SettleFired(PageOffset(0.0, 1, g.cardsPerView), innerWidth);
  }
}
