# Portfolio site scripting: the project-gallery pager, in Dafny

This project models the client-side core of a personal portfolio site
(`static/js/main.js`): the horizontally scrolling project gallery with its
pages, prev/next buttons, one indicator per card and mouse dragging, plus
three small pieces of the page-transition code: which nav clicks are turned
into a slide, which way the slide goes and the latch that makes the end of the
slide happen once.

- `gallery_math.dfy`, module `GalleryMath`: the pure arithmetic of the pager:
  the inset (`getPaddingOffset`), cards per page, page count, the clamp of a
  page or card number, the card nearest the scroll offset, the indicator
  highlight, the drag rule and the resize rule. Pixel quantities are `real`
  (half the window width, scroll offsets and pointer positions may be
  fractional), with `Floor` and `Round` written out as JavaScript's
  `Math.floor` and `Math.round` (halves round up). Counts are `int`.
- `gallery.dfy`, module `Gallery`: class `ProjectsGallery`, the state the
  gallery closure captures (`currentIndex`, `isScrolling`, the button states,
  the indicator flags, the drag fields `isDown`, `startX`, `scrollLeft`) and
  one method per event handler or timer callback. Timers are explicit: a
  counter of pending 600 ms settle callbacks (never cancelled, so several can
  be pending), and single-slot flags for the 100 ms scroll debounce, the
  250 ms resize debounce and the 100 ms layout callback. What a handler reads
  from the page (window width, gallery width, scroll offset, pointer position)
  is a parameter; what it writes to the gallery's scroll offset is returned as
  a `ScrollRequest`. The object invariant `Valid()` says the current page is a
  page (or 0 when there are none), the buttons always agree with it, the
  guard is only up while a settle callback is pending, and when the indicator
  strip exists and there is at least one card, exactly one indicator is active.
- `navigation.dfy`, module `Navigation`: the route order, the test that
  decides whether a header-link click is intercepted, the slide direction,
  the outcome of a navigation given the fetched page, and the nav-link
  highlight.
- `transition.dfy`, module `Transition`: class `SlideTransition`, the
  completion latch of a slide: the `transitionend` listener and the 450 ms
  timeout both call `Finish`, whose body runs at most once.

The model follows the code as written, including its quirks:

- the page count is not clamped to at least one (no cards, no pages);
- the card nearest the viewport is `round(max(0, scroll - inset) / 344)`;
- the resize handler recomputes cards per page from the gallery width alone,
  without the inset and without the clamp to one;
- indicator clicks go to `scrollToCard` without the guard the buttons have;
- the guard only stops new scroll events: a debounced scroll callback
  scheduled before a button click is not cancelled, and when it fires during
  the animation it recomputes the page from the old offset, so the pager can
  end on page 0 while the gallery has scrolled to page 1;
- there is no handler for a change of the visible cards;
- a drag starts on any mouse-down in the gallery.

## Model

| member | source | states |
|---|---|---|
| `GalleryMath.PaddingOffset` | static/js/main.js:240 | the inset is 0 for windows up to 320 px wide and otherwise the positive value half the window width minus 160 |
| `GalleryMath.CardsPerView` | static/js/main.js:243-247 | cards per page is at least 1 for every gallery and window width; it is the largest count of 344 px card slots that fit in the gallery width less twice the inset, or 1 when none fits |
| `GalleryMath.TotalPages` | static/js/main.js:250 | the page count r is the rounded-up quotient: (r - 1) * cardsPerView < totalCards <= r * cardsPerView, so no cards give no pages |
| `GalleryMath.Clamp` | static/js/main.js:286 | the clamped page is in [0, count - 1] (0 when count <= 0), equals the requested page when that is in range, is 0 below the range and the last page above it |
| `GalleryMath.PageOfCard` | static/js/main.js:309 | the page p of a card satisfies p * cardsPerView <= cardIndex < (p + 1) * cardsPerView |
| `GalleryMath.Round` | static/js/main.js:276 | `Math.round`: x - 0.5 < r <= x + 0.5, the nearest integer with halves rounded up |
| `GalleryMath.CenterCardIndex` | static/js/main.js:273-276 | the card nearest the scroll offset is a card number >= 0 whose 344 px slot, centred on its start, contains the offset past the inset (negative offsets count as 0) |
| `GalleryMath.HighlightCount` | static/js/main.js:279-281 | toggling every indicator on `i === active` leaves exactly one active when the active index is a card, and none otherwise |
| `GalleryMath.ExactlyOneIndicatorActive` | static/js/main.js:269-282 | with at least one card the indicator refresh marks exactly one indicator, whose index is the clamped nearest card and lies in [0, totalCards - 1], for every scroll offset |
| `GalleryMath.BuildIndicators` | static/js/main.js:253-262 | the strip gets one indicator per card, the first one active and no other |
| `GalleryMath.PageRoundTrip` | static/js/main.js:337-341 | if the browser lands exactly on the offset requested for page p (line 292), the debounced read-back finds the first card of page p and page p itself |
| `GalleryMath.DragProperties` | static/js/main.js:400-406 | a drag moves the scroll offset twice as far as the pointer and the other way; bringing the pointer back to where it went down restores the offset |
| `GalleryMath.ResizeReloads` | static/js/main.js:354-364 | a gallery narrower than one card always reloads (its page count would be Infinity or NaN); otherwise it reloads iff the page count recomputed without the inset differs from the stored one |
| `GalleryMath.ResizeReloadsWithoutWidthChange` | static/js/main.js:357-361 | in a 1200 px window with a 1200 px gallery and seven cards, set-up finds one card per page and seven pages, yet a resize event with nothing resized reloads |
| `GalleryMath.ResizeAgreesWithoutInset` | static/js/main.js:357-359 | for every gallery at least one card wide and every card count, in a window without inset the resize rule finds the set-up page count and does not reload |
| `GalleryMath.WorkedExample` | static/js/main.js:243-292 | a 1000 px gallery without inset and seven cards gives two cards per page and four pages; page 3 survives the clamp and starts at offset 2064 |
| `Gallery.ProjectsGallery.Init` | static/js/main.js:226-231 | no gallery is set up unless the container and both buttons exist; otherwise a valid gallery on page 0, set up exactly as the constructor states (layout callback pending, guard down, no drag, indicators refreshed) |
| `Gallery.ProjectsGallery.constructor` | static/js/main.js:233-376 | set-up computes cards per page and pages, builds one indicator per card, schedules the layout callback, starts on page 0 with the guard down and the buttons updated (prev disabled), and refreshes the indicators from the current offset |
| `Gallery.ProjectsGallery.UpdateButtons` | static/js/main.js:264-267 | prev is disabled iff the current page is 0; next is disabled iff the current page is >= totalPages - 1 |
| `Gallery.ProjectsGallery.UpdateIndicators` | static/js/main.js:269-283 | every indicator is active iff it is the clamped card nearest the scroll offset; the invariant (exactly one active) is kept |
| `Gallery.ProjectsGallery.ScrollToPage` | static/js/main.js:285-306 | for any integer page the current page ends in [0, max(0, totalPages - 1)]; if the clamped page is already current nothing changes and no scroll is requested; otherwise the page becomes current, a smooth scroll to inset + page * cardsPerView * 344 is requested, the guard goes up, one more settle callback is pending and the buttons follow |
| `Gallery.ProjectsGallery.ScrollToCard` | static/js/main.js:308-311 | behaves as `ScrollToPage` of the card's page, with no guard check, so an indicator click acts even during an animated scroll |
| `Gallery.ProjectsGallery.PrevClicked` | static/js/main.js:314-320 | moves exactly one page back with a smooth scroll when not on page 0 and the guard is down; otherwise nothing changes |
| `Gallery.ProjectsGallery.NextClicked` | static/js/main.js:322-328 | moves exactly one page on with a smooth scroll when not on the last page and the guard is down; otherwise nothing changes |
| `Gallery.ProjectsGallery.SettleFired` | static/js/main.js:302-305 | the settle callback drops the guard, retires one pending settle and refreshes the indicators; the page and buttons stay |
| `Gallery.ProjectsGallery.ScrollEvent` | static/js/main.js:332-336 | a scroll event does nothing while the guard is up and otherwise (re)schedules the one debounced callback |
| `Gallery.ProjectsGallery.ScrollDebounceFired` | static/js/main.js:336-349 | the page of the nearest card becomes current only if it is a page in [0, totalPages) different from the current one; the indicators are refreshed in every case; the guard and settle callbacks are untouched |
| `Gallery.ProjectsGallery.ResizeEvent` | static/js/main.js:354-356 | a resize event (re)schedules the one debounced resize callback |
| `Gallery.ProjectsGallery.ResizeDebounceFired` | static/js/main.js:356-363 | the debounced resize decides a reload exactly as `ResizeReloads` and changes no pager state |
| `Gallery.ProjectsGallery.LayoutFired` | static/js/main.js:368-373 | the layout callback jumps to the inset and refreshes the indicators from the offset reported afterwards; the page and guard stay |
| `Gallery.ProjectsGallery.MouseDown` | static/js/main.js:383-388 | a drag starts, remembering the pointer's position within the gallery and the scroll offset |
| `Gallery.ProjectsGallery.MouseLeave` | static/js/main.js:390-393 | leaving the gallery ends the drag |
| `Gallery.ProjectsGallery.MouseUp` | static/js/main.js:395-398 | releasing the mouse ends the drag |
| `Gallery.ProjectsGallery.MouseMove` | static/js/main.js:400-406 | during a drag the offset is set to the start offset minus twice the pointer travel; outside a drag nothing is requested; no pager state changes |
| `Gallery.IndicatorClickDuringScroll` | static/js/main.js:259 | after a next click raises the guard, a second next click is ignored but an indicator click still scrolls; the first settle then drops the guard while another settle is pending |
| `Gallery.StaleDebounceDuringScroll` | static/js/main.js:332-346 | a scroll event just before a next click leaves its debounced callback pending; firing during the animation it moves the pager back to page 0 while the requested scroll goes to page 1, and after the settle the pager stays on page 0 with prev disabled |
| `Navigation.Intercepts` | static/js/main.js:30-35 | a click is intercepted iff the href exists, is non-empty and does not start with '#', and the target path is a known route different from the current path |
| `Navigation.DirectionProperties` | static/js/main.js:49-51 | between two different known routes exactly one direction is forward, no route is forward of itself, and an unknown path acts as the home route |
| `Navigation.Navigate` | static/js/main.js:47-67 | a failed fetch or a page without content gives a full load of the href; otherwise a slide to the target with the fetched content, forward iff the target's route order is greater than the current one's |
| `Navigation.NavLinkActiveIffSamePath` | static/js/main.js:155 | a nav link is active iff its href equals the current path; the extra test for '/' adds nothing |
| `Navigation.HighlightActiveNav` | static/js/main.js:148-158 | one flag per link, set iff the link's href equals the current path |
| `Transition.SlideTransition.Start` | static/js/main.js:70-72 | no transition starts unless both the main element and its inner block exist; otherwise one starts exactly as the constructor states, listener attached and timeout pending |
| `Transition.SlideTransition.constructor` | static/js/main.js:74-92 | the sliding viewport with the current and next panels and the direction replaces the content; the listener is attached and the timeout pending |
| `Transition.SlideTransition.Finish` | static/js/main.js:94-103 | the first call swaps in the new content, ends the transitioning state, pushes one history entry and moves to the target path; any later call changes nothing |
| `Transition.SlideTransition.TransitionEnd` | static/js/main.js:105-108 | the one-shot listener is gone after the first event it sees; it finishes only for the next panel's transform, and never finishes twice |
| `Transition.SlideTransition.TimeoutFired` | static/js/main.js:116 | the timeout always leaves the transition finished, and only pushes a history entry if the end event did not finish it first |
| `Transition.BothCompletions` | static/js/main.js:94-116 | whichever completion comes first, once both have run the transition is finished with exactly one history entry pushed |

## Left out

- Browser I/O of the transition code: the `fetch` of the target page is the `FetchResult` parameter of `Navigate`, and `window.location.href = href` is its `FullLoad` outcome; the HTML parsing, `history.pushState` beyond recording the pushed URL and the path, and `location.reload` (returned as a boolean by `ResizeDebounceFired`) are not modelled.
- `loadPageContent` and the `popstate` listener (static/js/main.js:42-44, 119-138): a fetch and a content swap without animation. Unlike `Navigate`, it does nothing when the fetched page has no content or when the main element or its inner block is missing, and only a failed fetch falls back to a full load.
- Resolving an href to a path (`new URL(href, origin).pathname`): the target path is a parameter.
- The re-run of `highlightActiveNav` and `reinitPageModules` at the end of `Finish`: the first is `HighlightActiveNav` applied to the new path, the second re-creates the gallery (a new `ProjectsGallery`) and the other page modules.
- `requestAnimationFrame`, class toggles, cursor styles, `preventDefault`/`stopPropagation`, smooth scrolling of anchor links, card click animation, fade-in on scroll, clipboard copy and toasts (static/js/main.js:161-222, 412-460): presentation or foreign browser APIs with no pager logic.
- The browser's own handling of scroll offsets: it clamps an assigned offset to the scrollable range and animates smooth scrolls; offsets read back are parameters, so `PageRoundTrip` holds only when the browser lands on the requested offset (the last page may not be reachable exactly).
- Floating point: quantities are exact reals, so rounding errors of JavaScript numbers and the corner cases of `Math.round` near one half are not captured.
- Listener accumulation: each set-up adds another window resize listener and never removes old ones; the model holds one gallery.
- `startX` and `scrollLeft` are undefined in the source until the first mouse-down; the model starts them at 0, which is never read while no drag is active.
- `main.py`: server route wiring and template rendering; its three routes are the keys of `RouteOrder`.
