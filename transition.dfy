/** The slide transition between two pages and its completion latch: the end
    of the slide animation and a 450 ms timeout both call `finish`, whose body
    runs at most once. */
module Transition {
  import opened Navigation

  /** What the main element holds: the page content, or the sliding viewport
      with the current and the next panel. */
  datatype MainContent =
    | Inner(html: string)
    | Sliding(current: string, next: string, forward: bool)

  class SlideTransition {
    const targetPath: string
    const newContent: string
    const goForward: bool
    const fullHref: string
    /** The page content when the transition started. */
    const oldContent: string
    /** The history entries when the transition started. */
    const historyBefore: seq<string>
    /** The path the browser showed when the transition started. */
    const pathBefore: string

    /** The latch. */
    var finished: bool
    /** The one-shot `transitionend` listener on the next panel is still attached. */
    var endListenerAttached: bool
    /** The 450 ms timeout has not run yet. */
    var timeoutPending: bool
    /** The main element carries the transitioning mark. */
    var isTransitioning: bool
    var main: MainContent
    /** Entries pushed onto the session history. */
    var history: seq<string>
    /** The path the browser shows. */
    var path: string

    /** Until the latch closes the slide is on screen; once it closes the new
        content is in place and exactly one history entry was pushed. */
    ghost predicate Valid()
      reads this
    {
      (finished <==> !isTransitioning)
      && history == historyBefore + (if finished then [fullHref] else [])
      && path == (if finished then targetPath else pathBefore)
      && main == (if finished then Inner(newContent) else Sliding(oldContent, newContent, goForward))
    }

    /** `runSlideTransition` once the main element and its inner block are
        found: the viewport with both panels replaces the content, the end
        listener is attached and the timeout scheduled. */
    constructor (targetPath: string, newContent: string, goForward: bool, fullHref: string,
                 currentContent: string, history: seq<string>, currentPath: string)
      ensures Valid()
      ensures this.targetPath == targetPath && this.newContent == newContent
      ensures this.goForward == goForward && this.fullHref == fullHref
      ensures !finished && endListenerAttached && timeoutPending
      ensures main == Sliding(currentContent, newContent, goForward)
      ensures this.history == history && path == currentPath
    {
      this.targetPath := targetPath;
      this.newContent := newContent;
      this.goForward := goForward;
      this.fullHref := fullHref;
      oldContent := currentContent;
      historyBefore := history;
      pathBefore := currentPath;
      this.history := history;
      path := currentPath;
      main := Sliding(currentContent, newContent, goForward);
      isTransitioning := true;
      finished := false;
      endListenerAttached := true;
      timeoutPending := true;
    }

    /** `runSlideTransition`: nothing happens unless both the main element and
        its inner block exist. */
    static method Start(hasMain: bool, hasInner: bool, targetPath: string, newContent: string, goForward: bool,
                        fullHref: string, currentContent: string, history: seq<string>, currentPath: string)
      returns (t: SlideTransition?)
      ensures t == null <==> !(hasMain && hasInner)
      ensures t != null ==>
                fresh(t) && t.Valid() && !t.finished
                && t.endListenerAttached && t.timeoutPending
                && t.targetPath == targetPath && t.newContent == newContent
                && t.goForward == goForward && t.fullHref == fullHref
                && t.history == history && t.path == currentPath
                && t.main == Sliding(currentContent, newContent, goForward)
    {
      if !(hasMain && hasInner) {
        return null;
      }
      t := new SlideTransition(targetPath, newContent, goForward, fullHref, currentContent, history, currentPath);
    }

    /** `finish`: the first call swaps in the new content, pushes one history
        entry and moves to the target path; every later call does nothing. */
    method Finish()
      requires Valid()
      modifies this`finished, this`isTransitioning, this`main, this`history, this`path
      ensures Valid() && finished
      ensures old(finished) ==> unchanged(this)
      ensures !old(finished) ==> history == old(history) + [fullHref] && path == targetPath
                                 && main == Inner(newContent) && !isTransitioning
    {
      if finished {
        return;
      }
      finished := true;
      isTransitioning := false;
      main := Inner(newContent);
      history := history + [fullHref];
      path := targetPath;
    }

    /** A `transitionend` event reaching the listener.  The listener is
        one-shot, so it is gone after the first event it sees, even one it
        ignores; it finishes only for the end of the next panel's transform. */
    method TransitionEnd(onNextPanel: bool, propertyName: string)
      requires Valid()
      modifies this
      ensures Valid() && !endListenerAttached
      ensures timeoutPending == old(timeoutPending)
      ensures finished == (old(finished) || (old(endListenerAttached) && onNextPanel && propertyName == "transform"))
      ensures old(finished) ==> history == old(history) && path == old(path) && main == old(main)
      ensures !old(finished) && finished ==> history == old(history) + [fullHref] && path == targetPath
    {
      if !endListenerAttached {
        return;
      }
      endListenerAttached := false;
      if !onNextPanel || propertyName != "transform" {
        return;
      }
      Finish();
    }

    /** The 450 ms timeout: it always calls `finish`. */
    method TimeoutFired()
      requires Valid() && timeoutPending
      modifies this
      ensures Valid() && finished && !timeoutPending
      ensures endListenerAttached == old(endListenerAttached)
      ensures old(finished) ==> history == old(history) && path == old(path) && main == old(main)
      ensures !old(finished) ==> history == old(history) + [fullHref] && path == targetPath
    {
      timeoutPending := false;
      Finish();
    }
  }

  /** Whichever of the two completions comes first, and however the end
      event is filtered, the slide finishes once both have run, with exactly
      one history entry pushed. */
  method BothCompletions(t: SlideTransition, endFirst: bool, onNextPanel: bool, propertyName: string)
    requires t.Valid() && !t.finished && t.endListenerAttached && t.timeoutPending
    modifies t
    ensures t.Valid() && t.finished
    ensures t.history == old(t.history) + [t.fullHref] && t.path == t.targetPath
  {
    if endFirst {
      t.TransitionEnd(onNextPanel, propertyName);
      t.TimeoutFired();
    } else {
      t.TimeoutFired();
      t.TransitionEnd(onNextPanel, propertyName);
    }
  }
}
