/**
 * `VisibilityChangeModifier`: runs an action once each time a view becomes
 * visible.  A `hasAppeared` flag is set when the action runs and cleared when
 * the view is reported invisible, so repeated "visible" notifications in
 * between do not run it again.
 */
module VisibilityChange {
  /** What the modifier is told: a change of `isVisible` (`onChange`) or the
      view appearing with the current `isVisible` (`onAppear`). */
  datatype Event = Changed(newValue: bool) | Appeared(isVisible: bool)

  /** The modifier's response to one event, from flag `hasAppeared`: the new
      flag and whether the action runs. */
  function Step(hasAppeared: bool, e: Event): (r: (bool, bool))
    ensures r.1 <==> !hasAppeared && (e == Changed(true) || e == Appeared(true))
    ensures r.1 ==> r.0
    ensures e == Changed(false) ==> r == (false, false)
    ensures e == Changed(true) || e == Appeared(true) ==> r.0
    ensures e == Appeared(false) ==> r == (hasAppeared, false)
  {
    match e
    case Changed(newValue) =>
      if newValue && !hasAppeared then (true, true)
      else if !newValue then (false, false)
      else (hasAppeared, false)
    case Appeared(isVisible) =>
      if isVisible && !hasAppeared then (true, true)
      else (hasAppeared, false)
  }

  /** The flag after a sequence of events. */
  function FlagAfter(hasAppeared: bool, events: seq<Event>): bool
    decreases |events|
  {
    if events == [] then hasAppeared
    else FlagAfter(Step(hasAppeared, events[0]).0, events[1..])
  }

  /** How many times the action runs over a sequence of events. */
  function Fired(hasAppeared: bool, events: seq<Event>): nat
    decreases |events|
  {
    if events == [] then 0
    else
      var (h, fired) := Step(hasAppeared, events[0]);
      (if fired then 1 else 0) + Fired(h, events[1..])
  }

  predicate NoHide(events: seq<Event>) {
    forall i :: 0 <= i < |events| ==> events[i] != Changed(false)
  }

  /** Between two invisibility reports the action runs at most once, and not
      at all if it had already run. */
  lemma {:induction false} AtMostOncePerShowing(hasAppeared: bool, events: seq<Event>)
    requires NoHide(events)
    ensures Fired(hasAppeared, events) <= 1
    ensures hasAppeared ==> Fired(hasAppeared, events) == 0
    ensures Fired(hasAppeared, events) == 1 ==> FlagAfter(hasAppeared, events)
    decreases |events|
  {
    if events != [] {
      var (h, fired) := Step(hasAppeared, events[0]);
      assert NoHide(events[1..]) by {
        forall i | 0 <= i < |events[1..]| ensures events[1..][i] != Changed(false) {
          assert events[1..][i] == events[i + 1];
        }
      }
      AtMostOncePerShowing(h, events[1..]);
      if h {
        FlagStays(h, events[1..]);
      }
    }
  }

  /** Without an invisibility report, a set flag stays set. */
  lemma {:induction false} FlagStays(hasAppeared: bool, events: seq<Event>)
    requires NoHide(events) && hasAppeared
    ensures FlagAfter(hasAppeared, events)
    decreases |events|
  {
    if events != [] {
      assert NoHide(events[1..]) by {
        forall i | 0 <= i < |events[1..]| ensures events[1..][i] != Changed(false) {
          assert events[1..][i] == events[i + 1];
        }
      }
      FlagStays(Step(hasAppeared, events[0]).0, events[1..]);
    }
  }

  /** A visible notification followed by no invisibility report runs the
      action exactly once if it had not run, so the action of every showing
      runs. */
  lemma ShowingFiresOnce(events: seq<Event>)
    requires |events| > 0 && (events[0] == Changed(true) || events[0] == Appeared(true))
    requires NoHide(events)
    ensures Fired(false, events) == 1
  {
    assert NoHide(events[1..]) by {
      forall i | 0 <= i < |events[1..]| ensures events[1..][i] != Changed(false) {
        assert events[1..][i] == events[i + 1];
      }
    }
    AtMostOncePerShowing(true, events[1..]);
  }

  /** The modifier's `@State`. */
  class VisibilityChangeModifier {
    var hasAppeared: bool

    constructor()
      ensures !hasAppeared
    {
      hasAppeared := false;
    }

    /** `onChange(of: isVisible)`: returns whether the action runs. */
    method OnChange(newValue: bool) returns (fired: bool)
      modifies this
      ensures (hasAppeared, fired) == Step(old(hasAppeared), Changed(newValue))
    {
      fired := false;
      if newValue && !hasAppeared {
        hasAppeared := true;
        fired := true;
      } else if !newValue {
        hasAppeared := false;
      }
    }

    /** `onAppear`: returns whether the action runs. */
    method OnAppear(isVisible: bool) returns (fired: bool)
      modifies this
      ensures (hasAppeared, fired) == Step(old(hasAppeared), Appeared(isVisible))
    {
      fired := false;
      if isVisible && !hasAppeared {
        hasAppeared := true;
        fired := true;
      }
    }
  }
}

/**
 * `VideoPlayerManager`: the shared record of which video is playing.
 */
module VideoPlayback {
  import opened Options

  /** The playing video after `play(videoID:)`. */
  function AfterPlay(current: Option<string>, videoID: string): (r: Option<string>)
    ensures r == Some(videoID)
  {
    if current != Some(videoID) then Some(videoID) else current
  }

  /** Playing the same video twice is playing it once, and of two videos
      played one after the other the last one wins. */
  lemma PlayIdempotentLastWins(current: Option<string>, a: string, b: string)
    ensures AfterPlay(AfterPlay(current, a), a) == AfterPlay(current, a)
    ensures AfterPlay(AfterPlay(current, a), b) == AfterPlay(current, b)
  {
  }

  class VideoPlayerManager {
    var currentlyPlayingID: Option<string>

    constructor()
      ensures currentlyPlayingID == None
    {
      currentlyPlayingID := None;
    }

    /** `play(videoID:)`: the id is assigned only when it differs from the
        playing one. */
    method Play(videoID: string)
      modifies this
      ensures currentlyPlayingID == AfterPlay(old(currentlyPlayingID), videoID)
      ensures currentlyPlayingID == Some(videoID)
    {
      if currentlyPlayingID != Some(videoID) {
        currentlyPlayingID := Some(videoID);
      }
    }

    /** `stop`. */
    method Stop()
      modifies this
      ensures currentlyPlayingID == None
    {
      currentlyPlayingID := None;
    }
  }
}
