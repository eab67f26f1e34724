/** The site's page script: the hero slideshow and its timer, the mobile
    menu, the navbar's scroll class, the single on-screen notification and
    the two forms that submit in the background. Each closure of the script
    that keeps state becomes a class whose fields are that state; DOM
    classes and attributes the handlers touch are fields too. */
module MainUi {
  import opened Text

  // ---------------------------------------------------------------------
  // Hero slideshow
  // ---------------------------------------------------------------------

  /** The index showSlide settles on for a requested index among n slides:
      one past the end goes back to the first, one before the start goes
      to the last. */
  function Wrap(index: int, n: nat): (r: int)
    requires n > 0
    ensures 0 <= r < n
    ensures 0 <= index < n ==> r == index
    ensures index >= n ==> r == 0
    ensures index < 0 ==> r == n - 1
  {
    if index >= n then 0
    else if index < 0 then n - 1
    else index
  }

  /** Going forward then back, or back then forward, returns to the slide
      one started from. */
  lemma NextPrevRoundTrip(c: int, n: nat)
    requires n > 0 && 0 <= c < n
    ensures Wrap(Wrap(c + 1, n) - 1, n) == c
    ensures Wrap(Wrap(c - 1, n) + 1, n) == c
  {
    if c == n - 1 {
      assert Wrap(c + 1, n) == 0;
    }
    if c == 0 {
      assert Wrap(c - 1, n) == n - 1;
    }
  }

  /** Stepping forward k times (k at most n) moves k places round the
      circle of slides; after n steps the show is back where it started. */
  lemma {:induction false} ForwardCycle(c: int, n: nat, k: nat)
    requires n > 0 && 0 <= c < n && k <= n
    ensures Forward(c, n, k) == if c + k < n then c + k else c + k - n
    ensures k == n ==> Forward(c, n, k) == c
  {
    if k > 0 {
      ForwardCycle(c, n, k - 1);
    }
  }

  /** The slide shown after k steps forward from slide c. */
  function Forward(c: int, n: nat, k: nat): (r: int)
    requires n > 0 && 0 <= c < n
    ensures 0 <= r < n
  {
    if k == 0 then c else Wrap(Forward(c, n, k - 1) + 1, n)
  }

  /** The slides (one `active` flag each), the current index, and the
      slideshow's interval: the handle kept in `slideInterval` and the set
      of intervals the browser is still running. */
  class Slideshow {
    const active: array<bool>
    var current: int
    var slideInterval: Option<nat>
    var liveTimers: set<nat>
    var nextHandle: nat

    /** Handles are positive and fresh, and the only interval that may still
        be running is the one whose handle is kept. */
    ghost predicate TimersValid()
      reads this
    {
      nextHandle >= 1 &&
      (slideInterval.Some? ==> 1 <= slideInterval.value < nextHandle) &&
      (slideInterval.None? ==> liveTimers == {}) &&
      (slideInterval.Some? ==> liveTimers <= {slideInterval.value})
    }

    /** The slides as the page was served, then the script's start: the
        slideshow starts only when there are slides. */
    constructor(initial: seq<bool>)
      ensures active[..] == initial && current == 0
      ensures TimersValid()
      ensures |initial| == 0 ==> slideInterval.None? && liveTimers == {}
      ensures |initial| > 0 ==> slideInterval.Some? && liveTimers == {slideInterval.value}
    {
      active := new bool[|initial|](i => if 0 <= i < |initial| then initial[i] else false);
      current := 0;
      slideInterval := None;
      liveTimers := {};
      nextHandle := 1;
      new;
      if active.Length > 0 {
        StartSlideshow();
      }
    }

    /** Clears every slide's flag, settles the index and marks that one
        slide; with no slides it does nothing. */
    method ShowSlide(index: int)
      modifies active, this`current
      ensures active.Length == 0 ==> current == old(current) && active[..] == old(active[..])
      ensures active.Length > 0 ==> current == Wrap(index, active.Length)
      ensures active.Length > 0 ==> forall i :: 0 <= i < active.Length ==> (active[i] <==> i == current)
    {
      if active.Length == 0 {
        return;
      }
      for i := 0 to active.Length
        invariant forall j :: 0 <= j < i ==> !active[j]
      {
        active[i] := false;
      }
      if index >= active.Length {
        current := 0;
      } else if index < 0 {
        current := active.Length - 1;
      } else {
        current := index;
      }
      active[current] := true;
    }

    method NextSlide()
      modifies active, this`current
      ensures active.Length > 0 ==> current == Wrap(old(current) + 1, active.Length)
      ensures active.Length > 0 ==> forall i :: 0 <= i < active.Length ==> (active[i] <==> i == current)
      ensures active.Length == 0 ==> current == old(current) && active[..] == old(active[..])
    {
      ShowSlide(current + 1);
    }

    method PrevSlide()
      modifies active, this`current
      ensures active.Length > 0 ==> current == Wrap(old(current) - 1, active.Length)
      ensures active.Length > 0 ==> forall i :: 0 <= i < active.Length ==> (active[i] <==> i == current)
      ensures active.Length == 0 ==> current == old(current) && active[..] == old(active[..])
    {
      ShowSlide(current - 1);
    }

    /** clearInterval: stops that interval if it is running; a missing
        handle is ignored. */
    method ClearInterval(handle: Option<nat>)
      modifies this`liveTimers
      ensures handle.None? ==> liveTimers == old(liveTimers)
      ensures handle.Some? ==> liveTimers == old(liveTimers) - {handle.value}
    {
      if handle.Some? {
        liveTimers := liveTimers - {handle.value};
      }
    }

    /** Stops the kept interval, if any, and starts a new one. */
    method StartSlideshow()
      requires TimersValid()
      modifies this`slideInterval, this`liveTimers, this`nextHandle
      ensures TimersValid()
      ensures slideInterval == Some(old(nextHandle)) && nextHandle == old(nextHandle) + 1
      ensures liveTimers == {slideInterval.value}
    {
      if slideInterval.Some? {
        ClearInterval(slideInterval);
      }
      var handle := nextHandle;
      nextHandle := nextHandle + 1;
      liveTimers := liveTimers + {handle};
      slideInterval := Some(handle);
    }

    method ResetTimer()
      requires TimersValid()
      modifies this`slideInterval, this`liveTimers, this`nextHandle
      ensures TimersValid() && slideInterval.Some? && liveTimers == {slideInterval.value}
    {
      ClearInterval(slideInterval);
      StartSlideshow();
    }

    /** The pointer enters the hero: the interval stops, but its stale
        handle stays in `slideInterval`. */
    method OnMouseEnter()
      requires TimersValid()
      modifies this`liveTimers
      ensures TimersValid() && liveTimers == {} && slideInterval == old(slideInterval)
    {
      ClearInterval(slideInterval);
    }

    /** The pointer leaves the hero: the slideshow starts again. */
    method OnMouseLeave()
      requires TimersValid()
      modifies this`slideInterval, this`liveTimers, this`nextHandle
      ensures TimersValid() && slideInterval.Some? && liveTimers == {slideInterval.value}
    {
      StartSlideshow();
    }

    /** The running interval fires. */
    method OnInterval()
      modifies active, this`current
      ensures active.Length > 0 ==> current == Wrap(old(current) + 1, active.Length)
      ensures active.Length > 0 ==> forall i :: 0 <= i < active.Length ==> (active[i] <==> i == current)
      ensures active.Length == 0 ==> current == old(current) && active[..] == old(active[..])
    {
      NextSlide();
    }

    /** A click on the next arrow, or on the previous arrow (`forward`
        false): change slide, then restart the interval. */
    method OnArrowClick(forward: bool)
      requires TimersValid()
      modifies active, this`current, this`slideInterval, this`liveTimers, this`nextHandle
      ensures active.Length > 0 ==> current == Wrap(old(current) + (if forward then 1 else -1), active.Length)
      ensures active.Length > 0 ==> forall i :: 0 <= i < active.Length ==> (active[i] <==> i == current)
      ensures TimersValid() && slideInterval.Some? && liveTimers == {slideInterval.value}
    {
      if forward {
        NextSlide();
      } else {
        PrevSlide();
      }
      ResetTimer();
    }

    /** The arrow keys act only on a page that has slides (the listener is
        installed only then); any other key is ignored. */
    method OnKeydown(key: string)
      requires TimersValid()
      modifies active, this`current, this`slideInterval, this`liveTimers, this`nextHandle
      ensures TimersValid()
      ensures active.Length > 0 && key == "ArrowRight" ==> current == Wrap(old(current) + 1, active.Length)
      ensures active.Length > 0 && key == "ArrowLeft" ==> current == Wrap(old(current) - 1, active.Length)
      ensures active.Length > 0 && (key == "ArrowRight" || key == "ArrowLeft") ==>
        (forall i :: 0 <= i < active.Length ==> (active[i] <==> i == current)) &&
        slideInterval.Some? && liveTimers == {slideInterval.value}
      ensures active.Length == 0 || (key != "ArrowRight" && key != "ArrowLeft") ==>
        current == old(current) && active[..] == old(active[..]) &&
        slideInterval == old(slideInterval) && liveTimers == old(liveTimers)
    {
      if active.Length > 0 {
        if key == "ArrowRight" {
          OnArrowClick(true);
        } else if key == "ArrowLeft" {
          OnArrowClick(false);
        }
      }
    }
  }

  /** However the handlers interleave, at most one slideshow interval runs. */
  lemma AtMostOneInterval(s: Slideshow)
    requires s.TimersValid()
    ensures |s.liveTimers| <= 1
  {
    if s.slideInterval.Some? {
      assert s.liveTimers <= {s.slideInterval.value};
      if s.liveTimers != {} {
        assert s.liveTimers == {s.slideInterval.value};
      }
    }
  }

  // ---------------------------------------------------------------------
  // Mobile menu
  // ---------------------------------------------------------------------

  /** The menu's `active` class, the toggle's `aria-expanded` attribute
      and the page body's `overflow` style. */
  class Menu {
    var open: bool
    var ariaExpanded: string
    var bodyOverflow: string

    /** The attribute and the body's scrolling follow the menu. */
    ghost predicate Consistent()
      reads this
    {
      ariaExpanded == (if open then "true" else "false") &&
      bodyOverflow == (if open then "hidden" else "")
    }

    /** The state the page was served with. */
    constructor(open: bool, ariaExpanded: string, bodyOverflow: string)
      ensures this.open == open && this.ariaExpanded == ariaExpanded && this.bodyOverflow == bodyOverflow
    {
      this.open := open;
      this.ariaExpanded := ariaExpanded;
      this.bodyOverflow := bodyOverflow;
    }

    method Toggle()
      modifies this
      ensures open == !old(open) && Consistent()
    {
      open := !open;
      ariaExpanded := if open then "true" else "false";
      bodyOverflow := if open then "hidden" else "";
    }

    /** Also what a click on any link of the menu does. */
    method Close()
      modifies this
      ensures !open && Consistent()
    {
      open := false;
      ariaExpanded := "false";
      bodyOverflow := "";
    }

    /** Escape closes an open menu; anything else changes nothing. */
    method OnKeydown(key: string)
      modifies this
      ensures key == "Escape" ==> !open
      ensures key == "Escape" && old(open) ==> Consistent()
      ensures key != "Escape" || !old(open) ==>
        open == old(open) && ariaExpanded == old(ariaExpanded) && bodyOverflow == old(bodyOverflow)
    {
      if key == "Escape" && open {
        Close();
      }
    }
  }

  // ---------------------------------------------------------------------
  // Navbar scroll class
  // ---------------------------------------------------------------------

  /** The navbar's `scrolled` class, the last scroll offset, the `ticking`
      flag and the number of animation frames requested and not yet run. */
  class NavbarTicker {
    var scrolled: bool
    var lastScroll: real
    var ticking: bool
    var queued: nat

    /** A frame is pending exactly while `ticking` is set, and never more
        than one. */
    ghost predicate AtMostOneQueued()
      reads this
    {
      queued <= 1 && (ticking <==> queued == 1)
    }

    constructor(scrolled: bool)
      ensures this.scrolled == scrolled && lastScroll == 0.0 && !ticking && queued == 0
      ensures AtMostOneQueued()
    {
      this.scrolled := scrolled;
      lastScroll := 0.0;
      ticking := false;
      queued := 0;
    }

    /** A scroll event requests a frame only when none is pending. */
    method OnScroll()
      requires AtMostOneQueued()
      modifies this
      ensures AtMostOneQueued() && ticking && queued == 1
      ensures scrolled == old(scrolled) && lastScroll == old(lastScroll)
    {
      if !ticking {
        queued := queued + 1;
        ticking := true;
      }
    }

    /** The requested frame runs with the current scroll offset. */
    method OnAnimationFrame(scrollY: real)
      requires queued > 0
      requires AtMostOneQueued()
      modifies this
      ensures scrolled <==> scrollY > 50.0
      ensures lastScroll == scrollY && !ticking && queued == 0
      ensures AtMostOneQueued()
    {
      queued := queued - 1;
      scrolled := scrollY > 50.0;
      lastScroll := scrollY;
      ticking := false;
    }
  }

  // ---------------------------------------------------------------------
  // Notifications
  // ---------------------------------------------------------------------

  /** One `.form-notification` element: its identity, text, type and icon. */
  datatype Notice = Notice(id: nat, message: string, kind: string, icon: string)

  /** Font Awesome icon for a notification type. */
  function Icon(kind: string): (icon: string)
    ensures icon == "fa-check-circle" <==> kind == "success"
    ensures icon == "fa-exclamation-circle" <==> kind == "error"
    ensures icon == "fa-info-circle" <==> kind != "success" && kind != "error"
  {
    if kind == "success" then "fa-check-circle"
    else if kind == "error" then "fa-exclamation-circle"
    else "fa-info-circle"
  }

  /** The notification elements on the page, in document order. */
  class NotificationArea {
    var shown: seq<Notice>
    var nextId: nat

    constructor()
      ensures shown == [] && nextId == 0
    {
      shown := [];
      nextId := 0;
    }

    /** Removes the first notification on the page, if any, then appends
        the new one. */
    method Show(message: string, kind: string)
      modifies this
      ensures nextId == old(nextId) + 1
      ensures shown == (if old(shown) == [] then [] else old(shown)[1..]) +
        [Notice(old(nextId), message, kind, Icon(kind))]
      ensures |old(shown)| <= 1 ==> shown == [Notice(old(nextId), message, kind, Icon(kind))]
    {
      if shown != [] {
        shown := shown[1..];
      }
      shown := shown + [Notice(nextId, message, kind, Icon(kind))];
      nextId := nextId + 1;
    }

    /** A notification of the default type. */
    method ShowInfo(message: string)
      modifies this
      ensures |old(shown)| <= 1 ==> shown == [Notice(old(nextId), message, "info", "fa-info-circle")]
    {
      Show(message, "info");
    }

    /** The close button, or the automatic hide, takes one notification out
        of the page; one already gone is left alone. */
    method Remove(id: nat)
      modifies this
      ensures shown == Without(old(shown), id) && nextId == old(nextId)
      ensures |shown| <= |old(shown)|
    {
      var all := shown;
      var kept := [];
      for i := 0 to |all|
        invariant kept == Without(all[..i], id)
        invariant nextId == old(nextId)
      {
        assert all[..i + 1] == all[..i] + [all[i]];
        WithoutAppend(all[..i], all[i], id);
        if all[i].id != id {
          kept := kept + [all[i]];
        }
      }
      assert all[..|all|] == all;
      WithoutShrinks(all, id);
      shown := kept;
    }
  }

  /** The notices other than the one with that id. */
  function Without(s: seq<Notice>, id: nat): seq<Notice>
  {
    if s == [] then []
    else (if s[0].id == id then [] else [s[0]]) + Without(s[1..], id)
  }

  lemma {:induction false} WithoutAppend(s: seq<Notice>, n: Notice, id: nat)
    ensures Without(s + [n], id) == Without(s, id) + (if n.id == id then [] else [n])
  {
    if s == [] {
      assert Without([n], id) == (if n.id == id then [] else [n]) + Without([], id);
    } else {
      assert (s + [n])[1..] == s[1..] + [n];
      WithoutAppend(s[1..], n, id);
    }
  }

  lemma {:induction false} WithoutShrinks(s: seq<Notice>, id: nat)
    ensures |Without(s, id)| <= |s|
    ensures forall n :: n in Without(s, id) ==> n in s && n.id != id
  {
    if s != [] {
      WithoutShrinks(s[1..], id);
    }
  }

  /** Neither showing nor removing ever leaves two notifications on the
      page when there was at most one before. */
  method ShowThenRemove(area: NotificationArea, message: string, kind: string, id: nat)
    requires |area.shown| <= 1
    modifies area
    ensures |area.shown| <= 1
  {
    area.Show(message, kind);
    area.Remove(id);
  }

  const SubmittedMessage := "Thank you! Your request has been submitted successfully. Check your email for confirmation."

  /** URLSearchParams.get: the first value given for the name. */
  function QueryValue(query: seq<(string, string)>, name: string): (r: Option<string>)
    ensures r.None? <==> forall i :: 0 <= i < |query| ==> query[i].0 != name
    ensures r.Some? ==> exists i :: (0 <= i < |query| && query[i] == (name, r.value) &&
                                     forall j :: 0 <= j < i ==> query[j].0 != name)
  {
    if query == [] then None
    else if query[0].0 == name then Some(query[0].1)
    else
      var r := QueryValue(query[1..], name);
      if r.Some? then
        var i :| 0 <= i < |query[1..]| && query[1..][i] == (name, r.value) &&
          forall j :: 0 <= j < i ==> query[1..][j].0 != name;
        assert query[i + 1] == (name, r.value);
        r
      else r
  }

  /** On load, `?submitted=true` greets the visitor with a success notice. */
  method ShowSubmittedNotice(query: seq<(string, string)>, area: NotificationArea)
    modifies area
    ensures QueryValue(query, "submitted") == Some("true") && |old(area.shown)| <= 1 ==>
      area.shown == [Notice(old(area.nextId), SubmittedMessage, "success", "fa-check-circle")]
    ensures QueryValue(query, "submitted") != Some("true") ==>
      area.shown == old(area.shown) && area.nextId == old(area.nextId)
  {
    if QueryValue(query, "submitted") == Some("true") {
      area.Show(SubmittedMessage, "success");
    }
  }

  // ---------------------------------------------------------------------
  // Forms submitted in the background
  // ---------------------------------------------------------------------

  /** What the request brought back: no answer at all (the fetch threw), or
      an answer with its `ok` flag and whether its body parsed as JSON. */
  datatype FetchOutcome = NetworkError | Answered(ok: bool, bodyIsJson: bool)

  /** The submission counts as a success only when the answer is ok and its
      body parses; a body that does not parse throws even on an ok answer. */
  predicate Succeeded(o: FetchOutcome) {
    o.Answered? && o.ok && o.bodyIsJson
  }

  const BookingBusyLabel := "<i class=\"fas fa-spinner fa-spin\"></i> Sending..."
  const BookingSuccess := "Thank you! Your booking request has been submitted. We will contact you shortly!"
  const ContactBusyLabel := "<i class=\"fas fa-spinner fa-spin\"></i> Submitting..."
  const ContactSuccess := "Thank you! Your request has been submitted. Our team will contact you within 24 hours."
  const ErrorNotice := "Sorry, there was an error. Please call us at +91 8297808410."

  /** The form's submit button: its markup and its `disabled` flag. */
  class SubmitButton {
    var html: string
    var disabled: bool

    constructor(html: string)
      ensures this.html == html && !disabled
    {
      this.html := html;
      disabled := false;
    }
  }

  /** A form that posts in the background: its field values and their
      defaults (what reset() restores), its button, the busy label and the
      success message it shows, and the page's notifications. */
  class AjaxForm {
    var values: seq<string>
    const defaults: seq<string>
    const button: SubmitButton
    const busyLabel: string
    const successMessage: string
    const notices: NotificationArea

    constructor(defaults: seq<string>, button: SubmitButton, busyLabel: string,
                successMessage: string, notices: NotificationArea)
      ensures values == defaults && this.defaults == defaults && this.button == button
      ensures this.busyLabel == busyLabel && this.successMessage == successMessage
      ensures this.notices == notices
    {
      values := defaults;
      this.defaults := defaults;
      this.button := button;
      this.busyLabel := busyLabel;
      this.successMessage := successMessage;
      this.notices := notices;
    }

    /** Before the request: keep the button's markup, show the busy label
        and disable the button. */
    method Begin() returns (originalText: string)
      modifies button
      ensures originalText == old(button.html)
      ensures button.html == busyLabel && button.disabled
    {
      originalText := button.html;
      button.html := busyLabel;
      button.disabled := true;
    }

    /** After the request: on success a success notice and a reset form, on
        any failure the error notice and the values left as typed; in every
        case the button gets its markup back and is enabled again. */
    method Finish(originalText: string, outcome: FetchOutcome)
      modifies this, button, notices
      ensures button.html == originalText && !button.disabled
      ensures Succeeded(outcome) ==> values == defaults
      ensures !Succeeded(outcome) ==> values == old(values)
      ensures |old(notices.shown)| <= 1 ==>
        notices.shown == [Notice(old(notices.nextId),
                                 if Succeeded(outcome) then successMessage else ErrorNotice,
                                 if Succeeded(outcome) then "success" else "error",
                                 if Succeeded(outcome) then "fa-check-circle" else "fa-exclamation-circle")]
    {
      if Succeeded(outcome) {
        notices.Show(successMessage, "success");
        values := defaults;
      } else {
        notices.Show(ErrorNotice, "error");
      }
      button.html := originalText;
      button.disabled := false;
    }

    /** One whole submission: whatever the outcome, the button ends as it
        started, enabled; the form is reset only on success. */
    method Submit(outcome: FetchOutcome)
      modifies this, button, notices
      ensures button.html == old(button.html) && !button.disabled
      ensures Succeeded(outcome) ==> values == defaults
      ensures !Succeeded(outcome) ==> values == old(values)
      ensures |old(notices.shown)| <= 1 ==>
        |notices.shown| == 1 && notices.shown[0].kind == (if Succeeded(outcome) then "success" else "error")
    {
      var originalText := Begin();
      Finish(originalText, outcome);
    }
  }

  /** The booking form: "Sending..." while busy, and the booking wording
      on success. */
  method NewBookingForm(defaults: seq<string>, button: SubmitButton, notices: NotificationArea)
    returns (f: AjaxForm)
    ensures fresh(f) && f.values == defaults && f.defaults == defaults
    ensures f.button == button && f.notices == notices
    ensures f.busyLabel == BookingBusyLabel && f.successMessage == BookingSuccess
  {
    f := new AjaxForm(defaults, button, BookingBusyLabel, BookingSuccess, notices);
  }

  /** The contact form: "Submitting..." while busy, and the contact wording
      on success. */
  method NewContactForm(defaults: seq<string>, button: SubmitButton, notices: NotificationArea)
    returns (f: AjaxForm)
    ensures fresh(f) && f.values == defaults && f.defaults == defaults
    ensures f.button == button && f.notices == notices
    ensures f.busyLabel == ContactBusyLabel && f.successMessage == ContactSuccess
  {
    f := new AjaxForm(defaults, button, ContactBusyLabel, ContactSuccess, notices);
  }
}
