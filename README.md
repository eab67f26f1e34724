# Pest-control site: form endpoints, mail settings and page behaviour

This project models the working core of a small pest-control company web
site and proves properties of it.

- **Two PHP form endpoints.** The contact endpoint takes a "request a free
  inspection" form. It mails the request to the administrator and, when the
  customer gave an email address, mails the customer a confirmation. The
  booking endpoint takes a quick booking (a name and a phone number) and
  mails it to the administrator. Both start with the same request-method
  gate, clean every field the same way (trim, strip backslashes, HTML-escape
  with `ENT_QUOTES`, remove header-breaking sequences) and check the phone
  number the same way.
- **The mail configuration.** It reads a `.env` file line by line into the
  environment and derives the SMTP, sender and company settings, each with
  its default.
- **The page script `main.js`.** It covers the hero slideshow with its timer,
  the mobile menu, the navbar's scrolled state, the notification box, the
  "submitted" notice read from the query string, and the two forms submitted
  in the background.
- **The motion layer `motion.js`.** It covers the clamping of magnetic
  offsets, the auto-apply of `data-motion` attributes (first match, all
  matches, staggered delays), the reveal rule on scroll, the navbar's
  hide-on-scroll rule, the hover classes, and which systems start under
  reduced motion.

PHP string semantics are written out:
- `trim`'s character set;
- `stripslashes`;
- `htmlspecialchars` with `ENT_QUOTES`, which re-encodes `&` and returns ""
  on malformed UTF-8;
- `str_replace` with several needles applied one after the other;
- `empty()` and `?:`, which treat both "" and "0" as false;
- the `(int)` cast.

Two consequences are proved:
- Cleaning is not idempotent: `&x` becomes `&amp;x`, then `&amp;amp;x`.
- The header-injection filter can leave an encoded line feed: `%0%0aa`
  cleans to `%0a`. No raw CR or LF ever survives.

Modules:
- `Text`: decimal digits and strings.
- `PhpStrings`: the PHP string functions.
- `FormInput`: `sanitizeInput`, `validatePhone`.
- `MailConfig`: the `.env` loader and the settings.
- `Endpoint`: what both endpoints share.
- `ContactHandler`, `BookingHandler`: the two endpoints.
- `MainUi`: `main.js`.
- `Motion`: `motion.js`.

Where the code and its description differ, the model follows the code:
- A failed confirmation message, sent after the administrator's message
  already went out, makes the whole contact request answer 500.
- The booking name's length is checked after escaping, so a lone `<` passes.
- `CONFIG.navScrollDelta` is declared but never read, so the navbar hides on
  any downward movement above 100 px.

## Model

| member | source | states |
|---|---|---|
| PhpStrings.Trim | api/contact-handler.php:32 | trim(): the slice between the leading and the trailing run of trimmable bytes, found by index as PHP's own implementation does; TrimSpec states what is cut and what is kept |
| PhpStrings.TrimSpec | api/contact-handler.php:32 | trim removes exactly the leading and trailing run of PHP's trimmable characters and keeps the middle unchanged |
| PhpStrings.StripSlashes | api/contact-handler.php:33 | the result is never longer than the input, only holds input characters or NUL (from `\0`), and input without a backslash is unchanged |
| PhpStrings.StripSlashesRoundTrip | api/contact-handler.php:33 | stripslashes undoes addslashes on every string: an escaped quote or backslash comes back as itself, and `\0` as a NUL byte |
| PhpStrings.HtmlSpecialChars | api/contact-handler.php:34 | the result holds no `<`, `>`, `"` or `'`, and malformed UTF-8 gives the empty string |
| PhpStrings.EscapeAllPlain | api/contact-handler.php:34 | a value holding none of `&`, `<`, `>`, `"`, `'` comes out of the escaping unchanged |
| PhpStrings.EscapeRoundTrip | api/contact-handler.php:34 | decoding the five entities undoes the escaping, for every string |
| PhpStrings.RemoveAllCharsFrom | api/contact-handler.php:36 | removing one needle only deletes characters, so any character absent before is absent after |
| PhpStrings.IntCast | config/mail-config.example.php:32 | the `(int)` cast of a string: leading numeric whitespace, an optional sign, then the longest run of digits; IntCastOfDecimal states that it reads every decimal spelling back |
| PhpStrings.IntCastOfDecimal | config/mail-config.example.php:32 | the `(int)` cast reads back every decimal string as its number |
| FormInput.SanitizeHasNoLineBreaks | api/contact-handler.php:31-38 | no sanitized value contains a carriage return or a line feed |
| FormInput.SanitizeHasNoMarkup | api/contact-handler.php:31-38 | no sanitized value contains `<`, `>`, `"` or `'` |
| FormInput.SanitizeEncodesAmpersandAgain | api/contact-handler.php:34 | sanitizing is not idempotent: `&x` becomes `&amp;x`, and a second pass gives `&amp;amp;x` |
| FormInput.SanitizeCanLeaveEncodedBreak | api/contact-handler.php:36 | the needles are removed one after the other, so `%0%0aa` sanitizes to the encoded line feed `%0a` |
| FormInput.SanitizeSingleChar | api/booking-handler.php:31-37 | a one-character value sanitizes to that character's escape |
| FormInput.SanitizePlainSingle | api/booking-handler.php:31-37 | a one-character value that no stage touches comes out as it is |
| FormInput.SanitizeLessThan | api/booking-handler.php:31-37 | a lone `<` comes out as the four-byte entity `&lt;` |
| FormInput.SanitizeInput | api/contact-handler.php:31-38 | sanitizeInput(): trim, stripslashes, htmlspecialchars with ENT_QUOTES, then the four header-guard removals, in that order; SanitizeHasNoLineBreaks and SanitizeHasNoMarkup state what no result can hold |
| FormInput.ValidatePhone | api/contact-handler.php:44-46 | validatePhone(): whitespace and hyphens removed, then exactly ten digits; ValidatePhoneSpec characterises it without the removal |
| FormInput.ValidatePhoneSpec | api/contact-handler.php:44-46 | the phone is valid exactly when it holds only digits, whitespace and hyphens, and exactly ten digits |
| FormInput.DropFillersFacts | api/contact-handler.php:45 | after removing whitespace and hyphens only digits remain exactly when nothing else was there, and then their count is the digit count |
| MailConfig.ParseLine | config/mail-config.example.php:15-22 | a line is an assignment exactly when its trimmed form does not start with `#` and it contains `=`, and the key holds no `=` |
| MailConfig.ParseSplitsAtFirstEquals | config/mail-config.example.php:19-22 | the line is split at its first `=`, and key and value are trimmed |
| MailConfig.CommentIsSkipped | config/mail-config.example.php:15-17 | a line whose trimmed form starts with `#` is skipped, even if it contains `=` |
| MailConfig.LineWithoutEqualsIsSkipped | config/mail-config.example.php:19 | a line without `=` is skipped |
| MailConfig.BlankLineIsSkipped | config/mail-config.example.php:12 | a line of whitespace only is skipped |
| MailConfig.ApplyLinesStep | config/mail-config.example.php:13-27 | loading one more line applies that line's entry to the environment built so far |
| MailConfig.LaterLinesWin | config/mail-config.example.php:24-25 | after loading, a key holds the value of its last assignment in the file, and keeps its earlier value if the file never assigns it |
| MailConfig.Environment.LoadDotEnv | config/mail-config.example.php:10-28 | no file leaves the environment unchanged; otherwise both the process environment and `$_ENV` become the lines applied in order |
| MailConfig.SettingsFrom | config/mail-config.example.php:31-49 | each of the fifteen settings is its variable when that is set and neither "" nor "0", and otherwise the literal default of its `define`; the port goes through `(int)`, authentication is always on and the charset is UTF-8 |
| MailConfig.DefaultSettings | config/mail-config.example.php:31-49 | an empty environment gives exactly the fifteen documented defaults |
| MailConfig.PortSetting | config/mail-config.example.php:32 | `(int)(getenv('SMTP_PORT') ?: 465)`; PortFallback states the fallback and the decimal read-back |
| MailConfig.PortFallback | config/mail-config.example.php:32 | an empty or "0" port falls back to 465, and a positive decimal port is read as that number |
| MailConfig.SettingFallback | config/mail-config.example.php:31-49 | a set, non-falsy variable wins, and "0" falls back to the default |
| Endpoint.Gate | api/contact-handler.php:12-21 | OPTIONS answers 200 with no body, any other method but POST answers 405 "Method not allowed", and only POST goes on |
| Endpoint.Field | api/contact-handler.php:50-56 | a missing field reads as "", and every field read carries no line break and no markup |
| Endpoint.SendInOrder | api/contact-handler.php:236-358 | messages are sent in order up to the first that throws; either all are delivered, or the last one tried failed with the logged error and all before it were delivered |
| ContactHandler.ReadContactForm | api/contact-handler.php:50-57 | `callback` is set exactly when the field was posted, and a missing email or message reads as "" |
| ContactHandler.CheckOrder | api/contact-handler.php:60-76 | required fields first, then the phone, then a non-empty email against the validator; each message is given exactly when its check is the first to fail |
| ContactHandler.EmptyEmailNeverFails | api/contact-handler.php:72 | an empty email is never validated |
| ContactHandler.FirstProblem | api/contact-handler.php:60-76 | the three checks in source order: required fields, then the phone, then a non-empty email; CheckOrder states when each message is the answer |
| ContactHandler.LabelsShown | api/contact-handler.php:102-126 | a known service or property code shows as its label and any other code as posted, the same way in the admin subject, both messages' service rows and both plain-text bodies |
| ContactHandler.AdminMail | api/contact-handler.php:107-234 | the admin message as configured before `send()`; ConditionalSections, LabelsShown and HeadersHaveNoLineBreaks state its reply-to, its labels and its header safety |
| ContactHandler.CustomerMail | api/contact-handler.php:240-355 | the confirmation as configured before `send()`; LabelsShown states its labels, and Messages states that it is sent only when an email was given |
| ContactHandler.CustomerRows | api/contact-handler.php:155-170 | three rows, or four when an email was given; ConditionalSections proves that the added row is the email row, exactly when an email was given |
| ContactHandler.Messages | api/contact-handler.php:236-358 | the administrator's message comes first, and the confirmation follows exactly when an email was given |
| ContactHandler.Finish | api/contact-handler.php:236-371 | success (200 and the thank-you message) exactly when every message was delivered; otherwise 500 with the apology and the failing send's error logged |
| ContactHandler.HandleContact | api/contact-handler.php:12-371 | the status is 200, 400, 405 or 500, and at most two messages are sent |
| ContactHandler.NonPostIsGated | api/contact-handler.php:12-21 | a request that is not POST sends nothing and logs nothing, and answers 200 (OPTIONS) or 405 |
| ContactHandler.RejectedSendsNothing | api/contact-handler.php:59-76 | a failing check answers 400 with that check's message and sends nothing |
| ContactHandler.AcceptedSends | api/contact-handler.php:106-364 | an accepted request sends its messages in order and answers according to how the sends turned out |
| ContactHandler.ConfirmationFailureGives500 | api/contact-handler.php:357-371 | a failed confirmation after a delivered admin message still answers 500, with both messages tried |
| ContactHandler.ConditionalSections | api/contact-handler.php:121-123 | reply-to is set exactly when an email was given, and is the customer's address and name; the email row and the Additional Details card appear exactly when their fields are non-empty |
| ContactHandler.HeadersHaveNoLineBreaks | api/contact-handler.php:121-123 | the reply-to and recipient addresses built from the form contain no CR or LF |
| BookingHandler.FirstProblem | api/booking-handler.php:49-65 | the checks in source order: both fields present, a name of at least two bytes, a valid phone; CheckOrder states when each message is the answer |
| BookingHandler.ReadBookingForm | api/booking-handler.php:45-46 | both fields are free of line breaks and markup |
| BookingHandler.CheckOrder | api/booking-handler.php:49-65 | both fields present first, then a name of at least two bytes, then the phone; each message is given exactly when its check is the first to fail |
| BookingHandler.BookingMail | api/booking-handler.php:81-85 | the one message goes to the administrator and has no reply-to |
| BookingHandler.HandleBooking | api/booking-handler.php:12-207 | the status is 200, 400, 405 or 500, and at most one message is sent |
| BookingHandler.NonPostIsGated | api/booking-handler.php:12-21 | a request that is not POST sends nothing, and answers 200 (OPTIONS) or 405 |
| BookingHandler.RejectedSendsNothing | api/booking-handler.php:48-65 | a failing check answers 400 with its message and sends nothing |
| BookingHandler.AcceptedSendsOne | api/booking-handler.php:192-207 | an accepted booking sends exactly one message to the administrator; delivered, it thanks the customer by name; failed, it answers 500 naming the company phone and logs the error |
| BookingHandler.OneLetterNameRefused | api/booking-handler.php:55-59 | a one-letter plain name is refused with "Please enter a valid name" |
| BookingHandler.EscapedNameIsLonger | api/booking-handler.php:55 | the length is counted after escaping, so a lone `<` becomes `&lt;` and passes the name check |
| MainUi.Wrap | main.js:170-177 | the index stays in range, at or past the end wraps to 0, and below 0 wraps to the last slide |
| MainUi.NextPrevRoundTrip | main.js:182-188 | next then previous, or previous then next, returns to the same slide |
| MainUi.ForwardCycle | main.js:182-184 | k steps forward land on (c + k) mod n, and n steps return to the start |
| MainUi.Slideshow.constructor | main.js:152-153 | the slideshow starts at slide 0, and one interval runs exactly when there are slides |
| MainUi.Slideshow.ShowSlide | main.js:156-180 | with no slides nothing changes; otherwise the current slide is the wrapped index and exactly that slide is active |
| MainUi.Slideshow.NextSlide | main.js:182-184 | the next slide, wrapping, becomes the only active one |
| MainUi.Slideshow.PrevSlide | main.js:186-188 | the previous slide, wrapping, becomes the only active one |
| MainUi.Slideshow.ClearInterval | main.js:191 | clearing stops that timer only, and clearing no handle does nothing |
| MainUi.Slideshow.StartSlideshow | main.js:190-193 | the old interval is cleared and a fresh one is the only live timer |
| MainUi.Slideshow.ResetTimer | main.js:195-198 | after a reset exactly one interval runs |
| MainUi.Slideshow.OnMouseEnter | main.js:230 | hovering stops every timer but keeps the stale handle |
| MainUi.Slideshow.OnMouseLeave | main.js:231 | leaving restarts exactly one interval |
| MainUi.Slideshow.OnInterval | main.js:192 | each tick advances to the next slide, which becomes the only active slide |
| MainUi.Slideshow.OnArrowClick | main.js:200-212 | an arrow moves one slide and leaves exactly one interval running |
| MainUi.Slideshow.OnKeydown | main.js:214-225 | ArrowRight and ArrowLeft move one slide only when there are slides, make it the only active slide and restart the interval so that exactly one runs; any other key changes nothing |
| MainUi.AtMostOneInterval | main.js:190-198 | however the handlers interleave, at most one slideshow interval is live |
| MainUi.Menu.Toggle | main.js:39-42 | the menu flips, and `aria-expanded` and the body overflow follow the new state |
| MainUi.Menu.Close | main.js:57-60 | the menu is closed, `aria-expanded` is "false" and the overflow is restored |
| MainUi.Menu.OnKeydown | main.js:78-82 | Escape closes an open menu, and any other key or a closed menu changes nothing |
| MainUi.NavbarTicker.OnScroll | main.js:105-110 | at most one frame is queued however often the page scrolls |
| MainUi.NavbarTicker.OnAnimationFrame | main.js:91-103 | the navbar is marked scrolled exactly when the page is past 50 px, and the ticker is released |
| MainUi.Icon | main.js:380-381 | success and error get their own icons, and any other kind gets the info icon |
| MainUi.NotificationArea.Show | main.js:371-389 | the box already shown is removed and the new one is appended, so at most one is shown |
| MainUi.NotificationArea.ShowInfo | main.js:371 | the kind defaults to info |
| MainUi.NotificationArea.Remove | main.js:397 | removing drops exactly the notices with that id |
| MainUi.WithoutAppend | main.js:397 | removal distributes over appending a notice |
| MainUi.ShowThenRemove | main.js:371-407 | showing and closing notices never leaves more than one on the page |
| MainUi.QueryValue | main.js:24-25 | the first value of the parameter, and none exactly when the parameter is absent |
| MainUi.ShowSubmittedNotice | main.js:24-29 | `?submitted=true` shows the success notice, and anything else shows nothing |
| MainUi.NewBookingForm | main.js:283-300 | the booking form shows "Sending..." while busy and thanks for the booking request on success, starting from its default values |
| MainUi.NewContactForm | main.js:337-354 | the contact form shows "Submitting..." while busy and promises contact within 24 hours on success, starting from its default values |
| MainUi.AjaxForm.Begin | main.js:285-288 | the button shows the busy label and is disabled, and its original markup is returned |
| MainUi.AjaxForm.Finish | main.js:297-310 | the button is restored and re-enabled; success resets the form and shows the success notice; a network error, a non-ok answer or a body that is not JSON shows the error notice and keeps the values |
| MainUi.AjaxForm.Submit | main.js:283-311 | after a submission the button is as before, and the form is reset only on success |
| Motion.Clamp | motion.js:32 | the value is kept within the bounds when they are ordered, returned unchanged when in range, and min wins when the bounds cross |
| Motion.MagneticOffset | motion.js:153-155 | the offset is 0.3 times the pointer's distance from the centre, clamped to ±15 px |
| Motion.Marked | motion.js:176-182 | an element with `data-motion` is untouched; otherwise it gains the motion and `data-motion-once="true"`, and no other attribute changes |
| Motion.StaggerStep | motion.js:195 | the delay step lies in 1..period |
| Motion.StaggerStepCycles | motion.js:195 | the delay step repeats every period |
| Motion.StaggerDelayCycles | motion.js:191-199 | the delay written is the decimal of i mod period plus 1, in 1..period, and equal one period apart |
| Motion.MarkFirst | motion.js:176-182 | only the first match is marked, and a motion already present is kept |
| Motion.MarkEachSpec | motion.js:183-190 | every match is marked as if alone, and nothing else changes |
| Motion.StaggerEachSpec | motion.js:191-199 | with distinct matches, the i-th gets the delay of its position i |
| Motion.StaggerEachMarks | motion.js:191-199 | every match ends with a motion, existing motions are kept, and other elements are untouched |
| Motion.PassKeepsAndCovers | motion.js:176-199 | each pass keeps existing motions and marks what it selects |
| Motion.CoveredPassIsIdentity | motion.js:178 | a pass over already-marked elements changes nothing |
| Motion.RunPassesMarksAll | motion.js:164-175 | the passes in order keep existing motions and leave every selected element marked |
| Motion.CoveredRunIsIdentity | motion.js:164-175 | passes over already-marked elements change nothing |
| Motion.AutoApplied | motion.js:164-175 | the nine calls of the auto-apply, one after another; AutoAppliedRunsPasses and AutoApplyIsIdempotent state what they do |
| Motion.AutoAppliedRunsPasses | motion.js:164-175 | the nine calls of the constructor are the page's passes run in order |
| Motion.AutoApplyIsIdempotent | motion.js:164-200 | the auto-apply marks every selected element, never overrides an author's motion, and a second run changes nothing |
| Motion.Document.ApplyOne | motion.js:176-182 | the document's attributes become the first-match marking, and classes are unchanged |
| Motion.Document.ApplyAll | motion.js:183-190 | the document's attributes become the all-match marking |
| Motion.Document.ApplyStagger | motion.js:191-199 | the document's attributes become the staggered marking |
| Motion.Document.AutoApply | motion.js:163-175 | under reduced motion nothing changes; otherwise the attributes are the auto-applied table |
| Motion.Document.AddClassToAll | motion.js:206-207 | exactly the listed elements gain the class |
| Motion.Document.EnhanceHover | motion.js:203-209 | cards gain the lift class and icons the scale class, unless motion is reduced |
| Motion.RevealClasses | motion.js:48-52 | entering adds the visible class; leaving removes it unless the element plays once; no other class changes |
| Motion.RevealOnceStays | motion.js:50 | a play-once element that became visible stays visible through any later reports, and other elements follow the last report |
| Motion.ScrollReveal.constructor | motion.js:42-55 | under reduced motion nothing is observed; otherwise exactly the elements of the document whose attributes carry `data-motion` are observed |
| Motion.AutoAppliedAreWatched | motion.js:212-215 | after the auto-apply, every element it selected, and every element that already had a motion, carries `data-motion`, so the reveal observer created next watches it |
| Motion.ScrollReveal.OnEntry | motion.js:47-53 | a report changes only that element's classes, by the reveal rule |
| Motion.NavbarScroll.OnScroll | motion.js:107-117 | at or below 100 px the navbar is shown; above, it hides exactly when scrolling down; the shadow is on exactly past 50 px |
| Motion.Startup | motion.js:212-221 | scroll progress always starts, the navbar behaviour exactly when there is a navbar, and reveal only together with the auto-apply |
| Motion.ReducedMotionSwitchesOff | motion.js:212-221 | under reduced motion only scroll progress and the navbar behaviour start |

## Left out

- PHPMailer is not part of this model. Configuring and sending a message is
  one function `deliver` that either delivers or fails with an error
  message; SMTP itself is not modelled. The handlers catch only
  `PHPMailer\PHPMailer\Exception`, imported by the `use` at
  api/contact-handler.php:28 and api/booking-handler.php:28. Any other
  throwable raised inside the `try` escapes, and the endpoint then answers
  no JSON. Treating every failure as `deliver` returning `Failed` does not
  capture that.
- `filter_var(..., FILTER_VALIDATE_EMAIL)` is a parameter (`isEmail`). Its
  grammar is not modelled.
- `date(...)` is not modelled: the current date and year are parameters.
- `header(...)`, `json_encode` and `http_response_code` are represented by
  the `Response` value, not byte for byte.
- The HTML templates keep their content (captions, values, links, sections
  and their conditions) but not their styling or decorative emoji.
- `file()` reading, `file_exists` and `putenv` are not modelled as I/O: the
  file arrives as an optional list of lines, and the environment is a map.
- MailConfig.Environment.LoadDotEnv: stores a line whose key trims to empty
  (such as `=x` or `  = x`) under the key "", and stores a key or value with
  an embedded NUL byte as it is. For either, PHP 8's `putenv` throws a
  `ValueError`. The configuration is loaded at api/contact-handler.php:23
  and api/booking-handler.php:23, outside the `try`, so that request ends
  in a fatal error. PHP 7's `putenv` only warns and leaves the process
  environment as it was, while `$_ENV` is still set. The model stores the
  line in both and models neither failure.
- Posted fields that are arrays are not modelled. Every posted value is a
  string.
- The `(int)` cast does not model exponent or hexadecimal forms, or
  overflow beyond the platform integer.
- DOM queries are not modelled: a page is the element ids each selector
  matches.
- Timers are handles, and the 6000 ms, 10 ms and 300 ms delays are not
  modelled.
- Animation frames are explicit calls.
- Floating point is `real`.
- Lazy image loading, the reveal observer of `main.js` (its lines 112-144),
  smooth scrolling, the focus and filled classes on form inputs, the
  hamburger bar styles and the injected notification styles are left out.
  They only style the page.
- In `motion.js`, the parallax system, scroll progress bar, cursor glow
  (`lerp`), `throttle` and the `console.log` are left out. They compute
  styles from floating-point positions every frame and hold no state that
  the rest reads. `Startup` still records whether each would start.
- MainUi.NotificationArea.Remove: the delayed removal after the
  close-button click and the 6-second auto-hide are one removal; the `show`
  class transition is not modelled.
- MainUi.ShowSubmittedNotice: `window.history.replaceState` (main.js:28),
  which drops `?submitted=true` from the address so that a reload does not
  show the notice again, is not modelled. Nor is the URL decoding done by
  `URLSearchParams`: `QueryValue` takes the already-decoded pairs.
- MainUi.AjaxForm.Submit: the `await` points are not interleaved with other
  events. The submission is modelled as `Begin` followed by `Finish` with
  the fetch's outcome as a parameter.
- MainUi.AjaxForm.Finish: the error notice's wording does not depend on
  the server's message, because the source discards it.
