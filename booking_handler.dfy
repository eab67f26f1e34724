/** The home page's quick booking endpoint: checks a name and a phone number
    and mails the booking to the site's administrator. */
module BookingHandler {
  import opened Text
  import opened PhpStrings
  import opened FormInput
  import opened MailConfig
  import opened Endpoint

  datatype BookingForm = BookingForm(name: string, phone: string)

  function ReadBookingForm(post: map<string, string>): (f: BookingForm)
    ensures '\r' !in f.name && '\n' !in f.name && NoMarkup(f.name)
    ensures '\r' !in f.phone && '\n' !in f.phone && NoMarkup(f.phone)
  {
    BookingForm(Field(post, "name"), Field(post, "phone"))
  }

  const MissingMessage := "Please provide your name and phone number"
  const NameMessage := "Please enter a valid name"
  const PhoneMessage := "Please enter a valid 10-digit phone number"
  const ErrorPrefix := "Sorry, there was an error processing your request. Please call us directly at "
  const ThanksPrefix := "Thank you, "
  const ThanksSuffix := "! Our team will call you shortly to schedule your free inspection."

  /** The checks in the order they run: both fields present, a name of at
      least two bytes (counted after escaping), a valid phone number. */
  function FirstProblem(f: BookingForm): Option<string> {
    if IsFalsy(f.name) || IsFalsy(f.phone) then Some(MissingMessage)
    else if |f.name| < 2 then Some(NameMessage)
    else if !ValidatePhone(f.phone) then Some(PhoneMessage)
    else None
  }

  /** The first failing check decides the message. */
  lemma CheckOrder(f: BookingForm)
    ensures FirstProblem(f) == Some(MissingMessage) <==> IsFalsy(f.name) || IsFalsy(f.phone)
    ensures FirstProblem(f) == Some(NameMessage) <==>
      !IsFalsy(f.name) && !IsFalsy(f.phone) && |f.name| < 2
    ensures FirstProblem(f) == Some(PhoneMessage) <==>
      !IsFalsy(f.name) && !IsFalsy(f.phone) && |f.name| >= 2 && !ValidatePhone(f.phone)
    ensures FirstProblem(f) == None <==>
      !IsFalsy(f.name) && |f.name| >= 2 && ValidatePhone(f.phone)
  {
    if ValidatePhone(f.phone) {
      ValidatePhoneSpec(f.phone);
      DropFillersFacts(f.phone);
      assert f.phone != "" && f.phone != "0";
    }
  }

  // Fixed wording of the message (decorative symbols of the HTML body left out).
  const BookingTitle := "Quick Booking Request"
  const BookingSubtitle := "From Website - Book Free Inspection"
  /** The subject starts with U+1F3E0 (house), as its four UTF-8 bytes. */
  const SubjectPrefix := "\U{F0}\U{9F}\U{8F}\U{A0} Quick Booking Request - "
  const ActionRequired := "ACTION REQUIRED - Customer awaiting callback"
  const CustomerDetails := "Customer Details"
  const BookingSource := "Homepage - Quick Booking Form"
  const CallNow := "CALL NOW: "
  const Reminder := "Reminder: This customer has requested a free pest inspection. Please call back within 2 hours for best conversion rates."
  const LeadManagement := " - Lead Management System"
  const AutomatedNote := "This is an automated notification from your website."
  const AltHead := "Quick Booking Request\n\nName: "
  const AltTail := "\nSource: Homepage - Quick Booking Form\n\nPlease call the customer as soon as possible."

  function BookingHtml(f: BookingForm, svc: Services): Html {
    Html(
      BookingTitle,
      BookingSubtitle,
      [Paragraph(ActionRequired),
       Card(CustomerDetails,
            [Row("Name:", f.name, None),
             Row("Phone:", f.phone, Some("tel:" + f.phone)),
             Row("Received:", svc.now, None),
             Row("Source:", BookingSource, None)]),
       Button("tel:" + f.phone, CallNow + f.phone),
       Paragraph(Reminder)],
      [svc.settings.companyName + LeadManagement, AutomatedNote])
  }

  /** The one message: from the configured sender to the administrator. */
  function BookingMail(f: BookingForm, svc: Services): (m: Mail)
    ensures m.to == Address(svc.settings.adminEmail, "") && m.replyTo.None?
  {
    var s := svc.settings;
    Mail(
      TransportOf(s),
      Address(s.mailFromEmail, s.mailFromName),
      Address(s.adminEmail, ""),
      None,
      true,
      SubjectPrefix + f.name,
      BookingHtml(f, svc),
      AltHead + f.name + "\nPhone: " + f.phone + "\n\nReceived: " + svc.now + AltTail)
  }

  function HandleBooking(requestMethod: string, post: map<string, string>, svc: Services): (o: Outcome)
    ensures o.response.status in {200, 400, 405, 500}
    ensures |o.sent| <= 1
  {
    match Gate(requestMethod)
    case Some(r) => Early(r)
    case None =>
      var f := ReadBookingForm(post);
      match FirstProblem(f)
      case Some(m) => Early(Failure(400, m))
      case None =>
        var mail := BookingMail(f, svc);
        match svc.deliver(mail)
        case Delivered => Outcome(Response(200, Some(Json(true, ThanksPrefix + f.name + ThanksSuffix))), [mail], [])
        case Failed(e) =>
          Outcome(Failure(500, ErrorPrefix + svc.settings.companyPhone), [mail], ["Booking Form Error: " + e])
  }

  // ---------------------------------------------------------------------
  // Properties of the whole request
  // ---------------------------------------------------------------------

  /** The same gate as the contact endpoint: nothing is read or sent unless
      the method is POST. */
  lemma NonPostIsGated(requestMethod: string, post: map<string, string>, svc: Services)
    requires requestMethod != "POST"
    ensures var o := HandleBooking(requestMethod, post, svc);
      o.sent == [] && o.log == [] &&
      (requestMethod == "OPTIONS" ==> o.response == Response(200, None)) &&
      (requestMethod != "OPTIONS" ==> o.response == Failure(405, MethodNotAllowed))
  {
  }

  /** A failing check answers 400 with that check's message and sends nothing. */
  lemma RejectedSendsNothing(post: map<string, string>, svc: Services)
    requires FirstProblem(ReadBookingForm(post)).Some?
    ensures var o := HandleBooking("POST", post, svc);
      o.sent == [] && o.log == [] && o.response == Failure(400, FirstProblem(ReadBookingForm(post)).value)
  {
  }

  /** An accepted booking sends exactly one message, to the administrator;
      delivered, the reply thanks the customer by name; failed, it is 500
      and ends with the company's phone number. */
  lemma AcceptedSendsOne(post: map<string, string>, svc: Services)
    requires FirstProblem(ReadBookingForm(post)).None?
    ensures var f := ReadBookingForm(post);
      var o := HandleBooking("POST", post, svc);
      o.sent == [BookingMail(f, svc)] &&
      o.sent[0].to == Address(svc.settings.adminEmail, "") &&
      (svc.deliver(o.sent[0]) == Delivered ==>
         o.response == Response(200, Some(Json(true, ThanksPrefix + f.name + ThanksSuffix))) && o.log == []) &&
      (svc.deliver(o.sent[0]).Failed? ==>
         o.response == Failure(500, ErrorPrefix + svc.settings.companyPhone) &&
         o.log == ["Booking Form Error: " + svc.deliver(o.sent[0]).error])
  {
  }

  /** A one-letter name is refused for its length, before the phone
      number is looked at. */
  lemma OneLetterNameRefused(post: map<string, string>, svc: Services)
    requires "name" in post && |post["name"]| == 1 && IsPlainChar(post["name"][0]) && post["name"] != "0"
    requires !IsFalsy(ReadBookingForm(post).phone)
    ensures HandleBooking("POST", post, svc).response == Failure(400, NameMessage)
  {
    SanitizePlainSingle(post["name"]);
    ShortNameRefused(ReadBookingForm(post));
  }

  lemma ShortNameRefused(f: BookingForm)
    requires |f.name| == 1 && f.name != "0" && !IsFalsy(f.phone)
    ensures FirstProblem(f) == Some(NameMessage)
  {
    assert !IsFalsy(f.name);
  }

  /** The length is counted after escaping: a lone `<` becomes "&lt;", four
      bytes, and passes the name check. */
  lemma EscapedNameIsLonger(post: map<string, string>)
    requires "name" in post && |post["name"]| == 1 && post["name"][0] == '<'
    ensures ReadBookingForm(post).name == "&lt;"
    ensures FirstProblem(ReadBookingForm(post)) != Some(NameMessage)
  {
    SanitizeLessThan(post["name"]);
    LongNamePassesNameCheck(ReadBookingForm(post));
  }

  lemma LongNamePassesNameCheck(f: BookingForm)
    requires f.name == "&lt;"
    ensures FirstProblem(f) != Some(NameMessage)
  {
    assert |f.name| >= 2 && !IsFalsy(f.name);
  }
}
