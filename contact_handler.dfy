/** The "request a free inspection" endpoint: checks the posted contact form,
    mails the request to the site's administrator and, when the customer
    gave an address, a confirmation to the customer. */
module ContactHandler {
  import opened Text
  import opened PhpStrings
  import opened FormInput
  import opened MailConfig
  import opened Endpoint

  /** The posted fields after sanitizing; `callback` is whether the box was
      posted at all. */
  datatype ContactForm = ContactForm(
    name: string, phone: string, email: string, city: string,
    service: string, propertyType: string, message: string, callback: bool)

  function ReadContactForm(post: map<string, string>): (f: ContactForm)
    ensures f.callback <==> "callback" in post
    ensures "email" !in post ==> f.email == ""
    ensures "message" !in post ==> f.message == ""
  {
    ContactForm(
      Field(post, "name"), Field(post, "phone"), Field(post, "email"),
      Field(post, "city"), Field(post, "service"), Field(post, "property-type"),
      Field(post, "message"), "callback" in post)
  }

  const RequiredMessage := "Please fill in all required fields"
  const PhoneMessage := "Please enter a valid 10-digit phone number"
  const EmailMessage := "Please enter a valid email address"
  const SuccessMessage := "Thank you! Your request has been submitted successfully. We will contact you within 24 hours."
  const ErrorMessage := "Sorry, there was an error sending your request. Please try again or call us directly."

  predicate MissingRequired(f: ContactForm) {
    IsFalsy(f.name) || IsFalsy(f.phone) || IsFalsy(f.city) || IsFalsy(f.service) || IsFalsy(f.propertyType)
  }

  /** The checks in the order they run; the first that fails gives the message. */
  function FirstProblem(f: ContactForm, isEmail: string -> bool): (m: Option<string>)
  {
    if MissingRequired(f) then Some(RequiredMessage)
    else if !ValidatePhone(f.phone) then Some(PhoneMessage)
    else if !IsFalsy(f.email) && !isEmail(f.email) then Some(EmailMessage)
    else None
  }

  /** The first failing check decides the message, and the message names
      that check: required fields, then the phone, then the email. */
  lemma CheckOrder(f: ContactForm, isEmail: string -> bool)
    ensures FirstProblem(f, isEmail) == Some(RequiredMessage) <==> MissingRequired(f)
    ensures FirstProblem(f, isEmail) == Some(PhoneMessage) <==>
      !MissingRequired(f) && !ValidatePhone(f.phone)
    ensures FirstProblem(f, isEmail) == Some(EmailMessage) <==>
      !MissingRequired(f) && ValidatePhone(f.phone) && !IsFalsy(f.email) && !isEmail(f.email)
    ensures FirstProblem(f, isEmail) == None <==>
      !MissingRequired(f) && ValidatePhone(f.phone) && (IsFalsy(f.email) || isEmail(f.email))
  {
  }

  /** An empty email is never checked, whatever the validator says. */
  lemma EmptyEmailNeverFails(f: ContactForm, isEmail: string -> bool)
    requires f.email == ""
    ensures FirstProblem(f, isEmail) != Some(EmailMessage)
  {
  }

  // ---------------------------------------------------------------------
  // Labels
  // ---------------------------------------------------------------------

  const ServiceLabels: map<string, string> := map[
    "bed-bug" := "Bed Bug Control",
    "termite" := "Termite Control",
    "cockroach" := "Cockroach Control",
    "rodent" := "Rodent Control",
    "mosquito" := "Mosquito Control",
    "general" := "Ant & General Pest",
    "commercial" := "Commercial/AMC",
    "other" := "Other Service"]

  const PropertyLabels: map<string, string> := map[
    "residential" := "Residential - Apartment",
    "independent" := "Residential - Independent House",
    "villa" := "Residential - Villa",
    "office" := "Commercial - Office",
    "restaurant" := "Commercial - Restaurant",
    "hotel" := "Commercial - Hotel",
    "hospital" := "Commercial - Hospital",
    "school" := "Commercial - School/College",
    "other-commercial" := "Commercial - Other"]

  /** $labels[$code] ?? $code. */
  function Label(labels: map<string, string>, code: string): string {
    if code in labels then labels[code] else code
  }

  // ---------------------------------------------------------------------
  // The two messages
  // ---------------------------------------------------------------------

  // Fixed wording of the two messages (decorative symbols left out).
  const AdminTitle := "New Inspection Request"
  const AdminSubjectPrefix := "New Inspection Request - "
  const ReceivedOn := "Received on "
  const CustomerInformation := "Customer Information"
  const ServiceDetails := "Service Details"
  const AdditionalDetails := "Additional Details"
  const CallCustomerNow := "Call Customer Now"
  const AdminFooterNote := "This email was generated automatically from the website contact form."
  const AdminAltHead := "New Inspection Request\n\nName: "
  const AdminAltReceived := "\n\nReceived on: "
  const CustomerTitle := "Thank You!"
  const CustomerSubtitle := "Your inspection request has been received"
  const CustomerSubjectPrefix := "Thank You for Your Inquiry - "
  const ThanksLead := "Thank you for choosing "
  const ThanksRest := "! We have received your request for a free pest inspection and our team will contact you within 24 hours."
  const RequestSummary := "Your Request Summary"
  const WhatHappensNext := "What Happens Next?"
  const NextSteps := [
    "Our team will call you to confirm the appointment",
    "A certified technician will visit for free inspection",
    "You'll receive a detailed quote with no obligation",
    "Treatment scheduled at your convenience"]
  const NeedAssistance := "Need immediate assistance? Contact us:"
  const RightsReserved := ". All rights reserved."
  const CustomerAltHead := "Thank You for Your Inquiry!\n\nDear "
  const CustomerAltThanks := "! We have received your request for a free pest inspection.\n\nRequest Summary:"
  const CustomerAltTail := "\n\nOur team will contact you within 24 hours.\n\nBest regards,\n"

  function CallbackText(callback: bool): string {
    if callback then "Yes" else "No"
  }

  function CustomerRows(f: ContactForm): (rows: seq<Row>)
    ensures |rows| == (if IsFalsy(f.email) then 3 else 4)
  {
    [Row("Full Name:", f.name, None),
     Row("Phone Number:", f.phone, Some("tel:" + f.phone))]
    + (if !IsFalsy(f.email) then [Row("Email Address:", f.email, Some("mailto:" + f.email))] else [])
    + [Row("City:", f.city, None)]
  }

  function AdminHtml(f: ContactForm, svc: Services): Html {
    Html(
      AdminTitle,
      ReceivedOn + svc.now,
      [Card(CustomerInformation, CustomerRows(f)),
       Card(ServiceDetails,
            [Row("Service Required:", Label(ServiceLabels, f.service), None),
             Row("Property Type:", Label(PropertyLabels, f.propertyType), None),
             Row("Callback Requested:", CallbackText(f.callback), None)])]
      + (if !IsFalsy(f.message) then [TextCard(AdditionalDetails, f.message)] else [])
      + [Button("tel:" + f.phone, CallCustomerNow)],
      [svc.settings.companyName + " | " + svc.settings.companyPhone, AdminFooterNote])
  }

  function AdminMail(f: ContactForm, svc: Services): Mail {
    var s := svc.settings;
    var serviceName := Label(ServiceLabels, f.service);
    var propertyName := Label(PropertyLabels, f.propertyType);
    Mail(
      TransportOf(s),
      Address(s.mailFromEmail, s.mailFromName),
      Address(s.adminEmail, ""),
      if !IsFalsy(f.email) then Some(Address(f.email, f.name)) else None,
      true,
      AdminSubjectPrefix + serviceName + " | " + f.name,
      AdminHtml(f, svc),
      (AdminAltHead + f.name + "\nPhone: " + f.phone + "\nEmail: " + f.email + "\nCity: " + f.city)
        + ("\nService: " + serviceName + "\nProperty: " + propertyName)
        + ("\nCallback: " + CallbackText(f.callback) + "\nMessage: " + f.message + AdminAltReceived + svc.now))
  }

  function CustomerHtml(f: ContactForm, svc: Services): Html {
    var s := svc.settings;
    Html(
      CustomerTitle,
      CustomerSubtitle,
      [Paragraph("Dear " + f.name + ","),
       Paragraph(ThanksLead + s.companyName + ThanksRest),
       Card(RequestSummary,
            [Row("Reference Date:", svc.now, None),
             Row("Service Requested:", Label(ServiceLabels, f.service), None),
             Row("Property Type:", Label(PropertyLabels, f.propertyType), None),
             Row("Location:", f.city, None)]),
       Steps(WhatHappensNext, NextSteps),
       Paragraph(NeedAssistance),
       Button("tel:" + s.companyPhone, s.companyPhone),
       Button("mailto:" + s.companyEmail, "Email Us"),
       Paragraph("Best regards, The " + s.companyName + " Team")],
      [s.companyName,
       s.companyAddress,
       s.companyPhone + " | " + s.companyEmail,
       svc.year + " " + s.companyName + RightsReserved])
  }

  function CustomerMail(f: ContactForm, svc: Services): Mail {
    var s := svc.settings;
    Mail(
      TransportOf(s),
      Address(s.mailFromEmail, s.companyName),
      Address(f.email, f.name),
      Some(Address(s.companyEmail, s.companyName)),
      true,
      CustomerSubjectPrefix + s.companyName,
      CustomerHtml(f, svc),
      (CustomerAltHead + f.name + ",\n\n" + ThanksLead + s.companyName + CustomerAltThanks)
        + ("\n- Service: " + Label(ServiceLabels, f.service) + "\n- Property: " + Label(PropertyLabels, f.propertyType))
        + ("\n- Location: " + f.city + "\n- Date: " + svc.now
           + CustomerAltTail + s.companyName + "\n" + s.companyPhone + "\n" + s.companyEmail))
  }

  /** The messages of an accepted request: the admin message first; then,
      only when the customer gave an email, the confirmation. */
  function Messages(f: ContactForm, svc: Services): (mails: seq<Mail>)
    ensures |mails| == (if IsFalsy(f.email) then 1 else 2)
    ensures mails[0] == AdminMail(f, svc)
    ensures |mails| == 2 ==> mails[1] == CustomerMail(f, svc)
  {
    [AdminMail(f, svc)] + (if IsFalsy(f.email) then [] else [CustomerMail(f, svc)])
  }

  /** The sends and their catch block: success when every message went
      out, otherwise the exception's message is logged and the reply is 500. */
  function Finish(mails: seq<Mail>, deliver: Mail -> Delivery): (o: Outcome)
    ensures o.sent <= mails
    ensures o.response.status == 200 <==> o.sent == mails && forall i :: 0 <= i < |mails| ==> deliver(mails[i]) == Delivered
    ensures o.response.status == 200 ==> o.response.body == Some(Json(true, SuccessMessage)) && o.log == []
    ensures o.response.status != 200 ==>
      o.response == Failure(500, ErrorMessage) && o.sent != [] &&
      deliver(o.sent[|o.sent| - 1]).Failed? &&
      o.log == ["Contact Form Error: " + deliver(o.sent[|o.sent| - 1]).error]
  {
    var (sent, error) := SendInOrder(mails, deliver);
    match error
    case None => Outcome(Response(200, Some(Json(true, SuccessMessage))), sent, [])
    case Some(e) => Outcome(Failure(500, ErrorMessage), sent, ["Contact Form Error: " + e])
  }

  /** The whole request: method gate, checks, messages. */
  function HandleContact(requestMethod: string, post: map<string, string>, svc: Services): (o: Outcome)
    ensures o.response.status in {200, 400, 405, 500}
    ensures |o.sent| <= 2
  {
    match Gate(requestMethod)
    case Some(r) => Early(r)
    case None =>
      var f := ReadContactForm(post);
      match FirstProblem(f, svc.isEmail)
      case Some(m) => Early(Failure(400, m))
      case None => Finish(Messages(f, svc), svc.deliver)
  }

  // ---------------------------------------------------------------------
  // Properties of the whole request
  // ---------------------------------------------------------------------

  /** A request that is not a POST is answered by the gate alone: nothing
      is read, checked or sent. */
  lemma NonPostIsGated(requestMethod: string, post: map<string, string>, svc: Services)
    requires requestMethod != "POST"
    ensures var o := HandleContact(requestMethod, post, svc);
      o.sent == [] && o.log == [] &&
      (requestMethod == "OPTIONS" ==> o.response == Response(200, None)) &&
      (requestMethod != "OPTIONS" ==> o.response == Failure(405, MethodNotAllowed))
  {
  }

  /** A failing check answers 400 with that check's message and sends nothing. */
  lemma RejectedSendsNothing(post: map<string, string>, svc: Services)
    requires FirstProblem(ReadContactForm(post), svc.isEmail).Some?
    ensures var o := HandleContact("POST", post, svc);
      o.sent == [] && o.log == [] &&
      o.response == Failure(400, FirstProblem(ReadContactForm(post), svc.isEmail).value)
  {
  }

  /** An accepted request hands its messages to the mailer in order and
      answers as the sends turned out. */
  lemma AcceptedSends(post: map<string, string>, svc: Services)
    requires FirstProblem(ReadContactForm(post), svc.isEmail).None?
    ensures HandleContact("POST", post, svc) == Finish(Messages(ReadContactForm(post), svc), svc.deliver)
  {
  }

  /** A failure of the confirmation, after the admin message went out, is
      not swallowed: the reply is 500 with the apology. */
  lemma ConfirmationFailureGives500(f: ContactForm, svc: Services)
    requires !IsFalsy(f.email)
    requires svc.deliver(AdminMail(f, svc)) == Delivered
    requires svc.deliver(CustomerMail(f, svc)).Failed?
    ensures var o := Finish(Messages(f, svc), svc.deliver);
      o.response == Failure(500, ErrorMessage) && |o.sent| == 2 &&
      o.log == ["Contact Form Error: " + svc.deliver(CustomerMail(f, svc)).error]
  {
    var mails := Messages(f, svc);
    assert svc.deliver(mails[1]).Failed?;
  }

  /** The reply-to header, the email row and the confirmation depend on a
      non-empty email; the Additional Details card on a non-empty message. */
  lemma ConditionalSections(f: ContactForm, svc: Services)
    ensures AdminMail(f, svc).replyTo.Some? <==> !IsFalsy(f.email)
    ensures AdminMail(f, svc).replyTo.Some? ==> AdminMail(f, svc).replyTo.value == Address(f.email, f.name)
    ensures (exists i :: 0 <= i < |CustomerRows(f)| && CustomerRows(f)[i].caption == "Email Address:") <==> !IsFalsy(f.email)
    ensures TextCard(AdditionalDetails, f.message) in AdminHtml(f, svc).blocks <==> !IsFalsy(f.message)
  {
    var rows := CustomerRows(f);
    if IsFalsy(f.email) {
      assert forall i :: 0 <= i < |rows| ==> rows[i].caption != "Email Address:";
    } else {
      assert rows[2].caption == "Email Address:";
    }
    var blocks := AdminHtml(f, svc).blocks;
    if IsFalsy(f.message) {
      assert forall b :: b in blocks ==> !b.TextCard?;
    } else {
      assert blocks[2] == TextCard(AdditionalDetails, f.message);
    }
  }

  /** `t` occurs in `s` at index `i`. */
  predicate InfixAt(t: string, s: string, i: int) {
    0 <= i && i + |t| <= |s| && s[i..i + |t|] == t
  }

  /** `t` occurs somewhere in `s`. */
  predicate Infix(t: string, s: string) {
    exists i :: 0 <= i <= |s| && InfixAt(t, s, i)
  }

  lemma InfixOfConcat(a: string, t: string, b: string)
    ensures Infix(t, a + t + b)
  {
    assert InfixAt(t, a + t + b, |a|) by {
      assert (a + t + b)[|a|..|a| + |t|] == t;
    }
  }

  /** The service and property names: a known code as its label, any
      other code as it was posted. */
  function ServiceName(f: ContactForm): string {
    Label(ServiceLabels, f.service)
  }

  function PropertyName(f: ContactForm): string {
    Label(PropertyLabels, f.propertyType)
  }

  lemma AdminSubjectShowsLabel(f: ContactForm, svc: Services)
    ensures AdminMail(f, svc).subject == "New Inspection Request - " + ServiceName(f) + " | " + f.name
  {
  }

  lemma AdminRowsShowLabels(f: ContactForm, svc: Services)
    ensures AdminMail(f, svc).body.blocks[1] == Card("Service Details",
      [Row("Service Required:", ServiceName(f), None), Row("Property Type:", PropertyName(f), None),
       Row("Callback Requested:", CallbackText(f.callback), None)])
  {
  }

  lemma CustomerRowsShowLabels(f: ContactForm, svc: Services)
    ensures CustomerMail(f, svc).body.blocks[2] == Card("Your Request Summary",
      [Row("Reference Date:", svc.now, None), Row("Service Requested:", ServiceName(f), None),
       Row("Property Type:", PropertyName(f), None), Row("Location:", f.city, None)])
  {
  }

  lemma AltBodiesShowLabels(f: ContactForm, svc: Services)
    ensures Infix("\nService: " + ServiceName(f) + "\nProperty: " + PropertyName(f), AdminMail(f, svc).altBody)
    ensures Infix("\n- Service: " + ServiceName(f) + "\n- Property: " + PropertyName(f), CustomerMail(f, svc).altBody)
  {
    var a := AdminMail(f, svc).altBody;
    var c := CustomerMail(f, svc).altBody;
    var s := svc.settings;
    InfixOfConcat(
      AdminAltHead + f.name + "\nPhone: " + f.phone + "\nEmail: " + f.email + "\nCity: " + f.city,
      "\nService: " + ServiceName(f) + "\nProperty: " + PropertyName(f),
      "\nCallback: " + CallbackText(f.callback) + "\nMessage: " + f.message + AdminAltReceived + svc.now);
    InfixOfConcat(
      CustomerAltHead + f.name + ",\n\n" + ThanksLead + s.companyName + CustomerAltThanks,
      "\n- Service: " + ServiceName(f) + "\n- Property: " + PropertyName(f),
      "\n- Location: " + f.city + "\n- Date: " + svc.now
        + CustomerAltTail + s.companyName + "\n" + s.companyPhone + "\n" + s.companyEmail);
  }

  /** Where the service and property codes are shown: the admin subject,
      the service rows of both messages and both plain-text bodies all show
      the same two names. */
  lemma LabelsShown(f: ContactForm, svc: Services)
    ensures AdminMail(f, svc).subject == "New Inspection Request - " + ServiceName(f) + " | " + f.name
    ensures AdminMail(f, svc).body.blocks[1].rows[0] == Row("Service Required:", ServiceName(f), None)
    ensures AdminMail(f, svc).body.blocks[1].rows[1] == Row("Property Type:", PropertyName(f), None)
    ensures CustomerMail(f, svc).body.blocks[2].rows[1] == Row("Service Requested:", ServiceName(f), None)
    ensures CustomerMail(f, svc).body.blocks[2].rows[2] == Row("Property Type:", PropertyName(f), None)
    ensures Infix("\nService: " + ServiceName(f) + "\nProperty: " + PropertyName(f), AdminMail(f, svc).altBody)
    ensures Infix("\n- Service: " + ServiceName(f) + "\n- Property: " + PropertyName(f), CustomerMail(f, svc).altBody)
  {
    AdminSubjectShowsLabel(f, svc);
    AdminRowsShowLabels(f, svc);
    CustomerRowsShowLabels(f, svc);
    AltBodiesShowLabels(f, svc);
  }

  /** The header values taken from the form hold no line break, so a posted
      value cannot add a header line. */
  lemma HeadersHaveNoLineBreaks(post: map<string, string>, svc: Services)
    ensures var f := ReadContactForm(post);
      var m := AdminMail(f, svc);
      (m.replyTo.Some? ==>
         '\r' !in m.replyTo.value.email + m.replyTo.value.name &&
         '\n' !in m.replyTo.value.email + m.replyTo.value.name)
      && '\r' !in CustomerMail(f, svc).to.email && '\n' !in CustomerMail(f, svc).to.email
  {
  }
}
