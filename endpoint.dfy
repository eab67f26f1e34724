/** What the two form endpoints share: the request method gate, reading a
    posted field, the JSON reply, the outgoing mail and the services the
    handlers call but do not implement (address validation, delivery, the
    clock). */
module Endpoint {
  import opened Text
  import opened PhpStrings
  import opened FormInput
  import opened MailConfig

  /** The JSON object every reply with a body carries. */
  datatype Json = Json(success: bool, message: string)

  /** The HTTP status and the JSON body, if any. */
  datatype Response = Response(status: int, body: Option<Json>)

  function Failure(status: int, message: string): (r: Response)
    ensures r.status == status && r.body == Some(Json(false, message))
  {
    Response(status, Some(Json(false, message)))
  }

  const MethodNotAllowed := "Method not allowed"

  /** The method gate both endpoints start with: a preflight OPTIONS request
      gets 200 and no body, any other method but POST gets 405, and a POST
      goes on (None). */
  function Gate(requestMethod: string): (r: Option<Response>)
    ensures r.None? <==> requestMethod == "POST"
    ensures requestMethod == "OPTIONS" ==> r == Some(Response(200, None))
    ensures requestMethod != "OPTIONS" && requestMethod != "POST" ==> r == Some(Failure(405, MethodNotAllowed))
  {
    if requestMethod == "OPTIONS" then Some(Response(200, None))
    else if requestMethod != "POST" then Some(Failure(405, MethodNotAllowed))
    else None
  }

  /** isset($_POST[key]) ? sanitizeInput($_POST[key]) : ''. */
  function Field(post: map<string, string>, key: string): (v: string)
    ensures key !in post ==> v == ""
    ensures '\r' !in v && '\n' !in v && NoMarkup(v)
  {
    if key in post then
      SanitizeHasNoLineBreaks(post[key]);
      SanitizeHasNoMarkup(post[key]);
      SanitizeInput(post[key])
    else ""
  }

  /** A mailbox as PHPMailer takes it: address and display name. */
  datatype Address = Address(email: string, name: string)

  /** The SMTP settings every message is sent with. */
  datatype Transport = Transport(
    host: string, auth: bool, username: string, password: string,
    secure: string, port: int, charset: string)

  function TransportOf(s: Settings): Transport {
    Transport(s.smtpHost, s.smtpAuth, s.smtpUsername, s.smtpPassword,
              s.smtpSecure, s.smtpPort, s.mailCharset)
  }

  /** One row of a details table: a caption, the value shown and, for phone
      numbers and addresses, the `tel:` or `mailto:` link around it. */
  datatype Row = Row(caption: string, value: string, link: Option<string>)

  /** The parts of an HTML message body that carry content; styling and
      decorative symbols are not modelled. */
  datatype Block =
    | Paragraph(text: string)
    | Card(heading: string, rows: seq<Row>)
    | TextCard(heading: string, text: string)
    | Steps(heading: string, items: seq<string>)
    | Button(href: string, text: string)

  datatype Html = Html(title: string, subtitle: string, blocks: seq<Block>, footer: seq<string>)

  /** One message as configured before `send()`. */
  datatype Mail = Mail(
    transport: Transport,
    from: Address,
    to: Address,
    replyTo: Option<Address>,
    isHtml: bool,
    subject: string,
    body: Html,
    altBody: string)

  /** What `send()` did: delivered, or failed with the exception's message. */
  datatype Delivery = Delivered | Failed(error: string)

  /** What the handlers use but do not define: the settings, the address
      validator (FILTER_VALIDATE_EMAIL), delivery of one message (setting up
      the mailer and sending may throw), and the current date ('d M Y, h:i A')
      and year. */
  datatype Services = Services(
    settings: Settings,
    isEmail: string -> bool,
    deliver: Mail -> Delivery,
    now: string,
    year: string)

  /** The reply, the messages handed to the mailer in order, and what was
      written to the error log. */
  datatype Outcome = Outcome(response: Response, sent: seq<Mail>, log: seq<string>)

  /** A reply that ends the request before any message is prepared. */
  function Early(r: Response): (o: Outcome)
    ensures o.response == r && o.sent == [] && o.log == []
  {
    Outcome(r, [], [])
  }

  /** The messages handed to the mailer one after the other, stopping at the
      first that throws: the messages tried, and the error if one failed. */
  function SendInOrder(mails: seq<Mail>, deliver: Mail -> Delivery): (r: (seq<Mail>, Option<string>))
    ensures r.0 <= mails
    ensures r.1.None? <==> r.0 == mails && forall i :: 0 <= i < |mails| ==> deliver(mails[i]) == Delivered
    ensures r.1.Some? ==> r.0 != [] && deliver(r.0[|r.0| - 1]) == Failed(r.1.value)
    ensures forall i :: 0 <= i < |r.0| - 1 ==> deliver(r.0[i]) == Delivered
  {
    if mails == [] then ([], None)
    else match deliver(mails[0])
      case Failed(e) => ([mails[0]], Some(e))
      case Delivered =>
        var rest := SendInOrder(mails[1..], deliver);
        assert forall i :: 1 <= i < |mails| ==> mails[i] == mails[1..][i - 1];
        ([mails[0]] + rest.0, rest.1)
  }
}
