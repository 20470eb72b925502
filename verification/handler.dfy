/** The mail relay request handler: method and API-key gates, transport settings,
    message composition and the mapping of the send result to an HTTP response.
    Environment variables arrive as a `Config` record, base64 decoding as `decode`
    and the SMTP delivery as `send`, which reports success or the thrown error. */
module Handler {
  import opened Wrappers
  import opened Js
  import opened Attachments

  /** The environment the handler reads: `API_KEY`, `SMTP_HOST`, `SMTP_PORT`,
      `SMTP_USER` and `SMTP_PASS`, each possibly unset. */
  datatype Config = Config(
    apiKey: Option<string>,
    smtpHost: Option<string>,
    smtpPort: Option<string>,
    smtpUser: Option<string>,
    smtpPass: Option<string>)

  /** The JSON request body. */
  datatype Body = Body(
    recipient: Option<string>,
    messageBody: Option<string>,
    subject: Option<string>,
    senderName: Option<string>,
    inlineLogoBase64: Option<string>,
    attachments: AttachmentsField)

  /** An incoming request: its HTTP method (`verb`), its `x-api-key` header and its body. */
  datatype Request = Request(verb: string, apiKeyHeader: Option<string>, body: Body)

  /** The options the SMTP transport is created with. */
  datatype TransportSettings = TransportSettings(
    host: Option<string>,
    port: Option<string>,
    secure: bool,
    user: Option<string>,
    pass: Option<string>)

  /** The message handed to the transport; `attachments` is `None` when the field is left undefined. */
  datatype MailOptions = MailOptions(
    from: string,
    to: Option<string>,
    subject: Option<string>,
    html: Option<string>,
    attachments: Option<seq<Outbound>>)

  /** What the transport's send does: deliver, or throw an error with a message. */
  datatype Delivery = Delivered | Threw(message: string)

  type Sender = (TransportSettings, MailOptions) -> Delivery

  datatype ResponseBody =
    | Message(message: string)
    | Error(error: string)
    | ErrorWithDetails(error: string, details: string)

  datatype Response = Response(status: int, body: ResponseBody)

  /** Everything observable about one invocation: the response, the transport
      settings if a transport was created, and the message if a send was attempted. */
  datatype Outcome = Outcome(response: Response, transport: Option<TransportSettings>, sent: Option<MailOptions>)

  const SecurePort := 465
  const DefaultSenderName := "NXG JOB HUB"

  const MethodNotAllowed := Response(405, Error("Method not allowed"))
  const Unauthorized := Response(401, Error("Invalid or missing API key."))
  const Success := Response(200, Message("Email sent successfully"))
  const SendFailed := "Failed to send email"

  /** The header passes when it is truthy and strictly equal to the configured key. */
  function KeyAccepted(header: Option<string>, apiKey: Option<string>): (ok: bool)
    ensures ok <==> header.Some? && header.value != "" && apiKey == Some(header.value)
  {
    Truthy(header) && StrictEquals(Of(header), Of(apiKey))
  }

  /** The transport options built from the configuration. `secure` compares the
      string `SMTP_PORT` with the number 465 using `===`, so it never holds. */
  function Settings(cfg: Config): (t: TransportSettings)
    ensures !t.secure
    ensures t.host == cfg.smtpHost && t.port == cfg.smtpPort
    ensures t.user == cfg.smtpUser && t.pass == cfg.smtpPass
  {
    TransportSettings(
      cfg.smtpHost,
      cfg.smtpPort,
      StrictEquals(Of(cfg.smtpPort), Num(SecurePort)),
      cfg.smtpUser,
      cfg.smtpPass)
  }

  /** The transport options as the port comparison was evidently meant: implicit TLS
      exactly when `SMTP_PORT` is the string "465". */
  function IntendedSettings(cfg: Config): (t: TransportSettings)
    ensures t.secure <==> cfg.smtpPort == Some("465")
    ensures t.host == cfg.smtpHost && t.port == cfg.smtpPort
    ensures t.user == cfg.smtpUser && t.pass == cfg.smtpPass
  {
    TransportSettings(
      cfg.smtpHost,
      cfg.smtpPort,
      StrictEquals(Of(cfg.smtpPort), Str("465")),
      cfg.smtpUser,
      cfg.smtpPass)
  }

  /** With `SMTP_PORT` set to "465" the handler's transport is not secure, while the
      intended settings are: the two differ in exactly the `secure` flag. */
  lemma SecurePortIgnored(cfg: Config)
    requires cfg.smtpPort == Some("465")
    ensures !Settings(cfg).secure
    ensures IntendedSettings(cfg).secure
    ensures Settings(cfg) == IntendedSettings(cfg).(secure := false)
  {
  }

  /** The `from` header `"<name>" <<address>>`. */
  function FromHeader(name: string, address: string): string {
    "\"" + name + "\" <" + address + ">"
  }

  /** `from` names `name` as display name and `address` as mailbox: each can be read
      back from a fixed position of the header, the name after the opening quote and
      the address just before the closing angle bracket. */
  ghost predicate NamesSender(from: string, name: string, address: string) {
    && |from| == |name| + |address| + 5
    && from[0] == '"'
    && from[1..|name| + 1] == name
    && from[|name| + 1..|name| + 4] == "\" <"
    && from[|from| - |address| - 1..|from| - 1] == address
    && from[|from| - 1] == '>'
  }

  /** The display name and address can be read back from the header. */
  lemma FromHeaderNamesSender(name: string, address: string)
    ensures NamesSender(FromHeader(name, address), name, address)
  {
  }

  /** The message options: display name from `senderName` or the default, address
      always the configured SMTP user, `to`, `subject` and `html` passed through, and
      `attachments` left undefined when the assembled list is empty. */
  function Compose(body: Body, cfg: Config, assembled: seq<Outbound>): (m: MailOptions)
    ensures Truthy(body.senderName) ==> NamesSender(m.from, body.senderName.value, Interpolate(cfg.smtpUser))
    ensures !Truthy(body.senderName) ==> NamesSender(m.from, DefaultSenderName, Interpolate(cfg.smtpUser))
    ensures m.to == body.recipient && m.subject == body.subject && m.html == body.messageBody
    ensures m.attachments.None? <==> |assembled| == 0
    ensures m.attachments.Some? ==> m.attachments.value == assembled && m.attachments.value != []
  {
    var name := Or(body.senderName, DefaultSenderName);
    FromHeaderNamesSender(name, Interpolate(cfg.smtpUser));
    MailOptions(
      FromHeader(name, Interpolate(cfg.smtpUser)),
      body.recipient,
      body.subject,
      body.messageBody,
      if |assembled| > 0 then Some(assembled) else None)
  }

  /** The response for a send that ran: 200 on delivery, 500 with the error's message otherwise. */
  function ResultResponse(d: Delivery): (resp: Response)
    ensures resp.status == 200 <==> d.Delivered?
    ensures d.Delivered? ==> resp == Success
    ensures d.Threw? ==> resp == Response(500, ErrorWithDetails(SendFailed, d.message))
  {
    match d
    case Delivered => Success
    case Threw(msg) => Response(500, ErrorWithDetails(SendFailed, msg))
  }

  /** One invocation of the handler. */
  function Handle(req: Request, cfg: Config, decode: Decoder, send: Sender): (out: Outcome)
    ensures req.verb != "POST" ==> out == Outcome(MethodNotAllowed, None, None)
    ensures req.verb == "POST" && !KeyAccepted(req.apiKeyHeader, cfg.apiKey) ==>
              out == Outcome(Unauthorized, None, None)
    ensures out.transport.Some? <==> req.verb == "POST" && KeyAccepted(req.apiKeyHeader, cfg.apiKey)
    ensures out.transport.Some? ==> out.transport.value == Settings(cfg)
    ensures out.sent.Some? ==>
              && Assemble(req.body.inlineLogoBase64, req.body.attachments, decode).Ok?
              && out.sent.value == Compose(req.body, cfg, Assemble(req.body.inlineLogoBase64, req.body.attachments, decode).value)
    ensures out.sent.Some? <==> out.transport.Some? && !HasNull(req.body.attachments)
    ensures out.transport.Some? && out.sent.None? ==>
              out.response == Response(500, ErrorWithDetails(SendFailed, NullAccessMessage))
    ensures out.sent.Some? ==>
              out.response == ResultResponse(send(out.transport.value, out.sent.value))
    ensures out.response.status == 200 <==>
              out.sent.Some? && send(out.transport.value, out.sent.value) == Delivered
    ensures out.response.status in {200, 401, 405, 500}
  {
    if req.verb != "POST" then
      Outcome(MethodNotAllowed, None, None)
    else if !KeyAccepted(req.apiKeyHeader, cfg.apiKey) then
      Outcome(Unauthorized, None, None)
    else
      var transport := Settings(cfg);
      match Assemble(req.body.inlineLogoBase64, req.body.attachments, decode)
      case Err(msg) =>
        Outcome(Response(500, ErrorWithDetails(SendFailed, msg)), Some(transport), None)
      case Ok(assembled) =>
        var mail := Compose(req.body, cfg, assembled);
        Outcome(ResultResponse(send(transport, mail)), Some(transport), Some(mail))
  }

  /** An absent or empty `x-api-key` is refused even when `API_KEY` is itself unset or empty. */
  lemma EmptyKeyRejected(req: Request, cfg: Config, decode: Decoder, send: Sender)
    requires req.verb == "POST"
    requires !Truthy(req.apiKeyHeader)
    ensures Handle(req, cfg, decode, send) == Outcome(Unauthorized, None, None)
  {
  }

  /** The message that is sent is made of the assembled attachments: the logo first when
      present, then the caller's sendable attachments, with the field left undefined
      rather than empty. */
  lemma SentMessageAttachments(req: Request, cfg: Config, decode: Decoder, send: Sender)
    requires Handle(req, cfg, decode, send).sent.Some?
    ensures var m := Handle(req, cfg, decode, send).sent.value;
            var a := Assemble(req.body.inlineLogoBase64, req.body.attachments, decode);
            && a.Ok?
            && (m.attachments.None? <==> a.value == [])
            && (m.attachments.Some? ==> m.attachments.value == a.value)
  {
  }

  /** The sender address is the configured SMTP user, whatever the request says: the
      sent `from` names `senderName` (or the default) and the SMTP user, so two requests
      that differ in everything but `senderName` get the same `from`. */
  lemma FromDependsOnlyOnSenderName(req1: Request, req2: Request, cfg: Config, decode: Decoder, send: Sender)
    requires Handle(req1, cfg, decode, send).sent.Some?
    requires Handle(req2, cfg, decode, send).sent.Some?
    requires req1.body.senderName == req2.body.senderName
    ensures NamesSender(Handle(req1, cfg, decode, send).sent.value.from,
                        Or(req1.body.senderName, DefaultSenderName), Interpolate(cfg.smtpUser))
    ensures Handle(req1, cfg, decode, send).sent.value.from == Handle(req2, cfg, decode, send).sent.value.from
  {
  }
}
