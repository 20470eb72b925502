# Mail relay handler — a Dafny model

The repository is one serverless HTTP handler, `api/email/send.js`, that relays an
email through an SMTP provider. This project models the handler's decision procedure
as pure functions from a request and an injected configuration to an outcome:

- **Gates.** Any method other than `POST` gives 405 `Method not allowed`. A missing,
  empty or mismatched `x-api-key` header gives 401 `Invalid or missing API key.`.
  Neither creates a transport or attempts a send.
- **Transport settings.** Host, port, user and password come from the configuration.
  The `secure` flag is computed with `SMTP_PORT === 465`. An environment variable is a
  string (or `undefined`), and `===` never equates a string with a number, so `secure`
  is false for every configuration, including `SMTP_PORT = "465"`. This looks
  unintended (see "## Findings"). `Handler.Handle` keeps the behaviour as written,
  since that is what the handler does; `Handler.IntendedSettings` states the evident
  intent and `Handler.SecurePortIgnored` shows where the two differ.
- **Attachment assembly.** The inline logo comes first when `inlineLogoBase64` is truthy
  (filename `nxg-logo.png`, cid `nxgLogo`). Then come the caller's attachments whose
  `filename` and `contentBase64` are both truthy, in input order, with no cid and the
  content type kept only when truthy. A `null` element of the array makes the loop
  read `.filename` of `null`, which throws inside the `try`; the handler then answers
  500 and no send is attempted.
- **Message.** The display name is `senderName` when truthy and `NXG JOB HUB` otherwise.
  The address is always the configured SMTP user. `to`, `subject` and `html` pass
  through unchanged. An empty attachment list is sent as an undefined field.
- **Result.** A delivered send gives 200 `Email sent successfully`. A send that throws
  gives 500 `Failed to send email` with the error's message as `details`.

JavaScript truthiness is explicit: optional strings are `Option<string>` and `Truthy`
holds for every `Some(s)` with `s != ""` (module `Js`). Base64 decoding is an arbitrary
function `decode` supplied by the caller. The SMTP send is an arbitrary function
`send` from the transport settings and the message to `Delivered` or `Threw(message)`.
`Handler.Outcome` records the response, the transport settings if a transport was
created, and the message if a send was attempted.

Files: `wrappers.dfy` (Option, Result), `js.dfy` (truthiness, `===`, template
interpolation), `attachments.dfy` (lines 34-56 of the handler), `handler.dfy` (the
rest of the handler).

## Model

| member | source | states |
|---|---|---|
| Handler.Handle | api/email/send.js:3-73 | non-POST gives 405 and a non-accepted key gives 401, both with no transport and no send; a transport is created exactly when both gates pass and it is exactly `Settings(cfg)`, so its `secure` flag is false; the message sent is exactly `Compose` of the request body, the configuration and the assembled list; a send is attempted exactly when, in addition, no attachment element is `null`; a `null` element gives 500 with the TypeError text; 200 exactly when the attempted send delivered; the status is always one of 200, 401, 405, 500 |
| Handler.KeyAccepted | api/email/send.js:18-21 | the key check passes exactly when the header is a non-empty string equal to the configured `API_KEY` |
| Handler.EmptyKeyRejected | api/email/send.js:18-21 | a POST with an absent or empty header gets 401 and nothing else, even when `API_KEY` is unset or empty |
| Handler.Settings | api/email/send.js:24-32 | host, port, user and password are the configured ones, and `secure` is false for every configuration |
| Handler.IntendedSettings | api/email/send.js:24-32 | the evidently intended transport options: implicit TLS exactly when `SMTP_PORT` is "465", other fields from the configuration |
| Handler.SecurePortIgnored | api/email/send.js:27 | with `SMTP_PORT` = "465" the handler's transport is not secure while the intended one is, and they differ only in that flag |
| Js.StringNeverEqualsNumber | api/email/send.js:27 | `===` between an environment value and a number is false whatever the string holds |
| Attachments.Convert | api/email/send.js:48-53 | a kept element becomes an attachment with its filename, its decoded content, no cid, and its content type only when truthy |
| Attachments.Collect | api/email/send.js:46-56 | the caller part has at most as many entries as the input and none of them has a cid |
| Attachments.CollectAppend | api/email/send.js:47-55 | the kept entries of a concatenation are the kept entries of each part in order, so the output order is the input order |
| Attachments.CollectSingle | api/email/send.js:48-54 | one element yields its converted attachment when filename and content are truthy and nothing otherwise |
| Attachments.CollectMembership | api/email/send.js:46-56 | an attachment is in the caller part exactly when it is the converted form of some input element with truthy filename and content |
| Attachments.Assemble | api/email/send.js:34-56 | the assembly throws exactly when the array holds a `null` element, with the TypeError text; otherwise at most 1 + input-length entries (at most 1 for a non-array field), the logo attachment first when the logo is truthy, and no cid after the logo position |
| Attachments.AssembleMembership | api/email/send.js:36-56 | an assembled attachment is either the logo attachment (when the logo is truthy) or the converted form of a kept caller element, and each of those is present |
| Attachments.NoLogoNoCid | api/email/send.js:37-43 | some assembled attachment carries cid `nxgLogo` exactly when the logo is truthy |
| Attachments.CollectLoop | api/email/send.js:46-56 | the `forEach` push loop throws exactly when an element is `null` and otherwise builds the reference caller list |
| Attachments.AssembleAttachments | api/email/send.js:34-56 | the imperative logo push followed by the loop computes the reference assembly, error included |
| Handler.FromHeaderNamesSender | api/email/send.js:59 | the display name and the address can each be read back from a fixed position of the rendered `from` header |
| Handler.Compose | api/email/send.js:58-64 | `from` names `senderName` when truthy and `NXG JOB HUB` otherwise, with the configured SMTP user as address; `to`, `subject`, `html` pass through; `attachments` is undefined exactly when the list is empty and is never an empty list |
| Handler.ResultResponse | api/email/send.js:66-71 | status 200 exactly on delivery, with body `Email sent successfully`; a thrown error gives 500 `Failed to send email` with its message as details |
| Handler.SentMessageAttachments | api/email/send.js:58-64 | the attachments of the message actually sent are the assembled list, undefined exactly when that list is empty |
| Handler.FromDependsOnlyOnSenderName | api/email/send.js:59 | the sent `from` names `senderName` (or `NXG JOB HUB` when falsy) and the configured SMTP user as address, so two sent messages for requests with the same `senderName` have the same `from`, whatever else the requests contain |

## Findings

| source | as written | input that shows it | evidently intended | confidence | as-written member | corrected member |
|---|---|---|---|---|---|---|
| api/email/send.js:27 | `secure: process.env.SMTP_PORT === 465` compares an environment string with a number, so it is always false | `SMTP_PORT` = "465": `secure` is false and implicit TLS is never used | `secure` true when the configured port is 465 | high (not executed) | Handler.Settings, Handler.SecurePortIgnored | Handler.IntendedSettings |

`Handler.Handle` uses the as-written `Settings`, because it models what the handler does.

## Left out

- HTTP plumbing: the `req`/`res` objects, JSON serialisation, `console.error` logging and `async` scheduling are I/O; the model returns the status and body as a value.
- The throw from destructuring an undefined `req.body` (api/email/send.js:8-15) happens outside the `try` and is runtime behaviour; the model assumes the body is an object.
- SMTP delivery and nodemailer are a network client and a foreign library: the send is the parameter `send`, and creating the transport is assumed not to throw.
- Base64 decoding (`Buffer.from(..., "base64")`) is library behaviour: `decode` is an arbitrary total function on strings.
- `process.env` reads are the `Config` record of optional strings.
- Request fields are modelled as optional strings: a body field holding a number, boolean or object (which JavaScript would coerce or test for truthiness differently) is not modelled, and neither is a thrown value without a string `message`.
- The TypeError text for a `null` element is the one the V8 engine produces; other engines word it differently.
