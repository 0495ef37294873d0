/** What both handlers share: the process environment, the faults a handler
    catches, the transport settings and message handed to the mail gateway,
    the gateway itself (an oracle standing for nodemailer's verify and
    sendMail), and the HTTP reply. */
module Mail {
  import opened Js

  /** process.env, as a map from variable name to value. */
  type Env = map<string, string>

  function EnvVar(env: Env, name: string): Option<string> {
    if name in env then Some(env[name]) else None
  }

  /** Both handlers refuse to build a transport unless the account identity
      and its credential are truthy. */
  predicate Configured(env: Env) {
    Truthy(EnvVar(env, "EMAIL_USER")) && Truthy(EnvVar(env, "EMAIL_PASSWORD"))
  }

  /** The message of the Error both handlers throw when not configured. */
  const NotConfigured := "Email service is not properly configured."

  /** A value caught by a handler's catch block: an Error with its message,
      or any other thrown value together with its String() conversion. */
  datatype Fault = ErrorFault(message: string) | OtherFault(text: string)

  /** The port option: 587 by default; a set EMAIL_PORT is passed through
      parseInt, whose result is not modelled. */
  datatype Port = Port(number: int) | ParseIntOf(text: string)

  /** The options given to createTransport. */
  datatype Transport =
    | Smtp(host: string, port: Port, secure: bool, user: string, pass: string)
    | Service(service: string, user: string, pass: string)

  datatype Attachment = Attachment(filename: string, content: seq<bv8>, contentType: string)

  /** The mailOptions given to sendMail; `html` is absent for applications. */
  datatype Message = Message(
    from: string,
    to: string,
    subject: string,
    text: string,
    html: Option<string>,
    attachments: seq<Attachment>)

  /** Result of transporter.verify(). */
  datatype Check = Ready | VerifyFailed(fault: Fault)

  /** Result of transporter.sendMail(). */
  datatype Delivery = Delivered(messageId: string) | SendFailed(fault: Fault)

  /** The SMTP relay as seen by one request: whatever verify and sendMail
      answer for the transport and message they are given. */
  datatype Gateway = Gateway(verify: Transport -> Check, send: (Transport, Message) -> Delivery)

  /** The JSON bodies the handlers return. */
  datatype Body =
    | ErrorBody(error: string)
    | FailureBody(error: string, details: string)
    | SuccessBody(messageId: Option<string>)

  datatype Reply = Reply(status: int, body: Body)

  /** Everything observable about one request: the reply, the transport that
      was created and verified (if any), and the message that was handed to
      sendMail (if any). */
  datatype Exchange = Exchange(reply: Reply, transport: Option<Transport>, sent: Option<Message>)

  /** The request body after request.json() or request.formData(): either the
      parsed fields or the fault parsing threw. */
  datatype Request<T> = Parsed(form: T) | Unreadable(fault: Fault)
}
