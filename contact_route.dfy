/** The contact form handler (POST /api/send-emails): validates location and
    job type, then the name; resolves the recipient from a location x job-type
    table with a FALLBACK_EMAIL / hard-coded fallback chain; checks the mail
    configuration; composes a subject, a text body and an HTML body; and hands
    the message to the gateway after verifying the transport. */
module ContactRoute {
  import opened Js
  import opened Mail
  import opened Render

  /** The JSON body. String fields may be absent; an absent or false consent
      is falsy. The firstName and lastName fields are sent but never read. */
  datatype ContactForm = ContactForm(
    location: Option<string>,
    job: Option<string>,
    name: Option<string>,
    email: Option<string>,
    phone: Option<string>,
    message: Option<string>,
    consent: bool)

  const LocationJobRequired := "Location and job type are required"
  const NameRequired := "Name is required"
  const ProcessFailed := "Failed to process request"
  const HardDefault := "peter.parker@batp.org"
  const DefaultHost := "smtp.gmail.com"
  const DefaultPort := 587

  /** emailMap: location -> job type -> mailbox. */
  const EmailMap: map<string, map<string, string>> := map[
    "Philadelphia" := map[
      "Employment (HR)" := "mailbatp@gmail.com",
      "Services (Case Management)" := "samantha.power@batp.org",
      "Other (office)" := "williampower@batp.org"],
    "Bucks" := map[
      "Employment (HR)" := "kareema.graham@batp.org",
      "Services (Case Management)" := "qwenton.balawejder@batp.org",
      "Other (office)" := "chantellebosier@batp.org"],
    "Delaware" := map[
      "Employment (HR)" := "kareema.graham@batp.org",
      "Services (Case Management)" := "qwenton.balawejder@batp.org",
      "Other (office)" := "chantellebosier@batp.org"],
    "Montgomery" := map[
      "Employment (HR)" := "kareema.graham@batp.org",
      "Services (Case Management)" := "qwenton.balawejder@batp.org",
      "Other (office)" := "chantellebosier@batp.org"]
  ]

  predicate InTable(location: string, job: string) {
    location in EmailMap && job in EmailMap[location]
  }

  /** The two validation steps, in order. */
  predicate Valid(form: ContactForm) {
    Truthy(form.location) && Truthy(form.job) && Truthy(form.name)
  }

  /** `emailMap[location]?.[job] || FALLBACK_EMAIL || "peter.parker@batp.org"`,
      with own-key lookup (see AsWrittenRecipient for the literal lookup). */
  function ResolveRecipient(location: string, job: string, env: Env): (r: string)
    ensures r != ""
    ensures InTable(location, job) ==> r == EmailMap[location][job]
    ensures !InTable(location, job) && Truthy(EnvVar(env, "FALLBACK_EMAIL")) ==> r == env["FALLBACK_EMAIL"]
    ensures !InTable(location, job) && !Truthy(EnvVar(env, "FALLBACK_EMAIL")) ==> r == HardDefault
  {
    var entry := if InTable(location, job) then Some(EmailMap[location][job]) else None;
    Or(entry, Or(EnvVar(env, "FALLBACK_EMAIL"), HardDefault))
  }

  /** The recipient exactly as the source computes it: property lookup on the
      object literals, which also finds the members of Object.prototype. A
      location that itself names such a member is not covered (see README). */
  function AsWrittenRecipient(location: string, job: string, env: Env): (v: JsValue)
    requires location in EmailMap || location !in ObjectPrototypeNames
    ensures job !in ObjectPrototypeNames ==> v == Str(ResolveRecipient(location, job, env))
  {
    var entry := if location in EmailMap then PropertyOf(EmailMap[location], job) else Undefined;
    JsOr(JsOr(entry, FromOption(EnvVar(env, "FALLBACK_EMAIL"))), Str(HardDefault))
  }

  /** A job type named like an Object.prototype member makes the as-written
      lookup yield that member, which is truthy, so neither fallback is
      reached and the recipient is not an address. */
  lemma PrototypeJobIsNotAnAddress(location: string, job: string, env: Env)
    requires location in EmailMap && job in ObjectPrototypeNames
    ensures !AsWrittenRecipient(location, job, env).Str?
    ensures AsWrittenRecipient(location, job, env) == Inherited(job)
  {
  }

  /** createTransport options: host and port default, implicit TLS only for
      the exact string "true". */
  function ContactTransport(env: Env): (t: Transport)
    requires Configured(env)
    ensures t.Smtp?
    ensures t.host == (if Truthy(EnvVar(env, "EMAIL_HOST")) then env["EMAIL_HOST"] else DefaultHost)
    ensures !Truthy(EnvVar(env, "EMAIL_PORT")) ==> t.port == Port(DefaultPort)
    ensures t.secure <==> "EMAIL_SECURE" in env && env["EMAIL_SECURE"] == "true"
    ensures t.user == env["EMAIL_USER"] && t.pass == env["EMAIL_PASSWORD"]
  {
    var port := if Truthy(EnvVar(env, "EMAIL_PORT")) then ParseIntOf(env["EMAIL_PORT"]) else Port(DefaultPort);
    Smtp(Or(EnvVar(env, "EMAIL_HOST"), DefaultHost), port, EnvVar(env, "EMAIL_SECURE") == Some("true"),
         env["EMAIL_USER"], env["EMAIL_PASSWORD"])
  }

  /** The seven fields both bodies list, in order, with their defaults. */
  function ContactFields(form: ContactForm): (fields: seq<Field>)
    ensures |fields| == 7
    ensures forall i :: 0 <= i < 7 ==> fields[i].name == ["Location", "Job Type", "Name", "Email", "Phone", "Message", "Consent"][i]
    ensures fields[0].value == Show(form.location) && fields[1].value == Show(form.job)
    ensures fields[2].value == Show(form.name) && fields[3].value == Show(form.email)
    ensures fields[4].value == (if Truthy(form.phone) then form.phone.value else "Not provided")
    ensures fields[5].value == (if Truthy(form.message) then form.message.value else "No message provided")
    ensures fields[6].value == (if form.consent then "Given" else "Not given")
    ensures forall i :: 0 <= i < 7 ==> (fields[i].ownLine <==> i == 5)
  {
    [ Field("Location", Show(form.location), false),
      Field("Job Type", Show(form.job), false),
      Field("Name", Show(form.name), false),
      Field("Email", Show(form.email), false),
      Field("Phone", Or(form.phone, "Not provided"), false),
      Field("Message", Or(form.message, "No message provided"), true),
      Field("Consent", if form.consent then "Given" else "Not given", false) ]
  }

  const TextHeading := "New contact submission:"
  const HtmlHeading := "New Contact Submission"

  /** The text template: "New contact submission:" and one "Name: value" line
      per field. */
  function ContactText(form: ContactForm): string {
    PlainText(TextHeading, ContactFields(form))
  }

  /** The HTML template: an <h2> heading and one paragraph per field, the
      message after a <br>. No escaping is applied to the values. */
  function ContactHtml(form: ContactForm): string {
    Html(HtmlHeading, ContactFields(form))
  }

  /** The text body is the source's template literal, piece by piece: the
      heading line, then each "Name: value" line on its own line, then the
      closing indentation. */
  lemma ContactTextIsTemplate(form: ContactForm)
    ensures ContactText(form)
         == "\n" + "New contact submission:" + "\n"
            + ("\n" + "Location" + ": " + Show(form.location))
            + ("\n" + "Job Type" + ": " + Show(form.job))
            + ("\n" + "Name" + ": " + Show(form.name))
            + ("\n" + "Email" + ": " + Show(form.email))
            + ("\n" + "Phone" + ": " + (if Truthy(form.phone) then form.phone.value else "Not provided"))
            + ("\n" + "Message" + ": " + (if Truthy(form.message) then form.message.value else "No message provided"))
            + ("\n" + "Consent" + ": " + (if form.consent then "Given" else "Not given"))
            + "\n      "
  {
    PlainTextOfSeven(TextHeading, ContactFields(form));
  }

  /** The HTML body is the source's template literal, piece by piece: the
      <h2> heading, seven paragraphs (the message after a <br>), and the
      closing indentation. */
  lemma ContactHtmlIsTemplate(form: ContactForm)
    ensures ContactHtml(form)
         == "\n        <h2>" + "New Contact Submission" + "</h2>"
            + ("\n        <p><strong>" + "Location" + ":</strong>" + " " + Show(form.location) + "</p>")
            + ("\n        <p><strong>" + "Job Type" + ":</strong>" + " " + Show(form.job) + "</p>")
            + ("\n        <p><strong>" + "Name" + ":</strong>" + " " + Show(form.name) + "</p>")
            + ("\n        <p><strong>" + "Email" + ":</strong>" + " " + Show(form.email) + "</p>")
            + ("\n        <p><strong>" + "Phone" + ":</strong>" + " "
               + (if Truthy(form.phone) then form.phone.value else "Not provided") + "</p>")
            + ("\n        <p><strong>" + "Message" + ":</strong>" + "<br>"
               + (if Truthy(form.message) then form.message.value else "No message provided") + "</p>")
            + ("\n        <p><strong>" + "Consent" + ":</strong>" + " "
               + (if form.consent then "Given" else "Not given") + "</p>")
            + "\n      "
  {
    HtmlOfSeven(HtmlHeading, ContactFields(form));
  }

  /** The two bodies list the same seven fields in the same order: field i
      has its text line and its HTML paragraph at the i-th position of each
      body, each line right after the one before, and the line and the
      paragraph carry the same name and the same value. */
  lemma {:induction false} ContactBodiesAgree(form: ContactForm, i: nat)
    requires i < 7
    ensures var fields := ContactFields(form);
      var t, h := TextParts(TextHeading, fields), HtmlParts(HtmlHeading, fields);
      && Offset(t, i + 1) + |TextLine(fields[i])| == Offset(t, i + 2) <= |ContactText(form)|
      && Offset(h, i + 1) + |HtmlLine(fields[i])| == Offset(h, i + 2) <= |ContactHtml(form)|
      && ContactText(form)[Offset(t, i + 1)..Offset(t, i + 2)] == "\n" + fields[i].name + ": " + fields[i].value
      && ContactHtml(form)[Offset(h, i + 1)..Offset(h, i + 2)]
         == "\n        <p><strong>" + fields[i].name + ":</strong>" + (if i == 5 then "<br>" else " ") + fields[i].value + "</p>"
  {
    PlainTextLineAt(TextHeading, ContactFields(form), i);
    HtmlLineAt(HtmlHeading, ContactFields(form), i);
  }

  function From(env: Env): string
    requires Configured(env)
  {
    "\"BATP Contact Form\" <" + env["EMAIL_USER"] + ">"
  }

  /** mailOptions: sender, recipient, subject and both bodies; no attachment. */
  function ComposeMessage(form: ContactForm, env: Env): (m: Message)
    requires Valid(form) && Configured(env)
    ensures m.from == "\"BATP Contact Form\" <" + env["EMAIL_USER"] + ">"
    ensures m.to == ResolveRecipient(form.location.value, form.job.value, env) && m.to != ""
    ensures m.subject == "New Contact - " + form.job.value + " in " + form.location.value
    ensures m.text == ContactText(form) && m.html == Some(ContactHtml(form))
    ensures m.attachments == []
  {
    Message(From(env), ResolveRecipient(form.location.value, form.job.value, env),
            "New Contact - " + form.job.value + " in " + form.location.value,
            ContactText(form), Some(ContactHtml(form)), [])
  }

  /** The catch block: status 500 with the Error's message; for anything
      else thrown the cause is dropped and "Unknown error" reported. */
  function FailureReply(fault: Fault): (r: Reply)
    ensures r.status == 500 && r.body.FailureBody? && r.body.error == ProcessFailed
    ensures fault.ErrorFault? ==> r.body.details == fault.message
    ensures fault.OtherFault? ==> r.body.details == "Unknown error"
  {
    Reply(500, FailureBody(ProcessFailed, match fault
                                         case ErrorFault(m) => m
                                         case OtherFault(_) => "Unknown error"))
  }

  /** The whole handler. */
  function Handle(request: Request<ContactForm>, env: Env, gateway: Gateway): (x: Exchange)
    // an unreadable body is caught before anything else happens
    ensures request.Unreadable? ==> x == Exchange(FailureReply(request.fault), None, None)
    // location and job are checked first, and nothing else happens when they fail
    ensures request.Parsed? && !(Truthy(request.form.location) && Truthy(request.form.job))
            ==> x == Exchange(Reply(400, ErrorBody(LocationJobRequired)), None, None)
    // the name is checked only once location and job pass
    ensures request.Parsed? && Truthy(request.form.location) && Truthy(request.form.job) && !Truthy(request.form.name)
            ==> x == Exchange(Reply(400, ErrorBody(NameRequired)), None, None)
    // the configuration is checked only after validation, and before any transport exists
    ensures request.Parsed? && Valid(request.form) && !Configured(env)
            ==> x == Exchange(Reply(500, FailureBody(ProcessFailed, NotConfigured)), None, None)
    // a transport is created and verified only for valid input and a configured service
    ensures x.transport.Some? ==> request.Parsed? && Valid(request.form) && Configured(env)
                                  && x.transport == Some(ContactTransport(env))
    // the message goes out only after a successful verify, and it is the composed one
    ensures x.sent.Some? <==> x.transport.Some? && gateway.verify(x.transport.value) == Ready
    ensures x.sent.Some? ==> x.sent == Some(ComposeMessage(request.form, env))
    // valid input and a configured service always reach verify
    ensures request.Parsed? && Valid(request.form) && Configured(env) ==> x.transport == Some(ContactTransport(env))
    // a verify fault is reported as the catch block reports it, and nothing is sent
    ensures x.transport.Some? && gateway.verify(x.transport.value).VerifyFailed? ==>
              x.reply == FailureReply(gateway.verify(x.transport.value).fault) && x.sent.None?
    // a sendMail fault is reported as the catch block reports it
    ensures x.sent.Some? && gateway.send(x.transport.value, x.sent.value).SendFailed? ==>
              x.reply == FailureReply(gateway.send(x.transport.value, x.sent.value).fault)
    // success is exactly a delivered message, and it reports the message id
    ensures x.reply.status == 200 <==> x.sent.Some? && gateway.send(x.transport.value, x.sent.value).Delivered?
    ensures x.reply.status == 200 ==>
              x.reply.body == SuccessBody(Some(gateway.send(x.transport.value, x.sent.value).messageId))
    // every other outcome is a 400 before any transport, or a 500 with details
    ensures x.reply.status != 200 ==>
              (x.reply.status == 400 && x.transport.None?) || (x.reply.status == 500 && x.reply.body.FailureBody?)
  {
    match request
    case Unreadable(fault) => Exchange(FailureReply(fault), None, None)
    case Parsed(form) =>
      if !Truthy(form.location) || !Truthy(form.job) then
        Exchange(Reply(400, ErrorBody(LocationJobRequired)), None, None)
      else if !Truthy(form.name) then
        Exchange(Reply(400, ErrorBody(NameRequired)), None, None)
      else if !Configured(env) then
        Exchange(FailureReply(ErrorFault(NotConfigured)), None, None)
      else
        var transport := ContactTransport(env);
        match gateway.verify(transport)
        case VerifyFailed(fault) => Exchange(FailureReply(fault), Some(transport), None)
        case Ready =>
          var message := ComposeMessage(form, env);
          match gateway.send(transport, message)
          case SendFailed(fault) => Exchange(FailureReply(fault), Some(transport), Some(message))
          case Delivered(id) => Exchange(Reply(200, SuccessBody(Some(id))), Some(transport), Some(message))
  }
}
