/** The job application handler (POST /api/send-emails2): checks six
    required multipart fields in a fixed order and reports the first one
    missing; resolves the recipient from a one-level office table with one
    hard-coded default; checks the mail configuration; composes a plain-text
    message; attaches the uploaded CV when there is a non-empty file; and
    hands the message to the gateway after verifying the transport. */
module ApplicationRoute {
  import opened Js
  import opened Mail
  import opened Render

  /** A multipart entry: a text value or an uploaded file (whose size is the
      number of its bytes). */
  datatype Entry = Text(text: string) | File(name: string, mimeType: string, bytes: seq<bv8>)

  /** The parsed multipart body: the first entry under each name. */
  type FormEntries = map<string, Entry>

  /** formData.get(key): null when there is no entry. */
  function Get(form: FormEntries, key: string): Option<Entry> {
    if key in form then Some(form[key]) else None
  }

  /** formData.get(key) is truthy: there is an entry and it is not the empty
      string (a file is an object and always truthy). */
  predicate Present(form: FormEntries, key: string) {
    key in form && form[key] != Text("")
  }

  /** `${formData.get(key)}` in a template literal. */
  function Interpolate(e: Option<Entry>): string {
    match e
    case None => "null"
    case Some(Text(s)) => s
    case Some(File(_, _, _)) => "[object File]"
  }

  /** How FormData entries behave in a condition and in a template: an
      absent entry is falsy and prints "null", a file is always truthy and
      prints "[object File]", and a truthy entry never prints as empty. */
  lemma FormDataTruthiness(form: FormEntries, key: string)
    ensures key !in form ==> !Present(form, key) && Interpolate(Get(form, key)) == "null"
    ensures key in form && form[key].File? ==> Present(form, key) && Interpolate(Get(form, key)) == "[object File]"
    ensures key in form && form[key].Text? ==> (Present(form, key) <==> Interpolate(Get(form, key)) != "")
    ensures Present(form, key) ==> Interpolate(Get(form, key)) != ""
  {
  }

  /** `formData.get(key) || 'Not provided'` in a template literal: never
      empty, and either the default or the entry as interpolated. */
  function OrNotProvided(form: FormEntries, key: string): (s: string)
    ensures s != ""
    ensures s == "Not provided" || s == Interpolate(Get(form, key))
  {
    if Present(form, key) then Interpolate(Get(form, key)) else "Not provided"
  }

  const RequiredFields := ["firstName", "lastName", "email", "jobRole", "location", "consent"]
  const MissingField := "Missing required field: "
  const SendFailure := "Failed to send application"
  const OfficeDefault := "williampower@batp.org"
  const DefaultFilename := "resume.pdf"

  /** locationEmails: office -> mailbox. */
  const LocationEmails: map<string, string> := map[
    "Bala Cynwyd Office" := "qwenton.balawejder@batp.org",
    "Philadelphia Office" := "samantha.power@batp.org",
    "South Philadelphia Satellite Office" := "williampower@batp.org"
  ]

  /** The first field, in the given order, whose entry is not truthy. */
  function FirstMissing(fields: seq<string>, form: FormEntries): (r: Option<string>)
    ensures r.Some? ==> !Present(form, r.value)
  {
    if fields == [] then None
    else if !Present(form, fields[0]) then Some(fields[0])
    else FirstMissing(fields[1..], form)
  }

  /** FirstMissing reports nothing exactly when every field is present, and
      otherwise reports the missing field that comes first. */
  lemma {:induction false} FirstMissingIsFirst(fields: seq<string>, form: FormEntries)
    ensures FirstMissing(fields, form).None? <==> forall k :: 0 <= k < |fields| ==> Present(form, fields[k])
    ensures FirstMissing(fields, form).Some? ==>
              FirstMissing(fields, form).value in fields && !Present(form, FirstMissing(fields, form).value)
    ensures forall i :: 0 <= i < |fields| && !Present(form, fields[i]) && (forall k :: 0 <= k < i ==> Present(form, fields[k]))
              ==> FirstMissing(fields, form) == Some(fields[i])
  {
    if fields != [] {
      FirstMissingIsFirst(fields[1..], form);
      if Present(form, fields[0]) {
        forall i | 0 < i < |fields| && !Present(form, fields[i]) && (forall k :: 0 <= k < i ==> Present(form, fields[k]))
          ensures FirstMissing(fields[1..], form) == Some(fields[1..][i - 1])
        {
          assert forall k :: 0 <= k < i - 1 ==> fields[1..][k] == fields[k + 1];
        }
        assert forall k :: 0 <= k < |fields| - 1 ==> fields[1..][k] == fields[k + 1];
      }
    }
  }

  /** `locationEmails[location] || "williampower@batp.org"`, with own-key
      lookup (see AsWrittenRecipient for the literal lookup). There is no
      environment-variable tier. */
  function ResolveOffice(location: string): (r: string)
    ensures r != ""
    ensures location in LocationEmails ==> r == LocationEmails[location]
    ensures location !in LocationEmails ==> r == OfficeDefault
  {
    Or(if location in LocationEmails then Some(LocationEmails[location]) else None, OfficeDefault)
  }

  /** The recipient exactly as the source computes it: property lookup on the
      object literal, which also finds the members of Object.prototype. */
  function AsWrittenRecipient(location: string): (v: JsValue)
    ensures location !in ObjectPrototypeNames ==> v == Str(ResolveOffice(location))
  {
    JsOr(PropertyOf(LocationEmails, location), Str(OfficeDefault))
  }

  /** A location named like an Object.prototype member ("constructor",
      "toString", "__proto__", ...) yields that member, which is truthy, so
      the default is not reached and the recipient is not an address. */
  lemma PrototypeLocationIsNotAnAddress(location: string)
    requires location in ObjectPrototypeNames
    ensures !AsWrittenRecipient(location).Str?
    ensures AsWrittenRecipient(location) == Inherited(location)
  {
  }

  /** Validation only asks for a truthy entry: a consent of "false" passes,
      and the body then shows "No"; only the exact text "true" shows "Yes". */
  lemma ConsentIsOnlyCheckedForPresence(form: FormEntries)
    requires Get(form, "consent") == Some(Text("false"))
    ensures Present(form, "consent")
    ensures ApplicationFields(form)[7] == Field("Consent", "No", false)
  {
  }

  const TextHeading := "New job application received:"

  /** The eight fields of the text body, in order, with their defaults. */
  function ApplicationFields(form: FormEntries): (fields: seq<Field>)
    ensures |fields| == 8
    ensures forall i :: 0 <= i < 8 ==>
              fields[i].name == ["Name", "Email", "Phone", "Address", "Job Role", "Location", "Experience", "Consent"][i]
    ensures fields[0].value == Interpolate(Get(form, "firstName")) + " " + Interpolate(Get(form, "lastName"))
    ensures fields[1].value == Interpolate(Get(form, "email"))
    ensures fields[2].value == if Present(form, "phone") then Interpolate(Get(form, "phone")) else "Not provided"
    ensures fields[3].value == if Present(form, "address") then Interpolate(Get(form, "address")) else "Not provided"
    ensures fields[6].value == if Present(form, "experience") then Interpolate(Get(form, "experience")) else "Not provided"
    ensures fields[4].value == Interpolate(Get(form, "jobRole"))
    ensures fields[5].value == Interpolate(Get(form, "location"))
    ensures fields[7].value == if Get(form, "consent") == Some(Text("true")) then "Yes" else "No"
  {
    [ Field("Name", Interpolate(Get(form, "firstName")) + " " + Interpolate(Get(form, "lastName")), false),
      Field("Email", Interpolate(Get(form, "email")), false),
      Field("Phone", OrNotProvided(form, "phone"), false),
      Field("Address", OrNotProvided(form, "address"), false),
      Field("Job Role", Interpolate(Get(form, "jobRole")), false),
      Field("Location", Interpolate(Get(form, "location")), false),
      Field("Experience", OrNotProvided(form, "experience"), false),
      Field("Consent", if Get(form, "consent") == Some(Text("true")) then "Yes" else "No", false) ]
  }

  /** The text template: "New job application received:" and one
      "Name: value" line per field. */
  function ApplicationText(form: FormEntries): string {
    PlainText(TextHeading, ApplicationFields(form))
  }

  /** The text body is the source's template literal, piece by piece: the
      heading line, then each "Name: value" line on its own line, then the
      closing indentation. */
  lemma ApplicationTextIsTemplate(form: FormEntries)
    ensures ApplicationText(form)
         == "\n" + "New job application received:" + "\n"
            + ("\n" + "Name" + ": " + (Interpolate(Get(form, "firstName")) + " " + Interpolate(Get(form, "lastName"))))
            + ("\n" + "Email" + ": " + Interpolate(Get(form, "email")))
            + ("\n" + "Phone" + ": " + (if Present(form, "phone") then Interpolate(Get(form, "phone")) else "Not provided"))
            + ("\n" + "Address" + ": " + (if Present(form, "address") then Interpolate(Get(form, "address")) else "Not provided"))
            + ("\n" + "Job Role" + ": " + Interpolate(Get(form, "jobRole")))
            + ("\n" + "Location" + ": " + Interpolate(Get(form, "location")))
            + ("\n" + "Experience" + ": "
               + (if Present(form, "experience") then Interpolate(Get(form, "experience")) else "Not provided"))
            + ("\n" + "Consent" + ": " + (if Get(form, "consent") == Some(Text("true")) then "Yes" else "No"))
            + "\n      "
  {
    PlainTextOfEight(TextHeading, ApplicationFields(form));
  }

  /** The CV attachment list: one attachment exactly when the cvFile entry
      is a file of positive size (a text entry has no size), none otherwise. */
  function CvAttachments(cv: Option<Entry>): (r: seq<Attachment>)
    ensures |r| <= 1
    ensures |r| == 1 <==> cv.Some? && cv.value.File? && |cv.value.bytes| > 0
    ensures |r| == 1 ==> r[0].content == cv.value.bytes && r[0].contentType == cv.value.mimeType
    ensures |r| == 1 ==> r[0].filename == (if cv.value.name == "" then DefaultFilename else cv.value.name)
  {
    if cv.Some? && cv.value.File? && |cv.value.bytes| > 0 then
      [Attachment(Or(Some(cv.value.name), DefaultFilename), cv.value.bytes, cv.value.mimeType)]
    else []
  }

  function From(env: Env): string
    requires Configured(env)
  {
    "\"BATP Job Application\" <" + env["EMAIL_USER"] + ">"
  }

  /** mailOptions once the attachment step is done. */
  function Compose(form: FormEntries, env: Env): (m: Message)
    requires Configured(env)
    ensures m.from == "\"BATP Job Application\" <" + env["EMAIL_USER"] + ">"
    ensures m.to == ResolveOffice(Interpolate(Get(form, "location"))) && m.to != ""
    ensures m.subject == "New Job Application - " + Interpolate(Get(form, "jobRole"))
    ensures m.text == ApplicationText(form) && m.html.None?
    ensures m.attachments == CvAttachments(Get(form, "cvFile"))
  {
    Message(From(env), ResolveOffice(Interpolate(Get(form, "location"))),
            "New Job Application - " + Interpolate(Get(form, "jobRole")),
            ApplicationText(form), None, CvAttachments(Get(form, "cvFile")))
  }

  /** The catch block: status 500 with the Error's message, or the String()
      form of anything else thrown; the cause is always reported. */
  function FailureReply(fault: Fault): (r: Reply)
    ensures r.status == 500 && r.body.FailureBody? && r.body.error == SendFailure
    ensures fault.ErrorFault? ==> r.body.details == fault.message
    ensures fault.OtherFault? ==> r.body.details == fault.text
  {
    Reply(500, FailureBody(SendFailure, match fault
                                        case ErrorFault(m) => m
                                        case OtherFault(text) => text))
  }

  /** What the handler does, as a function of the request, the environment
      and the gateway. */
  function Respond(request: Request<FormEntries>, env: Env, gateway: Gateway): (x: Exchange)
    // an unreadable body is caught before anything else happens
    ensures request.Unreadable? ==> x == Exchange(FailureReply(request.fault), None, None)
    // the first missing required field is reported, and nothing else happens
    ensures request.Parsed? && FirstMissing(RequiredFields, request.form).Some? ==>
              x == Exchange(Reply(400, ErrorBody(MissingField + FirstMissing(RequiredFields, request.form).value)), None, None)
    // the configuration is checked only after validation, and before any transport exists
    ensures request.Parsed? && FirstMissing(RequiredFields, request.form).None? && !Configured(env) ==>
              x == Exchange(Reply(500, FailureBody(SendFailure, NotConfigured)), None, None)
    // a transport is created and verified only for complete input and a configured service
    ensures x.transport.Some? ==>
              request.Parsed? && FirstMissing(RequiredFields, request.form).None? && Configured(env)
              && x.transport == Some(Service("Gmail", env["EMAIL_USER"], env["EMAIL_PASSWORD"]))
    // the message goes out only after a successful verify, and it is the composed one
    ensures x.sent.Some? <==> x.transport.Some? && gateway.verify(x.transport.value) == Ready
    ensures x.sent.Some? ==> x.sent == Some(Compose(request.form, env))
    // complete input and a configured service always reach verify
    ensures request.Parsed? && FirstMissing(RequiredFields, request.form).None? && Configured(env) ==>
              x.transport == Some(Service("Gmail", env["EMAIL_USER"], env["EMAIL_PASSWORD"]))
    // a verify fault is reported as the catch block reports it, and nothing is sent
    ensures x.transport.Some? && gateway.verify(x.transport.value).VerifyFailed? ==>
              x.reply == FailureReply(gateway.verify(x.transport.value).fault) && x.sent.None?
    // a sendMail fault is reported as the catch block reports it
    ensures x.sent.Some? && gateway.send(x.transport.value, x.sent.value).SendFailed? ==>
              x.reply == FailureReply(gateway.send(x.transport.value, x.sent.value).fault)
    // success is exactly a delivered message, and the reply carries no message id
    ensures x.reply.status == 200 <==> x.sent.Some? && gateway.send(x.transport.value, x.sent.value).Delivered?
    ensures x.reply.status == 200 ==> x.reply.body == SuccessBody(None)
    // every other outcome is a 400 before any transport, or a 500 with details
    ensures x.reply.status != 200 ==>
              (x.reply.status == 400 && x.transport.None?) || (x.reply.status == 500 && x.reply.body.FailureBody?)
  {
    match request
    case Unreadable(fault) => Exchange(FailureReply(fault), None, None)
    case Parsed(form) =>
      match FirstMissing(RequiredFields, form)
      case Some(field) => Exchange(Reply(400, ErrorBody(MissingField + field)), None, None)
      case None =>
        if !Configured(env) then Exchange(FailureReply(ErrorFault(NotConfigured)), None, None)
        else
          var transport := Service("Gmail", env["EMAIL_USER"], env["EMAIL_PASSWORD"]);
          match gateway.verify(transport)
          case VerifyFailed(fault) => Exchange(FailureReply(fault), Some(transport), None)
          case Ready =>
            var message := Compose(form, env);
            match gateway.send(transport, message)
            case SendFailed(fault) => Exchange(FailureReply(fault), Some(transport), Some(message))
            case Delivered(_) => Exchange(Reply(200, SuccessBody(None)), Some(transport), Some(message))
  }

  /** The mailOptions object, whose attachment list the handler fills in
      place. */
  class MailOptions {
    const from: string
    const to: string
    const subject: string
    const text: string
    var attachments: seq<Attachment>

    constructor (from: string, to: string, subject: string, text: string)
      ensures this.from == from && this.to == to && this.subject == subject && this.text == text
      ensures attachments == []
    {
      this.from, this.to, this.subject, this.text := from, to, subject, text;
      attachments := [];
    }

    /** attachments.push(a) */
    method Push(a: Attachment)
      modifies this
      ensures attachments == old(attachments) + [a]
    {
      attachments := attachments + [a];
    }

    /** The message sendMail receives. */
    function Snapshot(): Message
      reads this
    {
      Message(from, to, subject, text, None, attachments)
    }
  }

  /** The handler: the required-field loop with its early return, then the
      recipient, the configuration check, verify, the mail options with the
      attachment pushed in place, and sendMail. */
  method Handle(request: Request<FormEntries>, env: Env, gateway: Gateway) returns (x: Exchange)
    ensures x == Respond(request, env, gateway)
  {
    if request.Unreadable? {
      return Exchange(FailureReply(request.fault), None, None);
    }
    var form := request.form;
    var i := 0;
    while i < |RequiredFields|
      invariant 0 <= i <= |RequiredFields|
      invariant FirstMissing(RequiredFields, form) == FirstMissing(RequiredFields[i..], form)
    {
      var field := RequiredFields[i];
      if !Present(form, field) {
        assert FirstMissing(RequiredFields, form) == Some(field);
        return Exchange(Reply(400, ErrorBody(MissingField + field)), None, None);
      }
      assert RequiredFields[i..][1..] == RequiredFields[i + 1..];
      i := i + 1;
    }
    assert RequiredFields[i..] == [];
    assert FirstMissing(RequiredFields, form).None?;

    var location := Interpolate(Get(form, "location"));
    var recipient := ResolveOffice(location);

    if !Configured(env) {
      return Exchange(FailureReply(ErrorFault(NotConfigured)), None, None);
    }
    var transport := Service("Gmail", env["EMAIL_USER"], env["EMAIL_PASSWORD"]);
    var check := gateway.verify(transport);
    if check.VerifyFailed? {
      return Exchange(FailureReply(check.fault), Some(transport), None);
    }

    var options := new MailOptions(From(env), recipient, "New Job Application - " + Interpolate(Get(form, "jobRole")),
                                   ApplicationText(form));
    var cv := Get(form, "cvFile");
    if cv.Some? && cv.value.File? && |cv.value.bytes| > 0 {
      options.Push(Attachment(Or(Some(cv.value.name), DefaultFilename), cv.value.bytes, cv.value.mimeType));
    }

    var message := options.Snapshot();
    assert message == Compose(form, env);
    var delivery := gateway.send(transport, message);
    match delivery
    case SendFailed(fault) => x := Exchange(FailureReply(fault), Some(transport), Some(message));
    case Delivered(_) => x := Exchange(Reply(200, SuccessBody(None)), Some(transport), Some(message));
  }
}
