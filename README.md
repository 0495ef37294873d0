# BATP website mail routes, modelled in Dafny

The BATP website has two server routes that turn a browser form into an email.

- **Contact** (`POST /api/send-emails`) takes a JSON contact submission. It checks location and job type, then the name. It picks the recipient from a location × job-type table. When the table has no entry, it falls back to the `FALLBACK_EMAIL` variable and then to a hard-coded address. It checks that the mail account is configured, verifies the SMTP transport, and sends a message with a subject, a text body and an HTML body.
- **Application** (`POST /api/send-emails2`) takes a multipart job application. It checks six required fields in a fixed order and reports the first one missing. It picks the recipient from a one-level office table with a single default. It checks the configuration, verifies the transport, and sends a plain-text message. The uploaded CV is attached when it is a non-empty file.

The model treats each request as a value. A handler maps the parsed request, the process environment and a mail gateway to an `Exchange`, which records three things:

- the HTTP reply;
- the transport that was created and verified, if any;
- the message handed to `sendMail`, if any.

This makes "nothing was sent" and "no transport was created" statements about the result. The gateway is an oracle. It is a pair of total functions that stand for nodemailer's `verify` and `sendMail`: any answer they give, success or a thrown fault, is covered.

Files:

- `js.dfy` (module `Js`): the JavaScript semantics the handlers rely on. This covers truthiness, `||`, template interpolation of absent values, and property lookup on object literals, including the members every object inherits from `Object.prototype`.
- `mail.dfy` (module `Mail`): the environment, faults, transport options, message, gateway, reply and exchange.
- `render.dfy` (module `Render`): a body as a heading plus one line per named field. Lemmas locate each field's line in the rendered text.
- `contact_route.dfy` (module `ContactRoute`): the contact handler, as pure functions.
- `application_route.dfy` (module `ApplicationRoute`): the application handler. It has a specification function `Respond` and an imperative `Handle`. `Handle` runs the required-field loop with an early return and pushes the attachment into a `MailOptions` object in place. It is proved equal to `Respond`.
- `form_choices.dfy` (module `FormChoices`): the options the two browser forms offer, checked against the routing tables.

Points of detail the model takes from the code:

- the routes are `/api/send-emails` and `/api/send-emails2`;
- the error strings are capitalised as they are written in the handlers;
- the contact handler reads the name from the field `name`;
- the application handler also calls `verify` before sending;
- the application transport is nodemailer's `"Gmail"` service, with no host or port settings;
- the attachment filename falls back to `"resume.pdf"` when the name is empty as well as when it is absent.

## Model

| member | source | states |
|---|---|---|
| `ContactRoute.ResolveRecipient` | src/app/api/send-emails/route.ts:43-68 | For each of the 12 location × job-type pairs in the table, the recipient is exactly that entry. For any other pair it is `FALLBACK_EMAIL` when that is non-empty, and otherwise `peter.parker@batp.org`. The recipient is never empty. |
| `ContactRoute.AsWrittenRecipient` | src/app/api/send-emails/route.ts:66-68 | The recipient as the source computes it, with object-literal property lookup. It agrees with `ResolveRecipient` for every job type that does not name an `Object.prototype` member. |
| `ContactRoute.PrototypeJobIsNotAnAddress` | src/app/api/send-emails/route.ts:43-68 | For a known location and a job type such as `"constructor"`, the as-written lookup yields the inherited member. That member is truthy, so neither fallback is reached and the recipient is not a string. |
| `ContactRoute.ContactTransport` | src/app/api/send-emails/route.ts:74-82 | The SMTP options: host is `EMAIL_HOST` or `smtp.gmail.com`, the port is 587 unless `EMAIL_PORT` is set, and `secure` holds exactly when `EMAIL_SECURE` is the string `"true"`. User and password are the configured ones. |
| `ContactRoute.ContactFields` | src/app/api/send-emails/route.ts:90-110 | The seven fields both bodies list, in order: Location, Job Type, Name, Email, Phone, Message, Consent. Phone defaults to "Not provided" and message to "No message provided". Consent is "Given" when true and "Not given" otherwise. An absent email prints "undefined". |
| `ContactRoute.ContactTextIsTemplate` | src/app/api/send-emails/route.ts:90-100 | The text body is the template literal, piece by piece: a line break, "New contact submission:", a blank line, then one `Name: value` line each for Location, Job Type, Name, Email, Phone, Message and Consent with their defaults, then the closing indentation. |
| `ContactRoute.ContactHtmlIsTemplate` | src/app/api/send-emails/route.ts:101-110 | The HTML body is the template literal, piece by piece: the `<h2>New Contact Submission</h2>` heading, then seven `<p><strong>Name:</strong> value</p>` paragraphs in the same order and with the same values as the text body, with a `<br>` in place of the space only for Message, then the closing indentation. |
| `ContactRoute.ContactBodiesAgree` | src/app/api/send-emails/route.ts:90-110 | For each of the seven fields, the text body holds its `Name: value` line and the HTML body holds its paragraph, each at the i-th position and right after field i-1. The line and the paragraph carry the same name and value; only the message goes after a `<br>`. |
| `ContactRoute.ComposeMessage` | src/app/api/send-emails/route.ts:86-111 | The message comes from `"BATP Contact Form" <EMAIL_USER>` and goes to the resolved, non-empty recipient. The subject is `New Contact - <job> in <location>`. It has both bodies and no attachment. |
| `ContactRoute.FailureReply` | src/app/api/send-emails/route.ts:120-128 | The catch block answers 500 "Failed to process request". The details are the Error's message, or "Unknown error" for any other thrown value, whose text is dropped. |
| `ContactRoute.Handle` | src/app/api/send-emails/route.ts:25-130 | Error precedence, from first to last: an unreadable body gives 500; a missing location or job gives 400 "Location and job type are required"; a missing name gives 400 "Name is required"; an unconfigured account gives 500 with details "Email service is not properly configured.". None of these creates a transport or sends anything. Valid input with a configured account always creates the SMTP transport and verifies it. A verify fault is answered by the catch-block reply for that fault, with nothing sent. After a successful verify the composed message is sent, and only then. A send fault is answered by the catch-block reply for that fault. The reply is 200 with the message id exactly when delivery succeeded. |
| `Render.PlainTextLineAt` | src/app/api/send-emails/route.ts:90-100 | In a rendered text body, field i's `Name: value` line sits at the offset of part i+1, and the next field starts where it ends. |
| `Render.HtmlLineAt` | src/app/api/send-emails/route.ts:101-110 | In a rendered HTML body, field i's `<p><strong>Name:</strong> value</p>` paragraph sits at the offset of part i+1, and the next field starts where it ends. |
| `ApplicationRoute.FirstMissing` | src/app/api/send-emails2/route.ts:114-122 | A field the check reports is one whose entry is not truthy. |
| `ApplicationRoute.FirstMissingIsFirst` | src/app/api/send-emails2/route.ts:114-122 | `FirstMissing` reports nothing exactly when every field is present. Otherwise it reports a missing field, and it is the first missing one in the given order. |
| `ApplicationRoute.ConsentIsOnlyCheckedForPresence` | src/app/api/send-emails2/route.ts:116-161 | A consent entry of `"false"` passes validation and is rendered "Consent: No". |
| `ApplicationRoute.ResolveOffice` | src/app/api/send-emails2/route.ts:124-131 | Each of the three offices maps to its table entry. Any other location maps to `williampower@batp.org`. There is no environment tier, and the result is never empty. |
| `ApplicationRoute.AsWrittenRecipient` | src/app/api/send-emails2/route.ts:124-131 | The recipient as the source computes it, with object-literal property lookup. It agrees with `ResolveOffice` for every location that does not name an `Object.prototype` member. |
| `ApplicationRoute.PrototypeLocationIsNotAnAddress` | src/app/api/send-emails2/route.ts:124-131 | For a location such as `"constructor"` or `"__proto__"`, the as-written lookup yields the inherited member rather than a string, so the default is never reached. |
| `ApplicationRoute.FormDataTruthiness` | src/app/api/send-emails2/route.ts:116-160 | How `formData.get` results behave in the handler. A missing entry fails the required check and prints "null". A file entry, even an empty one, passes the check and prints "[object File]". A text entry passes exactly when it prints as non-empty. |
| `ApplicationRoute.OrNotProvided` | src/app/api/send-emails2/route.ts:156-160 | An optional field's printed value is never empty. It is either "Not provided" or the entry as interpolated. |
| `ApplicationRoute.ApplicationFields` | src/app/api/send-emails2/route.ts:151-162 | The eight text-body fields, in order: Name (first, a space, last), Email, Phone, Address, Job Role, Location, Experience, Consent. Phone, address and experience default to "Not provided". Consent is "Yes" only for the exact text `"true"`, and "No" otherwise. |
| `ApplicationRoute.ApplicationTextIsTemplate` | src/app/api/send-emails2/route.ts:151-162 | The text body is the template literal, piece by piece: a line break, "New job application received:", a blank line, then one `Name: value` line each for Name (first, a space, last), Email, Phone, Address, Job Role, Location, Experience and Consent with their defaults, then the closing indentation. |
| `ApplicationRoute.CvAttachments` | src/app/api/send-emails2/route.ts:166-175 | There is one attachment exactly when `cvFile` is a file of positive size; a text entry or an empty file gives none. The attachment carries the file's bytes and declared type. Its filename is the file's name, or `resume.pdf` when that is empty. |
| `ApplicationRoute.Compose` | src/app/api/send-emails2/route.ts:147-175 | The message comes from `"BATP Job Application" <EMAIL_USER>` and goes to the resolved office. The subject is `New Job Application - <jobRole>`. It has the text body, no HTML, and the CV attachments. |
| `ApplicationRoute.FailureReply` | src/app/api/send-emails2/route.ts:181-189 | The catch block answers 500 "Failed to send application". The details are the Error's message, or the `String()` text of any other thrown value, so the cause is always reported. |
| `ApplicationRoute.Respond` | src/app/api/send-emails2/route.ts:109-191 | Error precedence: an unreadable body gives 500; the first missing required field gives 400 `Missing required field: <field>`; an unconfigured account gives 500 "Failed to send application" with the configuration details. None of these creates a transport or sends. Complete input with a configured account always creates the Gmail service transport for that account and verifies it. A verify fault is answered by the catch-block reply for that fault, with nothing sent. After a successful verify the composed message is sent, and only then. A send fault is answered by the catch-block reply for that fault. Success is exactly a delivery, and the reply then has no message id. |
| `ApplicationRoute.Handle` | src/app/api/send-emails2/route.ts:109-191 | The imperative handler computes exactly `Respond`. This covers the required-field loop with its early return and the attachment pushed in place. |
| `ApplicationRoute.MailOptions.constructor` | src/app/api/send-emails2/route.ts:147-164 | A new mailOptions carries the given sender, recipient, subject and text, and an empty attachment list. |
| `ApplicationRoute.MailOptions.Push` | src/app/api/send-emails2/route.ts:170-174 | Pushing appends exactly one attachment to the list. |
| `Js.PropertyOf` | src/app/api/send-emails2/route.ts:131 | Indexing an object literal of strings yields a string exactly for an own key. The result is truthy exactly for a non-empty own entry or for a name every object inherits from `Object.prototype`. |
| `FormChoices.ContactChoicesAreTableKeys` | src/components/Contact/Contact.tsx:33-34 | The contact form offers exactly the table's locations, and for each exactly its job types. Every pair it can submit resolves to its table entry, whatever `FALLBACK_EMAIL` holds. |
| `FormChoices.ApplicationChoicesAreTableKeys` | src/components/JobApplication/JobApplication.tsx:22-26 | Every office the application form offers is a key of the office table, so the default is never reached from the form. The table has one office the form does not offer. |
| `FormChoices.FormNameIsNeverEmpty` | src/components/Contact/Contact.tsx:61-64 | The form sends the name as first name, a space and last name. That is never empty, so "Name is required" never answers a request the form makes. |

## Findings

| source | as written | input that shows it | evidently intended | confidence | as-written member | corrected member |
|---|---|---|---|---|---|---|
| src/app/api/send-emails2/route.ts:131 | `locationEmails[location]` is a property lookup on an object literal. It also finds members inherited from `Object.prototype`, and those are truthy, so `\|\| "williampower@batp.org"` is skipped. | location `"constructor"`: the recipient becomes the `Object` function, not an address | only the table's own keys are found; any other location goes to the default address | high for the lookup; what nodemailer then does was not examined; not executed | `ApplicationRoute.PrototypeLocationIsNotAnAddress` | `ApplicationRoute.ResolveOffice` |
| src/app/api/send-emails/route.ts:66 | `emailMap[location]?.[job]` has the same flaw one level down. A job type naming an inherited member makes the lookup truthy, so neither `FALLBACK_EMAIL` nor the hard-coded address is used. | location `"Philadelphia"`, job `"toString"` | unknown job types reach the fallback chain | high for the lookup; not executed | `ContactRoute.PrototypeJobIsNotAnAddress` | `ContactRoute.ResolveRecipient` |

The rest of the model uses the corrected lookups. The browser forms never send these values (see `FormChoices`), but the routes accept any JSON or multipart body.

## Left out

- Mail transport: nodemailer's `createTransport`, `verify` and `sendMail` are network I/O in a foreign library. The `Gateway` oracle stands for them, with any outcome. A `createTransport` that throws is not modelled.
- Request parsing: `request.json()`, `request.formData()` and `NextResponse` belong to the web framework. A handler receives either the parsed fields or the fault parsing threw, and returns a `Reply`. For a repeated multipart name, only the first entry is kept, as `formData.get` does.
- `Buffer.from(await cvFile.arrayBuffer())`: the file is given as its byte sequence, and reading it cannot fail in the model.
- `ContactRoute.ContactTransport`: a set `EMAIL_PORT` is kept as the text given to `parseInt` (`ParseIntOf`). The number `parseInt` would produce is not modelled.
- `ContactRoute.AsWrittenRecipient`: does not cover a location that itself names an `Object.prototype` member. The lookup would then continue into that member's own properties, which are not modelled.
- Contact JSON values are modelled only as strings or absent, with consent as a boolean where absent means false. Numbers, `null`, arrays and objects in those fields are not modelled.
- The contact payload's `firstName` and `lastName`, which the form spreads into the body (src/components/Contact/Contact.tsx:61-64), are never read by the handler and are not in `ContactForm`.
- Logging (`console.error`) is not modelled.
- HTML escaping: the code does none, and the model asserts none.
- The commented-out earlier application handler (src/app/api/send-emails2/route.ts:1-105) is dead code and is not modelled.
- The React components are not modelled beyond their option lists and the way the contact form builds `name`. This leaves out their state, `fetch`, the 5 MB client-side file check and the client-side required-field checks.
- Retries and idempotence: each call makes at most one `verify` and one `sendMail`, and there is nothing more to model.
