/**
 * The lead-intake HTTP handler: it checks the request method, writes one
 * record to the lead database, sends up to two notification emails, and
 * answers with a JSON status.
 *
 * The collaborators (the database, the local PDF files, the email service)
 * are not called: their outcomes are inputs, and every call the handler makes
 * is recorded, in order, in an effect log.
 */
module SubmitForm {
  import opened Wrappers

  // ---------------------------------------------------------------------
  // JavaScript values
  // ---------------------------------------------------------------------

  /** A form field: `None` is `undefined`, `Some(s)` a string. */
  type Field = Option<string>

  /** JavaScript truthiness of a field: present and not the empty string. */
  predicate Truthy(x: Field) {
    x.Some? && x.value != ""
  }

  /** The `x || fallback` operator on a field. */
  function Or(x: Field, fallback: string): string {
    if Truthy(x) then x.value else fallback
  }

  /** How a field reads inside a template literal `${x}`. */
  function Interpolate(x: Field): string {
    match x
    case Some(s) => s
    case None => "undefined"
  }

  // ---------------------------------------------------------------------
  // Inputs
  // ---------------------------------------------------------------------

  /** The fields destructured from the request body. */
  datatype Form = Form(
    firstName: Field,
    lastName: Field,
    email: Field,
    phone: Field,
    organization: Field,
    industry: Field,
    experience: Field,
    resourceDownloaded: Field,
    source: Field)

  /** A value thrown in JavaScript: an `Error` with its message, or anything else. */
  datatype Thrown = ErrorInstance(message: string) | OtherValue

  /** The request body: destructured, or destructuring it threw. */
  datatype Body = Parsed(form: Form) | Unreadable(thrown: Thrown)

  datatype Request = Request(httpMethod: string, body: Body)

  datatype StoreResult = Created | StoreError(thrown: Thrown)
  datatype ReadResult = ReadOk | ReadFailed
  datatype SendResult = Delivered | SendFailed

  /**
   * What the outside world does during one invocation: the current instant
   * (an ISO-8601 string), the database write, the PDF read, and the two sends.
   * The handler only logs what a send reports, so nothing reads the two send
   * outcomes: they are here so that NotificationFailuresIsolated can vary them.
   */
  datatype Collaborators = Collaborators(
    now: string,
    store: StoreResult,
    pdfRead: ReadResult,
    attachmentSend: SendResult,
    confirmationSend: SendResult)

  // ---------------------------------------------------------------------
  // Outputs
  // ---------------------------------------------------------------------

  /** One property of the database record, by its property type. */
  datatype Property =
    | Title(content: string)
    | EmailAddress(email: Field)
    | PhoneNumber(number: string)
    | RichText(content: string)
    | Select(name: string)
    | Date(start: string)

  /** The record's property names. */
  datatype PropertyName =
    | Name | Email | Phone | Organization | Industry | Experience
    | ResourceDownloaded | Source | DateSubmitted

  /** The name each property has in the lead database. */
  function Label(k: PropertyName): string {
    match k
    case Name => "Name"
    case Email => "Email"
    case Phone => "Phone"
    case Organization => "Organization"
    case Industry => "Industry"
    case Experience => "Experience"
    case ResourceDownloaded => "Resource Downloaded"
    case Source => "Source"
    case DateSubmitted => "Date Submitted"
  }

  /** Distinct property names are distinct keys of the database record. */
  lemma LabelsDistinct(a: PropertyName, b: PropertyName)
    ensures Label(a) == Label(b) ==> a == b
  {
  }

  /** The record's properties by name; an omitted property is an absent key. */
  type Payload = map<PropertyName, Property>

  /** A call the handler makes on a collaborator. */
  datatype Effect =
    | StoreCreate(properties: Payload)
    | SendEmail(to: string, subject: string, attachment: Option<string>)

  datatype ResponseBody =
    | ErrorOnly(error: string)
    | ErrorWithDetails(error: string, details: string)
    | SuccessBody(success: bool, message: string)

  datatype Response = Response(status: int, body: ResponseBody)

  /** The response together with every collaborator call, in the order made. */
  datatype Outcome = Outcome(response: Response, log: seq<Effect>)

  const NotAllowed := Response(405, ErrorOnly("Method not allowed"))
  const Submitted := Response(200, SuccessBody(true, "Form submitted successfully"))

  /** The `details` of the failure response: an Error's message, else a fixed text. */
  function Details(t: Thrown): string {
    match t
    case ErrorInstance(m) => m
    case OtherValue => "Unknown error"
  }

  function Failed(t: Thrown): Response {
    Response(500, ErrorWithDetails("Failed to submit form", Details(t)))
  }

  // ---------------------------------------------------------------------
  // The resource catalog
  // ---------------------------------------------------------------------

  /** Resource title to the PDF file sent for it. */
  const ResourcePdfMap: map<string, string> := map[
    "C12's Strategic Planning Guide" := "strategic-planning-guide.pdf",
    "From Survival to Sustainability" := "survival-to-sustainability.pdf",
    "Customer Loyalty & Referrals" := "customer-loyalty-referrals.pdf"
  ]

  /**
   * `resourcePdfMap[title]`: the mapped file name, `undefined` for any other
   * title. Every mapped name is non-empty, so the handler's truthiness test on
   * the result is exactly catalog membership.
   */
  function PdfFilename(title: string): (r: Field)
    ensures Truthy(r) <==> title in ResourcePdfMap
    ensures title in ResourcePdfMap ==> r == Some(ResourcePdfMap[title])
    ensures title !in ResourcePdfMap ==> r == None
  {
    if title in ResourcePdfMap then Some(ResourcePdfMap[title]) else None
  }

  // ---------------------------------------------------------------------
  // The database record
  // ---------------------------------------------------------------------

  /** The properties of the page created for a lead submitted at `now`. */
  function BuildPayload(f: Form, now: string): Payload
  {
    var always := map[
      Name := Title(Interpolate(f.firstName) + " " + Interpolate(f.lastName)),
      Email := EmailAddress(f.email),
      Organization := RichText(Or(f.organization, "")),
      Industry := Select(Or(f.industry, "Not specified")),
      Experience := Select(Or(f.experience, "Not specified")),
      Source := Select(Or(f.source, "Unknown")),
      DateSubmitted := Date(now)
    ];
    var withPhone := if Truthy(f.phone) then always[Phone := PhoneNumber(f.phone.value)] else always;
    if Truthy(f.resourceDownloaded) then withPhone[ResourceDownloaded := RichText(f.resourceDownloaded.value)]
    else withPhone
  }

  /** The phone and the resource title are omitted, not emptied, when they are falsy. */
  lemma PayloadKeys(f: Form, now: string)
    ensures var p := BuildPayload(f, now);
            p.Keys == {Name, Email, Organization, Industry, Experience, Source, DateSubmitted}
                      + (if Truthy(f.phone) then {Phone} else {})
                      + (if Truthy(f.resourceDownloaded) then {ResourceDownloaded} else {})
            && (Phone in p <==> Truthy(f.phone))
            && (ResourceDownloaded in p <==> Truthy(f.resourceDownloaded))
  {
  }

  /** Any falsy optional field takes its default. */
  lemma PayloadDefaults(f: Form, now: string)
    ensures var p := BuildPayload(f, now);
            (!Truthy(f.organization) ==> p[Organization] == RichText(""))
            && (!Truthy(f.industry) ==> p[Industry] == Select("Not specified"))
            && (!Truthy(f.experience) ==> p[Experience] == Select("Not specified"))
            && (!Truthy(f.source) ==> p[Source] == Select("Unknown"))
  {
  }

  /** Present fields are carried into the record unchanged. */
  lemma PayloadPassThrough(f: Form, now: string)
    ensures var p := BuildPayload(f, now);
            (f.firstName.Some? && f.lastName.Some? ==>
               p[Name] == Title(f.firstName.value + " " + f.lastName.value))
            && p[Email] == EmailAddress(f.email)
            && (Truthy(f.phone) ==> p[Phone] == PhoneNumber(f.phone.value))
            && (Truthy(f.organization) ==> p[Organization] == RichText(f.organization.value))
            && (Truthy(f.industry) ==> p[Industry] == Select(f.industry.value))
            && (Truthy(f.experience) ==> p[Experience] == Select(f.experience.value))
            && (Truthy(f.resourceDownloaded) ==> p[ResourceDownloaded] == RichText(f.resourceDownloaded.value))
            && (Truthy(f.source) ==> p[Source] == Select(f.source.value))
            && p[DateSubmitted] == Date(now)
  {
  }

  // ---------------------------------------------------------------------
  // The notification emails
  // ---------------------------------------------------------------------

  /** The resource email is attempted: an address, a title, and a PDF for that title. */
  predicate AttachmentDue(f: Form) {
    Truthy(f.email) && Truthy(f.resourceDownloaded) && f.resourceDownloaded.value in ResourcePdfMap
  }

  function AttachmentEmail(f: Form): Effect
    requires AttachmentDue(f)
  {
    SendEmail(f.email.value, "Your C12 Resource: " + f.resourceDownloaded.value,
              Some(ResourcePdfMap[f.resourceDownloaded.value]))
  }

  /** The confirmation email is attempted: an address and one of the two confirming sources. */
  predicate ConfirmationDue(f: Form) {
    Truthy(f.email) && (f.source == Some("Contact Form") || f.source == Some("Executive Briefing"))
  }

  function ConfirmationSubject(source: Field): string {
    if source == Some("Executive Briefing") then "Thank You for Your Interest in C12 Executive Briefing"
    else "Thank You for Contacting C12 Indianapolis"
  }

  function ConfirmationEmail(f: Form): Effect
    requires ConfirmationDue(f)
  {
    SendEmail(f.email.value, ConfirmationSubject(f.source), None)
  }

  /** The emails attempted once the record exists: the resource email first, then the confirmation. */
  function Notifications(f: Form, read: ReadResult): seq<Effect> {
    (if AttachmentDue(f) && read == ReadOk then [AttachmentEmail(f)] else [])
    + (if ConfirmationDue(f) then [ConfirmationEmail(f)] else [])
  }

  /** The emails of a log, in order. */
  function EmailsIn(log: seq<Effect>): (r: seq<Effect>)
    ensures |r| <= |log|
    ensures forall e :: e in r <==> e in log && e.SendEmail?
  {
    if log == [] then []
    else (if log[0].SendEmail? then [log[0]] else []) + EmailsIn(log[1..])
  }

  lemma {:induction false} EmailsInAppend(a: seq<Effect>, b: seq<Effect>)
    ensures EmailsIn(a + b) == EmailsIn(a) + EmailsIn(b)
  {
    if a == [] {
      assert a + b == b;
    } else {
      assert (a + b)[1..] == a[1..] + b;
      EmailsInAppend(a[1..], b);
    }
  }

  // ---------------------------------------------------------------------
  // The handler
  // ---------------------------------------------------------------------

  /** What one invocation answers and which calls it makes. */
  function Expected(req: Request, env: Collaborators): (o: Outcome)
    ensures req.httpMethod != "POST" ==> o == Outcome(NotAllowed, [])
    ensures req.httpMethod == "POST" && req.body.Unreadable? ==> o == Outcome(Failed(req.body.thrown), [])
    ensures req.httpMethod == "POST" && req.body.Parsed? ==>
              |o.log| >= 1 && o.log[0] == StoreCreate(BuildPayload(req.body.form, env.now))
    ensures req.httpMethod == "POST" && req.body.Parsed? && env.store.StoreError? ==>
              o == Outcome(Failed(env.store.thrown), [StoreCreate(BuildPayload(req.body.form, env.now))])
    ensures req.httpMethod == "POST" && req.body.Parsed? && env.store.Created? ==>
              o.response == Submitted && |o.log| <= 3
  {
    if req.httpMethod != "POST" then Outcome(NotAllowed, [])
    else
      match req.body
      case Unreadable(t) => Outcome(Failed(t), [])
      case Parsed(f) =>
        var create := StoreCreate(BuildPayload(f, env.now));
        match env.store
        case StoreError(t) => Outcome(Failed(t), [create])
        case Created => Outcome(Submitted, [create] + Notifications(f, env.pdfRead))
  }

  /**
   * The handler itself: each collaborator call is appended to `log` as it is
   * made, and the request stops at the first error it does not swallow.
   */
  method Handle(req: Request, env: Collaborators) returns (resp: Response, log: seq<Effect>)
    ensures Outcome(resp, log) == Expected(req, env)
  {
    log := [];
    if req.httpMethod != "POST" {
      resp := NotAllowed;
      return;
    }
    if req.body.Unreadable? {
      resp := Failed(req.body.thrown);
      return;
    }
    var f := req.body.form;
    log := log + [StoreCreate(BuildPayload(f, env.now))];
    if env.store.StoreError? {
      resp := Failed(env.store.thrown);
      return;
    }
    var sent := Notify(f, env);
    log := log + sent;
    resp := Submitted;
  }

  /**
   * The email step that follows a stored record: the calls it makes, in order.
   * A failed PDF read or send is swallowed where it happens.
   */
  method Notify(f: Form, env: Collaborators) returns (sent: seq<Effect>)
    ensures sent == Notifications(f, env.pdfRead)
  {
    sent := [];
    if Truthy(f.email) {
      if Truthy(f.resourceDownloaded) {
        var pdfFilename := PdfFilename(f.resourceDownloaded.value);
        if Truthy(pdfFilename) {
          // A failed read throws before the send; whatever the send reports is only logged.
          if env.pdfRead == ReadOk {
            sent := sent + [SendEmail(f.email.value, "Your C12 Resource: " + f.resourceDownloaded.value,
                                      Some(pdfFilename.value))];
          }
        }
      }
      ghost var attached := sent;
      if f.source == Some("Contact Form") || f.source == Some("Executive Briefing") {
        var subject := if f.source == Some("Executive Briefing")
                       then "Thank You for Your Interest in C12 Executive Briefing"
                       else "Thank You for Contacting C12 Indianapolis";
        sent := sent + [SendEmail(f.email.value, subject, None)];
      }
      assert sent == attached + if ConfirmationDue(f) then [ConfirmationEmail(f)] else [];
    }
  }

  // ---------------------------------------------------------------------
  // Properties of the handler
  // ---------------------------------------------------------------------

  /** Once the record exists, everything after the write is an email, and there are at most two. */
  lemma EmailsAfterStoredLead(req: Request, env: Collaborators)
    requires req.httpMethod == "POST" && req.body.Parsed? && env.store.Created?
    ensures var log := Expected(req, env).log;
            EmailsIn(log) == log[1..] == Notifications(req.body.form, env.pdfRead) && |EmailsIn(log)| <= 2
  {
    var f := req.body.form;
    var log := Expected(req, env).log;
    var create := StoreCreate(BuildPayload(f, env.now));
    assert log == [create] + Notifications(f, env.pdfRead);
    EmailsInAppend([create], Notifications(f, env.pdfRead));
    assert EmailsIn([create]) == [];
    EmailsOnly(Notifications(f, env.pdfRead));
  }

  /** A log of emails only is its own list of emails. */
  lemma {:induction false} EmailsOnly(log: seq<Effect>)
    requires forall i :: 0 <= i < |log| ==> log[i].SendEmail?
    ensures EmailsIn(log) == log
  {
    if log != [] {
      EmailsOnly(log[1..]);
    }
  }

  /**
   * The resource email is sent exactly when there is an address, a title,
   * a PDF mapped to that title and the PDF was read; it goes first, to the
   * submitter, names the title and carries the mapped file.
   */
  lemma AttachmentEmailRule(req: Request, env: Collaborators)
    requires req.httpMethod == "POST" && req.body.Parsed? && env.store.Created?
    ensures var f := req.body.form;
            var sent := EmailsIn(Expected(req, env).log);
            ((exists e :: e in sent && e.attachment.Some?) <==>
               Truthy(f.email) && Truthy(f.resourceDownloaded)
               && f.resourceDownloaded.value in ResourcePdfMap && env.pdfRead == ReadOk)
            && (forall i :: 1 <= i < |sent| ==> sent[i].attachment.None?)
            && (Truthy(f.email) && Truthy(f.resourceDownloaded)
                && f.resourceDownloaded.value in ResourcePdfMap && env.pdfRead == ReadOk ==>
                  |sent| >= 1
                  && sent[0] == SendEmail(f.email.value, "Your C12 Resource: " + f.resourceDownloaded.value,
                                          Some(ResourcePdfMap[f.resourceDownloaded.value])))
  {
    EmailsAfterStoredLead(req, env);
    var sent := EmailsIn(Expected(req, env).log);
    assert sent == Notifications(req.body.form, env.pdfRead);
  }

  /**
   * The confirmation email is sent exactly when there is an address and the
   * source is "Contact Form" or "Executive Briefing"; it goes last, to the
   * submitter, with the subject chosen by the source and no attachment.
   */
  lemma ConfirmationEmailRule(req: Request, env: Collaborators)
    requires req.httpMethod == "POST" && req.body.Parsed? && env.store.Created?
    ensures var f := req.body.form;
            var sent := EmailsIn(Expected(req, env).log);
            ((exists e :: e in sent && e.attachment.None?) <==>
               Truthy(f.email) && (f.source == Some("Contact Form") || f.source == Some("Executive Briefing")))
            && (Truthy(f.email) && f.source == Some("Executive Briefing") ==>
                  |sent| >= 1
                  && sent[|sent| - 1] == SendEmail(f.email.value,
                       "Thank You for Your Interest in C12 Executive Briefing", None))
            && (Truthy(f.email) && f.source == Some("Contact Form") ==>
                  |sent| >= 1
                  && sent[|sent| - 1] == SendEmail(f.email.value, "Thank You for Contacting C12 Indianapolis", None))
  {
    var f := req.body.form;
    EmailsAfterStoredLead(req, env);
    var sent := EmailsIn(Expected(req, env).log);
    assert sent == Notifications(f, env.pdfRead);
    if ConfirmationDue(f) {
      assert sent[|sent| - 1] == ConfirmationEmail(f);
      if f.source == Some("Contact Form") {
        assert "Contact Form"[0] != "Executive Briefing"[0];
      }
    }
  }

  /**
   * A failed record write answers 500 with the error's message as details
   * ("Unknown error" for a thrown non-Error) and makes no call after the write.
   */
  lemma StoreFailureAborts(req: Request, env: Collaborators)
    requires req.httpMethod == "POST" && req.body.Parsed? && env.store.StoreError?
    ensures var t := env.store.thrown;
            Expected(req, env).response
              == Response(500, ErrorWithDetails("Failed to submit form",
                                                if t.ErrorInstance? then t.message else "Unknown error"))
    ensures Expected(req, env).log == [StoreCreate(BuildPayload(req.body.form, env.now))]
  {
  }

  /** Without a stored record no email is attempted, and a rejected method makes no call at all. */
  lemma NoEmailWithoutRecord(req: Request, env: Collaborators)
    requires req.httpMethod != "POST" || req.body.Unreadable? || env.store.StoreError?
    ensures EmailsIn(Expected(req, env).log) == []
    ensures Expected(req, env).response.status != 200
  {
    if req.httpMethod == "POST" && req.body.Parsed? {
      var create := StoreCreate(BuildPayload(req.body.form, env.now));
      assert EmailsIn([create]) == EmailsIn([create][1..]);
    }
  }

  /**
   * A failed PDF read or a failed send changes neither the response nor the
   * confirmation email; only the resource email can go missing.
   */
  lemma NotificationFailuresIsolated(req: Request, env: Collaborators, env': Collaborators)
    requires env'.now == env.now && env'.store == env.store
    ensures Expected(req, env').response == Expected(req, env).response
    ensures req.httpMethod == "POST" && req.body.Parsed? && env.store.Created? ==>
              forall e: Effect :: e.SendEmail? && e.attachment.None? ==>
                (e in EmailsIn(Expected(req, env).log) <==> e in EmailsIn(Expected(req, env').log))
  {
    if req.httpMethod == "POST" && req.body.Parsed? && env.store.Created? {
      ConfirmationSide(req, env);
      ConfirmationSide(req, env');
    }
  }

  /** The emails without an attachment are exactly the confirmation email when it is due. */
  lemma ConfirmationSide(req: Request, env: Collaborators)
    requires req.httpMethod == "POST" && req.body.Parsed? && env.store.Created?
    ensures forall e: Effect :: e.SendEmail? && e.attachment.None? ==>
              (e in EmailsIn(Expected(req, env).log) <==>
                 ConfirmationDue(req.body.form) && e == ConfirmationEmail(req.body.form))
  {
    EmailsAfterStoredLead(req, env);
  }

  /** Each accepted call creates a record: the same submission twice makes two records. */
  lemma NoDeduplication(req: Request, env1: Collaborators, env2: Collaborators)
    requires req.httpMethod == "POST" && req.body.Parsed?
    ensures var both := Expected(req, env1).log + Expected(req, env2).log;
            both[0] == StoreCreate(BuildPayload(req.body.form, env1.now))
            && both[|Expected(req, env1).log|] == StoreCreate(BuildPayload(req.body.form, env2.now))
  {
  }
}
