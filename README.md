# Lead-intake handler

A model of the serverless handler behind the site's lead-capture form
(`api/submit-form.ts`). One invocation:

1. rejects any method other than `POST` with 405 `{error: 'Method not allowed'}`;
2. destructures the body and creates one page in the Notion lead database,
   with a composed name, the email, a phone property only for a truthy phone,
   defaults for organization (`''`), industry and experience (`'Not specified'`)
   and source (`'Unknown'`), a resource property only for a truthy title, and
   the submission instant;
3. if that write throws, answers 500 `{error: 'Failed to submit form', details}`
   and sends nothing;
4. otherwise, when the submitter gave an email address, sends through Resend
   the resource email (when the title is in the title-to-PDF catalog and the
   PDF could be read) and then the confirmation email (when the source is
   `'Contact Form'` or `'Executive Briefing'`), each failure swallowed on its own;
5. answers 200 `{success: true, message: 'Form submitted successfully'}`.

The database, the file system, the email service and the clock are not
called. Their outcomes are fields of `Collaborators`, and every call the
handler makes on them is recorded, in order, in a `seq<Effect>`:
`StoreCreate(properties)` and `SendEmail(to, subject, attachment)`.

Files: `wrappers.dfy` (module `Wrappers`, the `Option` type) and
`submit_form.dfy` (module `SubmitForm`, everything else).

JavaScript values are modelled as follows. A body field is `Option<string>`:
`None` stands for `undefined` and is falsy, as is `Some("")`. The `||`
defaults are `Or`. A template literal prints `None` as `"undefined"`
(`Interpolate`). A thrown value is either an `Error` with its message or
something else (`Thrown`). The Notion property names are a datatype,
`PropertyName`; `Label` gives each one's name in the database.

`Handle` is the handler as the source writes it: early returns and appends
to the log. `Notify` is the email block, with its nested tests. `Handle` is
proved equal to `Expected`, the declarative outcome of one invocation, and
the properties below are proved about `Expected`.

## Model

| member | source | states |
|---|---|---|
| SubmitForm.Handle | api/submit-form.ts:16-248 | The response and the ordered log of calls are exactly those `Expected` gives for the request and the collaborators' outcomes. |
| SubmitForm.Notify | api/submit-form.ts:109-235 | The emails attempted after a stored record, in order, are the resource email (address, title, a mapped PDF, the read succeeded) followed by the confirmation email (address and a confirming source), each only when its conditions hold. |
| SubmitForm.Expected | api/submit-form.ts:16-248 | A non-POST request gets 405 `Method not allowed` and makes no call. A body that cannot be destructured gets 500 and makes no call. Otherwise the first call is the record write with `BuildPayload`'s properties. A failed write gets 500 and the log holds that write alone. A successful write always gets 200 `Form submitted successfully`, with at most three calls. |
| SubmitForm.PdfFilename | api/submit-form.ts:114-117 | The looked-up file name is truthy exactly when the title is a key of the catalog, and it is then the mapped file name. |
| SubmitForm.LabelsDistinct | api/submit-form.ts:45-102 | The nine property names of the record are pairwise different, so keying the record by `PropertyName` loses no property. |
| SubmitForm.PayloadKeys | api/submit-form.ts:58-92 | The record has the seven fixed properties, plus `Phone` exactly when the phone is truthy and `Resource Downloaded` exactly when the title is truthy; otherwise these keys are absent rather than empty. |
| SubmitForm.PayloadDefaults | api/submit-form.ts:63-97 | For a falsy input, Organization is `''`, Industry and Experience are `'Not specified'` and Source is `'Unknown'`. |
| SubmitForm.PayloadPassThrough | api/submit-form.ts:45-102 | Name is `firstName + " " + lastName`. Email is passed through unchanged, missing or not. Truthy phone, organization, industry, experience, title and source are carried over unchanged. The date is the submission instant. |
| SubmitForm.StoreFailureAborts | api/submit-form.ts:241-247 | A failed write answers 500 `Failed to submit form`. Its details are the error's message, or `Unknown error` for a thrown non-Error. The log holds only the write. |
| SubmitForm.NoEmailWithoutRecord | api/submit-form.ts:16-104 | A rejected method, an unreadable body or a failed write sends no email and does not answer 200. |
| SubmitForm.EmailsAfterStoredLead | api/submit-form.ts:106-235 | After a successful write, every later call is an email, and there are at most two. |
| SubmitForm.AttachmentEmailRule | api/submit-form.ts:109-155 | An email with an attachment is sent iff the email and the title are truthy, the title is a catalog key and the PDF was read. It is the first email and the only one with an attachment. It goes to the submitter with subject `Your C12 Resource: <title>` and the mapped file name. An unmapped title sends no such email and still answers 200. |
| SubmitForm.ConfirmationEmailRule | api/submit-form.ts:166-228 | An email without an attachment is sent iff the email is truthy and the source is exactly `Contact Form` or `Executive Briefing`. It is the last email and goes to the submitter. Its subject is `Thank You for Your Interest in C12 Executive Briefing` for the latter source and `Thank You for Contacting C12 Indianapolis` for the former. |
| SubmitForm.ConfirmationSide | api/submit-form.ts:166-177 | After a successful write, the emails without an attachment are exactly the confirmation email, when it is due. |
| SubmitForm.NotificationFailuresIsolated | api/submit-form.ts:109-240 | Changing the outcome of the PDF read or of either send changes neither the response nor whether the confirmation email is sent. |
| SubmitForm.NoDeduplication | api/submit-form.ts:41-104 | Each accepted call begins with its own record write, stamped with that call's instant, so the same submission handled twice writes two records. |

## Left out

- The Notion and Resend clients, their construction and the environment variables (database id, API keys, sender address, site URL) are not modelled. The calls are effects in the log, and the outcomes are inputs.
- The PDF file read, the path join and the base64 encoding are not modelled. Only whether the read succeeded is an input, and the log records only the send that follows.
- The clock read `new Date().toISOString()` is not modelled. The instant is the input `Collaborators.now`.
- The HTML email bodies, the sender address and every `console.log` and `console.error` call are not modelled. An email is its recipient, subject and attachment file name.
- What a send reports has no effect in the model: the handler only logs it. Both the Resend SDK's error result and a thrown error end up only in the log output. `Collaborators` carries the two send outcomes only so that `NotificationFailuresIsolated` can show that nothing depends on them.
- Body fields are modelled as strings or `undefined`. Non-string JSON values (numbers, `null`, objects) and the `"null"` that a template literal prints for `null` are not modelled.
- Titles that are names on the JavaScript object prototype (such as `constructor`) are not modelled; the lookup is exact-key membership. Observably this agrees: for such a title `path.join` throws on the non-string it gets, that is caught, and no email is sent.
- Request-body parsing is not modelled. A body that cannot be destructured, or whose parsing throws, is the input `Body.Unreadable` with the thrown value. The source runs the destructuring inside its `try`, so this path answers 500 like a failed write.
- Asynchrony is not modelled: the awaited calls run one after another with nothing concurrent.
- `src/pages/Resources.tsx`, `src/components/layout/Navigation.tsx` and `src/components/sections/HeroWithChevron.tsx` are not part of this model. They render the UI and keep local React state, and the resource page's submit handler never calls this endpoint.
