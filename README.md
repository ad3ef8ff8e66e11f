# Legal document workflow: a Dafny model of its decision logic

The system is a browser application, with two server-side e-mail functions, for drafting employment and
legal documents from templates. A company user fills in a four-step form. They preview the rendered
document and sign it as the company. They then send it to the client, who signs through a tokenised link.
Around this core sit a clause library, a template library, a dashboard, approvals, team and security
settings, and the sign-in page.

This project models the deterministic parts of that workflow, one Dafny module per source file:

- `DocumentStatus`: the four document statuses.
- `DocumentsHook`, `PdfPreview`, `DocumentActions`, `SignatureSection`: the status lifecycle as the call
  sites drive it.
  - `DocumentsHook` is the status write and its choice of signature field.
  - `PdfPreview` is the company-sign chain.
  - `DocumentActions` is the demo "simulate signing" button and the download.
  - `SignatureSection` is the client-sign step.
  - The status write never looks at the current status. The model keeps it that way, and
    `DocumentsHook.FullySignedBackToDraft` shows a fully signed document being written back to draft.
- `HtmlEscape`, `EdgeCommon`, `EsignEmail`, `PdfEmail`: the two e-mail edge functions.
  - `HtmlEscape` is the shared escaper.
  - `EdgeCommon` is their common gate of early returns.
  - `EsignEmail` is the signing-link invitation.
  - `PdfEmail` is the rendered-document mail.
- `PdfGenerator`, `StatusUtils`, `StatusBadge`, `PreviewHeader`, `SignHeader`: the client renderer and the
  status labels, colours and headers.
- `DocumentForm`, `EnvConfig`, `SecuritySettings`, `TemplateLibrary`, `Sidebar`, `AuthPage`: validators and
  parsers.
  - `DocumentForm` is the form steps, the clause toggle and the step index.
  - `EnvConfig` is the testing-mode allow-list.
  - `SecuritySettings` is the password rules.
  - `TemplateLibrary` is the custom-template fields.
  - `Sidebar` is the initials.
  - `AuthPage` is the sign-in/sign-up modes.
- `ClauseLibrary`, `TeamSettings`, `Approvals`, `Dashboard`, `DocumentViewer`: the in-memory list stores,
  the dashboard counters and the zoom clamp.
- `Js`: the JavaScript string primitives these rely on.
  - Truthiness and `||`.
  - `\s` and `trim()`.
  - `split`/`join` and `replace`.
  - `\b\w` capitalisation and ASCII case mapping.

How the source's forms become Dafny:

- A component whose handlers update state step by step is a `class`. Each handler is a method whose
  `ensures` gives its new state in terms of a specification function. The lemmas state the properties of
  those functions.
- Pure mappings and string builders are functions with lemmas.
- Remote calls are not executed. Their outcomes are parameters: Supabase table and RPC calls, edge-function
  invocations, Resend and authentication. The calls a handler makes are recorded, in order, as a trace
  field or a returned sequence. This lets the contracts say which calls happen, with which arguments, and
  which do not.
- Clocks, formatted dates and `DOMPurify.sanitize` are parameters too.

## Model

| member | source | states |
|---|---|---|
| Approvals.StatusColor | src/components/approvals/Approvals.tsx:47-58 | any status other than pending, approved or rejected gets the grey badge |
| Approvals.PriorityColor | src/components/approvals/Approvals.tsx:60-71 | any priority other than high, medium or low gets the grey badge |
| Approvals.ColoursDistinct | src/components/approvals/Approvals.tsx:47-71 | the three statuses have pairwise distinct, non-grey colours; high priority shares the rejected red |
| Approvals.Pending | src/components/approvals/Approvals.tsx:90 | the pending list holds exactly the approvals whose status is "pending" |
| Approvals.Completed | src/components/approvals/Approvals.tsx:91 | the completed list holds exactly the approvals whose status is not "pending" |
| Approvals.Partition | src/components/approvals/Approvals.tsx:90-91 | pending and completed together are a permutation of the approvals, so their lengths add up to the total |
| Approvals.Decide | src/components/approvals/Approvals.tsx:94-98 | same length and order; each approval with the id takes the new status, every other approval is kept |
| Approvals.DecidedLeavesPending | src/components/approvals/Approvals.tsx:90-110 | after approving or rejecting an id no pending approval has that id, and the pending list loses exactly those |
| Approvals.Board.constructor | src/components/approvals/Approvals.tsx:88 | the board starts with the given approvals |
| Approvals.Board.Approve | src/components/approvals/Approvals.tsx:93-98 | the list becomes Decide(old list, id, "approved") |
| Approvals.Board.Reject | src/components/approvals/Approvals.tsx:105-110 | the list becomes Decide(old list, id, "rejected") |
| AuthPage.WithField | src/pages/Auth.tsx:25-30 | exactly the named input takes the value; the mode and the other inputs are kept |
| AuthPage.SubmitCalls | src/pages/Auth.tsx:37-67 | at most one call; none exactly for a sign-up with a blank full name; a sign-in uses the e-mail and password |
| AuthPage.AfterSubmit | src/pages/Auth.tsx:55-97 | sign-in and refused sign-up leave the form; the e-mail is always kept; any change switches sign-up to sign-in |
| AuthPage.SignUpMode | src/pages/Auth.tsx:69-97 | a sign-up stays in sign-up mode iff it was refused, threw, or failed without an "exists" message; success keeps only the e-mail |
| AuthPage.AlreadyExistsAnyCase | src/pages/Auth.tsx:72-73 | a message containing the phrase in any letter case, anywhere, counts as "already exists" |
| AuthPage.CapitalisedPhrase | src/pages/Auth.tsx:72 | "Already Registered" lower-cases to the searched phrase |
| AuthPage.Toggled | src/pages/Auth.tsx:224-227 | the toggle flips the mode and empties all three inputs |
| AuthPage.ToggleTwice | src/pages/Auth.tsx:224-227 | toggling twice returns to the mode with an empty form |
| AuthPage.Page.constructor | src/pages/Auth.tsx:13-19 | sign-in mode, empty inputs, not loading, no calls |
| AuthPage.Page.HandleSubmit | src/pages/Auth.tsx:32-108 | calls made are SubmitCalls, the form becomes AfterSubmit, home is reached only by a successful sign-in, loading ends false on every path |
| AuthPage.Page.HandleInputChange | src/pages/Auth.tsx:25-30 | the form becomes WithField(old form, field, value) |
| AuthPage.Page.Toggle | src/pages/Auth.tsx:224-227 | the form becomes Toggled(old form) |
| ClauseLibrary.Matches | src/components/clauses/ClauseLibrary.tsx:103-105 | the filter's test: the lower-cased search occurs in the lower-cased title or description, and the category matches unless "All" is selected; see FilteredIsSubsequence |
| ClauseLibrary.NewClause | src/components/clauses/ClauseLibrary.tsx:132-138 | the clause the add handler prepends: the form's fields, usage 0, last used "Never"; see Library.AddClause |
| ClauseLibrary.Filtered | src/components/clauses/ClauseLibrary.tsx:102-108 | a clause is kept iff it is in the library, its title or description contains the search ignoring case, and its category is selected or "All" is |
| ClauseLibrary.FilteredIsSubsequence | src/components/clauses/ClauseLibrary.tsx:102 | the filtered list is an order-preserving subsequence of the library |
| ClauseLibrary.ShowAll | src/components/clauses/ClauseLibrary.tsx:86-108 | with the initial empty search and "All" every clause is shown, in order |
| ClauseLibrary.MaxId | src/components/clauses/ClauseLibrary.tsx:131 | `Math.max(0, ...ids)`: non-negative, at least every id, and either 0 or one of the ids |
| ClauseLibrary.NextId | src/components/clauses/ClauseLibrary.tsx:131 | the new id is at least 1 and strictly above every existing id |
| ClauseLibrary.EditClauses | src/components/clauses/ClauseLibrary.tsx:121-125 | same length; a clause with the edited id gets the form's fields and "Just now" with its id and usage count kept; every other clause is kept |
| ClauseLibrary.DeleteClauses | src/components/clauses/ClauseLibrary.tsx:168 | a clause remains iff it was there and its id differs from the deleted one |
| ClauseLibrary.DeleteShape | src/components/clauses/ClauseLibrary.tsx:168 | delete keeps the order of the rest and shortens the list by exactly the number of clauses with that id |
| ClauseLibrary.DistinctIdsKept | src/components/clauses/ClauseLibrary.tsx:121-168 | add, edit and delete keep the ids pairwise distinct |
| ClauseLibrary.DeleteDistinct | src/components/clauses/ClauseLibrary.tsx:168 | deleting keeps the ids pairwise distinct |
| ClauseLibrary.Library.constructor | src/components/clauses/ClauseLibrary.tsx:82-95 | the given clauses, empty search, category "All", closed and empty form |
| ClauseLibrary.Library.CloseModal | src/components/clauses/ClauseLibrary.tsx:182-186 | the form closes, nothing is being edited, the form is emptied |
| ClauseLibrary.Library.EditClause | src/components/clauses/ClauseLibrary.tsx:148-157 | the form opens on the clause with its four text fields |
| ClauseLibrary.Library.AddClause | src/components/clauses/ClauseLibrary.tsx:110-146 | without title or content nothing changes; otherwise the edit or a prepended new clause with NextId, "Never" and usage 0, and the form closes |
| ClauseLibrary.Library.DeleteClause | src/components/clauses/ClauseLibrary.tsx:167-168 | the list becomes DeleteClauses(old list, the clause's id) |
| Dashboard.CountIn | src/components/dashboard/Dashboard.tsx:49-51 | a filter-count is at most the number of rows, and 0 exactly when no row's status is in the set |
| Dashboard.CountInUnion | src/components/dashboard/Dashboard.tsx:50 | counts over disjoint status sets add up to the count over their union |
| Dashboard.CountInAll | src/components/dashboard/Dashboard.tsx:48-51 | when every row's status is in the set, every row is counted |
| Dashboard.StatsOf | src/components/dashboard/Dashboard.tsx:47-52 | total is the number of rows, and pending + sent + completed never exceeds it |
| Dashboard.CountedNames | src/components/dashboard/Dashboard.tsx:49-51 | pending counts draft, sent counts sent_for_signature or company_signed, completed counts fully_signed, and together they are exactly the four statuses |
| Dashboard.StatsSumKnown | src/components/dashboard/Dashboard.tsx:48-51 | when every row has one of the four statuses, the three counters add up to the total |
| Dashboard.StatsSumUnknown | src/components/dashboard/Dashboard.tsx:48-51 | one row with another status makes the three counters add up to less than the total |
| Dashboard.CountOutside | src/components/dashboard/Dashboard.tsx:49-51 | a row whose status is outside the set is not counted |
| Dashboard.Recent | src/components/dashboard/Dashboard.tsx:55 | the recent list is the first min(5, n) rows, in fetched order |
| Dashboard.FirstName | src/components/dashboard/Dashboard.tsx:67 | never empty; "User" without a user; the metadata first name when present; an `@` can only come from the first name |
| Dashboard.FirstNameFromEmail | src/components/dashboard/Dashboard.tsx:67 | without a first name, `local@domain` greets `local`, and an address starting with `@` greets "User" |
| Dashboard.Board.constructor | src/components/dashboard/Dashboard.tsx:22-29 | loading, zero counters, no recent documents, no fetch |
| Dashboard.Board.FetchDashboardData | src/components/dashboard/Dashboard.tsx:32-62 | nothing happens without a user; otherwise one fetch for the user, counters and recent list from the rows when there are rows, and loading ends |
| DocumentActions.DashSpaces | src/components/preview/DocumentActions.tsx:37 | `replace(/\s+/g, '-')`: the result has no whitespace, is no longer than the input, and text without whitespace is kept as it is |
| DocumentActions.VisibleTrimStart | src/components/preview/DocumentActions.tsx:37 | dropping a leading whitespace run keeps the visible characters |
| DocumentActions.DashSpacesVisible | src/components/preview/DocumentActions.tsx:37 | the dashes only replace whitespace: the characters that are neither whitespace nor dash are kept, in order |
| DocumentActions.TrimStartRun | src/components/preview/DocumentActions.tsx:37 | the whitespace run the regex matches is exactly the leading run |
| DocumentActions.DashSpacesRun | src/components/preview/DocumentActions.tsx:37 | a whitespace run of any length becomes a single dash |
| DocumentActions.Interpolated | src/components/preview/DocumentActions.tsx:37 | a value in a template literal reads as its text, a missing one as "undefined" |
| DocumentActions.DownloadName | src/components/preview/DocumentActions.tsx:31-49 | a file name exists exactly when the template object and the form data are there (otherwise the property access throws); a template without a name still gives a file, its name read as "undefined" |
| DocumentActions.DownloadNameShape | src/components/preview/DocumentActions.tsx:37 | for a stored status the name is the template's name (or "undefined"), "-", employee name or "document", "-", the status unchanged, ".html" |
| DocumentActions.NameHasNoSpace | src/components/preview/DocumentActions.tsx:37 | none of the four stored statuses contains whitespace |
| DocumentActions.NamelessTemplate | src/components/preview/DocumentActions.tsx:37 | a template without a name still gives a file, named "undefined-<employee or document>-<status>.html" |
| DocumentActions.DownloadMessage | src/components/preview/DocumentActions.tsx:43-54 | a failed download gets the error text; a successful one gets the "signed" text iff the status is fully_signed, the other text otherwise |
| DocumentActions.HandleDownload | src/components/preview/DocumentActions.tsx:28-58 | the saved file is DownloadName (none when the template or form data is missing, "undefined-..." for a nameless template), the message is DownloadMessage, and isDownloading ends false |
| DocumentActions.SimulateOffered | src/components/preview/DocumentActions.tsx:103 | the demo signing button is offered exactly for sent_for_signature; see SimulateClientSigning |
| DocumentActions.SimulateClientSigning | src/components/preview/DocumentActions.tsx:60-80 | the page status becomes fully_signed, so the button is no longer offered, and isDownloading ends false |
| DocumentForm.FindFrom | src/components/forms/DocumentForm.tsx:102 | the first index at or after k holding the character, or the length when there is none |
| DocumentForm.FindBack | src/components/forms/DocumentForm.tsx:102 | the last index at or before k holding the character, or -1 when there is none |
| DocumentForm.ValidateEmail | src/components/forms/DocumentForm.tsx:101-104 | `validateEmail`, scanning for the regex's shape; see ValidateEmailMatches |
| DocumentForm.ValidateEmailMatches | src/components/forms/DocumentForm.tsx:101-104 | the scanning check accepts exactly the strings `^\S+@\S+\.\S+$` matches |
| DocumentForm.ValidateName | src/components/forms/DocumentForm.tsx:111-113 | `validateName`; see ValidNameShape |
| DocumentForm.ValidNameShape | src/components/forms/DocumentForm.tsx:111-113 | a valid name holds a letter, apostrophe or hyphen, and any digit or full stop (so a company name such as "Acme Inc.") makes a name invalid |
| DocumentForm.RequiredClauses | src/components/forms/DocumentForm.tsx:34-89 | the required clauses of the catalogue are exactly the three preselected ones |
| DocumentForm.Remove | src/components/forms/DocumentForm.tsx:211 | the result holds exactly the selected ids other than the removed one |
| DocumentForm.Toggle | src/components/forms/DocumentForm.tsx:204-214 | `toggleClause`'s new selection: unchanged for a required clause, otherwise appended or removed; see ToggleMembership |
| DocumentForm.ToggleMembership | src/components/forms/DocumentForm.tsx:204-214 | a required clause is never toggled; otherwise only that id's membership flips, and toggling twice restores every membership |
| DocumentForm.ClauseSelectionValid | src/components/forms/DocumentForm.tsx:189-214 | the preselection has every required clause, and no toggle loses one |
| DocumentForm.NameErrorCases | src/components/forms/DocumentForm.tsx:128-147 | no error iff the name is valid; a blank name gets the "required" message, any other invalid one the pattern message |
| DocumentForm.EmailErrorPrecedence | src/components/forms/DocumentForm.tsx:134-155 | one message at most, in the order required, format, allow-list; no error iff non-blank, matching the regex and admitted by the allow-list |
| DocumentForm.RecordEmpty | src/components/forms/DocumentForm.tsx:123-201 | recording an error leaves the map empty iff it was empty and there was no error |
| DocumentForm.RecordLookup | src/components/forms/DocumentForm.tsx:123-201 | a recorded error is that field's entry, and every other field keeps its entry |
| DocumentForm.StepErrors | src/components/forms/DocumentForm.tsx:122-202 | the error map `validateStep` builds for a step, check by check; see Step1Valid, Step2Valid, Step3Valid |
| DocumentForm.Step1Valid | src/components/forms/DocumentForm.tsx:126-201 | step 1 records no error iff both names are valid and neither e-mail has an error |
| DocumentForm.Step2Valid | src/components/forms/DocumentForm.tsx:158-201 | step 2 records no error iff position and salary are filled in, the salary is a number, a frequency is chosen, the start date is set and not before today, and a set end date is after it |
| DocumentForm.StartInPast | src/components/forms/DocumentForm.tsx:163-171 | a start date before today is always reported as in the past |
| DocumentForm.EndNotAfter | src/components/forms/DocumentForm.tsx:183-186 | an end date not after the start date is always reported |
| DocumentForm.Step3Valid | src/components/forms/DocumentForm.tsx:189-197 | step 3 records no error iff every required clause is selected |
| DocumentForm.ClearError | src/components/forms/DocumentForm.tsx:96-98 | the same fields keep their errors except the updated one, whose error (if any) becomes "" |
| DocumentForm.AsWrittenPreviewStatus | src/components/forms/DocumentForm.tsx:244 | the status handed to the preview, "Draft", is none of the four stored statuses, though it lower-cases to "draft" |
| DocumentForm.AsWrittenPreviewMisread | src/components/forms/DocumentForm.tsx:244 | with it the preview describes the new document as "Processing document" and the company line does not ask for a signature |
| DocumentForm.PreviewStatus | src/components/forms/DocumentForm.tsx:244 | the corrected status reads back as the draft status |
| DocumentForm.PreviewStatusRead | src/components/forms/DocumentForm.tsx:244 | with it the preview gets a real status description and shows "[Company Signature Required]" |
| DocumentForm.Form.constructor | src/components/forms/DocumentForm.tsx:68-91 | step 1, no errors, empty fields and the three required clauses preselected |
| DocumentForm.Form.UpdateText | src/components/forms/DocumentForm.tsx:93-99 | exactly the one text field takes the value, and only its error is cleared |
| DocumentForm.Form.UpdateStartDate | src/components/forms/DocumentForm.tsx:93-99 | the start date takes the value, and only its error is cleared |
| DocumentForm.Form.UpdateEndDate | src/components/forms/DocumentForm.tsx:93-99 | the end date takes the value, and only its error is cleared |
| DocumentForm.Form.ValidateStep | src/components/forms/DocumentForm.tsx:122-202 | the installed error map is that step's errors (none for step 4), and the result is true iff the map is empty |
| DocumentForm.Form.ToggleClause | src/components/forms/DocumentForm.tsx:204-214 | the selection becomes Toggle(old selection, id); nothing else in the data changes |
| DocumentForm.Form.NextStep | src/components/forms/DocumentForm.tsx:216-228 | the step advances by one exactly when its validation passes and it is below 4, so it stays in 1..4 |
| DocumentForm.Form.PrevStep | src/components/forms/DocumentForm.tsx:230-234 | the step goes back by one only above 1, so it stays in 1..4 |
| DocumentForm.Form.HandlePreview | src/components/forms/DocumentForm.tsx:238-254 | a preview document exists iff the current step passes; it carries the template, the data, the time and the status text "Draft" as the handler writes it |
| DocumentStatus.Parse | src/hooks/useDocuments.ts:10 | a string read as a status is exactly that status's stored name |
| DocumentStatus.ParseName | src/hooks/useDocuments.ts:10 | every stored name reads back as its status, so the four names are distinct |
| DocumentsHook.PayloadFields | src/hooks/useDocuments.ts:73-84 | the write always carries the requested status and the time; a non-empty signature goes to company_signature iff the status is company_signed and to client_signature iff it is fully_signed; never both |
| DocumentsHook.PayloadFor | src/hooks/useDocuments.ts:73-84 | the update object `updateDocumentStatus` builds; see PayloadFields |
| DocumentsHook.Apply | src/hooks/useDocuments.ts:88-91 | a stored row after the update: the payload's fields overwrite, the others stay; see UpdateTable |
| DocumentsHook.UpdateTable | src/hooks/useDocuments.ts:88-91 | the update touches only the row with that id; the set of rows and every other row are kept |
| DocumentsHook.NoStatusGuard | src/hooks/useDocuments.ts:66-93 | whatever the stored status was, the row gets the requested one and keeps each signature the write does not carry |
| DocumentsHook.FullySignedBackToDraft | src/hooks/useDocuments.ts:66-93 | a fully signed document can be written back to draft, keeping its client signature |
| DocumentsHook.Blocked | src/hooks/useDocuments.ts:128-135 | the testing-mode refusal: testing is on and the recipient is not allowed; see Hook.SendDocumentForSignature |
| DocumentsHook.DocumentByToken | src/hooks/useDocuments.ts:209-236 | null exactly on an error or an empty result; otherwise the first row's id, status, signature and can_sign |
| DocumentsHook.SignedByToken | src/hooks/useDocuments.ts:238-253 | success exactly for a reply that is the boolean true; 1, "true", errors and anything else fail |
| DocumentsHook.Hook.constructor | src/hooks/useDocuments.ts:21 | not loading, the given table, no calls |
| DocumentsHook.Hook.UpdateDocumentStatus | src/hooks/useDocuments.ts:66-118 | one update call with PayloadFor; the table changes by UpdateTable only when the write succeeds; the result says whether it did; loading ends false |
| DocumentsHook.Hook.SendDocumentForSignature | src/hooks/useDocuments.ts:120-187 | a blocked testing recipient gets false before any call; otherwise one invocation, then the sent_for_signature write only after a successful reply; true exactly for a successful reply even when that write fails |
| EdgeCommon.RunGate | supabase/functions/send-document-email/index.ts:39-105 | a request gets through exactly when it is not a preflight, the caller is authenticated, all five fields are there and the caller owns the document; it then carries those fields, the caller and the row |
| EdgeCommon.GateOrder | supabase/functions/send-document-email/index.ts:39-105 | each early status (200 preflight, 401, 500 unreadable body, 400, 404, 403) is returned exactly when every earlier check passed and its own failed |
| EdgeCommon.GateTrace | supabase/functions/send-document-email/index.ts:59-90 | the gate makes at most the claims check, the body read and the lookup, and looks the document up only for an authenticated caller with all fields |
| EdgeCommon.BearerStripped | supabase/functions/send-document-email/index.ts:59-60 | the claims are checked on the header with its "Bearer " prefix removed |
| EsignEmail.AppUrl | supabase/functions/send-document-email/index.ts:131 | the base URL is APP_URL when set, else the request origin, else "http://localhost:8080", and never empty |
| EsignEmail.SigningLinkParts | supabase/functions/send-document-email/index.ts:132 | the link splits at `?` into `<appUrl>/sign-document/<documentId>` and `token=<token>` |
| EsignEmail.InvitationMail | supabase/functions/send-document-email/index.ts:136-177 | the mail goes to the recipient; of its five interpolated values only the link is unescaped, and none of the others holds `<` or `"` |
| EsignEmail.SigningLink | supabase/functions/send-document-email/index.ts:132 | the link mailed to the signer; see SigningLinkParts |
| EsignEmail.Handle | supabase/functions/send-document-email/index.ts:36-211 | the handler: the response and the calls made; see HandleOutcomes, HandleStopped, SendGuarded, LogFree |
| EsignEmail.HandleOutcomes | supabase/functions/send-document-email/index.ts:113-202 | past the gate a failed token insert gives 500; 200 exactly when the token and the send succeed, and it then carries the signing link |
| EsignEmail.HandleStopped | supabase/functions/send-document-email/index.ts:39-105 | a request the gate stops gets the gate's answer, and no token, mail or log call is made |
| EsignEmail.SendGuarded | supabase/functions/send-document-email/index.ts:100-192 | a token is minted and mail sent only for the document's owner, mail only with a token, and the esign_request log row is written exactly on a 200 answer, right after the send |
| EsignEmail.LogFree | supabase/functions/send-document-email/index.ts:181-188 | joining two call traces without a log write gives a trace without one |
| EnvConfig.ValidateTestingEmail | src/config/env.ts:6-9 | `validateTestingEmail`; see ValidateTestingEmailCases, ValidateIgnoresCase |
| EnvConfig.TestingMessage | src/config/env.ts:11-13 | `getTestingMessage`; see TestingMessageNamesAddress |
| EnvConfig.ValidateTestingEmailCases | src/config/env.ts:6-9 | testing off accepts every address; testing on accepts exactly the addresses equal to ALLOWED_EMAIL up to case, the address itself in any case among them |
| EnvConfig.ShippedSettingAcceptsAll | src/config/env.ts:2-7 | with the shipped IS_TESTING = false every address is accepted |
| EnvConfig.ValidateIgnoresCase | src/config/env.ts:8 | lower-casing the address first never changes the verdict |
| EnvConfig.TestingMessageNamesAddress | src/config/env.ts:11-13 | the testing message contains the allowed address |
| HtmlEscape.EscapeChar | supabase/functions/send-document-email/index.ts:18-24 | a special character becomes a reference starting with `&` and ending with `;`; any other character is kept; no replacement holds `<`, `>`, `"` or `'` |
| HtmlEscape.EscapeHtml | supabase/functions/send-document-email/index.ts:17-26 | the output is no shorter, holds no raw `<`, `>`, `"` or `'`, and text without special characters is returned unchanged |
| HtmlEscape.EscapeAppend | supabase/functions/send-document-email/index.ts:25 | escaping distributes over concatenation |
| HtmlEscape.EscapeNotIdempotent | supabase/functions/send-document-email/index.ts:18-25 | `&` escapes to `&amp;` and again to `&amp;amp;`, so escaping twice differs from escaping once |
| HtmlEscape.UnescapeEscape | supabase/functions/send-document-email/index.ts:17-26 | decoding the five references undoes escaping, so escaping is injective |
| HtmlEscape.UnescapeStep | supabase/functions/send-document-email/index.ts:18-25 | each character's replacement decodes back to that character |
| HtmlEscape.UnescapePlain | supabase/functions/send-document-email/index.ts:25 | a character other than `&` decodes as itself |
| HtmlEscape.UnescapeAmp | supabase/functions/send-document-email/index.ts:19 | `&amp;` decodes to `&` |
| HtmlEscape.UnescapeLt | supabase/functions/send-document-email/index.ts:20 | `&lt;` decodes to `<` |
| HtmlEscape.UnescapeGt | supabase/functions/send-document-email/index.ts:21 | `&gt;` decodes to `>` |
| HtmlEscape.UnescapeQuot | supabase/functions/send-document-email/index.ts:22 | `&quot;` decodes to `"` |
| HtmlEscape.UnescapeApos | supabase/functions/send-document-email/index.ts:23 | `&#039;` decodes to `'` |
| PdfEmail.Humanise | supabase/functions/send-document-pdf/index.ts:61 | the label of a form_data key; see HumaniseLength, HumaniseCamel, NoUpperKept |
| PdfEmail.Paragraphs | supabase/functions/send-document-pdf/index.ts:60-62 | one paragraph per form_data entry, in order; see ParagraphsTags, ParagraphsAppend |
| PdfEmail.SpaceBeforeUpper | supabase/functions/send-document-pdf/index.ts:61 | `replace(/([A-Z])/g, ' $1')` lengthens the key by one space per upper-case letter |
| PdfEmail.UpperFirst | supabase/functions/send-document-pdf/index.ts:61 | `replace(/^./, …toUpperCase())` keeps the length, upper-cases only the first character (unless it is a line terminator, which `.` does not match) and keeps the rest |
| PdfEmail.HumaniseLength | supabase/functions/send-document-pdf/index.ts:61 | the label is as long as the key plus its number of upper-case letters |
| PdfEmail.SpacesRemoved | supabase/functions/send-document-pdf/index.ts:61 | removing the spaces from the spaced form of a key without spaces gives the key back: only spaces are inserted |
| PdfEmail.WithoutAppend | supabase/functions/send-document-pdf/index.ts:61 | removing a character distributes over concatenation |
| PdfEmail.HumaniseCamel | supabase/functions/send-document-pdf/index.ts:61 | a two-word camel-case key such as employeeName becomes "Employee Name": a space before the capital and the first letter upper-cased |
| PdfEmail.SpacedCamel | supabase/functions/send-document-pdf/index.ts:61 | only the upper-case letter gets a space before it |
| PdfEmail.SpaceBeforeUpperAppend | supabase/functions/send-document-pdf/index.ts:61 | the space insertion distributes over concatenation |
| PdfEmail.NoUpperKept | supabase/functions/send-document-pdf/index.ts:61 | a key without upper-case letters gets no space |
| PdfEmail.HumaniseLeadingUpper | supabase/functions/send-document-pdf/index.ts:61 | a key starting with a capital gets a leading space, and the capital follows it |
| PdfEmail.TagCount | supabase/functions/send-document-pdf/index.ts:61 | a tag holds exactly one `<` |
| PdfEmail.ParagraphTags | supabase/functions/send-document-pdf/index.ts:61 | each entry's paragraph holds exactly its four tags: the escaped label and value add no `<` |
| PdfEmail.ParagraphsTags | supabase/functions/send-document-pdf/index.ts:60-62 | the rendered form data holds exactly four `<` per entry: one paragraph per entry, none injected |
| PdfEmail.ParagraphsAppend | supabase/functions/send-document-pdf/index.ts:60-62 | the rendering of entries distributes over their concatenation, so paragraphs follow entry order |
| PdfEmail.GenerateContent | supabase/functions/send-document-pdf/index.ts:36-96 | `generatePDFContent`: the escaped values the document interpolates; see SignatureBlocks |
| PdfEmail.SignatureBlocks | supabase/functions/send-document-pdf/index.ts:60-87 | the company block appears iff the company signature is non-empty; the client signature is shown iff the status is fully_signed and one is stored, else the pending note; absent form data renders nothing |
| PdfEmail.DocumentMail | supabase/functions/send-document-pdf/index.ts:173-201 | the mail goes to the recipient; the subject is "Document - " and the escaped document type; company name, recipient name and document type (four leading values) and the closing company name are escaped so none holds `<` or `"`; the rendered document's escaped values sit between them in order |
| PdfEmail.Handle | supabase/functions/send-document-pdf/index.ts:98-240 | the handler: the response and the calls made; see HandleStopped, HandlePassed |
| PdfEmail.StoredDocumentMail | supabase/functions/send-document-pdf/index.ts:169-201 | the mail for the stored row, rendered with its status and its company signature (empty when absent); see HandlePassed |
| PdfEmail.Deliver | supabase/functions/send-document-pdf/index.ts:173-231 | the send, the log and the response past the gate; see DeliverTrace |
| PdfEmail.HandleStopped | supabase/functions/send-document-pdf/index.ts:101-167 | a request the gate stops gets the gate's answer and nothing is sent or logged |
| PdfEmail.DeliverTrace | supabase/functions/send-document-pdf/index.ts:173-231 | after the gate's calls the mail is sent; 200 iff the send did not throw; the document_pdf log row comes only right after the send; no token is minted |
| PdfEmail.HandlePassed | supabase/functions/send-document-pdf/index.ts:140-173 | a request that passes the gate is delivered after exactly its three calls, to the requested recipient |
| PdfGenerator.StatusColor | src/components/preview/utils/pdfGenerator.ts:113-121 | `getStatusColor`; see StatusColors |
| PdfGenerator.Render | src/components/preview/utils/pdfGenerator.ts:8-111 | `generatePDFContent`: the values the document interpolates; see Details, SignedLines, AllSanitised |
| PdfGenerator.StatusColors | src/components/preview/utils/pdfGenerator.ts:113-121 | draft and every unknown status share grey; the other three statuses have pairwise distinct colours, none of them grey |
| PdfGenerator.Details | src/components/preview/utils/pdfGenerator.ts:42-57 | six detail lines, in document order |
| PdfGenerator.DetailPlaceholders | src/components/preview/utils/pdfGenerator.ts:9-57 | a filled-in field is shown as entered, a missing or empty one as its bracketed placeholder, and no line is empty |
| PdfGenerator.CompanyLineText | src/components/preview/utils/pdfGenerator.ts:81 | the signature when there is one; otherwise "[Company Signature Required]" exactly for a draft and nothing for any other status |
| PdfGenerator.ClientLineText | src/components/preview/utils/pdfGenerator.ts:93 | the stored client signature when there is one; otherwise "[Client Signature]" exactly for fully_signed, "[Awaiting Client Signature]" exactly for sent_for_signature, and nothing else |
| PdfGenerator.ClientSignDate | src/components/preview/utils/pdfGenerator.ts:14-16 | a client signing date exists only for fully_signed with a stored update time |
| PdfGenerator.SignedLines | src/components/preview/utils/pdfGenerator.ts:9-98 | the company "Signed:" line appears iff there is a company signature; the client one only with a stored client signature, fully_signed and an update time; without form data every placeholder shows |
| PdfGenerator.AllSanitised | src/components/preview/utils/pdfGenerator.ts:4-107 | every interpolated value passes through the sanitiser, so when it never yields `<` no shown value holds one |
| PdfGenerator.BadgeKeepsUnderscore | src/components/preview/utils/pdfGenerator.ts:33 | only the first `_` is replaced: sent_for_signature reaches the sanitiser as "sent for_signature" |
| PdfPreview.TemplateName | src/components/preview/PDFPreview.tsx:42 | `document.template?.name`: present exactly when the template and its name are |
| PdfPreview.BlankSignature | src/components/preview/PDFPreview.tsx:26-33 | a blank signature makes no call and changes neither status nor id |
| PdfPreview.SaveStep | src/components/preview/PDFPreview.tsx:37-53 | a save is made iff there is no current id, and first; a truthy saved id is remembered; without an id the save is the only call and the state stays |
| PdfPreview.StageFacts | src/components/preview/PDFPreview.tsx:53-83 | the write is attempted iff there is an id; it counts only when it succeeds; the send is attempted iff that write succeeded and the three form fields are there, and counts only when it returns true |
| PdfPreview.StatusAfter | src/components/preview/PDFPreview.tsx:55-81 | the page status after each stage of the chain; see StatusStep |
| PdfPreview.ChainCalls | src/components/preview/PDFPreview.tsx:37-81 | the hook calls up to a stage; see StageFacts |
| PdfPreview.SignedState | src/components/preview/PDFPreview.tsx:25-94 | `handleCompanySign`'s effect on status and document id; see BlankSignature, StageFacts |
| PdfPreview.SignCalls | src/components/preview/PDFPreview.tsx:25-94 | `handleCompanySign`'s hook calls; see BlankSignature, SaveStep |
| PdfPreview.StatusStep | src/components/preview/PDFPreview.tsx:61-80 | the status changes only after a successful write, to company_signed, or to sent_for_signature exactly when the send succeeded |
| PdfPreview.SignAfterFullySigned | src/components/preview/PDFPreview.tsx:25-94 | no status guard: signing a fully signed document moves the page back to company_signed |
| PdfPreview.Page.constructor | src/components/preview/PDFPreview.tsx:17-21 | the status is the document's or "draft", the id is the document's truthy id or none, the signature is empty |
| PdfPreview.Page.HandleCompanySign | src/components/preview/PDFPreview.tsx:25-94 | status and id become SignedState and the calls made are SignCalls of the old state; loading ends as it was only for a blank signature, otherwise false |
| PdfPreview.Page.SetCompanySignature | src/components/preview/PDFPreview.tsx:19 | the typed text becomes the signature |
| PreviewHeader.StatusDescription | src/components/preview/DocumentHeader.tsx:12-20 | `getStatusDescription`; see StatusDescriptionCases |
| PreviewHeader.Subtitle | src/components/preview/DocumentHeader.tsx:38 | the subtitle; see SubtitleCases |
| PreviewHeader.StatusDescriptionCases | src/components/preview/DocumentHeader.tsx:12-20 | exactly the statuses outside the four are described as "Processing document", and the four descriptions are pairwise distinct |
| PreviewHeader.TemplateName | src/components/preview/DocumentHeader.tsx:22 | the title is template.name, else template_name, else "Document", and never empty |
| PreviewHeader.EmployeeName | src/components/preview/DocumentHeader.tsx:23 | the employee name is formData's, else form_data's, else "" |
| PreviewHeader.SubtitleCases | src/components/preview/DocumentHeader.tsx:38 | the subtitle is "for " + name iff there is a name, and "Document Preview" iff there is none |
| SecuritySettings.Check | src/components/settings/SecuritySettings.tsx:23-48 | accepted iff both fields are non-empty, equal and at least 8 long; each refusal (missing, mismatch, too short) holds exactly when the earlier checks passed and its own failed |
| SecuritySettings.CheckOrder | src/components/settings/SecuritySettings.tsx:23-48 | an empty field is reported even when the two differ, and a mismatch even when the password is also short |
| SecuritySettings.Security.constructor | src/components/settings/SecuritySettings.tsx:14-18 | not loading, both fields empty, no update |
| SecuritySettings.Security.HandlePasswordUpdate | src/components/settings/SecuritySettings.tsx:22-76 | the verdict is Check; a refusal changes nothing; an accepted change sends the password once, clears both fields only on success, and ends with loading off |
| SecuritySettings.Security.SetPasswords | src/components/settings/SecuritySettings.tsx:15-18 | the two inputs take the typed texts |
| Sidebar.Heads | src/components/layout/AuthenticatedSidebar.tsx:27-28 | one character at most per word, empty words contributing nothing |
| Sidebar.HeadsAppend | src/components/layout/AuthenticatedSidebar.tsx:27-28 | the heads of two word lists joined are the two lists' heads joined |
| Sidebar.Initials | src/components/layout/AuthenticatedSidebar.tsx:23-31 | "U" for a missing or empty name; otherwise exactly the first min(2, number of word heads) of the upper-cased word heads, so none is a lower-case letter |
| Sidebar.TwoWords | src/components/layout/AuthenticatedSidebar.tsx:23-31 | "first last" gives the two first letters upper-cased |
| Sidebar.ThirdWordIgnored | src/components/layout/AuthenticatedSidebar.tsx:30 | a third word does not change the initials |
| Sidebar.OnlySpaces | src/components/layout/AuthenticatedSidebar.tsx:24-30 | a name of one space is truthy yet gives empty initials, not "U" |
| SignHeader.HeaderVariant | src/components/signDocument/DocumentHeader.tsx:8-16 | `getStatusColor` of the signing page; see HeaderVariantAgrees |
| SignHeader.UpperStatusLabel | src/components/signDocument/DocumentHeader.tsx:29 | the upper-case status label; see UpperStatusLabelShape |
| SignHeader.HeaderVariantAgrees | src/components/signDocument/DocumentHeader.tsx:8-16 | the signing page's badge variant equals the shared status utilities' variant for every status, unknown ones getting `secondary` |
| SignHeader.UpperStatusLabelShape | src/components/signDocument/DocumentHeader.tsx:29 | the label keeps the status's length, has no underscore and no lower-case letter, and differs from the status only by underscores made spaces and by case |
| SignHeader.Title | src/components/signDocument/DocumentHeader.tsx:23 | the stored template name when non-empty, otherwise "Legal Document"; never empty |
| SignatureSection.IsAlreadySigned | src/components/signDocument/SignatureSection.tsx:24 | `isAlreadySigned`; see CanSignCases |
| SignatureSection.CanSign | src/components/signDocument/SignatureSection.tsx:25 | `canSign`; see CanSignCases |
| SignatureSection.CanSignCases | src/components/signDocument/SignatureSection.tsx:24-25 | with `can_sign` given the section follows it; without, signing is open exactly for the sent-for-signature and company-signed statuses; "already signed" is exactly fully signed |
| SignatureSection.ShownCard | src/components/signDocument/SignatureSection.tsx:94-154 | the completed card exactly when fully signed, the form exactly when not signed but signable, the pending notice otherwise |
| SignatureSection.CompletedFirst | src/components/signDocument/SignatureSection.tsx:94-120 | a fully signed document shows the completed card even when the backend still allows signing |
| SignatureSection.SignedFileName | src/components/signDocument/SignatureSection.tsx:87 | `<template name>-<id>.html`, with "document" for a missing or empty name |
| SignatureSection.SignCallFor | src/components/signDocument/SignatureSection.tsx:39-52 | the token call exactly when the link has a non-empty token, otherwise the fully_signed status write for the page's document |
| SignatureSection.SignedCopy | src/components/signDocument/SignatureSection.tsx:55-60 | fully signed, the typed signature and the current time; every other field kept |
| SignatureSection.SignedCopyCompleted | src/components/signDocument/SignatureSection.tsx:55-94 | after a successful signing the completed card is shown |
| SignatureSection.Section.constructor | src/components/signDocument/SignatureSection.tsx:17-19 | not signing, empty signature, no calls |
| SignatureSection.Section.HandleClientSign | src/components/signDocument/SignatureSection.tsx:27-79 | a blank signature changes nothing; otherwise exactly the SignCallFor call is made, the copy becomes SignedCopy only on success, and signing ends off |
| SignatureSection.Section.SetClientSignature | src/components/signDocument/SignatureSection.tsx:136 | the input takes the typed text |
| StatusBadge.BadgeVariant | src/components/preview/DocumentStatusBadge.tsx:10-23 | `getStatusBadgeVariant`; see BadgeVariantAgrees |
| StatusBadge.BadgeLabel | src/components/preview/DocumentStatusBadge.tsx:43 | the badge text as written; see BadgeLabelShape, BadgeLabelKeepsUnderscore |
| StatusBadge.BadgeVariantAgrees | src/components/preview/DocumentStatusBadge.tsx:10-23 | the preview badge's variant equals the shared utilities' variant for every status string |
| StatusBadge.BadgeLabelShape | src/components/preview/DocumentStatusBadge.tsx:43 | the badge text as written keeps the length, has exactly one underscore fewer than a status that has one, puts the upper-cased character of the first-underscore-replaced status at every word start and keeps every other character of it |
| StatusBadge.BadgeLabelKeepsUnderscore | src/components/preview/DocumentStatusBadge.tsx:43 | as written, "sent_for_signature" is shown as "Sent For_signature", still holding an underscore |
| StatusBadge.StatusPieces | src/components/preview/DocumentStatusBadge.tsx:43 | the status splits at its first underscore into "sent" and "for_signature" |
| StatusBadge.LabelPieces | src/components/preview/DocumentStatusBadge.tsx:43 | the pieces of the shown text join to "Sent For_signature", which holds an underscore |
| StatusBadge.FirstUnderscoreReplaced | src/components/preview/DocumentStatusBadge.tsx:43 | `replace('_', ' ')` changes only the underscore at index 4 |
| StatusBadge.SpacedCapitalised | src/components/preview/DocumentStatusBadge.tsx:43 | word-start capitalisation gives "Sent For_signature", since `_` is a word character |
| StatusBadge.TailCapitalised | src/components/preview/DocumentStatusBadge.tsx:43 | "for_signature" is one word and only its first letter is capitalised |
| StatusBadge.BadgeLabelCorrected | src/components/preview/DocumentStatusBadge.tsx:43 | the badge text with every underscore replaced; see BadgeLabelCorrectedShape |
| StatusBadge.BadgeLabelCorrectedShape | src/components/preview/DocumentStatusBadge.tsx:43 | with every underscore replaced the text has none, keeps the length, and equals the shared status label for any unknown status |
| StatusBadge.BadgeLabelCorrectedExample | src/components/preview/DocumentStatusBadge.tsx:43 | the corrected badge for "sent_for_signature" reads "Sent For Signature" |
| StatusBadge.CorrectedSpaced | src/components/preview/DocumentStatusBadge.tsx:43 | replacing every underscore gives "sent for signature" |
| StatusBadge.CorrectedCapitalised | src/components/preview/DocumentStatusBadge.tsx:43 | capitalising "sent for signature" gives "Sent For Signature" |
| StatusBadge.CorrectedTailCapitalised | src/components/preview/DocumentStatusBadge.tsx:43 | capitalising "for signature" gives "For Signature" |
| StatusUtils.StatusLabel | src/lib/statusUtils.ts:5-14 | `getStatusLabel`; see KnownLabels, UnknownLabel |
| StatusUtils.KnownLabels | src/lib/statusUtils.ts:6-11 | the four statuses have their fixed labels |
| StatusUtils.UnknownLabel | src/lib/statusUtils.ts:13 | for any other status the label keeps the length, holds no underscore, has the upper-cased status character at every word start and otherwise only turns underscores into spaces |
| StatusUtils.UnknownLabelExample | src/lib/statusUtils.ts:13 | "pending_review" is labelled "Pending Review" |
| StatusUtils.PendingReviewSpaced | src/lib/statusUtils.ts:13 | the underscore of "pending_review" becomes a space |
| StatusUtils.PendingReviewCapitalised | src/lib/statusUtils.ts:13 | both words of "pending review" are capitalised |
| StatusUtils.StatusVariant | src/lib/statusUtils.ts:20-33 | `getStatusVariant`; see VariantClasses |
| StatusUtils.VariantClasses | src/lib/statusUtils.ts:20-33 | `default` exactly for company_signed and fully_signed, `outline` exactly for sent_for_signature, `secondary` exactly for draft and unknown statuses, never `destructive` |
| StatusUtils.StatusBadgeClass | src/lib/statusUtils.ts:38-51 | `getStatusBadgeClass`; see BadgeClassesDistinct |
| StatusUtils.BadgeClassesDistinct | src/lib/statusUtils.ts:38-51 | the four statuses get pairwise different classes, none grey, and every other status gets grey |
| TeamSettings.InviteName | src/components/settings/TeamSettings.tsx:105 | the invited member's name is a prefix of the address holding no `@` |
| TeamSettings.InviteNameLocalPart | src/components/settings/TeamSettings.tsx:105 | for `local@domain` the name is exactly the local part |
| TeamSettings.ReplaceMember | src/components/settings/TeamSettings.tsx:134-136 | same length; every member with the edited id is the edited copy, every other member kept in place |
| TeamSettings.Toggled | src/components/settings/TeamSettings.tsx:157 | Active becomes Pending, any other status Active |
| TeamSettings.ToggleTwice | src/components/settings/TeamSettings.tsx:157 | two toggles restore Active and Pending but turn any other status into Pending |
| TeamSettings.ToggleMember | src/components/settings/TeamSettings.tsx:155-159 | same length; only the members with the id have their status toggled, all else kept |
| TeamSettings.DeleteMember | src/components/settings/TeamSettings.tsx:147 | a member remains exactly when it was there and its id differs; the list does not grow |
| TeamSettings.DeleteAbsent | src/components/settings/TeamSettings.tsx:147 | removing an id nobody has leaves the list unchanged |
| TeamSettings.Team.constructor | src/components/settings/TeamSettings.tsx:59-66 | the given members, both dialogs closed, no selection, the invite form empty with role Editor |
| TeamSettings.Team.InviteMember | src/components/settings/TeamSettings.tsx:93-124 | an empty address changes nothing; otherwise exactly one Pending member with the clock id, local-part name, address, role and date is appended, the dialog closes and the form resets |
| TeamSettings.Team.EditMember | src/components/settings/TeamSettings.tsx:126-129 | the member is selected and the edit dialog opens |
| TeamSettings.Team.UpdateMember | src/components/settings/TeamSettings.tsx:131-144 | without a selection nothing changes; otherwise the list becomes ReplaceMember with the selection, the dialog closes and the selection clears |
| TeamSettings.Team.RemoveMember | src/components/settings/TeamSettings.tsx:146-152 | the list becomes DeleteMember of the old list |
| TeamSettings.Team.ToggleStatus | src/components/settings/TeamSettings.tsx:154-165 | the list becomes ToggleMember of the old list |
| TemplateLibrary.TrimKeepsAbsent | src/components/templates/TemplateLibrary.tsx:100 | trimming never introduces a character |
| TemplateLibrary.TrimClean | src/components/templates/TemplateLibrary.tsx:100 | a piece with no whitespace at either end is its own trim |
| TemplateLibrary.TrimmedPiecesClean | src/components/templates/TemplateLibrary.tsx:100 | from comma-free pieces, every kept field is non-empty, comma-free and trimmed, and there are no more fields than pieces |
| TemplateLibrary.PieceClean | src/components/templates/TemplateLibrary.tsx:100 | a comma-free piece trims to a clean field or to nothing |
| TemplateLibrary.ParseFields | src/components/templates/TemplateLibrary.tsx:100 | the comma-separated field list, split, trimmed, empties dropped; see ParseFieldsClean, ParseJoin |
| TemplateLibrary.ParseFieldsClean | src/components/templates/TemplateLibrary.tsx:100 | every parsed field is clean, and there is at most one more field than there are commas |
| TemplateLibrary.SplitJoin | src/components/templates/TemplateLibrary.tsx:100 | splitting the comma-join of comma-free pieces gives the pieces back |
| TemplateLibrary.TrimmedClean | src/components/templates/TemplateLibrary.tsx:100 | clean fields pass the trim-and-drop step unchanged |
| TemplateLibrary.ParseJoin | src/components/templates/TemplateLibrary.tsx:100 | parsing the comma-join of clean field names gives the names back |
| TemplateLibrary.NewTemplate | src/components/templates/TemplateLibrary.tsx:93-101 | id starts with "custom-", name and description kept, category and time never empty and kept when given, fields parsed from the text |
| TemplateLibrary.Defaults | src/components/templates/TemplateLibrary.tsx:98-99 | empty category and time become "Custom" and "10 minutes" |
| TemplateLibrary.Library.constructor | src/components/templates/TemplateLibrary.tsx:73-80 | dialog closed, form empty, nothing selected |
| TemplateLibrary.Library.HandleCustomTemplate | src/components/templates/TemplateLibrary.tsx:83-111 | without a name or a description nothing changes; otherwise NewTemplate is handed to the caller once, the dialog closes and the form resets |
| DocumentViewer.ZoomedOut | src/components/preview/DocumentViewer.tsx:25 | never below 50 %; one step down above 60 %, 50 % otherwise; a valid level stays valid |
| DocumentViewer.ZoomedIn | src/components/preview/DocumentViewer.tsx:34 | never above 200 %; one step up below 190 %, 200 % otherwise; a valid level stays valid |
| DocumentViewer.ZoomLimits | src/components/preview/DocumentViewer.tsx:25-34 | the buttons do nothing at their limits and undo each other inside them |
| DocumentViewer.ClicksStayValid | src/components/preview/DocumentViewer.tsx:25-34 | any run of clicks from a valid level stays within 50..200 on a multiple of 10 |
| DocumentViewer.InitialValid | src/components/preview/DocumentViewer.tsx:15-34 | 100 % is valid and every run of clicks from it stays valid |
| DocumentViewer.Viewer.constructor | src/components/preview/DocumentViewer.tsx:15 | zoom starts at 100 % |
| DocumentViewer.Viewer.ZoomOut | src/components/preview/DocumentViewer.tsx:25 | the zoom becomes ZoomedOut of the old one and stays valid |
| DocumentViewer.Viewer.ZoomIn | src/components/preview/DocumentViewer.tsx:34 | the zoom becomes ZoomedIn of the old one and stays valid |

## Left out

- Rendering, styling, icons, toasts and navigation are not modelled, since they are presentation. The
  markup and styles around interpolated values are left out as well; only the values placed into the
  documents and e-mails are modelled.
- The following pages are not part of this model:
  - `Sidebar.tsx`, `Settings.tsx`, `Index.tsx`, `AuthenticatedIndex.tsx`, `SignDocument.tsx`;
  - `DocumentCard.tsx`, `DocumentFilters.tsx`, `SignaturePanel.tsx`;
  - `DocumentInfo.tsx`, `NotFoundState.tsx`, `DocumentPreview.tsx`, `DownloadSection.tsx`.
- These hooks and pages are not part of this model, because they are event-driven I/O with no decision
  logic of their own:
  - `useAuth.tsx`, `useSignDocument.ts`, `MyDocuments.tsx`;
  - `NotificationSettings.tsx`, `ProfileSettings.tsx`.
- The `get_document_by_token` and `sign_document_by_token` database functions are modelled only by their
  results. Their SQL bodies are not part of this model, so token expiry, one-time use, `can_sign` and
  atomicity are not modelled. `src/integrations/supabase/types.ts` is used only for record shapes.
- Supabase, Resend and Deno calls are not executed.
  - This covers table reads and writes, `auth.getClaims`, `functions.invoke`, CORS and `serve`.
  - Their outcomes are inputs and the calls made are recorded as a trace.
  - An exception thrown by a call is one more outcome (for example `AuthPage.Threw`).
  - In the dashboard, a fetch error and a null result are both "no rows".
- Clocks and dates (`Date.now()`, `new Date()`, `toISOString`, `toLocaleDateString`, `toLocaleString`) are
  inputs.
  - The form's start- and end-date checks compare time values given as integers.
  - "Today" is an input.
- `validateSalary` (`parseFloat`) is floating-point parsing, so the form takes its verdict as a boolean
  input.
- `DOMPurify.sanitize` is a foreign library. It is an uninterpreted parameter; the model states only where
  it is applied.
- `ClauseLibrary.tsx` calls `useEffect` (line 98) but imports only `useState` from React (line 2). As
  written, the component's first render throws a ReferenceError before any handler can run. The
  `ClauseLibrary` module models the component as if the import were present.
- Browser storage (`localStorage`), the clipboard, and Blob/object-URL downloads are browser I/O and are
  not modelled.
- Upper- and lower-casing are modelled on ASCII letters only. `toUpperCase` and `toLowerCase` also map
  other Unicode letters.
- String lengths count Unicode scalar values. JavaScript's `length` counts UTF-16 code units, and the two
  differ only for characters outside the Basic Multilingual Plane.
- `StatusUtils.StatusLabel` looks the four statuses up as strings. Keys inherited from `Object.prototype`
  (such as `"toString"`) would make the source's lookup return a function; this is not modelled.
- `DocumentForm.UpdateText` takes the form's field updates as three methods (text, start date, end date),
  one per field kind. A text update requires a text field, because the source passes dates and text
  through one untyped setter.
- The form's error messages are modelled as error-map entries.
  - A validation passes when no entry was recorded, as `Object.keys(newErrors).length === 0` checks.
- The team page's role and status colour mappers (`getRoleColor`, `getStatusColor`) are not modelled.
  They are presentation only, and the approvals page's mappers of the same shape are modelled.
- The team page's constructor takes the initial member list as a parameter. The source starts from three
  fixed demo members.
- The viewer's two zoom methods require the zoom to be valid (50..200, a multiple of 10). The constructor
  establishes this and both buttons preserve it.
- Signing out every session (`handleSignOutAllSessions`) is not modelled. It is a single remote call
  with no decision logic.
- The renderer's status badge (`pdfGenerator.ts`) is modelled as written. Like the preview badge under
  Findings, it replaces only the first underscore, and its corrected form is not modelled separately.

## Findings

| source | as written | input that shows it | evidently intended | confidence | as-written member | corrected member |
|---|---|---|---|---|---|---|
| src/components/preview/DocumentStatusBadge.tsx:43 | `status.replace('_', ' ')` replaces only the first underscore before capitalising | status "sent_for_signature" is shown as "Sent For_signature" | every underscore becomes a space ("Sent For Signature"), as the shared status label and the signing-page header do | not executed | StatusBadge.BadgeLabelKeepsUnderscore | StatusBadge.BadgeLabelCorrectedShape |
| src/components/forms/DocumentForm.tsx:244 | the preview document is built with status "Draft" | any passing preview: every consumer compares with "draft", so the preview header describes it as "Processing document" and the renderer omits the "[Company Signature Required]" placeholder | the stored status name "draft" | not executed | DocumentForm.AsWrittenPreviewMisread | DocumentForm.PreviewStatusRead |
