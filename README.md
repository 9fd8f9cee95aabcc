# Supermarket sales dashboard — a verified model

The application is a single-page sales dashboard:
- A simulated login keeps one account in browser storage.
- An upload screen accepts a CSV, JSON or plain-text file.
- An analysis client sends the file's text to an external language model and checks the JSON it returns.
- The dashboard shows the result. Its customer table can be filtered by segment (premium, regular, normal). Customers can be selected one by one or all at once, and a discount offer can be sent to one customer or to the selection.

The project models this in Dafny:
- the records the analysis produces (`Types`);
- the analysis client (`Analysis`);
- the upload screen (`Upload`), the login screen (`Login`), the offer dialog (`Offer`) and the customer table (`CustomerTable`);
- the dashboard controller (`Dashboard`).

`JsText` models the JavaScript string operations they rely on:
- `trim` with ECMAScript's whitespace set;
- `length` in UTF-16 code units;
- `startsWith`;
- ASCII `toUpperCase`;
- rendering a count in a template literal.

The three screens with their own state are classes whose methods update fields in place, as the React handlers do:
- the upload screen, `Upload.FileUploadPanel`;
- the login screen, `Login.LoginForm`;
- the offer dialog, `Offer.OfferDialog`.

The controller has two parts:
- `Dashboard.Step` is a transition function over `Dashboard.AppState` with one `Event` per handler or analysis outcome.
- The class `Dashboard.App` applies each event field by field. Each of its methods promises `State() == Step(old(State()), event)`.

The effect that empties the selection whenever the dataset or the filter changes is folded into the transitions. It fires only on an actual change: re-selecting the active filter keeps the selection. A freshly analysed dataset is always a new object, so it always clears the selection.

The main results:
- **Invariant.** The selection only ever holds ids of customers the table shows, and nothing is selected while there is no dataset. This holds after any sequence of user actions in which row clicks are on shown rows (`Dashboard.RunKeepsSelectionWithinView`).
- **Row toggle.** A row click toggles exactly one id. Two clicks on an unselected id give back the original list (`Dashboard.ToggleTwiceRestores`).
- **Header checkbox.** Two header clicks restore the selection exactly when it started empty or as all visible ids (`Dashboard.SelectAllTwiceRestoresIff`). The first click checks the header box exactly when the table is non-empty and the selection count differs from the row count (`Dashboard.HeaderCheckboxAfterSelectAll`).
- **Analysis.** A reply is accepted exactly when the call succeeds, the trimmed text parses and the four top-level fields are truthy. Every failure carries the one catch-all message. The declared schema guarantees the presence check for any record of the declared shape.
- **Login.** Sign-up validation reports an empty field before a short password, measuring the password in UTF-16 code units. After a sign-up that passes validation, the sign-in form accepts the same email and password and refuses any other password.
- **Upload.** File acceptance is a MIME-type prefix test. Processing forwards exactly the accepted files.

Interfaces that are not code in this repository become parameters:
- the language-model call becomes `generate: string -> CallOutcome`;
- `JSON.parse` becomes `parse: string -> Option<Json>`;
- browser storage becomes the `storedUser` field of the login form;
- the files handed to the upload handlers become `FileInfo` values.

## Model

| member | source | states |
|---|---|---|
| `JsText.Trim` | services/geminiService.ts:92 | `trim` returns a contiguous slice of its input with only whitespace cut from either end, and the result starts and ends with a non-whitespace character |
| `JsText.EmptyTrimIsAllWhitespace` | components/OfferModal.tsx:16 | text that trims to the empty string consists of whitespace only |
| `JsText.TrimEmptyIffAllWhitespace` | components/OfferModal.tsx:16 | `message.trim()` is falsy exactly when every character is whitespace (both directions) |
| `JsText.Utf16Length` | components/Login.tsx:51 | `length` counts UTF-16 code units: at least one and at most two per character |
| `JsText.Utf16LengthBmp` | components/Login.tsx:51 | on text inside the Basic Multilingual Plane `length` equals the number of characters |
| `JsText.Decimal` | App.tsx:97 | `${count}` renders at least one digit with no leading zero, and the digits read back as the count |
| `JsText.UpperAscii` | App.tsx:99 | `toUpperCase` keeps the length, turns each lower-case ASCII letter into the upper-case letter 32 code points below it, and leaves every other character as it is |
| `Dashboard.PlatformInCapitals` | App.tsx:99 | the notice names the platform as "SMS" or "WHATSAPP" |
| `Analysis.Member` | services/geminiService.ts:97-100 | the read `parsedData.<field>`: the field's value on an object that has it, `undefined` otherwise |
| `Analysis.Truthy` | services/geminiService.ts:96-101 | JavaScript truthiness of a property read: `undefined`, `null`, `false`, `0` and `""` are falsy, every array and object is truthy |
| `Analysis.HasRequiredFields` | services/geminiService.ts:96-101 | the reply passes the presence check iff each of the four field reads is truthy |
| `Analysis.SchemaTopLevelIsRequiredFields` | services/geminiService.ts:12-62 | the declared response schema is an object whose top-level properties are exactly the four fields the presence check reads, in the same order |
| `Analysis.MatchingReplyHasRequiredFields` | services/geminiService.ts:96-103 | any reply of the declared shape passes the presence check |
| `Analysis.EncodeMatchesSchema` | services/geminiService.ts:12-62 | the JSON form of every `DashboardData` record has the declared shape, field by field and element by element |
| `Analysis.WellFormedReplyAccepted` | services/geminiService.ts:96-103 | every well-formed record passes the presence check, including one whose three lists are empty |
| `Analysis.Prompt` | services/geminiService.ts:66-80 | the prompt is the fixed instruction text with the uploaded data spliced in between the two `---` lines |
| `Analysis.PromptEmbedsData` | services/geminiService.ts:66-80 | the uploaded text sits verbatim in the prompt and can be read back out of it, so distinct uploads give distinct prompts |
| `Analysis.PromptDelimitsData` | services/geminiService.ts:74-77 | the uploaded text sits between the two `---` delimiter lines |
| `Analysis.AnalyzeSalesData` | services/geminiService.ts:64-110 | the outcome depends on the uploaded text only through the model's answer to its prompt: success iff that answer's trimmed text parses with all four fields truthy, and then the value as parsed; every failure is the catch-all message |
| `Analysis.Attempt` | services/geminiService.ts:92-103 | the `try` body: a failed call, an unparsable answer and an answer without the four truthy fields each fail; otherwise the parsed value |
| `Analysis.AttemptSucceedsIff` | services/geminiService.ts:92-105 | the `try` block returns exactly when the call answered, the trimmed answer parses and all four fields are truthy, and then returns the parsed value |
| `Analysis.NullLacksRequiredFields` | services/geminiService.ts:96-103 | an answer that parses to `null` never passes the field check (reading a field of `null` throws) |
| `Analysis.HandleReply` | services/geminiService.ts:92-110 | the reply is accepted iff the call succeeded, its trimmed text parses and all four fields are truthy; an accepted reply is the parsed value unchanged; every failure carries the catch-all message and never the missing-fields one |
| `Analysis.FalsyFieldRejected` | services/geminiService.ts:96-103 | a reply in which any one of the four fields is missing or falsy is rejected with the catch-all message |
| `Analysis.MisshapenReplyAccepted` | services/geminiService.ts:96-105 | an answer whose four fields are truthy but of the wrong kinds is accepted and returned unchanged, although no record encodes to it |
| `Analysis.MisshapenReplyHasFields` | services/geminiService.ts:96-101 | that answer passes the presence check |
| `Analysis.MisshapenReplyEncodesNoRecord` | services/geminiService.ts:105 | that answer is the JSON form of no `DashboardData` |
| `Analysis.WellFormedReplyReturnedUnchanged` | services/geminiService.ts:105 | the JSON form of any record is returned exactly as parsed, whatever the lengths of its arrays |
| `Upload.StartsWithAny` | components/FileUpload.tsx:23 | `some(type => t.startsWith(type))` holds iff some listed prefix begins the text |
| `Upload.ValidateFile` | components/FileUpload.tsx:21-24 | a file is accepted iff there is one and its type begins with `text/csv`, `application/json` or `text/plain` |
| `Upload.MissingOrUntypedRejected` | components/FileUpload.tsx:21-24 | no file, and a file with an empty type, are rejected |
| `Upload.PrefixTestExamples` | components/FileUpload.tsx:23 | a CSV type with a charset parameter is accepted; `image/png` is rejected |
| `Upload.FirstFile` | components/FileUpload.tsx:38-39 | only the first file of a non-empty list is looked at, and an empty list yields none |
| `Upload.RenderedControls` | components/FileUpload.tsx:54-80 | the drop zone and the logout button are always rendered; the file picker only while nothing is loading |
| `Upload.DropSubmitsWhileLoading` | components/FileUpload.tsx:54-80 | while loading, the picker is gone but the drop target still accepts a file |
| `Upload.NoSubmissionWhileLoading` | components/FileUpload.tsx:64-80 | in the intended screen, no control accepts a file exactly while loading, and when idle both the drop target and the picker do |
| `Upload.FileUploadPanel.constructor` | components/FileUpload.tsx:11-12 | the screen starts with no error message and nothing handed over |
| `Upload.FileUploadPanel.SetLoading` | components/FileUpload.tsx:11 | the loading flag is the one the parent passes in |
| `Upload.FileUploadPanel.HandleFileProcessing` | components/FileUpload.tsx:26-33 | an accepted file is handed over exactly once and the error is cleared; a rejected file is not handed over and the error names the accepted types |
| `Upload.FileUploadPanel.HandleDrop` | components/FileUpload.tsx:35-41 | a drop processes the first dropped file, if any, whatever the loading flag |
| `Upload.FileUploadPanel.HandleChange` | components/FileUpload.tsx:47-51 | a picker change, only possible while idle, processes the first chosen file, if any |
| `Upload.FileUploadPanel.HandleDropWhenIdle` | components/FileUpload.tsx:35-41 | the intended drop handler changes nothing while loading and otherwise behaves as the drop handler |
| `Login.SignUpError` | components/Login.tsx:45-55 | an empty name, email or password is reported as "fill all fields" before any length check; otherwise a password shorter than 6 UTF-16 code units is reported; otherwise sign-up passes (all three as iffs) |
| `Login.SignInAccepted` | components/Login.tsx:70 | sign-in accepts iff an account is stored and its email and password both equal the typed ones |
| `Login.SignUpThenSignIn` | components/Login.tsx:37-97 | through the form, for any previously stored account: after a sign-up that passes validation, the sign-in form shown again after logging out refuses any other password with "Invalid email or password" and then logs in with the same email and password |
| `Login.AstralPasswordLength` | components/Login.tsx:51 | three characters outside the Basic Multilingual Plane count as six and pass the length check |
| `Login.LoginForm.constructor` | components/Login.tsx:15-21 | the form starts empty, in sign-in mode, with no error, not loading and not succeeded |
| `Login.LoginForm.SetEmail` | components/Login.tsx:157 | the email field holds what was typed |
| `Login.LoginForm.SetPassword` | components/Login.tsx:167 | the password field holds what was typed |
| `Login.LoginForm.SetName` | components/Login.tsx:146 | the name field holds what was typed |
| `Login.LoginForm.HandleSubmit` | components/Login.tsx:37-82 | loading always ends. Sign-up succeeds iff validation passes, stores exactly the typed account on success and leaves the slot and the validation message otherwise. Sign-in succeeds iff the stored account's email and password match, never writes the slot and reports invalid credentials otherwise. A success shows the success screen with no error |
| `Login.LoginForm.ToggleMode` | components/Login.tsx:91-97 | the mode flips and the fields and the error are cleared |
| `Offer.OfferDialog.constructor` | components/OfferModal.tsx:11-13 | the dialog opens with the discount text and an empty number |
| `Offer.OfferDialog.SetMessage` | components/OfferModal.tsx:62 | the message holds what was typed |
| `Offer.OfferDialog.SetMobileNumber` | components/OfferModal.tsx:49 | the number holds what was typed |
| `Offer.OfferDialog.ShowsMobileInput` | components/OfferModal.tsx:42 | the number field is shown iff the dialog has exactly one customer |
| `Offer.OfferDialog.HandleSend` | components/OfferModal.tsx:15-19 | the dialog sends iff the message has a non-whitespace character; what it sends is the untrimmed message and the chosen platform, with the number present iff exactly one customer is targeted |
| `CustomerTable.FilterClicked` | components/CustomerTable.tsx:53 | clicking a filter button passes that button's filter on |
| `CustomerTable.FilterOptionsComplete` | components/CustomerTable.tsx:26-31 | the four filter buttons offer every filter exactly once, in the order all, premium, regular, normal |
| `CustomerTable.AreAllSelected` | components/CustomerTable.tsx:43 | the header box is checked when the table is non-empty and the selection has as many ids as there are rows |
| `CustomerTable.BulkSendDisabled` | components/CustomerTable.tsx:66 | the bulk button is disabled exactly when nothing is selected |
| `CustomerTable.EmptyTableHeaderUnchecked` | components/CustomerTable.tsx:43 | with no rows the header checkbox is unchecked |
| `CustomerTable.HeaderComparesCounts` | components/CustomerTable.tsx:43 | the header checkbox compares counts only: two selected ids matching no row still check it for a two-row table |
| `CustomerTable.BulkSendLabel` | components/CustomerTable.tsx:69 | the bulk button's caption is `Send Offer (`, then digits that read back as the selection count, then `)` |
| `CustomerTable.Rows` | components/CustomerTable.tsx:92-98 | one row per visible customer, in order, checked exactly when its id is selected |
| `Dashboard.Filter` | App.tsx:30 | `filter` keeps exactly the elements that pass, so it is no longer than its input |
| `Dashboard.FilterKeepsCounts` | App.tsx:30 | `filter` keeps every passing element as often as it occurs and drops every other |
| `Dashboard.FilterKeepsOrder` | App.tsx:30 | `filter` keeps the input order |
| `Dashboard.FilterAppend` | App.tsx:65 | filtering a concatenation filters each part |
| `Dashboard.FilterKeepsAll` | App.tsx:65 | filtering a list whose elements all pass gives the list back |
| `Dashboard.Ids` | App.tsx:74 | `map(c => c.id)` has one id per customer, position by position |
| `Dashboard.FilteredTopCustomers` | App.tsx:27-31 | the view is empty without a dataset, all customers under `all`, and otherwise exactly the customers of the chosen segment |
| `Dashboard.SegmentViewIsOrderedSublist` | App.tsx:30 | a segment view keeps dataset order and keeps each customer of the segment as often as it occurs |
| `Dashboard.Toggled` | App.tsx:62-68 | a row click flips the clicked id's membership, keeps every other id's membership and creates no duplicate |
| `Dashboard.ToggleTwiceRestores` | App.tsx:63-67 | clicking an unselected id twice gives back exactly the original list, order included |
| `Dashboard.ToggleTwiceMembership` | App.tsx:63-67 | clicking any id twice restores that id's membership |
| `Dashboard.SelectAllResult` | App.tsx:70-76 | the header click yields nothing or all visible ids, and all visible ids iff the counts differ or the view is empty |
| `Dashboard.SelectAllTwiceRestoresIff` | App.tsx:70-76 | two header clicks restore the selection iff it started empty or as exactly the visible ids |
| `Dashboard.BulkTargets` | App.tsx:80 | a bulk offer goes to exactly the dataset customers whose id is selected, each as often as it occurs in the dataset and in dataset order |
| `Dashboard.ErrorMessage` | App.tsx:42 | a thrown `Error` contributes its own message, anything else the fixed unknown-error text |
| `Dashboard.ToastText` | App.tsx:99 | the notice reads "Offer sent to", the recipient, "via", the upper-cased platform name and "!" |
| `Dashboard.SentCount` | App.tsx:96 | the number of customers the open dialog sends to, 0 when none is open |
| `Dashboard.Recipient` | App.tsx:97 | the notice names the number for one recipient with a non-empty number, and otherwise the count followed by " customer(s)" |
| `Dashboard.RecipientForms` | App.tsx:96-97 | the notice names a number iff there is one recipient and a non-empty number; otherwise it names a count that reads back as the recipient count |
| `Dashboard.Step` | App.tsx:33-116 | the state after each handler or analysis outcome, with the selection effect applied exactly when the dataset or the filter changes |
| `Dashboard.DatasetOrFilterChangeClearsSelection` | App.tsx:113-116 | any transition that installs a new dataset or changes the dataset or the filter leaves the selection empty |
| `Dashboard.UploadTransitions` | App.tsx:33-47 | starting an upload turns loading on and clears the error. Success installs the data and leaves the upload screen. Failure records the message, returns to the upload screen and keeps the data. Both end loading and keep the filter |
| `Dashboard.AnalysisFailureRecorded` | App.tsx:41-43 | a failed analysis is recorded with the analysis client's catch-all message |
| `Dashboard.ResetTransition` | App.tsx:53-59 | reset logs out, drops the data and the error, returns to the upload state and the `all` filter, and leaves the notice and the loading flag alone |
| `Dashboard.BulkOfferTransition` | App.tsx:78-85 | the bulk dialog opens for the selected dataset customers, and nothing changes when none match |
| `Dashboard.BulkSendEnabledOpensDialog` | components/CustomerTable.tsx:64-69 | when the selection is inside the view and the bulk button is enabled, clicking it always opens the dialog (App.tsx:78-85 never finds an empty target list) |
| `Dashboard.SelectionHasTargets` | App.tsx:80 | a non-empty selection of shown ids always has at least one dataset customer to target |
| `Dashboard.SendOfferTransition` | App.tsx:95-102 | sending sets a notice, closes the dialog, clears the selection and keeps the data |
| `Dashboard.SelectionChangeStep` | App.tsx:62-68 | ticking a row toggles that id in the selection and changes nothing else |
| `Dashboard.FilterChangeStep` | App.tsx:214 | choosing a different segment filter installs it and, by the effect at App.tsx:113-116, empties the selection; nothing else changes |
| `Dashboard.SendOfferStep` | App.tsx:95-102 | sending changes only the notice, the dialog and the selection |
| `Dashboard.HeaderCheckboxAfterSelectAll` | App.tsx:70-76 | after a header click the header box is checked iff the view is non-empty and the selection count differed from the row count |
| `Dashboard.Enabled` | components/CustomerTable.tsx:92-98 | a row checkbox, and so a row click, exists only for a customer the table renders |
| `Dashboard.SelectionChangeKeepsSelectionWithinView` | App.tsx:62-68 | a click on a shown row keeps every selected id on screen |
| `Dashboard.SelectAllKeepsSelectionWithinView` | App.tsx:70-76 | a header click selects nothing or only shown ids |
| `Dashboard.OtherEventsKeepSelectionWithinView` | App.tsx:113-116 | every event other than a row or header click either empties the selection or keeps both the selection and the view as they were, and so keeps every selected id on screen |
| `Dashboard.StepKeepsSelectionWithinView` | App.tsx:113-116 | every enabled event keeps the selection inside the view |
| `Dashboard.NoDataNoSelection` | App.tsx:27-28 | without a dataset, a selection inside the view holds no id |
| `Dashboard.RunKeepsSelectionWithinView` | App.tsx:113-116 | after any run of enabled events the selection is inside the view, and it holds no id while there is no dataset |
| `Dashboard.ScreenOf` | App.tsx:125-139 | login until authenticated, then the upload screen in the initial state, then the dashboard when there is data, and otherwise the fallback message |
| `Dashboard.Routing` | App.tsx:125-139 | login leads to the idle upload screen, a successful analysis to the dashboard, a failed one back to the upload screen, and reset to the login screen |
| `Dashboard.DisplayedError` | App.tsx:129-173 | as written, the error text on screen: the state's error on the dashboard, none on the login and upload screens or the fallback message |
| `Dashboard.FailureMessageNotShown` | App.tsx:129-130 | as written, a failed analysis records its message but the screen it routes to shows none |
| `Dashboard.FailureMessageShownIntended` | App.tsx:168-173 | in the intended screen, a failed analysis's message is shown on the upload screen and cleared when the next upload starts |
| `Dashboard.App.constructor` | App.tsx:17-25 | the controller starts logged out, with no data, no error, no dialog, no notice, nothing selected, on the upload state and the `all` filter |
| `Dashboard.App.HandleLoginSuccess` | App.tsx:49-51 | the state after login is the login transition of the state before |
| `Dashboard.App.BeginUpload` | App.tsx:33-35 | the state after an upload starts is the upload-start transition |
| `Dashboard.App.CompleteUpload` | App.tsx:36-46 | the state after the analysis ends is the success or the failure transition |
| `Dashboard.App.HandleReset` | App.tsx:53-59 | the state after reset is the reset transition, including the selection effect |
| `Dashboard.App.SetCustomerSegmentFilter` | App.tsx:214 | the state after a filter click is the filter transition, including the selection effect |
| `Dashboard.App.HandleSelectionChange` | App.tsx:62-68 | the state after a row click is the toggle transition |
| `Dashboard.App.HandleSelectAll` | App.tsx:70-76 | the state after a header click is the select-all transition |
| `Dashboard.App.HandleOpenBulkOfferModal` | App.tsx:78-85 | the state after a bulk-send click is the bulk-dialog transition |
| `Dashboard.App.HandleOpenSingleOfferModal` | App.tsx:87-89 | the state after a row's send click is the single-dialog transition |
| `Dashboard.App.HandleCloseOfferModal` | App.tsx:91-93 | the state after closing the dialog is the close transition |
| `Dashboard.App.HandleSendOffer` | App.tsx:95-102 | the state after sending is the send transition |
| `Dashboard.App.DismissToast` | App.tsx:104-111 | the state after the notice closes is the dismiss transition |

## Left out

- The language-model client, its configuration (model name, MIME type, thinking budget) and the `API_KEY` check at load time are library code and configuration. The call is the parameter `generate`.
- `JSON.parse`, `JSON.stringify` and `file.text()` are library code. Parsing is the parameter `parse`; a file is its name and MIME type.
- Browser storage is the `storedUser` field of the login form. The model has no storage errors and no malformed stored JSON.
- The timers are not modelled: the 1-second submit delay, the 2-second delay before the login callback, the 3-second toast timer and the help-email popup. `Login.LoginForm.HandleSubmit` runs the delayed body at once and returns whether the callback fires. `Dashboard.App.DismissToast` stands for the timer and the close button alike.
- Charts, cards, icons, the toast component, the spinner, confetti, animations, body CSS classes and console output are presentation only.
- The browser's own form validation (`required`, `type="email"`) runs before the submit handler. The handler's checks are modelled as written, so they also cover a form submitted without that validation.
- The cast of the accepted reply to `DashboardData` (services/geminiService.ts:105) is unchecked. The model returns the parsed `Json` value; `Encode` relates records to JSON in one direction only. A reply with four truthy fields of the wrong kinds is accepted and returned unchanged, although it encodes no record (`Analysis.MisshapenReplyAccepted`). In the program such a value reaches `setDashboardData` (App.tsx:39), and rendering the dashboard then throws. The model's upload outcome carries a typed `DashboardData`, so that state has no counterpart in `Dashboard.AppState`.
- The schema's per-field descriptions are prose for the model and are left out. Numbers are `real`, and the schema's integers are reals with no fractional part.
- Analysis.Matches: reads every declared property as present. The declared schema has no `required` list, so a reply the service considers conforming may still omit a field, and the presence check then rejects it.
- JsText.UpperAscii: maps ASCII letters only. The platform names it is applied to are ASCII.
- The offer dialog's heading and recipient line (components/OfferModal.tsx:37-40) and the number field's placeholder (components/OfferModal.tsx:50) are display text and are not modelled.
- Two clicks on the header checkbox do not in general restore the selection, although the checkbox behaves like a toggle on screen. The code (App.tsx:70-76) restores it only from an empty selection or from exactly the visible ids, which `Dashboard.SelectAllTwiceRestoresIff` proves as an iff.

## Findings

| source | as written | input that shows it | evidently intended | confidence | as-written member | corrected member |
|---|---|---|---|---|---|---|
| components/FileUpload.tsx:54 | the drop handler sits on the outermost element, which is rendered while an analysis is loading | drop `sales.csv` (`text/csv`) while `isLoading` is true: the file is handed over and a second analysis starts | while loading, no control accepts a file, just as the picker is removed | not executed | `Upload.DropSubmitsWhileLoading` | `Upload.NoSubmissionWhileLoading` |
| App.tsx:130 | a failed analysis sets `error` and returns to the upload screen, which is given no error to show; only the dashboard has an error box (App.tsx:168-173) | an analysis whose reply lacks `topCustomers`: the state holds "Failed to analyze data. …" but the upload screen shows nothing | the failure message is shown on the upload screen | not executed | `Dashboard.FailureMessageNotShown` | `Dashboard.FailureMessageShownIntended` |
