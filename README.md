# wafi_app client logic, modelled in Dafny

wafi_app is a React personal-finance web client. This project models the decision logic the client
holds, together with the state its pages update:

- **Transactions page.** The installment gap detector, which decides whether a transaction labelled
  "current/total" still has future installments missing from the loaded list. The guard of the
  "generate future installments" action. The upload form's file validation and file icon. The
  "YYYY-MM" reference month. The expanded-month set, the signed month total and the list of years.
  The upload panel, which holds the flags the upload and password-retry handlers set step by step.
- **Upload service.** The streaming upload. It builds the multipart form, cuts the response body into
  `'\n'`-terminated lines across chunk boundaries, reads the `data: ` lines as frames, reports
  progress frames, and turns the last terminal frame into a result or an error.
- **HTTP client.** The base-address normaliser, the `{ success, data, error }` envelope every verb
  unwraps, the bearer header and the sign-out on a 401 answer.
- **Administration page.** How an audit-log action is classified, and the counters shown above the
  logs and the feature flags.
- **Settings page.** The permission-matrix update, the changed-fields-only profile payload, the
  password form, and couple mode.
- **Registration page.** The ordered validation chain, and how a server refusal becomes the one message
  shown.

Modules:

- `Text`: JavaScript string operations on `seq<char>`.
- `Js`: JSON values, truthiness, `||`, `??` and `String(v)`.
- `Installments`, `UploadForm`, `UploadStream`, `UploadFlow`, `Api`, `Admin`, `Settings`, `Register`:
  one module per concern.

Modelling conventions:

- **Pure code.** Pure code is a function with its contract and lemmas.
- **Handlers.** Handlers that update a page's state are methods of a class whose fields are that
  state. Each method ensures that its new `State()` equals a step function of the old state. The
  properties are proved about the step functions.
- **The upload service's reading loop.** It is an imperative method. It is proved against a
  specification of the whole body text: the events reported and the outcome do not depend on how the
  text is cut into chunks.
- **Inputs from outside the code.** The responses of the network, `JSON.parse` (a partial function
  `string -> Option<Frame>`), the current year and month, and the user's answer to a confirmation
  dialog are parameters.

Where the design description and the code differ, the model follows the code:

- The streaming upload sends no card identifier. Only `file`, `password` and `referenceMonth` are sent
  (src/services/upload.service.ts:108-115).
- A success result is the terminal frame itself, not a count.
- The installment detector also treats an empty label as "no installments".
- The detector strips any trailing `\s*(n/m)` counter, then trims.
- The 3-second reset after an error exists only for the first upload, not for the password retry.
- The password retry checks the month after it has already set `uploading`. A refused month therefore
  leaves the panel uploading (`UploadFlow.PasswordBadMonthStaysUploading`).

## Model

| member | source | states |
|---|---|---|
| Installments.ParseInstallment | src/pages/TransactionsPage.tsx:668-674 | A label parses exactly when it matches `^(\d+)\/(\d+)$`; then the two numbers are the decimal values of the digits before and after the slash |
| Installments.InstallmentLabelRoundTrip | src/pages/TransactionsPage.tsx:687 | The label `${i}/${total}` built for an installment parses back to `(i, total)` |
| Installments.StripFutureCounter | src/pages/TransactionsPage.tsx:682 | Removing the `\s*(n/m)` counter from `base (lbl)` leaves `base` plus the blank, less trailing white space |
| Installments.StripCounter | src/pages/TransactionsPage.tsx:682 | The description without its trailing counter is a prefix of the description; `StripFutureCounter` states what it removes from a generated description |
| Installments.BaseDescription | src/pages/TransactionsPage.tsx:682 | A missing description gives the empty name; the name has no white space at either end; `BaseOfFutureDescription` states that it recovers the series name |
| Installments.BaseOfFutureDescription | src/pages/TransactionsPage.tsx:682-688 | The series name recovered from the description of any installment of a series is the (trimmed) name the description was built from |
| Installments.SameDescriptionIsPrefix | src/pages/TransactionsPage.tsx:693 | The description test holds iff the description is defined and starts with the series name: the exact-equality disjunct adds nothing |
| Installments.AnyMissing | src/pages/TransactionsPage.tsx:686-704 | The early-return loop is true iff some index in `from..total` has no matching transaction |
| Installments.IsInstallmentOf | src/pages/TransactionsPage.tsx:693-700 | A transaction matching installment `i` of `total` carries a label that parses back to `(i, total)` |
| Installments.HasMissingInstallments | src/pages/TransactionsPage.tsx:663-708 | False for an absent, empty or "Única" label and for a label not matching `^\d+/\d+$`; for a label `current/total`, true iff `current < total` and some `i` in `current+1..total` has no loaded transaction with a description starting with the series name, an amount within 0.01 and the label `i/total` |
| Installments.GenerateInstallments | src/pages/TransactionsPage.tsx:710-730 | Refuses as "not an installment" exactly for an absent, empty or "Única" label, as "invalid format" exactly for other non-matching labels, as "all posted" when `current >= total`; otherwise offers `total - current` (always positive) installments |
| Installments.DetectorImpliesOffer | src/pages/TransactionsPage.tsx:663-678 | Wherever the generate action refuses, the detector says nothing is missing, whatever the list holds |
| Installments.CompleteSeriesHasNoGap | src/pages/TransactionsPage.tsx:686-707 | Once every later installment of the series, as the backend creates it, is in the list, the detector is false |
| Installments.AloneHasGap | src/pages/TransactionsPage.tsx:686-703 | A transaction labelled "2/4" with nothing else loaded has missing installments |
| UploadForm.Extension | src/pages/TransactionsPage.tsx:780 | The extension is the lower-cased tail of the name that holds no dot and starts either at the start of the name or right after a dot: so it is what follows the last dot, or the whole name when there is none |
| UploadForm.CheckFile | src/pages/TransactionsPage.tsx:772-791 | A file is accepted iff (its type is one of the seven MIME types or its extension one of the seven extensions) and its size is at most 10·1024·1024; the type is refused whenever both lists miss, whatever the size; a size refusal means the size is over the cap |
| UploadForm.IconOf | src/pages/TransactionsPage.tsx:1003-1009 | The PDF icon iff the extension is `pdf`, the image icon iff it is jpg/jpeg/png, the sheet icon iff it is xlsx/xls/csv |
| UploadForm.IconMatchesAllowList | src/pages/TransactionsPage.tsx:1003-1009 | A file gets a specific icon exactly when its extension is on the upload allow-list |
| UploadForm.MonthKeyRoundTrip | src/pages/TransactionsPage.tsx:811 | The `${year}-${month padded to 2}` key of a month 1..12 reads back as that year and month |
| UploadForm.MonthKeyParts | src/pages/TransactionsPage.tsx:811 | The key is the year's digits, then the first dash of the key, then the month padded to two characters |
| UploadForm.MonthKey | src/pages/TransactionsPage.tsx:811 | The key is at least the year's digits plus a dash and two month characters; `MonthKeyParts` and `MonthKeyRoundTrip` state its layout and that it reads back |
| UploadForm.ParseMonthKey | src/pages/TransactionsPage.tsx:811 | Only a key with a dash reads back; `MonthKeyRoundTrip` states that every key of a month 1..12 reads back as its year and month |
| UploadForm.ToggleMonth | src/pages/TransactionsPage.tsx:1030-1038 | The toggled key's membership flips; every other key keeps its membership |
| UploadForm.ToggleTwice | src/pages/TransactionsPage.tsx:1030-1038 | Toggling the same month twice restores the set |
| UploadForm.MonthTotalConcat | src/pages/TransactionsPage.tsx:1022-1027 | The signed total of a list split in two is the sum of the parts' totals |
| UploadForm.MonthTotal | src/pages/TransactionsPage.tsx:1022-1027 | A month of non-negative incomes only totals at least 0, and one of non-negative expenses only at most 0; `MonthTotalIsIncomeMinusExpense` states the total as incomes minus expenses |
| UploadForm.MonthTotalIsIncomeMinusExpense | src/pages/TransactionsPage.tsx:1022-1027 | The month total equals the incomes' sum minus the expenses' sum |
| UploadForm.InsertYear | src/pages/TransactionsPage.tsx:1012-1014 | Inserting a year into a strictly descending list keeps it strictly descending and adds exactly that year |
| UploadForm.AvailableYears | src/pages/TransactionsPage.tsx:1012-1014 | The years list is strictly descending (so without duplicates) and holds exactly the years of the loaded transactions |
| UploadStream.FormFields | src/services/upload.service.ts:108-115 | `file` is always the first field; `password` and `referenceMonth` are present iff given and non-empty, with their values; no other field is sent |
| UploadStream.ToEvent | src/services/upload.service.ts:164-174 | The reported progress is the frame's unless absent or null (then 0); the message is the frame's when truthy, otherwise "" |
| UploadStream.IsTerminal | src/services/upload.service.ts:158-160 | A frame that is not kept as the final result has none of `success`, `requiresPassword` and `invalidPassword` truthy, so it could not have resolved the call |
| UploadStream.ReportsProgress | src/services/upload.service.ts:163-164 | A frame that is not reported would only have shown progress 0 and an empty message |
| UploadStream.CompleteLines | src/services/upload.service.ts:148-149 | No line handed to the inner loop contains `'\n'` |
| UploadStream.Fragment | src/services/upload.service.ts:149 | The buffer kept between chunks contains no `'\n'` |
| UploadStream.SplitReassembles | src/services/upload.service.ts:147-149 | The complete lines, each given back its `'\n'`, followed by the kept fragment, are exactly the text read |
| UploadStream.LinesOfConcat | src/services/upload.service.ts:142-150 | Chunk boundaries do not matter: reading `b` after `a` gives the lines of `a + b` and keeps the fragment of `a + b` |
| UploadStream.UnterminatedLineIgnored | src/services/upload.service.ts:149 | A last line without `'\n'` after a terminated text yields no line |
| UploadStream.FragmentAfterNewline | src/services/upload.service.ts:149 | A text ending in `'\n'` leaves an empty buffer |
| UploadStream.ReadLine | src/services/upload.service.ts:151-178 | A line not starting with `data: `, or whose JSON does not parse, changes nothing; a line adds at most one event |
| UploadStream.ReadLinesAppend | src/services/upload.service.ts:151-180 | Reading two runs of lines one after the other is reading their concatenation |
| UploadStream.LastTerminal | src/services/upload.service.ts:158-160 | None iff no frame is terminal; otherwise a terminal frame of the list after which no frame is terminal |
| UploadStream.ReadLinesSpec | src/services/upload.service.ts:151-180 | The loop reports one event per frame with progress or message, in order, and `finalResult` becomes the last terminal frame, or stays as it was when there is none |
| UploadStream.PasswordResult | src/services/upload.service.ts:186-192 | The password result has `success` false and keeps the truthiness of the frame's `requiresPassword` and `invalidPassword` |
| UploadStream.Decide | src/services/upload.service.ts:184-207 | Resolves iff a terminal frame exists with `requiresPassword`, `invalidPassword` or `success` truthy; a password frame resolves without success (taking priority over `success`); a success resolves with the frame itself; no terminal frame throws "Processamento não completou"; any other terminal frame throws its `error`, else its `message`, else "Erro ao processar arquivo"; every thrown reason is truthy |
| UploadStream.ReadDataLine | src/services/upload.service.ts:152-175 | The inner loop's body changes the events and `finalResult` exactly as `ReadLine` states |
| UploadStream.SplitBuffer | src/services/upload.service.ts:148-149 | The lines handed on are the buffer's complete lines and the kept rest is its fragment; the lines, each given back its `'\n'`, followed by the rest are the buffer |
| UploadStream.ReadDataLines | src/services/upload.service.ts:151-180 | Reading one chunk's lines in order changes the events and `finalResult` exactly as `ReadLines` states |
| UploadStream.RefusalReason | src/services/upload.service.ts:126-129 | A non-ok response rejects with its object body's truthy `error`, else with "Erro ao fazer upload do arquivo" (also for a JSON body that is not an object); a body that cannot be read rejects with the runtime's error |
| UploadStream.StreamUrlAsWritten | src/services/upload.service.ts:1 | The upload address is the configured base taken as it is (or the local default), followed by `/upload/stream` |
| UploadStream.StreamUrlAsWrittenMissesApi | src/services/upload.service.ts:1 | Any base configured without `/api` and without a trailing slash, which the HTTP client completes with `/api`, sends the upload to the base followed by `/upload/stream`, outside the client's base |
| UploadStream.HostStreamUrlMissesApi | src/services/upload.service.ts:1 | With the base `https://host` the upload address does not start with the client's base |
| UploadStream.StreamUrl | src/services/api.ts:5-17 | The upload address starts with the HTTP client's normalized base, which ends in `/api`, and ends with `/upload/stream`; with no base configured it is the address as written |
| UploadStream.UploadFileWithProgress | src/services/upload.service.ts:102-208 | Posts to `StreamUrlAsWritten` with the form fields above; a network error, a non-ok status (rejecting with `RefusalReason`) or a missing reader throws before any event; otherwise the events are those of every frame on a complete line of the whole body, in order, and the outcome is the decision on the last terminal frame |
| UploadStream.Expected | src/services/upload.service.ts:102-208 | A network error, a non-ok status or a missing reader gives no event and a rejection; a resolved call carries a terminal frame with a truthy `requiresPassword`, `invalidPassword` or `success`; `UploadFileWithProgress` is proved to compute it chunk by chunk |
| UploadStream.UnterminatedFrameIgnored | src/services/upload.service.ts:142-150 | A frame left without a trailing `'\n'` when the stream ends changes neither the events nor the outcome |
| UploadFlow.SelectFileStep | src/pages/TransactionsPage.tsx:768-801 | An accepted file becomes the chosen file and resets uploading, progress, message, both password flags and the password; a refused file only adds an error toast |
| UploadFlow.Finish | src/pages/TransactionsPage.tsx:848-855 | A finished import forgets the file and password, closes the modal, stops uploading and reloads the list once |
| UploadFlow.UploadEvent | src/pages/TransactionsPage.tsx:827-857 | Each event's progress and message are shown; a password request stops uploading and keeps the file; an invalid-password event raises its flag; only a success announcement reloads |
| UploadFlow.PasswordEvent | src/pages/TransactionsPage.tsx:926-946 | The retry's callback shows the event, raises the invalid-password flag and stops uploading on a wrong password, and finishes on a success announcement |
| UploadFlow.UploadEvents | src/pages/TransactionsPage.tsx:825-860 | The callbacks over a stream never change the tab, the month or the toasts, and reload at most once per event; `UploadEventsKeepFile` and `UploadEventsReloads` state the rest |
| UploadFlow.PasswordEvents | src/pages/TransactionsPage.tsx:924-949 | The retry's callbacks over a stream never change the tab, the month or the toasts, and reload at most once per event; `PasswordEventsKeepFile` and `PasswordEventsReloads` state the rest |
| UploadFlow.ErrorText | src/pages/TransactionsPage.tsx:896 | The shown error starts with "❌ Erro: " and is never only that prefix |
| UploadFlow.UploadResult | src/pages/TransactionsPage.tsx:862-903 | A password result stops uploading and asks for the password; an error is ignored when a password request was showing at the start, otherwise shown with progress 0 |
| UploadFlow.PasswordResultStep | src/pages/TransactionsPage.tsx:951-974 | The tab, the month and the toasts never change and at most one reload is added; A wrong-password result raises the flag and stops uploading, keeping everything else; otherwise a success finishes the import; any other result changes nothing; an error of the retry is shown with progress 0 and stops uploading |
| UploadFlow.UploadAndProcessStep | src/pages/TransactionsPage.tsx:803-904 | The handler never changes the tab or the month, adds no toast once its guards pass, and reloads at most once per event plus once at the end; `UploadGuards`, `PasswordRequestKeepsFile`, `SuccessFinishes` and `UploadFailureShown` state its outcomes |
| UploadFlow.PasswordSubmitStep | src/pages/TransactionsPage.tsx:906-975 | The retry never changes the tab or the month, adds no toast once its guards pass, and reloads at most once per event plus once at the end; `PasswordGuard`, `PasswordBadMonthStaysUploading`, `WrongPasswordKeepsFile` and `PasswordSuccessFinishes` state its outcomes |
| UploadFlow.CloseModalStep | src/pages/TransactionsPage.tsx:1236-1252 | Closing the modal hides it, drops the file, selects the manual tab and resets the month to the current one |
| UploadFlow.UploadGuards | src/pages/TransactionsPage.tsx:804-816 | Without a file or with a month outside 1..12 the upload only adds one warning toast |
| UploadFlow.PasswordGuard | src/pages/TransactionsPage.tsx:907 | A retry without a file or with a blank password (after trimming) changes nothing |
| UploadFlow.PasswordBadMonthStaysUploading | src/pages/TransactionsPage.tsx:909-921 | A retry with a refused month leaves the panel uploading with "Processando com senha..." |
| UploadFlow.UploadEventsKeepFile | src/pages/TransactionsPage.tsx:827-857 | Without a success announcement the callbacks keep the file, password, modal, month, toasts and reload count |
| UploadFlow.PasswordRequestKeepsFile | src/pages/TransactionsPage.tsx:863-868 | A stream ending in a password request leaves the panel asking for a password, not uploading, with the file still chosen |
| UploadFlow.SuccessFinishes | src/pages/TransactionsPage.tsx:877-888 | A successful import closes the modal, forgets file and password, stops uploading and reloads the list |
| UploadFlow.UploadEventsReloads | src/pages/TransactionsPage.tsx:855 | The callbacks never decrease the reload count |
| UploadFlow.PasswordEventsKeepFile | src/pages/TransactionsPage.tsx:926-946 | Without a success announcement the retry's callbacks keep the file, password, modal, month, toasts and reload count |
| UploadFlow.PasswordEventsReloads | src/pages/TransactionsPage.tsx:944 | The retry's callbacks never decrease the reload count |
| UploadFlow.WrongPasswordKeepsFile | src/pages/TransactionsPage.tsx:951-955 | A retry the server answers with a wrong password marks it wrong and stops uploading, with the file, the password, the modal and the reload count kept, so the user can type it again |
| UploadFlow.PasswordSuccessFinishes | src/pages/TransactionsPage.tsx:957-969 | A retry the server accepts closes the modal, forgets file and password, stops uploading and reloads the list |
| UploadFlow.UploadFailureShown | src/pages/TransactionsPage.tsx:890-897 | A network failure of the first upload is shown with progress 0 unless a password request was showing when the handler started |
| UploadFlow.CancelManualAsWritten | src/pages/TransactionsPage.tsx:1341-1342 | The manual tab's Cancel button stores the month as a text of digits, a dash and digits |
| UploadFlow.CancelThenUploadAsWritten | src/pages/TransactionsPage.tsx:811-813 | After that Cancel, the month guard lets the upload through and it sends `${year}-${YYYY-MM}`, which does not read back as a "YYYY-MM" key |
| UploadFlow.CancelInOctober2026 | src/pages/TransactionsPage.tsx:1342 | In October 2026 the value sent after that Cancel is "2026-2026-10" |
| UploadFlow.CloseThenUpload | src/pages/TransactionsPage.tsx:1241 | With the month stored as a number, the next upload passes the guard and sends a key that reads back as the year and the current month |
| UploadFlow.UploadPanel.constructor | src/pages/TransactionsPage.tsx:524-535 | The panel starts with no file, nothing uploading, both flags down, the current month selected |
| UploadFlow.UploadPanel.OpenModal | src/pages/TransactionsPage.tsx:1059 | Only `showModal` changes, to true |
| UploadFlow.UploadPanel.SelectTab | src/pages/TransactionsPage.tsx:1255-1260 | Only the tab changes |
| UploadFlow.UploadPanel.SelectFile | src/pages/TransactionsPage.tsx:768-801 | The new state is `SelectFileStep` of the old one |
| UploadFlow.UploadPanel.TakeFile | src/pages/TransactionsPage.tsx:793-800 | Keeps the file and clears uploading, progress, message, both password flags and the password; nothing else changes |
| UploadFlow.UploadPanel.RemoveFile | src/pages/TransactionsPage.tsx:1389 | Only the file changes, to none |
| UploadFlow.UploadPanel.SelectMonth | src/pages/TransactionsPage.tsx:1400-1401 | Only the month changes |
| UploadFlow.UploadPanel.EditPassword | src/pages/TransactionsPage.tsx:1429-1431 | The password changes and the wrong-password notice is cleared; nothing else changes |
| UploadFlow.UploadPanel.CloseModal | src/pages/TransactionsPage.tsx:1458-1464 | The new state is `CloseModalStep` of the old one |
| UploadFlow.UploadPanel.ErrorTimerFires | src/pages/TransactionsPage.tsx:898-902 | The file is dropped, uploading stops and the message is cleared; nothing else changes |
| UploadFlow.UploadPanel.FinishImport | src/pages/TransactionsPage.tsx:848-855 | The new state is `Finish` of the old one |
| UploadFlow.UploadPanel.OnUploadEvent | src/pages/TransactionsPage.tsx:827-857 | The new state is `UploadEvent` of the old one |
| UploadFlow.UploadPanel.OnPasswordEvent | src/pages/TransactionsPage.tsx:926-946 | The new state is `PasswordEvent` of the old one |
| UploadFlow.UploadPanel.RunUploadEvents | src/pages/TransactionsPage.tsx:825-860 | Calling the callback for each event in turn gives `UploadEvents` of the old state |
| UploadFlow.UploadPanel.RunPasswordEvents | src/pages/TransactionsPage.tsx:924-949 | Calling the retry's callback for each event in turn gives `PasswordEvents` of the old state |
| UploadFlow.UploadPanel.ApplyUploadResult | src/pages/TransactionsPage.tsx:862-903 | The new state is `UploadResult` of the old one |
| UploadFlow.UploadPanel.ApplyPasswordResult | src/pages/TransactionsPage.tsx:951-974 | The new state is `PasswordResultStep` of the old one |
| UploadFlow.UploadPanel.UploadAndProcess | src/pages/TransactionsPage.tsx:803-904 | A request is sent iff a file is chosen and the month is in 1..12, with the file and the "YYYY-MM" key and no password; the new state is `UploadAndProcessStep` of the old one |
| UploadFlow.UploadPanel.BeginUploadRun | src/pages/TransactionsPage.tsx:818-822 | Starts uploading at progress 0 with "Iniciando upload..." and clears both password flags; nothing else changes |
| UploadFlow.UploadPanel.BeginPasswordRun | src/pages/TransactionsPage.tsx:909-912 | Clears the wrong-password flag, starts uploading at progress 0 with "Processando com senha..." |
| UploadFlow.UploadPanel.PasswordSubmit | src/pages/TransactionsPage.tsx:906-975 | A request is sent iff a file is chosen, the trimmed password is non-empty and the month is in 1..12, with the file, the password as typed and the "YYYY-MM" key; the new state is `PasswordSubmitStep` of the old one |
| Api.StripTrailingSlashes | src/services/api.ts:7 | The result is a prefix of the input, does not end in `/`, and only slashes were removed |
| Api.StripWithoutSlash | src/services/api.ts:7 | A text not ending in `/` is left unchanged |
| Api.NormalizeApiUrl | src/services/api.ts:5-15 | The result ends with `/api`, never with `/`, extends the slash-stripped input and adds at most `/api` |
| Api.NormalizeKeepsApi | src/services/api.ts:10-14 | An input whose slash-stripped form ends in `/api` only loses its trailing slashes |
| Api.NormalizeAddsApi | src/services/api.ts:10-12 | Any other input gets `/api` appended to its slash-stripped form |
| Api.NormalizeIdempotent | src/services/api.ts:5-15 | Normalising twice is normalising once |
| Api.ApiUrl | src/services/api.ts:17 | An unset or empty configuration gives the local default; otherwise the configured address normalised |
| Api.Unwrap | src/services/api.ts:51-90 | Each verb resolves iff `success`, with `data`; otherwise it rejects with `error`, or "Erro na requisição" when `error` is absent or empty, never with an empty message |
| Api.UnwrapRoundTrip | src/services/api.ts:53-56 | A success envelope yields its data back; a failure envelope yields its error text back |
| Api.UnwrapIgnoresMessage | src/services/api.ts:53-56 | The envelope's `message` field never changes the outcome |
| Api.Session.AuthorizationHeader | src/services/api.ts:30-36 | A header is added iff a non-empty token is stored, and it is `Bearer ` followed by that token |
| Api.Session.OnResponseError | src/services/api.ts:38-47 | Every error is rejected unchanged; a 401 removes exactly the `token` and `user` keys and moves to `/login`; any other error changes nothing |
| Admin.ContainsAny | src/pages/AdminPage.tsx:497 | True iff the text contains one of the words |
| Admin.IsErrorAction | src/pages/AdminPage.tsx:495-498 | True iff the upper-cased action contains one of ERROR, FAILED, FAILURE, EXCEPTION, UNAUTHORIZED, FORBIDDEN |
| Admin.ActionLevel | src/pages/AdminPage.tsx:500-512 | ERROR iff the upper-cased action contains ERROR, FAILED or FAILURE; WARNING iff not ERROR and it contains WARNING or WARN; SUCCESS iff neither and it contains SUCCESS, CREATED or UPDATED; otherwise INFO |
| Admin.ErrorLevelIsErrorAction | src/pages/AdminPage.tsx:496 | An action at the error level is an error action |
| Admin.WarningMeansWarn | src/pages/AdminPage.tsx:505 | The WARNING test adds nothing to the WARN test |
| Admin.LevelCount | src/pages/AdminPage.tsx:755-758 | A level counter never exceeds the number of loaded logs |
| Admin.ErrorsShown | src/pages/AdminPage.tsx:752 | The "Erros" counter never exceeds the number of loaded logs |
| Admin.ErrorsShownAreErrorActions | src/pages/AdminPage.tsx:752 | The "Erros" counter equals the number of error actions |
| Admin.ErrorActionCount | src/pages/AdminPage.tsx:752 | The number of error actions never exceeds the number of logs |
| Admin.LevelsPartitionLogs | src/pages/AdminPage.tsx:755-758 | The four level counts add up to the number of logs, so warnings plus successes never exceed it |
| Admin.EnabledCount | src/pages/AdminPage.tsx:618 | The active-flag count never exceeds the number of flags |
| Admin.DisabledCount | src/pages/AdminPage.tsx:618-619 | The number of flags that are off never exceeds the number of flags, and is 0 exactly when every flag is on |
| Admin.InactiveFlagsCount | src/pages/AdminPage.tsx:618-643 | Total minus active flags is the number of flags that are off |
| Settings.UpdatePermission | src/pages/SettingsPage.tsx:305-313 | The updated checkbox reads `value`; every other module and action reads as before; a missing module is created |
| Settings.UpdatePermissionTwice | src/pages/SettingsPage.tsx:305-313 | Setting the same checkbox twice keeps the last value |
| Settings.UpdatePermissionCommutes | src/pages/SettingsPage.tsx:305-313 | Updates of different checkboxes commute |
| Settings.SameModuleCommutes | src/pages/SettingsPage.tsx:305-313 | Two updates of different actions of one module commute |
| Settings.OtherModulesCommute | src/pages/SettingsPage.tsx:305-313 | Two updates of different modules commute |
| Settings.ProfilePayload | src/pages/SettingsPage.tsx:207-209 | `name` is sent iff it differs from the user's (or no user is loaded), with the form's value; likewise `email` |
| Settings.ProfilePayloadComplete | src/pages/SettingsPage.tsx:207-210 | Applying the payload to the stored profile gives the profile the form shows |
| Settings.UnchangedProfileSendsNothing | src/pages/SettingsPage.tsx:207-209 | An unchanged form sends an empty payload |
| Settings.OptionalEmail | src/pages/SettingsPage.tsx:258 | The partner e-mail is sent trimmed, and only when it is not blank |
| Settings.CoupleRequestOf | src/pages/SettingsPage.tsx:245-272 | Asking for the state already held sends nothing; a create is sent iff enabling with a partner name of two or more characters after trimming, with the trimmed name; a delete is sent iff disabling and confirmed |
| Settings.CoupleSwitchNeedsSuccess | src/pages/SettingsPage.tsx:261-277 | Couple mode turns on only after a successful create with a valid name, and off only after a confirmed, successful delete |
| Settings.UpdateCouplePayload | src/pages/SettingsPage.tsx:290-294 | The update sends the partner name as typed, and the e-mail only when non-empty |
| Settings.ErrorMessage | src/pages/SettingsPage.tsx:214 | With a non-empty fallback the toast text is never empty |
| Settings.PasswordRequest | src/pages/SettingsPage.tsx:222-232 | No request iff the two new passwords differ; a request always has them equal |
| Settings.ChangePasswordStep | src/pages/SettingsPage.tsx:220-243 | A mismatch only adds the error toast; a success clears the three password fields; a failure keeps them |
| Settings.UpdateProfileStep | src/pages/SettingsPage.tsx:203-218 | The user is reloaded exactly when the call succeeds |
| Settings.CreateCoupleStep | src/pages/SettingsPage.tsx:254-269 | Couple mode is on afterwards iff the create succeeded or it already was |
| Settings.DeleteCoupleStep | src/pages/SettingsPage.tsx:273-283 | Couple mode is on afterwards iff the delete failed and it was on |
| Settings.ToggleCoupleStep | src/pages/SettingsPage.tsx:245-285 | The switch ends as the request's outcome says; when no request is made, nothing is reloaded and loading is untouched; asking for the state already held, or declining to disable, changes nothing; enabling with a partner name too short only adds the error toast |
| Settings.UpdateCoupleStep | src/pages/SettingsPage.tsx:287-303 | Updating never changes the couple-mode switch or the partner name |
| Settings.SettingsForm.SetPermission | src/pages/SettingsPage.tsx:305-313 | Only the matrix changes, by `UpdatePermission` |
| Settings.SettingsForm.UpdateProfile | src/pages/SettingsPage.tsx:203-218 | Sends `ProfilePayload`; the new state is `UpdateProfileStep` of the old one |
| Settings.SettingsForm.ChangePassword | src/pages/SettingsPage.tsx:220-243 | Sends `PasswordRequest`; the new state is `ChangePasswordStep` of the old one |
| Settings.SettingsForm.FinishPasswordChange | src/pages/SettingsPage.tsx:233-242 | With matching passwords, the new state is `ChangePasswordStep` of the old one |
| Settings.SettingsForm.CreateCouple | src/pages/SettingsPage.tsx:254-269 | The new state is `CreateCoupleStep` of the old one |
| Settings.SettingsForm.DeleteCouple | src/pages/SettingsPage.tsx:273-283 | The new state is `DeleteCoupleStep` of the old one |
| Settings.SettingsForm.EnableCouple | src/pages/SettingsPage.tsx:246-269 | The enabling branch sends `CoupleRequestOf` and moves as `ToggleCoupleStep` states |
| Settings.SettingsForm.DisableCouple | src/pages/SettingsPage.tsx:270-283 | The disabling branch sends `CoupleRequestOf` and moves as `ToggleCoupleStep` states |
| Settings.SettingsForm.ToggleCouple | src/pages/SettingsPage.tsx:245-285 | Sends `CoupleRequestOf`; the new state is `ToggleCoupleStep` of the old one |
| Settings.SettingsForm.UpdateCouple | src/pages/SettingsPage.tsx:287-303 | Sends `UpdateCouplePayload`; the new state is `UpdateCoupleStep` of the old one |
| Register.Validate | src/pages/RegisterPage.tsx:149-162 | A short password is reported first, whatever else; a mismatch only when the length is fine; a short name only when both password checks pass; no error iff all three pass |
| Register.NameNotTrimmed | src/pages/RegisterPage.tsx:159 | The name check counts the name as typed: two blanks pass |
| Register.FlattenKeepsTexts | src/pages/RegisterPage.tsx:198 | Every text of the errors object, single or listed, is in the flattened list |
| Register.Flatten | src/pages/RegisterPage.tsx:198 | Every flattened text comes from one value of the object; values that are single texts give one text each |
| Register.ItemTexts | src/pages/RegisterPage.tsx:196 | One text per array entry, in order: its message when non-empty, otherwise the entry itself |
| Register.ItemText | src/pages/RegisterPage.tsx:196 | An entry's text is its message or the entry as written, and is empty only when both are |
| Register.FailureMessage | src/pages/RegisterPage.tsx:186-203 | Without a response, the error's message or the default; an errors array gives its texts joined with ", "; an errors object gives its flattened values joined with ", " |
| Register.PlainRefusal | src/pages/RegisterPage.tsx:190-191 | Without field errors the server's `message` wins over its `error`, and the message shown is never empty |
| Register.ListedErrorsShown | src/pages/RegisterPage.tsx:195-196 | Every entry of an errors array reaches the message |
| Register.RecordErrorsShown | src/pages/RegisterPage.tsx:197-198 | Every text of an errors object reaches the message |
| Register.SubmitStep | src/pages/RegisterPage.tsx:144-209 | A failed check only sets its message; a passing submit ends not loading; a successful sign-in clears the error and goes home; a refused registration shows the failure's message and stays; a registration whose sign-in fails shows "sign in later" and goes to the login page; the form's fields never change |
| Register.RegisterForm.Submit | src/pages/RegisterPage.tsx:144-209 | The account is requested iff the checks pass, with the name, e-mail and password as typed; the new state is `SubmitStep` of the old one |

## Left out

- Network, `fetch`, axios and `reader.read()` are left out. Responses, including the chunks of the body, are parameters.
- `TextDecoder` is the identity on chunks. A multi-byte character split across two chunks is not modelled.
- `JSON.parse` is the parameter `parse`. A body that parses to `null` is a parse failure: reading a field of it throws, and the loop catches that. JSON numbers are integers. Fractional progress values are not modelled.
- `UploadStream.RefusalReason`: which error a body that is not JSON, or is `null`, rejects with (a `SyntaxError` or a `TypeError` and its text) is the runtime's choice; it is the `message` parameter.
- Amounts in the detector and the month total are exact reals, not IEEE doubles. `Number(tx.amount)` on a text amount is not modelled.
- The current date is not read. The year and month are parameters.
- The 3-second reset timer after a failed upload is not scheduled. It is the separate method `UploadFlow.UploadPanel.ErrorTimerFires`.
- The 2-second redirect after a failed automatic sign-in is taken as done.
- `authService.setAuth` and the login call are outside this model. They are the `signedIn` parameter.
- React re-rendering and state batching are not modelled. Each handler's intermediate `setState` values that are overwritten before it returns (the "✅ … criada(s)" message and progress 100) are not modelled.
- Overlapping uploads, and an upload that keeps running after the modal is closed, are not modelled.
- `UploadFlow.UploadResult`: the `requiresPassword` read in the `catch` block is the value when the handler started. A re-rendered closure could see a newer value; that concurrency effect is left out.
- The confirmation dialog of the generate action and the backend call that creates the installments are left out. Only the decision before the dialog is modelled.
- `console` logging, toasts' display and timing, styling and JSX are left out. The legacy XHR upload in src/services/upload.service.ts:51-97 is left out because nothing calls it.
- The pass-through services and `useMe` are outside this model. The settings page's effect that copies the loaded user into the form (src/pages/SettingsPage.tsx:190-201) is also outside it, because it only copies fields.
- The administration page's other panels (permission editing, flag toggling, log filters) are left out. They are display and pass-through calls.
- `Admin.IsErrorAction`: `toUpperCase` is modelled for ASCII letters only. JavaScript also maps `ı` to `I` and `ſ` to `S`, so an action spelled with those letters is classified differently.
- `Admin.ActionLevel`: same ASCII-only upper-casing as `Admin.IsErrorAction`.
- `UploadForm.Extension`: `toLowerCase` is ASCII-only. The only non-ASCII characters JavaScript lowers to ASCII are the Kelvin sign, which gives `k`, and `İ`, which gives `i` plus a combining mark. Neither can complete an allowed extension, so acceptance is unaffected.
- `Installments.ParseInstallment`: the numbers are exact integers. `parseInt` gives IEEE doubles, so counts above 2^53 round and two different labels such as "9007199254740992/9007199254740993" read as equal numbers there.
- `Register.Validate`: lengths are counted in Unicode characters, not UTF-16 code units. A name or password with characters outside the Basic Multilingual Plane counts shorter here than in the browser.
- `Settings.CoupleRequestOf`: same character counting as `Register.Validate` for the trimmed partner name.
- `Register.SubmitStep`: a failed check leaves `loading` as it was (false whenever the form can be submitted) rather than forcing it false.

## Findings

| source | as written | input that shows it | evidently intended | confidence | as-written member | corrected member |
|---|---|---|---|---|---|---|
| src/pages/TransactionsPage.tsx:1342 | The manual tab's Cancel button stores the reference month as the text `${year}-${MM}`. Every other close control stores the month number. The month guard at 813 lets a non-empty text through, because `NaN < 1` and `NaN > 12` are false. The next upload then sends `${year}-${year}-${MM}` | Cancel the manual tab in October 2026, open the upload tab, choose a file and upload: the request carries `referenceMonth` "2026-2026-10" | Store `new Date().getMonth() + 1`, as lines 1241, 1251 and 1463 do | not executed | UploadFlow.CancelThenUploadAsWritten | UploadFlow.CloseThenUpload |
| src/services/upload.service.ts:1 | The upload service takes `VITE_API_URL` as it is. The HTTP client passes the same setting through `normalizeApiUrl` (src/services/api.ts:5-17), which strips trailing slashes and adds `/api` when it is missing | Configure `VITE_API_URL` as `https://host`: every other call goes to `https://host/api/...`, the upload goes to `https://host/upload/stream` | Post the upload to the client's normalized base followed by `/upload/stream` | not executed | UploadStream.StreamUrlAsWrittenMissesApi | UploadStream.StreamUrl |
