# QuantumCA back office: document intake, notifications, lists and rules

This project models the parts of the QuantumCA dashboard that carry logic:

- **Document intake.** The upload list of the intake page is a state machine. Submitting files appends rows. An upload timer callback raises a row's progress by 10% up to 100% and then marks it processing. A delayed callback restarts the row at 0% for OCR. An OCR timer callback raises progress by 15% up to 100% and then marks the row completed with the OCR results. The model is the class `DocumentIntake.IntakeBoard`, with one method per callback. Each callback is one *tick*, applied by whoever drives the timers.
- **Notifications.** Mark read, mark unread, delete and mark all read rewrite the notification list (class `Notifications.NotificationCenter`). The three drop-down filters and the unread badge are pure queries.
- **List filters and labels.** These are all pure:
  - the client search: case-insensitive on name, PAN or e-mail, plus a status drop-down;
  - the filing status filter;
  - the bot panel's control buttons, its running count and its executions per bot;
  - the badge labels that replace only the first underscore.
- **Form 16 template.** The template's declared rules are the PAN format, required fields and a salary range. They are stated as predicates and checked against the data the OCR step reports.
- **Progress bar.** The clamped percentage of the UI kit's progress bar, over reals.

Modules: `Common` (option and drop-down values), `Seqs` (order-preserving filter, subsequence), `Text` (ASCII case mapping, `includes`, first-occurrence `replace`), `Domain` and `Automation` (the record types), `AutomationData` (the shipped bots, executions and form16 template), and one module per page: `DocumentIntake`, `Notifications`, `ClientManagement`, `BotManagement`, `TaxFilingWorkflow`, `ProgressBar`.

## Model

| member | source | states |
|---|---|---|
| `DocumentIntake.IntakeBoard.Submit` | src/pages/DocumentIntake.tsx:70-88 | one new row per selected file, appended in order after the unchanged earlier rows; each is uploading at 0% with the given id, file data, client and document type; the list stays well formed |
| `DocumentIntake.IntakeBoard.UploadTick` | src/pages/DocumentIntake.tsx:92-111 | the list becomes the upload callback applied to every row; the list stays well formed |
| `DocumentIntake.IntakeBoard.StartOcr` | src/pages/DocumentIntake.tsx:99-102 | the list becomes the OCR reset applied to every row; the list stays well formed |
| `DocumentIntake.IntakeBoard.OcrTick` | src/pages/DocumentIntake.tsx:115-140 | the list becomes the OCR callback applied to every row; the list stays well formed |
| `DocumentIntake.UploadStep` | src/pages/DocumentIntake.tsx:93-109 | only an uploading row with the id changes; its progress becomes min(progress+10, 100); it turns processing exactly when that reaches 100; every other field is kept |
| `DocumentIntake.OcrReset` | src/pages/DocumentIntake.tsx:100-102 | the row with the id becomes processing at 0% whatever its status was; all other fields are kept; rows with another id are untouched |
| `DocumentIntake.OcrStep` | src/pages/DocumentIntake.tsx:116-138 | only a processing row with the id changes; its progress becomes min(progress+15, 100); below 100 nothing else changes; at 100 it becomes completed with confidence 94.5, time 3.2 and the four extracted fields |
| `DocumentIntake.CallbacksTouchOnlyTheirRow` | src/pages/DocumentIntake.tsx:93-94 | every callback keeps the list length; rows with another id are unchanged; a completed row ignores both interval callbacks |
| `DocumentIntake.StepsKeepWellFormed` | src/pages/DocumentIntake.tsx:27 | no callback produces the declared `error` status; every callback keeps progress within 100 and keeps a completed row at 100% with its OCR results |
| `DocumentIntake.NewRecordWellFormed` | src/pages/DocumentIntake.tsx:72-81 | a freshly submitted row is well formed: uploading, 0%, no extraction |
| `DocumentIntake.UploadProgressFromZero` | src/pages/DocumentIntake.tsx:94-107 | from 0%, k upload ticks (k ≤ 10) give 10k%; the tenth tick makes the row processing |
| `DocumentIntake.UploadTicksStop` | src/pages/DocumentIntake.tsx:94 | once a row has left uploading, any number of upload ticks leave it unchanged |
| `DocumentIntake.UploadTicksAfter` | src/pages/DocumentIntake.tsx:92-111 | k upload ticks followed by m more are k+m ticks |
| `DocumentIntake.UploadTakesTenTicks` | src/pages/DocumentIntake.tsx:94-105 | a fresh upload is still uploading after fewer than 10 ticks, and after 10 or more it is processing at 100% |
| `DocumentIntake.OcrProgressFromZero` | src/pages/DocumentIntake.tsx:117-136 | from 0%, k OCR ticks (k < 7) give 15k% and keep the row processing; the seventh caps 105 at 100 and completes it with the mock results |
| `DocumentIntake.OcrTicksStop` | src/pages/DocumentIntake.tsx:117 | once a row has left processing, any number of OCR ticks leave it unchanged |
| `DocumentIntake.OcrTicksAfter` | src/pages/DocumentIntake.tsx:115-140 | k OCR ticks followed by m more are k+m ticks |
| `DocumentIntake.OcrTakesSevenTicks` | src/pages/DocumentIntake.tsx:117-136 | OCR from 0% is still processing after fewer than 7 ticks, and after 7 or more it is completed at 100% |
| `DocumentIntake.UploadTickedTimesRowwise` | src/pages/DocumentIntake.tsx:93-110 | k upload ticks on a whole list keep its length and leave every row as k ticks make of it alone |
| `DocumentIntake.ExtractionConformsToForm16` | src/pages/DocumentIntake.tsx:128-133 | the data a completed row carries satisfies every form16 requirement and rule |
| `Notifications.MarkedRead` | src/pages/Notifications.tsx:140-146 | same length; an entry is read afterwards iff it was read or has the id; every other field of every entry is unchanged |
| `Notifications.MarkedUnread` | src/pages/Notifications.tsx:148-154 | same length; an entry is read afterwards iff it was read and has another id; every other field is unchanged |
| `Notifications.Deleted` | src/pages/Notifications.tsx:156-158 | exactly the entries with another id remain, each as often as it occurs in the list, in their original order |
| `Notifications.AllMarkedRead` | src/pages/Notifications.tsx:160-162 | same length; every entry is read; every other field is unchanged |
| `Notifications.Filtered` | src/pages/Notifications.tsx:164-170 | an entry is listed iff it passes the read filter, the category (or 'all') and the priority (or 'all'); a listed entry appears as often as in the list, and the list is an order-preserving subsequence |
| `Notifications.MarkAsReadIdempotent` | src/pages/Notifications.tsx:141-145 | marking read twice equals marking once |
| `Notifications.ReadThenUnreadRestores` | src/pages/Notifications.tsx:140-154 | when the entries with the id are unread, mark read then mark unread gives back the list |
| `Notifications.NoFilterShowsAll` | src/pages/Notifications.tsx:164-170 | with all three filters at 'all', the whole list is shown |
| `Notifications.UnreadCountIsUnreadList` | src/pages/Notifications.tsx:165-172 | the unread badge equals the length of the 'unread only' list with category and priority at 'all' |
| `Notifications.UnreadCount` | src/pages/Notifications.tsx:172 | the unread badge is at most the number of entries, and 0 iff every entry is read; `UnreadCountIsUnreadList` ties it to the 'unread only' list |
| `Notifications.MarkAllLeavesNoneUnread` | src/pages/Notifications.tsx:160-162 | after 'Mark All Read' the unread badge is 0 |
| `Notifications.NotificationCenter.MarkAsRead` | src/pages/Notifications.tsx:140-146 | the state list becomes the marked-read list |
| `Notifications.NotificationCenter.MarkAsUnread` | src/pages/Notifications.tsx:148-154 | the state list becomes the marked-unread list |
| `Notifications.NotificationCenter.DeleteNotification` | src/pages/Notifications.tsx:156-158 | the state list loses exactly the entries with the id |
| `Notifications.NotificationCenter.MarkAllAsRead` | src/pages/Notifications.tsx:160-162 | the state list has every entry read and an unread count of 0 |
| `ClientManagement.FilteredClients` | src/pages/ClientManagement.tsx:24-32 | a client is shown iff its lower-cased name, PAN or e-mail contains the lower-cased term and the filter is 'all' or its status; a shown client appears as often as in the input; the result is an order-preserving subsequence |
| `ClientManagement.EmptySearchShowsAll` | src/pages/ClientManagement.tsx:24-31 | the empty term with 'all' shows every client in the original order |
| `ClientManagement.SearchIgnoresCase` | src/pages/ClientManagement.tsx:25-27 | terms that differ only in ASCII letter case show the same clients |
| `ClientManagement.LongerTermMatchesLess` | src/pages/ClientManagement.tsx:25-27 | a client matched by a term is matched by every substring of that term |
| `ClientManagement.RefiningSearchNarrows` | src/pages/ClientManagement.tsx:24-27 | extending the term never adds a client: the new result is a subsequence of the old one |
| `ClientManagement.PendingOnlyUnderAll` | src/pages/ClientManagement.tsx:22-29 | a pending client is shown only under 'all', as the drop-down offers only all/active/inactive |
| `ClientManagement.AvatarInitial` | src/pages/ClientManagement.tsx:86 | one character for a non-empty name and none for an empty one; it is the first letter of the name, not lower case |
| `BotManagement.Controls` | src/pages/RPABotManagement.tsx:127-160 | two buttons; Start iff the bot is idle or paused, Pause iff it is running, in error or in maintenance, and Stop always |
| `BotManagement.ActiveCount` | src/pages/RPABotManagement.tsx:67 | the active count is at most the number of bots, and 0 iff no bot is running; `MockActiveCount` gives its value on the shipped bots |
| `BotManagement.MockActiveCount` | src/pages/RPABotManagement.tsx:67 | with the shipped bots the active count is 1 |
| `BotManagement.RecentExecutions` | src/pages/RPABotManagement.tsx:279-281 | exactly the executions whose bot id is the selected bot's, each as often as it occurs, in their original order |
| `BotManagement.MockRecentExecutions` | src/pages/RPABotManagement.tsx:279-281 | with the shipped data, bot-001 lists exec-001 and bot-003 lists nothing |
| `BotManagement.TypeLabel` | src/pages/RPABotManagement.tsx:109 | the label has the type's length; an underscore becomes a space and every other character its upper case; no underscore is left (every declared type has at most one) |
| `BotManagement.BotTypesHaveOneUnderscore` | src/types/automation.ts:5 | every declared bot type has at most one underscore |
| `BotManagement.UpperKeepsUnderscores` | src/pages/RPABotManagement.tsx:109 | upper-casing neither adds nor removes underscores |
| `BotManagement.HandleBotAction` | src/pages/RPABotManagement.tsx:50-53 | the panel state (bots, executions, selection, tab) is returned unchanged; the only output is the line `<action> bot <botId>`: action word, then ` bot `, then the id |
| `BotManagement.BotActionLogDistinguishes` | src/pages/RPABotManagement.tsx:51 | the logged line determines the action and the bot id |
| `TaxFilingWorkflow.FilteredFilings` | src/pages/TaxFilingWorkflow.tsx:144-146 | a filing is shown iff the filter is 'all' or its status; a shown filing appears as often as in the input; the result is an order-preserving subsequence |
| `TaxFilingWorkflow.FilterAllShowsEverything` | src/pages/TaxFilingWorkflow.tsx:144-146 | the filter 'all' shows every filing in order |
| `TaxFilingWorkflow.FilterByStatus` | src/pages/TaxFilingWorkflow.tsx:145 | a status filter shows exactly the filings with that status |
| `TaxFilingWorkflow.StatusLabel` | src/pages/TaxFilingWorkflow.tsx:225 | the badge text has the status's length and differs from it only at its first underscore, which becomes a space |
| `TaxFilingWorkflow.StepStatusLabel` | src/pages/TaxFilingWorkflow.tsx:289 | the step badge has the status's length; each underscore becomes a space (no step status has two) and nothing else changes; no underscore is left |
| `TaxFilingWorkflow.EmptyFilingsShowNothing` | src/App.tsx:23 | the page is given the empty list, so every filter shows nothing |
| `TaxFilingWorkflow.ReviewRequiredLabel` | src/pages/TaxFilingWorkflow.tsx:225 | `review_required` reads `review required` |
| `TaxFilingWorkflow.FilingInProgressLabel` | src/pages/TaxFilingWorkflow.tsx:225 | `filing_in_progress` reads `filing in_progress`: only the first underscore is replaced |
| `TaxFilingWorkflow.StepInProgressLabel` | src/pages/TaxFilingWorkflow.tsx:289 | the step status `in_progress` reads `in progress` |
| `TaxFilingWorkflow.FilingStatusLook` | src/pages/TaxFilingWorkflow.tsx:115-133 | a filing status takes the default icon and colour iff it is not completed, review_required, filing_in_progress or processing |
| `TaxFilingWorkflow.WorkflowStepLook` | src/pages/TaxFilingWorkflow.tsx:135-142 | completed, in_progress and failed each get their own look; pending, and only pending, falls to the default |
| `TaxFilingWorkflow.ConnectorCount` | src/pages/TaxFilingWorkflow.tsx:175-189 | a connector is drawn after every step but the last (`index < length - 1`): none for no steps, n-1 for n > 0 |
| `TaxFilingWorkflow.OverviewConnectors` | src/pages/TaxFilingWorkflow.tsx:24-31 | the six overview steps get five connectors |
| `Automation.WholePanIsFound` | src/data/automationData.ts:182 | a string that is a PAN in full is also found by the unanchored pattern |
| `Automation.SearchAcceptsNonPan` | src/data/automationData.ts:205 | the unanchored pattern also accepts `xABCDE1234F`, which is not a PAN in full |
| `Automation.MissingFields` | src/types/automation.ts:95-102 | exactly the required template fields the data lacks, each as often as declared, in declaration order |
| `Automation.FailedRules` | src/types/automation.ts:104-109 | exactly the template rules the data violates, each as often as declared, in declaration order |
| `Automation.ConformsIff` | src/types/automation.ts:86-109 | data conforms iff every required field is present and every rule passes |
| `AutomationData.MockExecutionsNameBots` | src/data/automationData.ts:129-163 | every shipped execution's bot id names a shipped bot |
| `AutomationData.MockConfigurationsSane` | src/data/automationData.ts:24-124 | every shipped configuration has retryAttempts ≥ 0 and timeoutMinutes > 0 |
| `AutomationData.MockExecutionsEndTimes` | src/data/automationData.ts:130-162 | the completed execution is at 100% with an end time; the running one has no end time |
| `AutomationData.Form16FieldsRequired` | src/data/automationData.ts:170-200 | the form16 fields are employeeName, pan, grossSalary and tdsDeducted, and all are required |
| `AutomationData.Form16Rules` | src/data/automationData.ts:182-213 | grossSalary has the range rule 0 to 10000000; pan has the format rule with the PAN pattern, which is also the field's pattern |
| `AutomationData.Form16RulesNameFields` | src/data/automationData.ts:201-214 | every form16 rule names a declared form16 field |
| `AutomationData.Form16NothingMissing` | src/data/automationData.ts:170-200 | data with a value for each of the four form16 fields (name and PAN as text, gross salary and TDS as numbers), whatever the values, lacks no required field |
| `AutomationData.Form16RulesPassIff` | src/data/automationData.ts:201-213 | for any name, PAN, gross salary and TDS, no form16 rule fails iff the PAN matches the PAN pattern in full and the gross salary is in 0..10000000 |
| `AutomationData.Form16ConformsIff` | src/data/automationData.ts:165-213 | data with all four form16 fields, for any name, PAN, gross salary and TDS, conforms iff the PAN is five letters, four digits and a letter, and the gross salary is in 0..10000000 |
| `AutomationData.Form16RejectsShortPan` | src/data/automationData.ts:202-207 | whatever the name and TDS, the PAN `12345` with gross salary 850000 fails the pan rule, with message "Invalid PAN format", and no other rule |
| `ProgressBar.Percentage` | src/components/UI/Progress.tsx:10 | the percentage is within [0, 100]; for max > 0 it is value/max·100 when 0 ≤ value ≤ max, 0 when value ≤ 0, and 100 when value ≥ max |
| `ProgressBar.PercentageMonotone` | src/components/UI/Progress.tsx:10 | for a fixed max > 0, a larger value never gives a smaller percentage |
| `ProgressBar.DefaultMaxClamps` | src/components/UI/Progress.tsx:9-10 | with the default max of 100 the percentage is the value clamped to [0, 100] |
| `Text.Lower` | src/pages/ClientManagement.tsx:25-27 | `toLowerCase`: same length; each upper-case letter becomes the lower-case letter 32 code points above it; every other character is kept |
| `Text.Upper` | src/pages/RPABotManagement.tsx:109 | `toUpperCase`: same length; each lower-case letter becomes the upper-case letter 32 code points below it; every other character is kept |
| `Text.SubstringTransitive` | src/pages/ClientManagement.tsx:25-27 | `includes` is transitive |
| `Text.LowerKeepsSubstring` | src/pages/ClientManagement.tsx:25-27 | lower-casing both strings keeps an inclusion |
| `Text.EmptyIsSubstring` | src/pages/ClientManagement.tsx:25 | every string includes the empty string |
| `Text.ReplaceFirst` | src/pages/TaxFilingWorkflow.tsx:225 | `replace` with a one-character pattern: unchanged when the character is absent; otherwise only the first occurrence is replaced |
| `Text.ReplaceFirstSingle` | src/pages/RPABotManagement.tsx:109 | in a string with at most one occurrence, replacing the first occurrence replaces each one and changes nothing else |
| `Text.ReplaceFirstClearsSingle` | src/pages/RPABotManagement.tsx:109 | replacing in a string with at most one underscore leaves none |
| `Text.ReplaceFirstKeepsSecond` | src/pages/TaxFilingWorkflow.tsx:225 | replacing in a string with two or more underscores leaves at least one |
| `Seqs.Filter` | src/pages/ClientManagement.tsx:24 | `Array.prototype.filter`: exactly the elements satisfying the predicate, each as often as it occurs in the input, as an order-preserving subsequence |
| `Seqs.FilterStronger` | src/pages/ClientManagement.tsx:24-32 | a stronger predicate selects a subsequence of what a weaker one selects |

## Left out

- Timers: `setInterval`, `setTimeout` and `clearInterval` are not modelled. Each interval or timeout callback is a tick method that a scheduler calls. The 200/300/500 ms delays, the interleaving of callbacks, and the 500 ms window in which a row is processing at 100% before the OCR reset are outside the model.
- Drag-and-drop: `handleDrop` is memoised with no dependencies, so it keeps the first render's `handleFiles` and passes empty client and document-type selections. `Submit` takes both from its caller and does not model which handler calls it.
- Row ids: they come from `Date.now()` and `Math.random()`, so `Submit` takes them as a parameter. Nothing in the source makes ids unique, and the model does not assume it.
- `DocumentIntake.IntakeBoard.Submit`: `clientId` and `documentType` are optional in the record type, but every row is created with both set, so the model keeps them as plain strings.
- Drag-and-drop and file-input events, `formatFileSize` (floating-point logarithms and `toFixed`), and the intake page's status icon and colour lookups: these are presentation.
- Notification, bot-status and bot-type icon and colour lookups; JSX layout; `toLocaleString` date formatting; the dashboard, header, sidebar, stats and activity components; routing; build settings. These are all presentation.
- Static mock lists in src/data/mockData.ts and the inline notification and filing lists. They are constants with no behaviour.
- Bot start/pause/stop transitions, execution stepping, retries, rolling statistics and notification emission: the source implements none of these. `handleBotAction` only logs a line. The shipped data also has bot-002 idle while its execution exec-002 is running, so "a running execution implies a running bot" is not asserted.
- `Text.Lower`, `Text.Upper`: case mapping covers ASCII letters only. JavaScript's Unicode case mapping (including characters whose upper case is two characters) is not modelled.
- `Automation.RulePasses`: the only regular expression understood is the PAN pattern, written as a character-class predicate; a format rule with any other pattern fails. A `custom` rule has no definition in the source and accepts everything. Format and range rules judge a value only when it is present; presence is the `required` flag's job. No code in the application evaluates these rules.
- Field values: extracted amounts are whole rupees (`int`), while the source's `number` can be fractional. Free-form `extractedData`, `inputData` and `outputData` of other records, and the OCR result and bounding-box types, are not modelled.
- `ProgressBar.Percentage`: a zero `max` (JavaScript yields Infinity or NaN) and NaN inputs are floating-point edge cases, so the function requires `max != 0` and works over exact reals.
- Dates are kept as their ISO text.
- The CSS `capitalize` applied to the filing status badge is presentation; `TaxFilingWorkflow.StatusLabel` is the text before it.
