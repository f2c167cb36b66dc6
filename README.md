# HomeWise core, modelled in Dafny

HomeWise is a Next.js household-maintenance app. Users register machines: vehicles, kitchen
appliances, HVAC, garden and laundry equipment, electronics. Each machine has a maintenance log,
and the app tracks scheduled maintenance tasks. On top of that data sit three AI features:

- a **predictive-maintenance** flow, which predicts the next task, its date, cost and urgency;
- a **maintenance-recommendations** flow, which gives cost-saving tips, service providers, the
  remaining life and critical attention, optionally near a location, through a geolocation tool;
- a **chat** assistant.

Each feature is reached through a server action. The action validates its input against a zod
schema, serialises the maintenance history for the prompt and calls the flow. It turns every
failure into one fixed error message.

This project models:

- the records and enumerations of `src/lib/types.ts` (`Types`);
- the zod schemas, as parsers over a JSON value with encoders, round trips and rejection
  properties (`JsonValues`, `Schemas`);
- the three server actions, including the `JSON.stringify` of the history (`Actions`);
- the three flows, with their Handlebars prompts rendered as lines (`PredictiveFlow`,
  `RecommendationsFlow`, `ChatFlow`). The model is a function parameter: it either fails, or
  replies with an output or with none (`ModelCalls`);
- the geolocation tool's fixed lookup (`Geolocation`);
- the selection logic of the pages and components:
  - breadcrumbs and active menu item (`AppHeader`);
  - the dashboard's upcoming tasks, machines needing attention, badges and icons (`Dashboard`);
  - the home page (`HomePage`);
  - the warranty card (`WarrantyStatus`);
  - reminders and notifications (`Reminders`);
  - the reminder form (`ReminderForm`);
- the stateful components, as classes whose methods update their fields:
  - the chat panel (`AiChat.ChatPanel`);
  - the machine page's prediction card (`PredictiveCard.PredictionPanel`);
  - its recommendation card (`MachineRecommendations.RecommendationPanel`);
  - the dashboard's recommendation card (`DashboardRecommendations.RecommendationCard`);
  - the reminder form (`ReminderForm.Form`).

The model needs a few generic helpers:

- JavaScript's `filter`, `slice`, `split`, `join`, `trim`, `toLowerCase` and `includes`
  (`Lists`, `Text`);
- `Option`/`Result` (`Wrappers`).

The ordering of a prompt's lines is stated with `WithPrefix(lines, p)`: the lines that start with
`p`, in order. Each flow's properties say which marked lines a prompt holds, and in what order.

## Model

| member | source | states |
|---|---|---|
| Types.ParseUrgency | src/lib/types.ts:10 | a text is an urgency exactly when it is "Low", "Medium" or "High" (case-sensitive), and it reads back as the literal it came from |
| Types.UrgencyRoundTrip | src/lib/types.ts:10 | each urgency's literal parses back to that urgency |
| Types.CategoryNamesDistinct | src/lib/types.ts:1-8 | two categories have the same literal exactly when they are the same category |
| Schemas.HistoryRoundTrip | src/ai/schemas.ts:23-36 | an encoded maintenance history parses back to the same entries (task, date, numeric cost) |
| Schemas.PredictiveInputRoundTrip | src/ai/schemas.ts:3-37 | every predictive-maintenance input, with or without a history, survives encoding and parsing unchanged |
| Schemas.ParsePredictiveInput | src/ai/schemas.ts:3-37 | for any JSON value: a successful parse reads an object, takes each of the seven fields from the string under the key of that name, has no history exactly when the key is absent, and otherwise takes the history from an array whose every item parses as an entry, in order |
| Schemas.ParseHistoryItem | src/ai/schemas.ts:23-36 | an entry parses exactly when it is an object with string `task` and `date` and a numeric `cost`, and the parsed entry holds those three values |
| Schemas.PredictiveMissingFieldRejected | src/ai/schemas.ts:3-22 | an object lacking any one of the seven required fields is rejected, whatever else it holds |
| Schemas.PredictiveHistoryEntriesChecked | src/ai/schemas.ts:23-36 | a request is accepted only if its history, when present, is an array whose every entry has string `task` and `date` and a numeric `cost` |
| Schemas.PredictiveOutputUrgencyChecked | src/ai/schemas.ts:43-54 | an output whose urgency is not one of the three enum literals is rejected |
| Schemas.ParsePredictiveOutput | src/ai/schemas.ts:43-54 | a successful parse reads an object whose task name and date are the strings under their keys, whose cost is the number under `estimatedCost`, and whose urgency is the enum literal under `urgencyLevel` |
| Schemas.PredictiveOutputRoundTrip | src/ai/schemas.ts:43-54 | every prediction survives encoding and parsing unchanged |
| Schemas.RecommendationsInputRoundTrip | src/ai/schemas.ts:60-87 | every recommendations input, with or without history and location, survives encoding and parsing |
| Schemas.ParseRecommendationsInput | src/ai/schemas.ts:60-87 | for any JSON value: a successful parse reads an object, takes category, brand, model, usage frequency and both dates from the strings under their own keys, takes the history as for the predictive input, and has no location exactly when the key is absent, else the string under it |
| Schemas.RecommendationsWithoutCategoryRejected | src/ai/schemas.ts:61 | an object with no `category` key is rejected, whatever else it holds |
| Schemas.RecommendationsHistoryMustBeArray | src/ai/schemas.ts:71-80 | a history given as a string, not an array, is rejected |
| Schemas.RecommendationsIgnoreUnknownKeys | src/ai/schemas.ts:60-87 | adding a key the schema does not name does not change the parse (zod strips it) |
| Schemas.ParseRecommendationsOutput | src/ai/schemas.ts:93-110 | an output parses exactly when it is an object with the four string fields, and each parsed field is the string under its key |
| Schemas.RecommendationsOutputRoundTrip | src/ai/schemas.ts:93-110 | every recommendation survives encoding and parsing unchanged |
| Schemas.ChatInputRoundTrip | src/ai/schemas.ts:116-124 | every chat request, with or without a history, survives encoding and parsing unchanged |
| Schemas.ParseChatOutput | src/ai/schemas.ts:128-130 | a chat answer parses exactly when it is an object with a string `response`, and carries that string |
| Schemas.ChatOutputRoundTrip | src/ai/schemas.ts:128-130 | every chat answer, the empty one included, survives encoding and parsing unchanged |
| Schemas.ParseChatTurn | src/ai/schemas.ts:116-119 | a turn parses exactly when it is an object with a string `content` and the role "user" or "model", and the parsed turn holds that role and content |
| Schemas.ParseChatInput | src/ai/schemas.ts:116-124 | a successful parse reads an object whose message is the string under `message`; the history is absent exactly when the key is, and otherwise is an array whose every item parses as a turn, in order |
| Schemas.ChatRoleChecked | src/ai/schemas.ts:116-119 | a single turn parses exactly when its role is "user" or "model" |
| Schemas.ChatRequestRoleChecked | src/ai/schemas.ts:116-124 | a request whose history holds, at any position, a turn with any other role is rejected as a whole |
| Actions.HistoryText | src/app/actions.ts:32 | the serialised history is a JSON array text: it starts with `[`, ends with `]` |
| Actions.HistoryTextSingleLine | src/app/actions.ts:32 | the serialised history holds no newline, since newlines inside values are escaped |
| Actions.Escape | src/app/actions.ts:32 | a string value escaped for the JSON text is no shorter than the value and holds no newline (partner: `EscapeRoundTrip`) |
| Actions.EscapeRoundTrip | src/app/actions.ts:32 | the string escaping is undone by reading each backslash pair back, so no text is lost or merged |
| Actions.EmptyHistoryText | src/app/actions.ts:32 | the serialised history is exactly `[]` when the history is empty |
| Actions.PredictiveFlowRequest | src/app/actions.ts:29-33 | the flow receives every machine field unchanged and the history, when present, as its JSON text |
| Actions.RunPredictiveMaintenance | src/app/actions.ts:19-39 | invalid input gives the invalid-input error without calling the flow; otherwise the flow's result is returned on success and any flow failure becomes the fixed failure message; no other error is possible |
| Actions.PredictiveFlowSeesRequest | src/app/actions.ts:19-39 | for every valid request, the action returns exactly what the flow returns on the request with its history serialised |
| Actions.PredictiveHistoryLineIffPresent | src/app/actions.ts:29-33 | the rendered prompt has a history line exactly when the caller sent a history; an empty one still renders as `- History: []` |
| Actions.PredictiveHistoryOnOneLine | src/app/actions.ts:29-33 | every history line of the prompt the action's request renders is a single line of text |
| Actions.PredictiveNoOutputFails | src/app/actions.ts:34-38 | when the model replies without output, the action fails with its fixed message |
| Actions.RecommendationsFlowRequest | src/app/actions.ts:53-58 | the flow receives every field and the location unchanged and the history, when present, as its JSON text |
| Actions.RunAiRecommendations | src/app/actions.ts:41-64 | invalid input gives the invalid-input error without calling the flow; otherwise flow success is passed through and failure becomes the fixed message |
| Actions.RecommendationsFlowSeesRequest | src/app/actions.ts:41-64 | for every valid request, the action returns exactly what the flow returns on the serialised request |
| Actions.RecommendationsWithoutCategoryNotSent | src/app/actions.ts:46-52 | a request without `category` never reaches the flow and fails as invalid |
| Actions.RunChat | src/app/actions.ts:66-78 | invalid input gives the invalid-input error; otherwise flow success is passed through and failure becomes the fixed message |
| Actions.ChatFlowSeesRequest | src/app/actions.ts:66-78 | for every valid chat request, the action returns exactly what the flow returns on it |
| Actions.ChatAnswersEveryValidMessage | src/app/actions.ts:66-78 | end to end with the chat flow: whenever the model call itself succeeds, the action succeeds with a non-empty response, the fallback text when the model gave none |
| PredictiveFlow.PredictMaintenance | src/ai/flows/predictive-maintenance.ts:23-25 | succeeds exactly when the model replies with an output, returning it unchanged; a reply without output fails with "Could not generate a prediction." |
| PredictiveFlow.FactLines | src/ai/flows/predictive-maintenance.ts:31-45 | the prompt's `- ` lines are the seven machine facts in template order, then the history line if any |
| PredictiveFlow.HistoryLineIffTruthy | src/ai/flows/predictive-maintenance.ts:41-43 | the prompt holds a `- History: ` line exactly when the history text is present and non-empty, and then it is that text |
| PredictiveFlow.PromptWithPrefix | src/ai/flows/predictive-maintenance.ts:31-45 | for any marker starting with `-`, the fixed instruction lines contribute none: the marked lines are those of the machine facts, then those of the history |
| PredictiveFlow.PromptLines | src/ai/flows/predictive-maintenance.ts:31-45 | the template's lines: the fixed introduction, the seven facts, the `#if` history line, the fixed request (properties in the rows above) |
| PredictiveFlow.RenderPrompt | src/ai/flows/predictive-maintenance.ts:31-45 | the prompt text is those lines joined by newlines |
| RecommendationsFlow.GetMaintenanceRecommendations | src/ai/flows/ai-maintenance-recommendations.ts:24-26 | succeeds exactly when the model replies with recommendations, returning them unchanged; a reply without output fails with "Unable to generate recommendations." |
| RecommendationsFlow.MachineFactsPosition | src/ai/flows/ai-maintenance-recommendations.ts:32-41 | the six machine facts sit at lines 4 to 9 of every prompt, whatever the history and location |
| RecommendationsFlow.TaskLinesInOrder | src/ai/flows/ai-maintenance-recommendations.ts:43-48 | the prompt's task lines are one per history entry, in the history's order; none when the history is absent or empty |
| RecommendationsFlow.HistoryHeaderIffTruthy | src/ai/flows/ai-maintenance-recommendations.ts:43-48 | the "Maintenance History:" header appears once when the history is present and non-empty, and never otherwise |
| RecommendationsFlow.LocationClauseIffTruthy | src/ai/flows/ai-maintenance-recommendations.ts:50-56 | exactly one location clause is rendered: the one naming the location when it is non-empty, the generic advice otherwise (an empty location included) |
| RecommendationsFlow.TemplateWordingFits | src/ai/flows/ai-maintenance-recommendations.ts:32-58 | the template's fixed sentences start with none of the markers, except the generic advice, which starts with its own |
| RecommendationsFlow.PromptLines | src/ai/flows/ai-maintenance-recommendations.ts:32-59 | the template's lines with the template's own wording: facts, the `#if`/`#each` history block, the location branch, the closing (properties in the rows above) |
| RecommendationsFlow.RenderPrompt | src/ai/flows/ai-maintenance-recommendations.ts:32-59 | the prompt text is those lines joined by newlines |
| ChatFlow.Chat | src/ai/flows/chat.ts:31-34 | fails exactly when the model call fails; otherwise the response is never empty: a missing or empty reply becomes the fallback apology, any other reply is returned verbatim |
| ChatFlow.TurnLinesInOrder | src/ai/flows/chat.ts:42-47 | the prompt's turn lines are one per history turn, as "role: content", in order |
| ChatFlow.HistoryHeaderIffTruthy | src/ai/flows/chat.ts:42-47 | the chat-history header appears exactly when the history is present and non-empty |
| ChatFlow.MessageFollowsHistory | src/ai/flows/chat.ts:40-50 | the user's new message is on the second-to-last line, after every history line |
| ChatFlow.PromptLines | src/ai/flows/chat.ts:40-50 | the template's lines: persona, the `#if`/`#each` history block, the user's message, the answer cue (properties in the rows above) |
| ChatFlow.RenderPrompt | src/ai/flows/chat.ts:40-50 | the prompt text is those lines joined by newlines |
| Geolocation.Geocode | src/ai/flows/tools/geolocation.ts:24-39 | Mountain View's coordinates exactly when the address contains "mountain view" in any letter case, New York's otherwise |
| Geolocation.GeocodeIgnoresCase | src/ai/flows/tools/geolocation.ts:28 | the answer does not change when the address is upper-cased |
| Geolocation.GeocodeFindsMountainView | src/ai/flows/tools/geolocation.ts:28-33 | any address with "Mountain View", in any case, anywhere inside it, is answered with Mountain View |
| Geolocation.ShortAddressIsNewYork | src/ai/flows/tools/geolocation.ts:35-38 | an address too short to hold the name falls back to New York |
| AppHeader.Segments | src/components/layout/app-header.tsx:31 | the path's segments are non-empty and hold no `/` |
| AppHeader.Href | src/components/layout/app-header.tsx:34 | a crumb's link starts with `/` and ends with that crumb's own segment |
| AppHeader.Label | src/components/layout/app-header.tsx:35 | the label has the segment's length, its first character upper-cased and every later character unchanged; the empty segment stays empty |
| AppHeader.Breadcrumbs | src/components/layout/app-header.tsx:31-38 | one crumb per segment of the path, each linking to an absolute path |
| AppHeader.CrumbPerSegment | src/components/layout/app-header.tsx:33-38 | one crumb per segment; crumb i shows the label of segment i (first character upper-cased, the rest unchanged); exactly the last crumb is marked last |
| AppHeader.LabelFoldsTo | src/components/layout/app-header.tsx:35 | the label and the segment are equal once lower-cased |
| AppHeader.LabelIdempotent | src/components/layout/app-header.tsx:35 | labelling a label changes nothing |
| AppHeader.RootHasNoCrumbs | src/components/layout/app-header.tsx:31-38 | the root path and the empty path have no crumbs |
| AppHeader.HrefsNested | src/components/layout/app-header.tsx:34 | each crumb's link extends every earlier crumb's link by "/" and more, so the links are distinct |
| AppHeader.HrefSegments | src/components/layout/app-header.tsx:34 | the link of crumb i has exactly the first i+1 segments of the path |
| AppHeader.TrailIdempotent | src/components/layout/app-header.tsx:31-38 | the trail derived again from the last crumb's link is the same trail, so repeated or trailing slashes make no difference |
| AppHeader.IsActive | src/components/layout/app-header.tsx:72 | a menu item is highlighted when the path equals its link (properties in the next rows) |
| AppHeader.AtMostOneActive | src/components/layout/app-header.tsx:19-26 | at most one sidebar item is active for any path |
| AppHeader.NestedPathActivatesNothing | src/components/layout/app-header.tsx:72 | a path below a menu item (`/machines/x`) activates no menu item, because the test is equality |
| Dashboard.UpcomingTasks | src/components/dashboard/dashboard-page.tsx:60-62 | at most five tasks, all pending |
| Dashboard.UpcomingArePendingPrefix | src/components/dashboard/dashboard-page.tsx:60-62 | the upcoming tasks are the first pending tasks in list order |
| Dashboard.FewUpcomingShowsAllPending | src/components/dashboard/dashboard-page.tsx:60-62 | fewer than five upcoming tasks means every pending task is shown |
| Dashboard.MachinesNeedingAttention | src/components/dashboard/dashboard-page.tsx:64-70 | at most three machines, each with a task of High urgency (which three: `AttentionAreFirstMatches`) |
| Dashboard.AttentionAreFirstMatches | src/components/dashboard/dashboard-page.tsx:64-70 | the listed machines are the first machines with a High task, in machine order: all of them when there are at most three, else the first three |
| Dashboard.AttentionInMachineOrder | src/components/dashboard/dashboard-page.tsx:64-70 | the machines needing attention keep the machine list's order, and no machine appears twice when the list has no repeats |
| Dashboard.FewAttentionShowsAll | src/components/dashboard/dashboard-page.tsx:64-70 | fewer than three listed means every machine with a High task is listed |
| Dashboard.FindMachine | src/components/dashboard/dashboard-page.tsx:103-107 | nothing is found exactly when no machine has the id; otherwise the first machine with it |
| Dashboard.MachineName | src/components/dashboard/dashboard-page.tsx:103-107 | "N/A" when no machine has the task's machine id, and also when the first machine with it has an empty name (the fallback treats an empty name as missing); otherwise that machine's name |
| Dashboard.EmptyNameShowsNoName | src/components/dashboard/dashboard-page.tsx:106 | a task whose first matching machine has an empty name shows "N/A" |
| Dashboard.MachineNameOfFirstMatch | src/components/dashboard/dashboard-page.tsx:103-107 | the name shown is that of the first machine with the id |
| Dashboard.UrgencyVariant | src/components/dashboard/dashboard-page.tsx:52-56 | the badge is destructive exactly for High urgency and secondary exactly for Low |
| Dashboard.UrgencyVariantDistinct | src/components/dashboard/dashboard-page.tsx:52-56 | the three urgencies get three distinct badge variants |
| Dashboard.MachineIcon | src/components/dashboard/dashboard-page.tsx:37-50 | the wrench icon is used exactly for garden, electronics and other machines |
| Dashboard.DedicatedIconsDistinct | src/components/dashboard/dashboard-page.tsx:37-50 | a category with a dedicated icon shares it with no other category |
| Dashboard.UpcomingNote | src/components/dashboard/dashboard-page.tsx:128-148 | "No upcoming tasks." is shown exactly when the upcoming list is empty |
| Dashboard.AttentionNote | src/components/dashboard/dashboard-page.tsx:166-196 | "All machines are looking good!" is shown exactly when no machine needs attention |
| HomePage.Home | src/app/page.tsx:109 | the landing view is shown exactly when there are no machines |
| HomePage.Rows | src/app/page.tsx:207-226 | one row per upcoming task |
| HomePage.LandingIgnoresTasks | src/app/page.tsx:109 | with no machines the page is the landing view whatever the tasks |
| HomePage.RowsShowUpcoming | src/app/page.tsx:207-226 | at most five rows, the upcoming tasks in order, each pending, beside the name `MachineName` gives for the task's own machine id (never empty), and with a destructive badge exactly for High urgency |
| HomePage.AllGoodIffNoHighTask | src/app/page.tsx:245-275 | the all-good note appears exactly when no machine has a High task |
| WarrantyStatus.ExpiringSoon | src/components/dashboard/warranty-status.tsx:15-21 | every listed machine's warranty ends in 1 to 90 days, and every such machine is listed |
| WarrantyStatus.Card | src/components/dashboard/warranty-status.tsx:34-57 | the "No warranties expiring" note is shown exactly when nothing is listed; otherwise one entry per listed machine, in order, each showing that machine's own day count |
| WarrantyStatus.ListedIffWithinWindow | src/components/dashboard/warranty-status.tsx:20 | a machine's entry is listed exactly when its days-left value lies within the window |
| WarrantyStatus.BadgesWithinWindow | src/components/dashboard/warranty-status.tsx:35-36 | every badge shows 1 to 90 days, and the listed machines keep the machine list's order |
| WarrantyStatus.WindowEdges | src/components/dashboard/warranty-status.tsx:20 | 1 and 90 days left are listed; 0 and 91 days, and an unreadable date, are not |
| Reminders.UpcomingReminders | src/app/reminders/page.tsx:14-16 | exactly the pending tasks whose due time is after now are listed |
| Reminders.RemindersInOrder | src/app/reminders/page.tsx:14-16 | the reminders keep the task list's order |
| Reminders.ClosedTasksExcluded | src/app/notifications/page.tsx:13-15 | completed and overdue tasks never appear, whatever their due date |
| Reminders.ReminderBadge | src/app/reminders/page.tsx:57 | the badge is destructive exactly for High urgency and is never the default variant |
| Reminders.BadgeAgreesWithDashboardExceptMedium | src/app/notifications/page.tsx:41 | the reminder badge matches the dashboard's for Low and High, and differs for Medium |
| Reminders.EmptyNote | src/app/reminders/page.tsx:62-65 | "No upcoming reminders." is shown exactly when nothing is listed |
| ReminderForm.IssueMessage | src/components/reminders/add-reminder-form.tsx:36-38 | the machine, task-name and date issues each have a non-empty message; the urgency issue keeps the library's own |
| ReminderForm.IssueMessagesDistinct | src/components/reminders/add-reminder-form.tsx:36-38 | two issues with the same custom message are the same issue |
| ReminderForm.Issues | src/components/reminders/add-reminder-form.tsx:35-40 | each of the four validation issues is reported exactly when its field breaks its rule |
| ReminderForm.Defaults | src/components/reminders/add-reminder-form.tsx:47-51 | the untouched form: no machine, no task name, no date, Medium urgency (rejected, see `DefaultsRejected`) |
| ReminderForm.Check | src/components/reminders/add-reminder-form.tsx:35-40 | a submission is accepted exactly when there is no issue, and the reminder carries the entered values |
| ReminderForm.DefaultsRejected | src/components/reminders/add-reminder-form.tsx:47-51 | the untouched form is rejected for its machine, task name and due date, never for its urgency |
| ReminderForm.CheckRoundTrip | src/components/reminders/add-reminder-form.tsx:35-40 | every valid reminder, entered as its field values, is accepted as itself |
| ReminderForm.Form.Submit | src/components/reminders/add-reminder-form.tsx:54-61 | submission reports the check's verdict; a success resets the form to its defaults, a rejection keeps the values |
| AiChat.ReplyTurn | src/components/chat/ai-chat.tsx:37-45 | the model message is the action's response, or the apology when the action failed |
| AiChat.Request | src/components/chat/ai-chat.tsx:31-36 | the request sends the typed text with the whole earlier transcript as its history (accepted, see `RequestPassesSchema`) |
| AiChat.Exchange | src/components/chat/ai-chat.tsx:21-49 | a send keeps every earlier message and appends the user's text, as a user turn, and then a model turn |
| AiChat.ExchangeKeepsAlternation | src/components/chat/ai-chat.tsx:21-49 | a send appends the user's message and then a model message, keeps every earlier message, and keeps the transcript alternating |
| AiChat.RequestPassesSchema | src/components/chat/ai-chat.tsx:31-36 | every request the panel builds passes the chat schema unchanged |
| AiChat.ChatPanel.BeginSend | src/components/chat/ai-chat.tsx:21-36 | blank input changes nothing and sends nothing; otherwise the user message is appended, the box cleared, loading set, and the request carries the earlier transcript |
| AiChat.ChatPanel.FinishSend | src/components/chat/ai-chat.tsx:37-48 | appends the reply, or the apology, and clears loading |
| AiChat.ChatPanel.SendMessage | src/components/chat/ai-chat.tsx:21-49 | a whole send leaves the transcript as the exchange of the typed text and the action's outcome |
| AiChat.ChatPanel.Type | src/components/chat/ai-chat.tsx:108-110 | typing is ignored while loading |
| Lists.Filter | src/components/dashboard/dashboard-page.tsx:61 | JavaScript's `filter`: the result holds only elements that pass, holds every element that passes as often as the input does, and no element more often than the input |
| Text.BlankIffAllWhitespace | src/components/chat/ai-chat.tsx:23 | an input is blank after trimming exactly when every character is whitespace |
| PredictiveCard.Projected | src/components/machines/predictive-maintenance.tsx:49 | one history entry per log entry |
| PredictiveCard.RequestFor | src/components/machines/predictive-maintenance.tsx:41-50 | the card always sends a history: the projection of the machine's whole log |
| PredictiveCard.RequestAccepted | src/components/machines/predictive-maintenance.tsx:41-50 | the card's request passes the schema and carries the machine's fields and each log entry's task, date and cost |
| PredictiveCard.PredictionBadge | src/components/machines/predictive-maintenance.tsx:31-35 | the prediction badge is destructive exactly for High urgency |
| PredictiveCard.PredictionShownIffFlowSucceeds | src/components/machines/predictive-maintenance.tsx:37-64 | a prediction is shown exactly when the flow succeeds, and it is the flow's output |
| PredictiveCard.PredictionPanel.HandlePredict | src/components/machines/predictive-maintenance.tsx:37-64 | after the handler, loading is off and the prediction is the action's result on success, none otherwise |
| MachineRecommendations.EntryText | src/components/machines/ai-recommendations.tsx:50 | an entry's text starts with its date and ": " and ends with ")" |
| MachineRecommendations.HistorySummary | src/components/machines/ai-recommendations.tsx:50 | the summary is never empty |
| MachineRecommendations.SummaryNoneIffEmpty | src/components/machines/ai-recommendations.tsx:50 | the summary is "None" exactly when the log is empty |
| MachineRecommendations.SummarySeparators | src/components/machines/ai-recommendations.tsx:50 | the length of a non-empty summary is the entries' total length plus two characters for each of the n - 1 separators |
| MachineRecommendations.SummaryOfOne | src/components/machines/ai-recommendations.tsx:50 | a one-record summary is that record's entry text alone; with `SummaryAppend`, a non-empty summary is the entries' texts in order with ", " between neighbours |
| MachineRecommendations.SummaryAppend | src/components/machines/ai-recommendations.tsx:50 | logging one more entry appends ", " and its text to the summary |
| MachineRecommendations.CardRequestFields | src/components/machines/ai-recommendations.tsx:43-51 | as written, the request has no `category`, names the category `machineType`, and sends the history as the summary string |
| MachineRecommendations.AsWrittenRequestRejected | src/components/machines/ai-recommendations.tsx:43-51 | the request as written (with `machineType`, history as text) is rejected for every machine |
| MachineRecommendations.CorrectedRequestAccepted | src/components/machines/ai-recommendations.tsx:43-51 | the corrected request passes the schema, carries the machine's category, and reaches the flow |
| MachineRecommendations.RecommendationPanel.HandleRecommend | src/components/machines/ai-recommendations.tsx:39-64 | with the corrected request (see Findings): after the handler, loading is off and the recommendation is the action's result on success, none otherwise |
| DashboardRecommendations.CardRequestFields | src/components/dashboard/ai-dashboard-recommendations.tsx:97-106 | as written, the request has no `category`, names the category `machineType`, sends one history entry per log entry and the typed location |
| DashboardRecommendations.AsWrittenRequestRejected | src/components/dashboard/ai-dashboard-recommendations.tsx:97-106 | the request as written (with `machineType`) is rejected for every machine and location |
| DashboardRecommendations.CorrectedRequestAccepted | src/components/dashboard/ai-dashboard-recommendations.tsx:97-106 | the corrected request passes the schema with the machine's category, full history and the typed location |
| DashboardRecommendations.RecommendationCard.Select | src/components/dashboard/ai-dashboard-recommendations.tsx:135 | selecting a machine records its id and changes nothing else |
| DashboardRecommendations.RecommendationCard.TypeLocation | src/components/dashboard/ai-dashboard-recommendations.tsx:156 | the location box ignores typing until a machine is selected |
| DashboardRecommendations.RecommendationCard.HandleRecommend | src/components/dashboard/ai-dashboard-recommendations.tsx:82-119 | without a selection, or with an unknown id, nothing is sent and nothing changes; otherwise the selected machine's corrected request (see Findings) is sent and the recommendation is the result on success |

## Left out

- Genkit's re-validation of a flow's input and output against its schemas is left out. Both
  actions pass the history to their flow as JSON text (src/app/actions.ts:32 and 57, each under
  `@ts-ignore`), while both flows declare an array history (src/ai/schemas.ts:23-35 and 71-80,
  used as `inputSchema` at src/ai/flows/predictive-maintenance.ts:51 and
  src/ai/flows/ai-maintenance-recommendations.ts:65).
  - The recommendations flow iterates its history with `#each`. It is modelled over structured
    history, and the composition of the action with that flow is not modelled.
  - The predictive flow is composed with its action over the text. Actions.PredictiveFlowSeesRequest,
    Actions.PredictiveHistoryLineIffPresent, Actions.PredictiveHistoryOnOneLine and
    PredictiveCard.PredictionShownIffFlowSucceeds therefore hold only if genkit does not
    re-check the flow's input. If it does, every request that carries a history fails
    validation, and the action returns its fixed failure message.
- PredictiveFlow.FactLines, PredictiveFlow.HistoryLineIffTruthy, RecommendationsFlow.TaskLinesInOrder,
  RecommendationsFlow.HistoryHeaderIffTruthy, RecommendationsFlow.LocationClauseIffTruthy,
  ChatFlow.TurnLinesInOrder, ChatFlow.HistoryHeaderIffTruthy and ChatFlow.MessageFollowsHistory
  describe the prompt as its list of lines (PromptLines), taking each interpolated value as one
  line. In the rendered text (RenderPrompt), a value holding a newline spreads over several
  lines: for example, a multi-line model reply fed back as chat history. The predictive
  history text is proved free of newlines (Actions.HistoryTextSingleLine); the other values are
  not constrained.
- `chatFlow` in src/ai/flows/chat.ts is the same code as `chat` and is never called. Only `chat`
  is modelled.
- chat.ts's own copies of the chat schemas are left out. The shared ones in src/ai/schemas.ts
  are modelled.
- The language model and its tool calls are a function parameter. What it generates, and when
  it calls the geolocation tool, is not modelled.
- Floating point is left out:
  - costs are integers;
  - coordinates are fixed-point in units of 1e-4 degrees;
  - `toFixed(2)` on the estimated cost is not modelled.
- The clock and date parsing are parameters: `now` and the `dueTime`/`daysLeft` functions. Dates
  stay strings. The date formatting of the pages is not modelled.
- Letter case is ASCII only. Unicode case mapping, and string length in UTF-16 units, are not
  modelled.
- Actions.HistoryText: escapes only `"`, `\` and newline. `JSON.stringify` also escapes the
  other control characters, and that is not modelled.
- Toasts, `console` output, the sheet's open state and the browser's `navigator.geolocation`
  are left out, as UI and I/O. So are `handleUseCurrentLocation` and its `isLocating` flag; a
  location it finds is modelled as typed text.
- zod's own error messages are left out. A parse failure is `None`, and the action replaces the
  error with its fixed message anyway.
- React's batching of state updates is left out, along with the moment the `await` resumes. Each
  handler is one method, or two around its `await` (`BeginSend`/`FinishSend`).
- AiChat.ChatPanel.BeginSend: requires that no send is in progress, instead of modelling a
  second concurrent send; the button and the box are disabled while loading.
- The sample data in src/lib/data.ts is left out. Machines and tasks are parameters.
- The predictions page repeats the predictive card's logic and is not a separate model.
- The prompts' long fixed sentences are modelled as text, and their properties are stated
  through line markers. The exact whitespace of Handlebars' standalone-tag removal is modelled
  as line omission.

## Findings

| source | as written | input that shows it | evidently intended | confidence | as-written member | corrected member |
|---|---|---|---|---|---|---|
| src/components/machines/ai-recommendations.tsx:43-51 | the request names the category `machineType` and sends the history as one joined string; the schema (src/ai/schemas.ts:61, 71-80) requires `category` and an array, so the action rejects every request and the card always shows the failure toast | any machine, e.g. one with an empty log (history "None") | send `category` and the log as `{task, date, cost}` entries | not executed | MachineRecommendations.AsWrittenRequestRejected | MachineRecommendations.CorrectedRequestAccepted |
| src/components/dashboard/ai-dashboard-recommendations.tsx:97-106 | the request names the category `machineType`; the schema requires `category`, so the action rejects every request | any selected machine and any location | send `category` | not executed | DashboardRecommendations.AsWrittenRequestRejected | DashboardRecommendations.CorrectedRequestAccepted |
