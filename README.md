# KarryTask screen logic in Dafny

KarryTask is a React productivity app. Most of it is layout. Underneath there is a small layer of real logic inside a few components, and this project models that layer and proves properties of it:

- **Productivity hub.** A task list and a note pad.
  - Tasks are added after a `trim()` emptiness test, have their `completed` flag flipped by id, are deleted by id, and are counted as "pending".
  - Each priority maps to a text colour.
- **Mr. Karry chat.** An append-only message log.
  - A send step appends the user's message, and a later reply step appends the assistant's answer.
  - "Clear chat" keeps the first message.
  - The reply comes from a first-match-wins keyword cascade over the lower-cased input, with a random pick among six fallback replies.
- **Account screen.**
  - The integrations record, in which one service's `connected` flag is toggled and a toast text is shown.
  - Single-field updates of the profile and of the notification and privacy switches.
  - The avatar initials.
- **KarryTask page and navigation bar.**
  - The current-screen string starts at `"dashboard"` and is set verbatim by navigation.
  - The `renderScreen` switch maps that string to a view.
  - The table of navigation items, the highlight rule and the mobile menu flag.
- **Reports screen.**
  - The selected period and the sample record looked up by it.
  - The "from last …" label made by `slice(0, -2)`.
  - The name of the exported PDF file.

## Layout

| file | module | contents |
|---|---|---|
| `Wrappers.dfy` | `Wrappers` | `Option`, `Result` |
| `Text.dfy` | `Text` | JavaScript's `trim`, `toLowerCase` (ASCII), `includes`, `split`/`join` on one character, `iso.split('T')[0]` |
| `Productivity.dfy` | `Productivity` | task and note records, the list transforms, class `ProductivityHub` |
| `Chat.dfy` | `MrKarry` | messages, the keyword cascade, class `ChatScreen` |
| `Account.dfy` | `Account` | profile, integrations, settings, initials, class `AccountScreen` |
| `KarryTask.dfy` | `KarryTaskPage` | `renderScreen`, class `KarryTask` |
| `KarryTaskNavbar.dfy` | `KarryTaskNavbar` | `navItems`, highlight rule, class `Navbar` |
| `Reports.dfy` | `Reports` | periods, sample data, label, file name, class `ReportsScreen` |

Each screen's React state is a Dafny class whose fields are the `useState` variables. Each event handler is a method that reassigns exactly the fields the handler sets. The pure parts are functions with named results, and the lemmas beside them state what the handlers promise.

Some values come from outside a handler and are passed in as parameters:

- `Date.now()` ids;
- the current `toISOString()`;
- the random fallback index;
- whether the browser grants the microphone.

The delayed reply of a chat send is its own step, `DeliverReply`. A send records its content in the `pending` queue, and a delivery takes any queued content, because the random delays let replies arrive in any order.

## Model

| member | source | states |
|---|---|---|
| `Text.TrimStart` | src/components/screens/ProductivityHubScreen.tsx:40 | the result is the suffix of the input after its leading white space, and it does not start with white space |
| `Text.TrimEnd` | src/components/screens/ProductivityHubScreen.tsx:63 | the result is the prefix of the input before its trailing white space, and it does not end with white space |
| `Text.Trim` | src/components/screens/ProductivityHubScreen.tsx:40 | the result is the piece of the input between its leading and its trailing white space, everything outside that piece is white space, and the piece neither starts nor ends with white space |
| `Text.IsBlank` | src/components/screens/MrKarryScreen.tsx:60 | `s.trim()` is empty, and so false in a condition, exactly when every character of `s` is white space |
| `Text.ToLower` | src/components/screens/MrKarryScreen.tsx:95 | same length, and every character lower-cased; only the ASCII capitals are mapped (see "Left out") |
| `Text.ToLowerIdempotent` | src/components/screens/MrKarryScreen.tsx:95 | lower-casing twice equals lower-casing once |
| `Text.Contains` | src/components/screens/MrKarryScreen.tsx:98-122 | `includes`: a prefix of the string, the empty string among them, is always included, and a string longer than the input never is |
| `Text.Split` | src/components/screens/AccountScreen.tsx:207 | at least one piece, and no piece contains the separator |
| `Text.Join` | src/components/screens/AccountScreen.tsx:207 | the first part starts the result and, when there are more parts, the separator follows it; a result without the separator comes from at most one part |
| `Text.JoinSplit` | src/components/screens/AccountScreen.tsx:207 | joining the pieces of a split with the separator gives back the string |
| `Text.SplitAfterPiece` | src/components/screens/AccountScreen.tsx:207 | a separator-free prefix is glued onto the first piece of the split of the rest |
| `Text.SplitJoin` | src/components/screens/AccountScreen.tsx:207 | splitting a join of separator-free pieces gives back the pieces |
| `Text.SplitHead` | src/components/screens/ProductivityHubScreen.tsx:68 | the first piece is a prefix of the string, followed by the separator if it is shorter than the string |
| `Text.DatePart` | src/components/screens/ProductivityHubScreen.tsx:68 | `iso.split('T')[0]` is the prefix of `iso` up to its first `T`, and contains no `T` |
| `Text.DatePartOfTimestamp` | src/components/screens/ProductivityHubScreen.tsx:68 | for `date + "T" + time`, where `date` has no `T`, the date part is `date` |
| `Productivity.PriorityColor` | src/components/screens/ProductivityHubScreen.tsx:77-84 | grey exactly for strings other than "high", "medium" and "low" |
| `Productivity.PriorityColorsDistinct` | src/components/screens/ProductivityHubScreen.tsx:79-81 | the three priorities get three different colours, none of them grey |
| `Productivity.PendingCount` | src/components/screens/ProductivityHubScreen.tsx:120 | the number of pending tasks is at most the number of tasks |
| `Productivity.ToggledTasks` | src/components/screens/ProductivityHubScreen.tsx:53-55 | same length and order; only `completed` can change, and it flips exactly on the tasks with the id |
| `Productivity.ToggleTwice` | src/components/screens/ProductivityHubScreen.tsx:52-56 | toggling the same id twice gives back the original list |
| `Productivity.DeletedTasks` | src/components/screens/ProductivityHubScreen.tsx:59 | a task is kept exactly when it was in the list and has a different id |
| `Productivity.DeletedLength` | src/components/screens/ProductivityHubScreen.tsx:59 | the length drops by exactly the number of tasks with the id |
| `Productivity.DeletedAppend` | src/components/screens/ProductivityHubScreen.tsx:59 | deleting distributes over concatenation, so the kept tasks keep their relative order |
| `Productivity.DeleteAbsent` | src/components/screens/ProductivityHubScreen.tsx:58-60 | deleting an id no task carries changes nothing |
| `Productivity.DeleteIdempotent` | src/components/screens/ProductivityHubScreen.tsx:58-60 | deleting twice equals deleting once |
| `Productivity.PendingBounds` | src/components/screens/ProductivityHubScreen.tsx:120 | the pending count is at most the number of tasks, and equal to it exactly when no task is completed |
| `Productivity.PendingAfterToggle` | src/components/screens/ProductivityHubScreen.tsx:120 | after a toggle the pending count rises by the matching completed tasks and falls by the matching pending ones |
| `Productivity.ProductivityHub.constructor` | src/components/screens/ProductivityHubScreen.tsx:21-37 | the three sample tasks, the two sample notes, medium priority, empty inputs, form closed, no note selected |
| `Productivity.ProductivityHub.Pending` | src/components/screens/ProductivityHubScreen.tsx:120 | the count shown is at most the number of tasks |
| `Productivity.ProductivityHub.SetNewTask` | src/components/screens/ProductivityHubScreen.tsx:130 | the input holds the typed text |
| `Productivity.ProductivityHub.SetNewTaskPriority` | src/components/screens/ProductivityHubScreen.tsx:137 | the selected priority is stored |
| `Productivity.ProductivityHub.AddTask` | src/components/screens/ProductivityHubScreen.tsx:39-50 | blank input: nothing changes; otherwise one pending task with the untrimmed text and the selected priority goes in front of the old tasks, the input is cleared, and the pending count rises by one |
| `Productivity.ProductivityHub.NewTaskKeyPress` | src/components/screens/ProductivityHubScreen.tsx:133 | Enter behaves like `addTask`; any other key changes nothing |
| `Productivity.ProductivityHub.ToggleTask` | src/components/screens/ProductivityHubScreen.tsx:52-56 | the list becomes its toggled form |
| `Productivity.ProductivityHub.DeleteTask` | src/components/screens/ProductivityHubScreen.tsx:58-60 | the list becomes its filtered form, and no task with the id is left |
| `Productivity.ProductivityHub.OpenNoteForm` | src/components/screens/ProductivityHubScreen.tsx:212 | the note form is open |
| `Productivity.ProductivityHub.SetNoteTitle` | src/components/screens/ProductivityHubScreen.tsx:226 | the title input holds the typed text |
| `Productivity.ProductivityHub.SetNoteContent` | src/components/screens/ProductivityHubScreen.tsx:232 | the content input holds the typed text |
| `Productivity.ProductivityHub.AddNote` | src/components/screens/ProductivityHubScreen.tsx:62-75 | with a blank title or blank content nothing changes; otherwise the note, dated with the date part of the timestamp, goes in front, both fields are cleared and the form closes |
| `Productivity.ProductivityHub.CancelNote` | src/components/screens/ProductivityHubScreen.tsx:244-248 | the form closes and both fields are cleared |
| `Productivity.ProductivityHub.SelectNote` | src/components/screens/ProductivityHubScreen.tsx:262 | the clicked note is the one shown |
| `Productivity.ProductivityHub.CloseNote` | src/components/screens/ProductivityHubScreen.tsx:284 | no note is shown |
| `MrKarry.Rank` | src/components/screens/MrKarryScreen.tsx:98-122 | the position of each topic in the cascade, the order `FirstMatchWins` states; its own contract only bounds it below the number of topics |
| `MrKarry.Keywords` | src/components/screens/MrKarryScreen.tsx:98-122 | the three keywords of each `if`; its own contract only says there are three, and what they decide is stated by `Classify` and `FirstMatchWins` |
| `MrKarry.Classify` | src/components/screens/MrKarryScreen.tsx:98-124 | a chosen topic is mentioned and no topic earlier in the cascade is; no topic is chosen only when none is mentioned |
| `MrKarry.FirstMatchWins` | src/components/screens/MrKarryScreen.tsx:97-124 | the cascade picks a topic exactly when the input mentions it and no earlier topic; it picks none exactly when no topic is mentioned |
| `MrKarry.Respond` | src/components/screens/MrKarryScreen.tsx:94-136 | an on-topic answer's topic is mentioned by the lower-cased input; a fallback answer uses the picked index and is given only when no topic is mentioned |
| `MrKarry.RespondCases` | src/components/screens/MrKarryScreen.tsx:94-137 | the answer is the first mentioned topic of the lower-cased input; it is the picked default reply exactly when no topic is mentioned |
| `MrKarry.RespondIgnoresCase` | src/components/screens/MrKarryScreen.tsx:95 | lower-casing the input first does not change the answer (ASCII case, as modelled) |
| `MrKarry.AchieveIsAGreeting` | src/components/screens/MrKarryScreen.tsx:97-120 | an input containing "achieve" mentions the goal topic, yet gets the greeting, because "achieve" contains "hi" |
| `MrKarry.TopicReply` | src/components/screens/MrKarryScreen.tsx:98-124 | the canned reply text of each topic; it has no contract of its own, and `Reply` states when it is given |
| `MrKarry.FallbackReply` | src/components/screens/MrKarryScreen.tsx:127-134 | the six default reply texts; no contract of its own, and `Reply` states when one is given |
| `MrKarry.AnswerText` | src/components/screens/MrKarryScreen.tsx:94-136 | the text of an answer, a topic reply or the picked default reply; no contract of its own |
| `MrKarry.Reply` | src/components/screens/MrKarryScreen.tsx:94-136 | `getAIResponse(input)` is the reply of the first topic the lower-cased input mentions, and the default reply with the picked index when it mentions none |
| `MrKarry.ChatScreen.constructor` | src/components/screens/MrKarryScreen.tsx:32-45 | the log is the welcome message alone, the input is empty, and nothing is typing, recording or pending |
| `MrKarry.ChatScreen.SetInput` | src/components/screens/MrKarryScreen.tsx:359 | the input holds the typed text |
| `MrKarry.ChatScreen.SendMessage` | src/components/screens/MrKarryScreen.tsx:59-73 | blank content changes nothing; otherwise exactly one user message with the content and type goes at the end, the input is cleared, typing turns on and the content is queued for a reply |
| `MrKarry.ChatScreen.DeliverReply` | src/components/screens/MrKarryScreen.tsx:76-85 | one assistant text message answering the queued content goes at the end, typing turns off, and that content leaves the queue |
| `MrKarry.ChatScreen.Post` | src/components/screens/MrKarryScreen.tsx:70 | the message goes at the end of the log, and the log still starts with the welcome message |
| `MrKarry.ChatScreen.KeyPress` | src/components/screens/MrKarryScreen.tsx:139-144 | Enter without Shift sends the input as text; Shift+Enter and other keys change nothing |
| `MrKarry.ChatScreen.SendButton` | src/components/screens/MrKarryScreen.tsx:377 | sends the input as text |
| `MrKarry.ChatScreen.QuickStart` | src/components/screens/MrKarryScreen.tsx:264-288 | a quick-starter button always sends its text, since none of them is blank |
| `MrKarry.ChatScreen.ClearChat` | src/components/screens/MrKarryScreen.tsx:251 | the log becomes its first message alone |
| `MrKarry.ChatScreen.StartRecording` | src/components/screens/MrKarryScreen.tsx:146-175 | with microphone access a recorder exists and recording is on; without it nothing changes |
| `MrKarry.ChatScreen.StopRecording` | src/components/screens/MrKarryScreen.tsx:177-183 | only with a recorder and recording on does anything happen, and then recording stops |
| `MrKarry.ChatScreen.MicrophoneButton` | src/components/screens/MrKarryScreen.tsx:367 | stops a running recording, starts one otherwise |
| `Account.WithField` | src/components/screens/AccountScreen.tsx:239-291 | the edited field takes the new value and every other profile field, the time zone included, is kept |
| `Account.WithSameField` | src/components/screens/AccountScreen.tsx:239-291 | typing the value already shown changes nothing |
| `Account.WithFieldLastWins` | src/components/screens/AccountScreen.tsx:239-291 | of two edits of one field the later one counts |
| `Account.FirstChars` | src/components/screens/AccountScreen.tsx:207 | at most one character per piece, and exactly one per piece when no piece is empty; what the characters are is stated by `SplitWordStarts` |
| `Account.WordStarts` | src/components/screens/AccountScreen.tsx:207 | the word-start characters: at most the name's length, and never a space |
| `Account.SplitWordStarts` | src/components/screens/AccountScreen.tsx:207 | first characters of the split pieces equal the characters that start a word |
| `Account.Initials` | src/components/screens/AccountScreen.tsx:207 | the initials are the characters that start a word of the name, in order, so none is a space and empty segments add nothing |
| `Account.InitialsOfWords` | src/components/screens/AccountScreen.tsx:207 | for words without spaces joined by spaces, the initials are the words' first characters |
| `Account.TwoWordInitials` | src/components/screens/AccountScreen.tsx:207 | two space-free non-empty words separated by a space give their two first characters |
| `Account.InitialAvatar` | src/components/screens/AccountScreen.tsx:207 | the sample name "Alex Thompson" gives "AT" |
| `Account.ServicesMatchIntegrations` | src/components/screens/AccountScreen.tsx:54-63 | the rendered services and the initial record's keys are the same eight names |
| `Account.ConnectedNotice` | src/components/screens/AccountScreen.tsx:96 | the toast after connecting starts with the service name |
| `Account.DisconnectedNotice` | src/components/screens/AccountScreen.tsx:96 | the toast after disconnecting starts with the service name and is shorter than the connecting one |
| `Account.ToggleIntegration` | src/components/screens/AccountScreen.tsx:86-96 | fails exactly for an unknown service; otherwise the keys stay, only that service's flag flips, its detail and every other entry stay, and the toast says "connected" exactly when it was disconnected |
| `Account.NoticesDiffer` | src/components/screens/AccountScreen.tsx:96 | the two toast texts of a service differ |
| `Account.ToggleKeepsListed` | src/components/screens/AccountScreen.tsx:318 | after a toggle every rendered service can still be looked up |
| `Account.ToggleTwice` | src/components/screens/AccountScreen.tsx:87-93 | toggling one service twice restores the record |
| `Account.WithNotification` | src/components/screens/AccountScreen.tsx:390-466 | the switch takes the new value and every other setting stays |
| `Account.WithPrivacy` | src/components/screens/AccountScreen.tsx:514-537 | the switch takes the new value and every other setting stays |
| `Account.SwitchToSameValue` | src/components/screens/AccountScreen.tsx:390-537 | setting a switch to the value it shows changes nothing |
| `Account.AccountScreen.constructor` | src/components/screens/AccountScreen.tsx:42-84 | the sample profile, integrations and settings, with every rendered service listed |
| `Account.AccountScreen.AvatarFallback` | src/components/screens/AccountScreen.tsx:207 | the avatar text contains no space |
| `Account.AccountScreen.EditProfile` | src/components/screens/AccountScreen.tsx:239-291 | the profile becomes the single-field update |
| `Account.AccountScreen.Toggle` | src/components/screens/AccountScreen.tsx:349 | a known service is toggled and its toast returned; an unknown one is an error and changes nothing; every service stays listed |
| `Account.AccountScreen.SetNotification` | src/components/screens/AccountScreen.tsx:390-466 | the settings become the single-switch update |
| `Account.AccountScreen.SetPrivacy` | src/components/screens/AccountScreen.tsx:514-537 | the settings become the single-switch update |
| `KarryTaskPage.RenderScreen` | src/pages/KarryTask.tsx:19-39 | the start screen `"dashboard"` selects the landing view; which strings select the other views is stated by `RenderScreenRoundTrip` |
| `KarryTaskPage.ScreenName` | src/pages/KarryTask.tsx:21-30 | each of the five screens has a name, and `renderScreen` maps that name back to the screen |
| `KarryTaskPage.RenderScreenRoundTrip` | src/pages/KarryTask.tsx:19-39 | each name selects its screen and each selected screen comes from its name; a string gives the landing view exactly when it is none of the five names |
| `KarryTaskPage.KarryTask.constructor` | src/pages/KarryTask.tsx:13 | the current screen starts as `"dashboard"`, so the landing view shows |
| `KarryTaskPage.KarryTask.Rendered` | src/pages/KarryTask.tsx:44 | a screen other than the landing view is shown only when the current string is that screen's own name |
| `KarryTaskPage.KarryTask.Navigate` | src/pages/KarryTask.tsx:15-17 | the current screen becomes the given string, unvalidated; the last navigation wins |
| `KarryTaskNavbar.NavScreensDistinct` | src/components/KarryTaskNavbar.tsx:12-32 | two items have the same screen only if they are the same item |
| `KarryTaskNavbar.NavScreensAreRoutes` | src/components/KarryTaskNavbar.tsx:12-32 | the items' screens are exactly the names `renderScreen` does not send to the landing view |
| `KarryTaskNavbar.Highlighted` | src/components/KarryTaskNavbar.tsx:48 | an item is highlighted only while the page shows a screen other than the landing view |
| `KarryTaskNavbar.HighlightIsUnique` | src/components/KarryTaskNavbar.tsx:48 | at most one item is highlighted, and only on a screen other than the landing view |
| `KarryTaskNavbar.NothingHighlightedOnDashboard` | src/components/KarryTaskNavbar.tsx:71 | on `"dashboard"` no item is highlighted |
| `KarryTaskNavbar.Navbar.constructor` | src/components/KarryTaskNavbar.tsx:11 | the mobile menu starts closed |
| `KarryTaskNavbar.Navbar.ToggleMenu` | src/components/KarryTaskNavbar.tsx:57 | the menu flag flips |
| `KarryTaskNavbar.Navbar.ClickDesktop` | src/components/KarryTaskNavbar.tsx:48 | the page navigates to the item's screen, which is then highlighted |
| `KarryTaskNavbar.Navbar.ClickMobile` | src/components/KarryTaskNavbar.tsx:68-70 | the page navigates to the item's screen and the menu closes |
| `Reports.ParsePeriod` | src/components/screens/ReportsScreen.tsx:165-170 | a recognised string is the name of the period it yields |
| `Reports.ParsePeriodName` | src/components/screens/ReportsScreen.tsx:167-169 | each period's name is recognised as that period |
| `Reports.DataFor` | src/components/screens/ReportsScreen.tsx:31-56 | the sample record of each period has a productivity figure between 0 and 100 |
| `Reports.ProductivityData` | src/components/screens/ReportsScreen.tsx:31-56 | a record exists exactly for the three period names, and it is that period's record |
| `Reports.SamplePercentages` | src/components/screens/ReportsScreen.tsx:64-72 | every sample productivity figure, per period and per weekday, lies in 0..100 |
| `Reports.SliceDropLastTwo` | src/components/screens/ReportsScreen.tsx:186 | `slice(0, -2)` is a prefix, two characters shorter, or empty for shorter strings |
| `Reports.FromLastAsWritten` | src/components/screens/ReportsScreen.tsx:186 | the word the cards show is the period name without its final "ly" |
| `Reports.FromLastAsWrittenValues` | src/components/screens/ReportsScreen.tsx:186 | the label words are "week", "month" and "dai" |
| `Reports.PeriodUnit` | src/components/screens/ReportsScreen.tsx:186 | the intended word: each name is its unit with "ly", except "daily", which is "day" with the "y" made "ily" |
| `Reports.PeriodUnitVersusSlice` | src/components/screens/ReportsScreen.tsx:200 | the period's unit agrees with the cut-off name exactly for weekly and monthly |
| `Reports.ExportFilename` | src/components/screens/ReportsScreen.tsx:129 | the name starts with "productivity-report-" and the period, ends with ".pdf", and has the length of the template |
| `Reports.ExportFilenameOfTimestamp` | src/components/screens/ReportsScreen.tsx:129 | for a timestamp `date + "T" + time` the file name carries the date and not the time |
| `Reports.ReportsScreen.constructor` | src/components/screens/ReportsScreen.tsx:28 | the selected period starts as "weekly" |
| `Reports.ReportsScreen.SelectTab` | src/components/screens/ReportsScreen.tsx:165-170 | the tab's value is selected, which is always one of the three names |
| `Reports.ReportsScreen.CurrentData` | src/components/screens/ReportsScreen.tsx:138 | the record shown is the lookup of the selected period, and its productivity figure is a percentage |
| `Reports.ReportsScreen.FromLast` | src/components/screens/ReportsScreen.tsx:186 | the word shown after "from last" is `selectedPeriod.slice(0, -2)`, the selected name without "ly": the unit for weekly and monthly, "dai" for daily |
| `Reports.ReportsScreen.IntendedFromLast` | src/components/screens/ReportsScreen.tsx:200 | the unit of the selected period, the word the label evidently means; it equals the shown word exactly when the daily tab is not selected |
| `Reports.ReportsScreen.ExportName` | src/components/screens/ReportsScreen.tsx:129 | the file name starts with "productivity-report-" and the selected period name, which is one of the three tab values, and ends with ".pdf" |

## Left out

- The whiteboard screen is not modelled: it drives an external canvas library.
- The PDF export's drawing and page arithmetic are not modelled: they are calls into html2canvas and jsPDF plus floating-point sizing. Only the file name is modelled.
- Voice capture is not modelled: the `getUserMedia`/`MediaRecorder` calls and the fake transcript picked at random that the recorder's `onstop` sends. `StartRecording` takes the browser's answer as a parameter.
- `MrKarry.ChatScreen.StopRecording`: does not model that stopping the recorder later sends one of the four transcript texts as a voice message. That text is random and comes from the left-out recorder callback.
- Ids and timestamps are parameters, not clock readings: `Date.now()`, `new Date()` and `toISOString()`. Message timestamps are not stored.
- The random typing delay and the timer are not modelled. A reply is a separate `DeliverReply` event for any queued content.
- The mute flag is not modelled: it only decides whether a toast is shown.
- The connection toggle is not modelled: it only shows a toast.
- "Save Changes" and "Export My Data" are not modelled: they only show toasts.
- Toasts, scrolling, icons, colours and layout are DOM output and are not modelled. The one exception is the integration toggle's toast text, which is returned.
- `Text.ToLower`: maps only the ASCII capitals. JavaScript's `toLowerCase` also maps the rest of Unicode, and some non-ASCII capitals lower-case onto ASCII keyword letters: U+212A KELVIN SIGN becomes "k" and U+0130 becomes "i" followed by a combining dot. So the source answers "TAS\u212A" on the tasks topic and "H\u0130" with the greeting, while the model gives both a default reply. `MrKarry.RespondIgnoresCase` is about ASCII case only.
- `MrKarry.RespondIgnoresCase`: states case-insensitivity for the modelled, ASCII-only lower-casing; it does not cover the non-ASCII capitals above.
- Strings are sequences of characters, not of UTF-16 code units.
- `getPriorityIcon` is not modelled: it returns icon components only.
- The screen-time breakdown and the productivity tips are not modelled: they are constant display data with no logic.
- The weekly trends' screen times are floats in the source. They are kept in tenths of an hour. No property depends on them.
- `Account.ToggleIntegration`: the model treats every name without an entry in the record as unknown, returns an error value and leaves the state unchanged. In JavaScript this differs in two ways. For most such names, reading `connected` of `undefined` throws a `TypeError`. For the names the record inherits from `Object.prototype` ("toString", "constructor", "__proto__" and the like), nothing throws: the record gains an entry `{connected: true}` under that name and the toast reads, for example, "toString connected successfully!". The screen only ever passes the eight listed names.
- The description, icon and colour of the integration services, and the profile visibility, theme, language and date-format settings, are stored or shown but never updated. They are not modelled, or are kept only as stored data.
- The login page, the hero effects and the static feature and footer components are not modelled: they have no state of their own.

## Findings

| source | as written | input that shows it | evidently intended | confidence | as-written member | corrected member |
|---|---|---|---|---|---|---|
| src/components/screens/ReportsScreen.tsx:186 and src/components/screens/ReportsScreen.tsx:200 | the "from last …" word is `selectedPeriod.slice(0, -2)` on both cards | selected period "daily": the cards read "+12% from last dai" and "+8% from last dai" | the period's unit: "day", "week", "month" | not executed | `Reports.ReportsScreen.FromLast` | `Reports.ReportsScreen.IntendedFromLast` |
