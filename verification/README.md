# Mediceus AI: voice-session and event-capture logic in Dafny

This project models the parts of the Mediceus AI clinical documentation front end and report back end that hold state-machine or list logic. Everything is written as immutable datatypes and pure functions, with a few loop methods where the source loops.

- **VoiceChat** (`voice_chat.dfy`) models the voice-session controller of a room workspace.
  - Its state holds the microphone permission, the mute flag, the error message, the agent connection status, the shared conversation id and the shared event table.
  - It also holds the current `operationId` prop and the id that the live session's `displayEvent` tool captured when the session was started. The prop can change during a session; the tool keeps the old value.
  - The handlers are pure transitions: the microphone request, start and end of a session, toggle mute, and the `displayEvent` client tool. The SDK's disconnect and error callbacks are transitions too.
  - Each transition takes the settled outcome of the external call it awaits as a parameter: `Ok(value)` or `Err(message)`.
  - Each transition returns the next state and the external calls it issued.
  - The button guards are preconditions of the click handlers. `Run` folds a sequence of actions, and a click on a disabled button does nothing there.
- **EventLog** (`event_log.dfy`) is the shared event table. `addRow` prepends, so the stored list is newest-first. The row timestamp is an input.
- **ConversationSlot** (`conversation_slot.dfy`) is the shared conversation-id cell: one nullable string that the setter overwrites unconditionally.
- **ReportGenerator** (`report_generator.dfy`) covers the report back end:
  - collecting `(eventType, eventValue)` rows from an agent transcript, with per-element exception recovery;
  - the output file name;
  - the event table and its alternating row backgrounds.
- **PasswordStrength** (`password_strength.dfy`) models the registration page's five-criterion score, the four labels, and the rejection of Weak passwords before `register` is called.
- **HistoryFilter** (`history_filter.dfy`) models the surgery-history filter: four criteria, with "All ..." sentinels and a case-insensitive substring search.
- **Outcome** (`outcome.dfy`) holds the `Option` and `Result` types shared by the other modules.

Facts about the code that the model keeps:

- `addRow` prepends, so the stored table is newest-first. No arrival-order copy exists.
- `setConversationId` overwrites a bound id with no conflict check.
- The microphone-denied message is "Microphone access denied. Please enable microphone.".
- A failed `endSession` only sets "Failed to end conversation". No other state changes.
- The agent's disconnect callback does not clear the conversation id, because that line is commented out.

The connection status belongs to the voice SDK. The model sets it to connected when `startSession` resolves and to disconnected when `endSession` resolves or the SDK reports a disconnect.

## Model

| member | source | states |
|---|---|---|
| `VoiceChat.Initial` | components/VoiceComponent.tsx:16-18 | at mount there is no permission, no mute, an empty error message, no connection, no conversation id, an empty table, the given prop and no captured session id |
| `VoiceChat.OperationIdChanged` | components/VoiceComponent.tsx:11-15 | a re-render with a new `operationId` prop changes only the current prop; the id a live session's tool captured stays |
| `VoiceChat.RequestMicPermission` | components/VoiceComponent.tsx:37-48 | a granted microphone request sets `hasPermission` and nothing else; a denied one keeps `hasPermission` and sets "Microphone access denied. Please enable microphone." |
| `VoiceChat.StartConversation` | components/VoiceComponent.tsx:50-72 | a resolved start writes the returned id into the conversation cell, and the session's tool captures the prop as it is at the click; a rejected start leaves the cell and status untouched and sets "Failed to start conversation"; permission, mute and table never change |
| `VoiceChat.EndConversation` | components/VoiceComponent.tsx:74-82 | a resolved end clears the conversation cell; a rejected end leaves the cell untouched and sets "Failed to end conversation" |
| `VoiceChat.ClickMainButton` | components/VoiceComponent.tsx:106 | enabled only with permission; calls end exactly when connected and start otherwise, with the matching effect on the conversation id |
| `VoiceChat.ToggleMute` | components/VoiceComponent.tsx:84-92 | enabled only when connected; requests volume 1 when muted and 0 when not; the mute flag flips only on success, and a failure sets "Failed to change volume" and changes nothing else |
| `VoiceChat.DisplayEvent` | components/VoiceComponent.tsx:55-64 | adds exactly one row holding the event value at the top of the table, keeps every older row, issues one notes POST with `{operationId, eventValue, eventType}` whose operation id is the one the live session captured, and changes nothing else |
| `VoiceChat.AgentDisconnected` | components/VoiceComponent.tsx:24-27 | an agent-side disconnect drops the status but keeps the conversation id |
| `VoiceChat.AgentError` | components/VoiceComponent.tsx:29-32 | an SDK error replaces the error message with its own message and changes nothing else |
| `VoiceChat.PermissionOnlyFromGrant` | components/VoiceComponent.tsx:16-48 | over any run, `hasPermission` ends true if and only if it started true or some microphone request in the run was granted |
| `VoiceChat.NoSessionWithoutPermission` | components/VoiceComponent.tsx:106 | without a granted microphone request, no run ever issues `startSession`; the status stays disconnected and the conversation id stays as it was |
| `VoiceChat.RunLogIsReplay` | components/VoiceComponent.tsx:55-56 | over any run, the table is exactly the starting table with the run's agent events added one by one; no other action touches it |
| `VoiceChat.TableNewestFirst` | components/VoiceComponent.tsx:55-56 | from mount, the table holds the run's agent events in reverse arrival order |
| `VoiceChat.OneNotesPostPerEvent` | components/VoiceComponent.tsx:55-63 | over any run, the notes POSTs issued are exactly one per agent event, in callback order, each carrying that event's value and type |
| `VoiceChat.PostsCarrySessionId` | components/VoiceComponent.tsx:50-63 | over any run in which no click comes with a resolved start, every notes POST carries the operation id captured at the current session's start, whatever the prop does meanwhile, and that captured id stays |
| `VoiceChat.LateOperationIdIgnored` | components/VoiceComponent.tsx:50-63 | if the prop is null when Start is clicked and becomes "op-7" while the session is live, the session's event still POSTs a null operation id |
| `VoiceChat.RestartTakesCurrentOperationId` | components/VoiceComponent.tsx:50-82 | ending a live session and starting again makes the next event POST the prop as it is at the new start |
| `VoiceChat.LiveSessionIsBound` | components/VoiceComponent.tsx:24-82 | no run reaches a connected status with an empty conversation cell, starting from any state where that already holds, such as the disconnected mount state |
| `VoiceChat.DroppedSessionKeepsId` | components/VoiceComponent.tsx:24-27 | the converse fails: after grant, a resolved start and an agent-side disconnect, the status is disconnected while the cell still holds the id |
| `VoiceChat.ToggleTwiceRestores` | components/VoiceComponent.tsx:84-92 | two accepted mute toggles restore the starting state and request opposite volumes, 1 then 0 when muted and 0 then 1 when not |
| `VoiceChat.ErrorMessageNeverCleared` | components/VoiceComponent.tsx:18-92 | once the error message is non-empty, no run blanks it unless the SDK itself reports an error with an empty message |
| `VoiceChat.MicDeniedScenario` | components/VoiceComponent.tsx:99-113 | after a denied microphone request, the denial message is shown and both the start and the mute button are disabled |
| `EventLog.Empty` | components/TableContext.tsx:14 | the table starts with no rows |
| `EventLog.AddRow` | components/TableContext.tsx:16-22 | the new row, with the given value and clock reading, is at index 0; the length grows by one; every prior row keeps its value and relative order, shifted by one |
| `EventLog.ReplayOnto` | components/TableContext.tsx:21 | adding rows on top of any table puts the new rows, newest first, above the old ones |
| `EventLog.StoredIsReverseOfArrival` | components/TableContext.tsx:21 | after `addRow(v1)` to `addRow(vn)` from empty, the table is the reverse of the arrival order |
| `EventLog.StoredIndex` | components/TableContext.tsx:21 | the row at index i is the (i+1)-th most recent arrival |
| `EventLog.ArrivalOrderRecoverable` | components/TableContext.tsx:21 | reading the stored table from the bottom gives back the arrivals in order |
| `EventLog.ThreeCallbacksNewestFirst` | components/TableContext.tsx:21 | the callbacks "BP 120/80", "Incision made", "Closing" are stored as Closing, Incision made, BP 120/80 |
| `EventLog.ReverseInvolution` | components/TableContext.tsx:21 | reversing the newest-first table twice gives it back, so the stored order loses nothing |
| `EventLog.UseTable` | components/TableContext.tsx:31-37 | `useTable` yields the provider's table when a provider is present and fails with its message when none is |
| `ConversationSlot.Initial` | components/ConversationContext.tsx:13 | the conversation id is initially null |
| `ConversationSlot.Set` | components/ConversationContext.tsx:6-16 | after a write, the getter returns exactly the written value, null included |
| `ConversationSlot.LastWriteWins` | components/ConversationContext.tsx:13-16 | after any series of writes, the getter returns the last one written, or the prior value if there were none |
| `ConversationSlot.OverwriteWithoutConflict` | components/ConversationContext.tsx:13-16 | a bound id is replaced by another with no conflict, and writing null clears the cell |
| `ConversationSlot.UseConversation` | components/ConversationContext.tsx:22-28 | `useConversation` yields the provider's cell when a provider is present and fails with its message when none is |
| `ReportGenerator.ParamsOf` | backends/utils/report_generator.py:29-33 | missing params act as the empty dictionary; parsing fails exactly on malformed params |
| `ReportGenerator.RowOf` | backends/utils/report_generator.py:25-39 | a call yields a row if and only if it is a `displayEvent` call whose params hold both `eventType` and `eventValue`; the row is `(eventType, eventValue)` in that column order |
| `ReportGenerator.FirstRaise` | backends/utils/report_generator.py:21-42 | the index of the first call that throws: no earlier call throws, and the call at that index does |
| `ReportGenerator.CollectElement` | backends/utils/report_generator.py:21-42 | one element yields the rows of its calls up to the first throw; it signals the throw exactly when one occurs; an element with missing or empty `tool_calls` yields nothing |
| `ReportGenerator.CollectEvents` | backends/utils/report_generator.py:18-42 | the collection loop yields the concatenation of every element's rows, in transcript order |
| `ReportGenerator.FilterMapConcat` | backends/utils/report_generator.py:24-39 | rows keep call order: the rows of two call lists in a row are the rows of the first followed by those of the second |
| `ReportGenerator.EventsConcat` | backends/utils/report_generator.py:20-42 | rows keep transcript order: the rows of two transcripts in a row are those of the first followed by those of the second |
| `ReportGenerator.FilterMapSound` | backends/utils/report_generator.py:35-39 | every collected row comes from some `displayEvent` call whose params hold both keys, and takes its columns from them |
| `ReportGenerator.FilterMapCount` | backends/utils/report_generator.py:35-39 | the number of rows equals the number of calls that are `displayEvent` calls with parsed params holding both keys, counted independently of the row construction, so no qualifying call is lost or doubled |
| `ReportGenerator.OtherToolsIgnored` | backends/utils/report_generator.py:25-27 | calls of tools other than `displayEvent` contribute nothing, whatever their params |
| `ReportGenerator.CleanElementKeepsAll` | backends/utils/report_generator.py:24-39 | an element in which nothing throws contributes all its qualifying rows |
| `ReportGenerator.ThrowIsLocal` | backends/utils/report_generator.py:20-42 | a throw inside one element drops the rest of that element, keeps its earlier rows, and leaves the other elements' rows untouched |
| `ReportGenerator.OutputFilename` | backends/utils/report_generator.py:45 | the file name starts with the first name and an underscore, and ends in ".pdf" |
| `ReportGenerator.FilenameRoundTrip` | backends/utils/report_generator.py:45 | when no detail contains '_', dropping ".pdf" and splitting the name at '_' gives back first name, last name, procedure and patient id |
| `ReportGenerator.TableData` | backends/utils/report_generator.py:109-110 | the table is the header followed by the events, so it has one more row than there are events |
| `ReportGenerator.RowBackgrounds` | backends/utils/report_generator.py:116-148 | every table row gets one background: dark grey for the header, light grey for even and white for odd row indices |
| `ReportGenerator.AlternatingRows` | backends/utils/report_generator.py:144-148 | data rows alternate, the first data row is white, and no data row is dark grey |
| `ReportGenerator.CreateReport` | backends/utils/report_generator.py:8-157 | returns the collected events, names the file after the details, and builds a table of events plus header with a matching background per row |
| `PasswordStrength.Score` | app/register/page.tsx:32-38 | the score lies between 0 and 5; it is 5 exactly when all criteria hold and 0 exactly when none holds |
| `PasswordStrength.ScoreCountsCriteria` | app/register/page.tsx:33-38 | the score is exactly the number of satisfied criteria among length of at least 8, upper case, lower case, digit and special character |
| `PasswordStrength.Label` | app/register/page.tsx:40-43 | Weak exactly for scores up to 2; above that, the label's rank grows by one per point up to Very Strong |
| `PasswordStrength.LabelMonotone` | app/register/page.tsx:40-43 | a higher score never yields a weaker label |
| `PasswordStrength.GetPasswordStrength` | app/register/page.tsx:32-44 | a password is Weak exactly when at most two criteria hold, and Very Strong exactly when all hold |
| `PasswordStrength.AppendNeverWeakens` | app/register/page.tsx:33-43 | typing one more character never lowers the score or the label |
| `PasswordStrength.UnderscoreIsSpecial` | app/register/page.tsx:38 | an underscore satisfies the special-character criterion |
| `PasswordStrength.SamplePasswords` | app/register/page.tsx:32-44 | "password" is Weak and "Passw0rd!" is Very Strong |
| `PasswordStrength.HandleSubmit` | app/register/page.tsx:60-74 | the form is rejected with "Password is too weak. Please choose a stronger password." if and only if the password is Weak; otherwise `register` is called with the form data unchanged |
| `HistoryFilter.Lower` | app/dashboard/history/page.tsx:60-62 | folding keeps the length and lower-cases each character in place |
| `HistoryFilter.FindIncludes` | app/dashboard/history/page.tsx:60-62 | the scan reports true exactly when the needle occurs somewhere in the text |
| `HistoryFilter.SearchMatches` | app/dashboard/history/page.tsx:58-62 | the search computed with the scan over the folded patient, procedure and notes agrees with the search criterion for every query and record |
| `HistoryFilter.FilterHistory` | app/dashboard/history/page.tsx:54-65 | the result is an order-preserving subsequence of the history; a record is in it if and only if all four criteria hold |
| `HistoryFilter.FilterKeepsMultiplicity` | app/dashboard/history/page.tsx:54-65 | `filter` keeps duplicates: each record meeting the criteria appears exactly as often as in the history, and any other record not at all |
| `HistoryFilter.SelectorCriteria` | app/dashboard/history/page.tsx:55-57 | a chosen room, doctor or date is matched exactly by every record shown; "All Rooms", "All Doctors" and no date impose nothing, so any record meeting the search is then shown |
| `HistoryFilter.DefaultShowsAll` | app/dashboard/history/page.tsx:49-65 | with All Rooms, All Doctors, no date and an empty query, the whole list is shown |
| `HistoryFilter.FilterIdempotent` | app/dashboard/history/page.tsx:54-65 | filtering an already filtered list changes nothing |
| `HistoryFilter.SearchIgnoresDoctorAndRoom` | app/dashboard/history/page.tsx:58-62 | the search result does not depend on the doctor or room text |
| `HistoryFilter.SearchCaseInsensitive` | app/dashboard/history/page.tsx:58-62 | queries that fold to the same text select the same records |
| `HistoryFilter.PatientSubstringFound` | app/dashboard/history/page.tsx:58-62 | any non-empty piece of the patient name, in any capitalisation, finds the record |
| `HistoryFilter.SecondRecordUnreachableByDoctor` | app/dashboard/history/page.tsx:15-46 | as written, no doctor option except "All Doctors" shows the second sample record |
| `HistoryFilter.EveryRecordReachableByDoctor` | app/dashboard/history/page.tsx:15-46 | with the corrected options, selecting a record's own doctor shows that record |

## Left out

- The voice SDK, `getUserMedia` and the `fetch` to the notes endpoint are left out. These are foreign asynchronous calls; only their settled outcomes are parameters. The client tool awaits the notes `fetch` with no `catch`, so a rejected POST goes unhandled to the SDK. The model does not represent that rejection; whatever the SDK does next can be represented at most by an `Errored` action.
- `process.env` (the agent id passed to `startSession`) is left out. A missing id shows up only as a rejected start.
- Every handler runs to completion as one atomic step, with its external call already settled. No action can happen between issuing `startSession`, `endSession` or `setVolume` and its settling, and the SDK's intermediate "connecting" and "disconnecting" statuses are not represented. So a second Start click while the first start is still pending, which issues a second `startSession` in the source, is not modelled.
- React rendering and re-render timing are not modelled. Each state setter is an immediate update. The mount effect is an action that a run may contain any number of times, not just once.
- The SDK's `isSpeaking` indicator and `onConnect`/`onMessage` callbacks are left out. They only log or render.
- Timestamps are inputs. `toLocaleTimeString` formatting is not modelled.
- `json.loads` is not modelled. Params arrive as absent, already parsed as a string map, or malformed. Params whose JSON is valid but not a string-to-string object are left out.
- Per-call exceptions other than a failed parse are not distinguished from it. Examples are a tool call that is not a dictionary, and the ReportLab `Paragraph(...)` constructions at backends/utils/report_generator.py:37-38. Those sit inside the `try`, so an event text that the markup parser rejects throws after the params have parsed and drops the rest of the element. The model can express this only by giving that call `Malformed` params.
- A missing `tool_calls` key and a falsy value are both modelled as `None`, because both contribute nothing.
- Missing keys in the surgery details or the agent response raise outside the recovery block and are not modelled. The summary and duration paragraphs are not modelled either.
- ReportLab document building, styles, page sizes, column widths and RGB colour values are not modelled. Backgrounds are an enumeration.
- `date-fns` formatting is not modelled. The selected date is an optional string that is already formatted.
- Unicode `toLowerCase` and JavaScript UTF-16 lengths are not modelled. Case folding is ASCII and length counts characters.
- The rest of the registration flow is not modelled: the `register` request itself, token storage and navigation.
- The room page's workflow is not part of this model: metadata entry, operation creation and the report download request.
- The login and dashboard pages, the API wrappers, the Flask endpoints, the SQLite database, the ElevenLabs client wrapper, the layouts and the styling are not part of this model.
- `VoiceChat.ErrorMessageNeverCleared`: this is stated only for runs with no SDK error carrying an empty message, because the `onError` handler copies whatever message it receives.

## Findings

| source | as written | input that shows it | evidently intended | confidence | as-written member | corrected member |
|---|---|---|---|---|---|---|
| app/dashboard/history/page.tsx:36-46 | the doctor selector offers "Dr. Michael Brown", but the record's doctor is "Michael Brown", and the doctor criterion is exact equality | select "Dr. Michael Brown": the record with id 2 is not shown | the option matches the record's spelling, as "Mateusz Kowal" does | medium, not executed | `HistoryFilter.SecondRecordUnreachableByDoctor` | `HistoryFilter.EveryRecordReachableByDoctor` |
