# DeepFate, modelled in Dafny

DeepFate is a fortune-telling app: an iOS client written in SwiftUI and a Flask backend. The app
keeps birth profiles, draws BaZi charts, casts coins for a question, draws a daily stick, runs a
face ritual, counts merit, and lets the user chat with a language model about the results. The
chat reply is streamed from the backend to the client as an event stream.

This project models the logic inside those screens and handlers, leaving the UI, network and
storage behind, and proves what that logic promises. One Dafny module stands for each source
file:

| module | models |
|---|---|
| `SparkChat` | the streaming chat client: backend address, request guards, wire messages, the line-decoding loop |
| `SparkServer` | the backend's text clean-up, timezone guess, place text, result-count clamps, chart helpers, the history normaliser `build_chat_messages` and the event-stream framing |
| `StreamRoundTrip` | the framing read back by the client's loop: chunks in, the same chunks out as deltas |
| `ChatMessages` | the chat message record |
| `ChatScreen` | the conversation screen: sending, streaming, stopping, failing, retrying, editing, and the chat drawer |
| `ProfileStore` | the profile list with its active profile |
| `Auth` | the local account list and session, birth-place parsing and gender mapping |
| `ProfileModels` | birth-input validation, date formatting, the safe subscript and the year range |
| `Divination` | the coin-casting screen: line previews, moving lines, line names, and the toss list |
| `BaZi` | the five-element table, the plain-text chart parser and the pillars |
| `Markdown` | the heading normaliser of the chat bubbles |
| `FortuneChart` | the da-yun label split, the paired rows and the dash fallbacks of the chart |
| `DrawResult` | tags chunked into rows of three |
| `DailyDraw` | the daily ritual hash and choice, and the drawing canvas |
| `FaceRitual` | the face-ritual step detector and the capture screen's phases |
| `LoginForms` | the enabling rules of the sign-in, create-account and reset forms |
| `ProfileWizard` | the profile-creation sheet: steps, selections, clamps, saving |
| `XiuXin` | the merit counters, floating badges and summary wait |
| `Avatar` | the avatar letter and palette colour |
| `ConsultRouter` | the prompts handed to the consult tab and the router's pending prompt |
| `Archive` | the archive search and the two orders |

Four modules are shared:
- `Wrappers` holds `Option`.
- `Lists` holds the lookup of the first element with a key and the removal of every element with it, the `firstIndex(where:)` and `removeAll` that the chats, messages, profiles, accounts and badges all use.
- `Text` holds the whitespace classes, trimming, replace-all, split and join, integer formatting, and the scalar sum.
- `Sorting` holds an insertion sort by a strict order. It stands in for Swift's `sorted(by:)`.

Where a screen keeps `@State` or `@Published` fields, the model is a class with those fields. Each
of its methods is proved equal to a function on a value snapshot of the state, and the lemmas
about those functions carry what the source promises.

Clocks, UUIDs, random coin faces, the network and storage are not part of the model. When an
operation needs them, they are parameters:
- `now` is a timestamp;
- a fresh id is a `nat` the caller supplies;
- coin faces are booleans;
- a server answer is a value;
- calendar arithmetic is a function.

Timers and completion callbacks are events, applied one after another.

Where the app's own description and its code differ, the model follows the code. The chat
message record is described as carrying separate content for the backend, but
`ChatMessage.asBackendMessage` always sends `text`, and `apiContent` is read only when a message
is retried and on the failure path. `SparkChat.AsBackendMessage` therefore sends `text`.

## Model

| member | source | states |
|---|---|---|
| Lists.IndexOfKey | DeepFate/Views/MainView.swift:526 | the first position whose element has the key, or none exactly when no element has it |
| Lists.IndexOfSameKeys | DeepFate/Views/MainView.swift:48-51 | lists with the same keys in the same places find a key in the same place |
| Lists.WithoutKey | DeepFate/Views/MainView.swift:651 | no element with the key remains, and the list is no longer |
| Lists.WithoutKeyMembers | DeepFate/Services/ProfileStore.swift:98 | a removal keeps every element with another key and only those |
| Lists.WithoutKeyAppend | DeepFate/Views/MainView.swift:859 | a removal keeps the order: removing from a joined list is removing from each part |
| Lists.WithoutAbsentKey | DeepFate/Views/XiuXinView.swift:152 | removing a key no element has changes nothing |
| SparkChat.BaseURL | DeepFate/Services/SparkChatClient.swift:5-9 | the address is never empty and has no surrounding whitespace; a missing or all-blank override gives the default address |
| SparkChat.BaseURLVerbatim | DeepFate/Services/SparkChatClient.swift:5-9 | an override that is already trimmed and non-empty is used as it is |
| SparkChat.BaseURLIgnoresLeadingWhite | DeepFate/Services/SparkChatClient.swift:7 | whitespace in front of the override makes no difference |
| SparkChat.IsValid | DeepFate/Services/SparkChatClient.swift:14-16 | the configuration is always valid, because the address falls back to the default |
| SparkChat.Describe | DeepFate/Services/SparkChatClient.swift:25-36 | a server error reads "服务端错误(code)：" then its message, or 未知错误 when there is none; a transport error shows its own description |
| SparkChat.AsBackendMessage | DeepFate/Services/SparkChatClient.swift:154-158 | the role is "user" exactly for user messages and "assistant" otherwise; the content is the shown text, never `apiContent` |
| SparkChat.AsBackendMessages | DeepFate/Services/SparkChatClient.swift:50 | the history is mapped message by message, in order, with the same length |
| SparkChat.StepLineEffect | DeepFate/Services/SparkChatClient.swift:92-116 | each line's effect: an `event:` line names the event; an empty line clears it; other non-data lines keep it. A data line stops the stream exactly after an `error` event (a server failure with code 500 and the unescaped payload) or on the payload `[DONE]` (success with the text so far). Any other data line yields its unescaped payload as one delta, and the accumulator grows by exactly that delta |
| SparkChat.Run | DeepFate/Services/SparkChatClient.swift:88-121 | whatever the lines, the log ends with a completion |
| SparkChat.RunCompletesOnce | DeepFate/Services/SparkChatClient.swift:86-124 | `onComplete` is called exactly once, and after every `onDelta` |
| SparkChat.RunSuccessText | DeepFate/Services/SparkChatClient.swift:106-120 | a successful completion carries exactly the concatenation of the deltas before it |
| SparkChat.RunNeverMissingConfig | DeepFate/Services/SparkChatClient.swift:81-124 | once the stream is open, the outcome is never a missing configuration |
| SparkChat.ErrorEventEndsStream | DeepFate/Services/SparkChatClient.swift:98-103 | after an `error` event, the next data line completes with the server failure, and no later line is read |
| SparkChat.DoneEndsStream | DeepFate/Services/SparkChatClient.swift:104-108 | a `[DONE]` payload outside an error event completes with the accumulated text, and no later line is read |
| SparkChat.Decode | DeepFate/Services/SparkChatClient.swift:81-125 | one response always ends in exactly one final callback, the completion |
| SparkChat.DecodeStream | DeepFate/Services/SparkChatClient.swift:81-125 | the loop over the lines, with its `currentEvent`, `accumulated` and `completed` variables, produces the log of `Decode`: one completion, after all deltas, a success carrying the deltas' text |
| SparkChat.Send | DeepFate/Services/SparkChatClient.swift:44-80 | an address that does not parse fails with `invalidURL`, and a failed encoding fails with `invalidResponse`; both send nothing. Otherwise the request goes to the stream path with the mapped history, and the log is the decoding of the lines. Every path completes exactly once, and never with a missing configuration |
| SparkServer.CleanText | backend/spark_server.py:228-230 | a missing value is empty; a present one comes back stripped and no longer |
| SparkServer.CleanTextBlank | backend/spark_server.py:228-230 | the cleaned text is empty exactly when the value is missing or all whitespace |
| SparkServer.ResolveTimezoneId | backend/spark_server.py:243-251 | Hong Kong if the address names 香港 anywhere; otherwise Macau for 澳门; otherwise Taipei for 台湾, 台北 or 高雄; otherwise Shanghai. All four directions are if-and-only-if |
| SparkServer.HongKongInAnyField | backend/spark_server.py:244-246 | 香港 in any single field decides Hong Kong, whatever the other fields hold |
| SparkServer.BuildLocationText | backend/spark_server.py:272-278 | the non-empty regions run together, then one space and the detail when both sides are non-empty; otherwise whichever side is non-empty; the result is stripped |
| SparkServer.LocationTextStripped | backend/spark_server.py:272-278 | stripping the place text again changes nothing |
| SparkServer.ClampLimit | backend/spark_server.py:580 | the limit is always within 1 to 20; a limit already in range is kept, one below is raised to 1, one above is lowered to 20 |
| SparkServer.GeoLimit | backend/spark_server.py:576-580 | an argument that does not parse as an integer gives 20; any argument gives a limit within 1 to 20, and one in range is kept |
| SparkServer.SplitGanZhi | backend/spark_server.py:1039-1043 | a missing pillar or one shorter than two characters gives two empty strings; otherwise the stem and the branch are the first and second characters |
| SparkServer.ZangGanList | backend/spark_server.py:1053-1057 | empty stems are dropped; every other stem is tagged, in order, as "stem·element" |
| SparkServer.TagAll | backend/spark_server.py:1057 | one tag per non-empty stem, in order |
| SparkServer.StemTagKnown | backend/spark_server.py:1047-1050 | a known stem is tagged as itself, a dot, and one of the five elements |
| SparkServer.Filter | backend/spark_server.py:750-759 | exactly the messages that are neither system messages nor assistant replies starting with 请求失败： are kept |
| SparkServer.DropLeading | backend/spark_server.py:760-761 | what is left is a suffix that is empty or opens with a user message, and every message popped was not from the user |
| SparkServer.CompactStep | backend/spark_server.py:764-770 | the new message always ends the list, and nothing that was not there before or the new message appears |
| SparkServer.CompactStepKeeps | backend/spark_server.py:764-770 | one step of the compaction keeps the list free of repeated user turns |
| SparkServer.CompactIntoKeeps | backend/spark_server.py:763-770 | after compaction, no two neighbouring user messages have the same stripped content |
| SparkServer.CompactIntoFrom | backend/spark_server.py:763-770 | compaction keeps only messages it was given |
| SparkServer.CompactIntoLast | backend/spark_server.py:763-770 | the last message given is always the last message kept |
| SparkServer.CompactIntoHead | backend/spark_server.py:763-770 | compaction never changes the role that opens the conversation |
| SparkServer.ConversationFrom | backend/spark_server.py:756-771 | every message sent to the model was posted by the client, and is neither a system message nor an error reply |
| SparkServer.ConversationNoSystem | backend/spark_server.py:756-759 | the conversation part holds no system message |
| SparkServer.ConversationTurns | backend/spark_server.py:760-770 | the conversation opens with a user message and never repeats a user turn |
| SparkServer.CompactKeepsLatest | backend/spark_server.py:760-770 | when anything survives the popping, the last filtered message reaches the model |
| SparkServer.ConversationKeepsLatest | backend/spark_server.py:756-770 | once the filtered history has a user message, its latest message reaches the model, last |
| SparkServer.SystemParts | backend/spark_server.py:773-778 | at most two system texts, and none exactly when the template strips to nothing and there is no profile prompt |
| SparkServer.SystemMessageFirst | backend/spark_server.py:772-781 | at most one system message reaches the model, at the front, and only when there is system text |
| SparkServer.CompactTurns | backend/spark_server.py:763-771 | the loop with its in-place replacement of the last element computes the compaction |
| SparkServer.CollectSystemParts | backend/spark_server.py:772-778 | the statements gather exactly the system texts |
| SparkServer.BuildChatMessages | backend/spark_server.py:748-781 | the handler's steps (filter, pop loop, compaction loop, system message) compute `ChatMessages` |
| SparkServer.Escape | backend/spark_server.py:1608 | an escaped payload holds no carriage return and no line feed |
| SparkServer.BodyLines | backend/spark_server.py:1607-1613 | the yielded text is exactly the stream's lines, each ended by a line feed |
| SparkServer.LinesFree | backend/spark_server.py:1607-1613 | no line of the stream holds a line feed, so a payload never breaks a line |
| SparkServer.SplitBody | backend/spark_server.py:1607-1613 | splitting the body at line feeds gives back the lines, then an empty rest |
| SparkServer.ChunkBody | backend/spark_server.py:1608-1609 | one chunk frames as `data: `, the escaped chunk and a blank line |
| SparkServer.EndBody | backend/spark_server.py:1610-1613 | the closing event is `event: done` with `data: [DONE]`, or `event: error` with the escaped exception text |
| StreamRoundTrip.RoundTrip | backend/spark_server.py:1607-1613 | chunks free of carriage returns, backslash-n, `data:`, surrounding spaces or tabs, and not `[DONE]` come through the framing and the client's loop as exactly one delta per chunk, in order, followed by success with their concatenation, or by the server failure carrying the exception's text |
| StreamRoundTrip.RunFrames | DeepFate/Services/SparkChatClient.swift:88-121 | from any point of the framed stream, the remaining chunks become deltas and the ending is reported |
| StreamRoundTrip.RunChunks | DeepFate/Services/SparkChatClient.swift:96-112 | the chunk frames yield one delta per chunk, in order, and leave no event pending |
| StreamRoundTrip.ChunkStep | DeepFate/Services/SparkChatClient.swift:96-116 | a chunk's data line and blank line add the chunk to the text and clear the event |
| StreamRoundTrip.EndStep | DeepFate/Services/SparkChatClient.swift:92-108 | the closing event stops the stream with the ending the backend sent |
| StreamRoundTrip.DoneFrame | DeepFate/Services/SparkChatClient.swift:104-108 | `event: done` then `data: [DONE]` completes with the text so far |
| StreamRoundTrip.ErrorFrame | DeepFate/Services/SparkChatClient.swift:98-103 | `event: error` then the message's data line completes with the server failure carrying the message |
| StreamRoundTrip.DataLineStep | DeepFate/Services/SparkChatClient.swift:96-112 | a chunk's data line hands the client the chunk as its delta |
| StreamRoundTrip.ErrorLineStep | DeepFate/Services/SparkChatClient.swift:98-103 | after an error event, the framed message's data line stops with exactly that message |
| StreamRoundTrip.EventLineStep | DeepFate/Services/SparkChatClient.swift:92-95 | an event line names the event it carries |
| StreamRoundTrip.DoneLineStep | DeepFate/Services/SparkChatClient.swift:104-108 | the `[DONE]` data line completes with the accumulated text |
| StreamRoundTrip.UnescapeEscape | DeepFate/Services/SparkChatClient.swift:109 | the client's unescaping undoes the backend's escaping of a chunk without carriage returns or backslash-n |
| StreamRoundTrip.UnescapeEscapeLF | DeepFate/Services/SparkChatClient.swift:109 | turning `\n` back into a line feed undoes the line-feed escaping of a text without backslash-n |
| StreamRoundTrip.DataLine | DeepFate/Services/SparkChatClient.swift:96-97 | a framed data line is a data line, not an event line, and its payload is the escaped chunk |
| StreamRoundTrip.NotDoneMarker | backend/spark_server.py:1608 | only the text `[DONE]` itself frames as the end marker |
| StreamRoundTrip.EscapedContains | backend/spark_server.py:1608 | escaping line feeds creates no occurrence of a pattern that holds no backslash and does not open with `n`, such as `data:` or `event:` |
| StreamRoundTrip.DeltasSpellReply | DeepFate/Services/SparkChatClient.swift:110 | the deltas of the chunks spell out the whole reply |
| StreamRoundTrip.DoneChunkEndsEarly | DeepFate/Services/SparkChatClient.swift:104-108 | a first chunk equal to `[DONE]` ends the stream at once with empty text: it and everything after it are lost |
| StreamRoundTrip.LeadingSpaceTrimmed | DeepFate/Services/SparkChatClient.swift:97 | a chunk that begins with a space is not carried unchanged, because the client trims it |
| ChatScreen.ChatIndexIds | DeepFate/Views/MainView.swift:48-51 | editing sessions in place never moves where a chat is found |
| ChatScreen.FirstReplyFrom | DeepFate/Views/MainView.swift:553 | the first message at or after a position that is not the user's, or none when all of them are |
| ChatScreen.Spoken | DeepFate/Views/MainView.swift:592 | only messages with text remain, and the list is no longer |
| ChatScreen.SpokenMembers | DeepFate/Views/MainView.swift:592 | the history holds exactly the messages with text |
| ChatScreen.SpokenAppend | DeepFate/Views/MainView.swift:592 | filtering keeps the order: the history of a longer list is the histories of its parts |
| ChatScreen.UserCount | DeepFate/Views/MainView.swift:657 | the count is zero exactly when the chat holds no user message |
| ChatScreen.Apply | DeepFate/Views/MainView.swift:527-534 | an in-place edit never changes a message's id, its author or its stored content |
| ChatScreen.WithMessages | DeepFate/Views/MainView.swift:52-55 | replacing the shown chat's messages changes no other chat and no other field, and nothing when no chat is shown |
| ChatScreen.WithMessagesSame | DeepFate/Views/MainView.swift:52-55 | putting back the shown chat's own messages changes nothing |
| ChatScreen.Append | DeepFate/Views/MainView.swift:644-647 | the message is added at the end of the shown chat; nothing changes when no chat is shown |
| ChatScreen.Remove | DeepFate/Views/MainView.swift:649-652 | every message with the id leaves the shown chat; nothing changes when no chat is shown |
| ChatScreen.EditById | DeepFate/Views/MainView.swift:524-535 | only the first message with the id changes, and nothing when there is none |
| ChatScreen.EditByIdFinds | DeepFate/Views/MainView.swift:524-535 | after an in-place edit every lookup by id finds what it found before |
| ChatScreen.SendUserMessageGuard | DeepFate/Views/MainView.swift:490-492 | a blank content, or a send while sending, changes nothing |
| ChatScreen.SendUserMessageAppends | DeepFate/Views/MainView.swift:493-505 | a new question appends the user's message and then one streaming reply with the fresh id, stamps the chat, remembers it, and the screen is sending and tracks both from an empty text |
| ChatScreen.QuestionAppends | DeepFate/Views/MainView.swift:500-505 | past the guard, the question and the new streaming reply are appended in that order |
| ChatScreen.UserMessageFields | DeepFate/Views/MainView.swift:493-499 | the user's message shows the trimmed display text when there is one, and then stores the trimmed content; otherwise it shows the trimmed content and stores nothing |
| ChatScreen.SendChatRestarts | DeepFate/Views/MainView.swift:577-590 | regenerating a reply in the shown chat restarts it in place: same length, that reply empty, streaming and complete, the others unchanged, and the screen sending and tracking it |
| ChatScreen.HistoryMeaning | DeepFate/Views/MainView.swift:592-593 | a request carries only messages with text, each mapped onto the wire, and every shown message with text is among them |
| ChatScreen.OnDeltaStep | DeepFate/Views/MainView.swift:598-603 | one delta is appended to the reply, which stays where it is, becomes complete, and is copied to the tracked text |
| ChatScreen.DeliverAccumulates | DeepFate/Views/MainView.swift:598-603 | after any run of deltas the reply's text is what it was followed by all of them, in order |
| ChatScreen.DeliverTracks | DeepFate/Views/MainView.swift:600-602 | after at least one delta the tracked text is the reply's text and the reply is complete |
| ChatScreen.KeepQuestion | DeepFate/Views/MainView.swift:630-635 | after a failure the question is retryable where it was, or a retryable copy is appended; the other messages keep their places |
| ChatScreen.ShowFailure | DeepFate/Views/MainView.swift:636-638 | the failure text ends the shown chat, and is added only when the last message does not already show it |
| ChatScreen.CompleteEndsSending | DeepFate/Views/MainView.swift:607 | after any completion the screen is no longer sending |
| ChatScreen.FailShowsText | DeepFate/Views/MainView.swift:636-638 | the failure path ends the shown chat with the failure text |
| ChatScreen.FailDropsReply | DeepFate/Views/MainView.swift:629 | the failure path leaves no message with the reply's id |
| ChatScreen.FailKeepsQuestion | DeepFate/Views/MainView.swift:630-635 | the failure path always leaves the question, or its copy, retryable |
| ChatScreen.SuccessClearsRetry | DeepFate/Views/MainView.swift:619-623 | success clears the question's retry flag and keeps every message |
| ChatScreen.StopIdle | DeepFate/Views/MainView.swift:521 | stopping when not sending changes nothing |
| ChatScreen.StopFreezes | DeepFate/Views/MainView.swift:521-541 | stopping keeps the reply where it is with the text streamed so far, not streaming and incomplete, and clears every tracking field |
| ChatScreen.StopStills | DeepFate/Views/MainView.swift:521-541 | after a stop the reply is where it was, not streaming, and nothing is tracked |
| ChatScreen.EndStreamIdle | DeepFate/Views/MainView.swift:614-617 | ending the stream of a reply that is not streaming changes nothing |
| ChatScreen.StopThenCancel | DeepFate/Views/MainView.swift:624-628 | the cancellation that follows a stop leaves the stopped screen, half reply included, as it is |
| ChatScreen.RetryEditGuards | DeepFate/Views/MainView.swift:510-511 | a retry or an edit of a reply, or while sending, changes nothing |
| ChatScreen.EditMessageEffect | DeepFate/Views/MainView.swift:543-557 | an edit empties only that question's bubble, copies its text to the input and its former text to the pending prompt and focuses the input; the first reply after it becomes the target, with no reply the target is unchanged, and every other chat and field is kept |
| ChatScreen.ChatBeforeStrict | DeepFate/Views/MainView.swift:833-840 | the drawer's comparator is a strict order |
| ChatScreen.SortedChatsOrder | DeepFate/Views/MainView.swift:832-841 | the drawer lists every chat as often as it is there, pinned ones first, and within each group the most recently active first |
| ChatScreen.TogglePinned | DeepFate/Views/MainView.swift:843-847 | toggling keeps the number of chats |
| ChatScreen.ToggleEffect | DeepFate/Views/MainView.swift:843-847 | the first chat with the id flips its pin and nothing else changes; an id no chat has changes nothing |
| ChatScreen.ToggleTwice | DeepFate/Views/MainView.swift:843-847 | toggling the same chat twice leaves the chats as they were |
| ChatScreen.Renamed | DeepFate/Views/MainView.swift:849-856 | renaming keeps the number of chats |
| ChatScreen.Retitled | DeepFate/Views/MainView.swift:852-854 | retitling keeps the number of chats |
| ChatScreen.RenameEffect | DeepFate/Views/MainView.swift:849-856 | a blank name changes nothing; any other sets exactly the named chat's title to the trimmed name |
| ChatScreen.DeleteEffect | DeepFate/Views/MainView.swift:858-863 | deleting never leaves the list empty, removes the chat, keeps all the others, and adds only the default session |
| ChatScreen.MainView.constructor | DeepFate/Views/MainView.swift:5-6 | a fresh screen holds the default session and shows it |
| ChatScreen.MainView.AppendMessage | DeepFate/Views/MainView.swift:644-647 | the state becomes `Append` of the old state |
| ChatScreen.MainView.RemoveMessage | DeepFate/Views/MainView.swift:649-652 | the state becomes `Remove` of the old state |
| ChatScreen.MainView.EditMessageById | DeepFate/Views/MainView.swift:524-535 | the state becomes `EditById` of the old state |
| ChatScreen.MainView.SendChat | DeepFate/Views/MainView.swift:576-593 | the state becomes `SendChatState`, and the request carries the new state's history |
| ChatScreen.MainView.StartSending | DeepFate/Views/MainView.swift:587-590 | the screen is sending and tracks the reply and the question from an empty text |
| ChatScreen.MainView.SendUserMessage | DeepFate/Views/MainView.swift:489-507 | the state becomes `SendUserMessageState`; a request is made exactly when the guard passes, and a title is asked for, with the shown text, exactly when the chat still needs one |
| ChatScreen.MainView.SendQuestion | DeepFate/Views/MainView.swift:493-506 | past the guard, the state becomes `QuestionSent`, with the request and title request as above |
| ChatScreen.MainView.StampChat | DeepFate/Views/MainView.swift:501-503 | the shown chat's last message date is set |
| ChatScreen.MainView.UpdateTitleIfNeeded | DeepFate/Views/MainView.swift:654-659 | a title is asked for exactly when the chat exists, is still untitled and holds exactly one user message |
| ChatScreen.MainView.ApplyFetchedTitle | DeepFate/Views/MainView.swift:659-670 | a non-empty fetched title is set; anything else resets the default title |
| ChatScreen.MainView.OnDelta | DeepFate/Views/MainView.swift:596-605 | the state becomes `OnDeltaState` |
| ChatScreen.MainView.OnComplete | DeepFate/Views/MainView.swift:605-641 | the state becomes `OnCompleteState`: sending ends, tracking is cleared for the tracked reply, the reply stops streaming; then success, cancellation or the failure path |
| ChatScreen.MainView.EndReplyOf | DeepFate/Views/MainView.swift:607-617 | the common start of every completion |
| ChatScreen.MainView.FailurePath | DeepFate/Views/MainView.swift:629-638 | the reply removed, the question kept retryable, the failure shown once |
| ChatScreen.MainView.KeepQuestionOf | DeepFate/Views/MainView.swift:630-635 | the state becomes `KeepQuestion` |
| ChatScreen.MainView.ShowFailureOnce | DeepFate/Views/MainView.swift:636-638 | the state becomes `ShowFailure` |
| ChatScreen.MainView.StopSending | DeepFate/Views/MainView.swift:520-541 | the state becomes `StopSendingState` |
| ChatScreen.MainView.StopTracking | DeepFate/Views/MainView.swift:536-540 | nothing is tracked any more |
| ChatScreen.MainView.ForgetReply | DeepFate/Views/MainView.swift:608-613 | the reply and the question are no longer tracked and the running request is dropped |
| ChatScreen.MainView.RetryMessage | DeepFate/Views/MainView.swift:509-518 | the state becomes `RetryState`; a request is made exactly for a user's message while not sending |
| ChatScreen.MainView.EditMessage | DeepFate/Views/MainView.swift:543-558 | the state becomes `EditMessageState` |
| ChatScreen.MainView.LoadForEdit | DeepFate/Views/MainView.swift:550-556 | the input, the focus, the pending prompt and the regeneration target an edit sets up |
| ChatScreen.MainView.TogglePin | DeepFate/Views/MainView.swift:843-847 | the chats become `TogglePinned` of the old chats |
| ChatScreen.MainView.BeginRename | DeepFate/Views/MainView.swift:701-702 | the rename dialog opens for the chat with its title, and nothing else changes |
| ChatScreen.MainView.RenameChat | DeepFate/Views/MainView.swift:849-856 | the chats become `Renamed`; the dialog closes only for a name that is not blank |
| ChatScreen.MainView.Retitle | DeepFate/Views/MainView.swift:852-854 | the chats become `Retitled` |
| ChatScreen.MainView.DeleteChat | DeepFate/Views/MainView.swift:858-863 | the chats become `Deleted`, and are never empty |
| ProfileStore.FirstId | DeepFate/Services/ProfileStore.swift:100 | the first profile's id names a profile of the list, and is absent exactly for an empty list |
| ProfileStore.ReplacedMeaning | DeepFate/Services/ProfileStore.swift:82-84 | an update keeps the length and every id in its place; it replaces one profile with the same id, and changes nothing for an absent id |
| ProfileStore.ChooseActiveMeaning | DeepFate/Services/ProfileStore.swift:143-149 | the preferred id if the remote list has it, else the previous active id if the list has that, else the first remote profile; the active id always names a remote profile, and is unset only for an empty list |
| ProfileStore.AddKeepsActive | DeepFate/Services/ProfileStore.swift:60-63 | adding keeps a valid active id valid, and so does the active id `add` sets |
| ProfileStore.UpdateKeepsActive | DeepFate/Services/ProfileStore.swift:82-84 | an update keeps a valid active id valid |
| ProfileStore.DeleteKeepsActive | DeepFate/Services/ProfileStore.swift:98-102 | a deletion keeps a valid active id valid; an active id equal to the deleted id moves to the new first profile |
| ProfileStore.Store.constructor | DeepFate/Services/ProfileStore.swift:14-49 | the fetched profiles, or none when the fetch failed; a stored active id wins over the first profile |
| ProfileStore.Store.LoadProfiles | DeepFate/Services/ProfileStore.swift:152-169 | the list becomes the fetched list, or empty on a failed fetch; an unset active id becomes the first profile after a successful fetch |
| ProfileStore.Store.RestoreActiveProfile | DeepFate/Services/ProfileStore.swift:171-176 | a stored id that parses replaces the active id; the list is unchanged |
| ProfileStore.Store.Add | DeepFate/Services/ProfileStore.swift:51-65 | the profile goes first, the others keep their order; it becomes active only when none was; a valid active id stays valid |
| ProfileStore.Store.Update | DeepFate/Services/ProfileStore.swift:67-86 | the list becomes `Replaced`; the active id stays and stays valid |
| ProfileStore.Store.Delete | DeepFate/Services/ProfileStore.swift:88-104 | every profile with the id goes; an active one is replaced by the first profile left, or unset; a valid active id stays valid |
| ProfileStore.Store.SetActive | DeepFate/Services/ProfileStore.swift:110-119 | the active id is set as given; the list is unchanged |
| ProfileStore.Store.SyncFromRemote | DeepFate/Services/ProfileStore.swift:121-150 | the list becomes exactly the remote list, and the active id is the sync choice, so it is unset or names a listed profile |
| ProfileModels.GenderFromRaw | DeepFate/Models/ProfileModels.swift:10-16 | a gender read from a string has that string as its raw value |
| ProfileModels.GenderRawRoundTrip | DeepFate/Models/ProfileModels.swift:10-16 | every gender is read back from its raw value |
| ProfileModels.Validate | DeepFate/Models/ProfileModels.swift:210-224 | no message exactly when the year is within 1900 to 2100, the month within 1 to 12, the day within 1 to 31 and the hour within 0 to 23; otherwise the message of the first failing field, in the order year, month, day, hour |
| ProfileModels.YearRangeMatchesValidate | DeepFate/Models/ProfileModels.swift:163 | the year pickers' range holds exactly the years `validate` accepts |
| ProfileModels.Day31Accepted | DeepFate/Models/ProfileModels.swift:217 | day 31 passes for every month, whatever its length |
| ProfileModels.PaddedField | DeepFate/Models/ProfileModels.swift:319 | `%0wd` of a value below 10^w has exactly w digits, which read back as the value |
| ProfileModels.Layout | DeepFate/Models/ProfileModels.swift:319 | the five fields joined by "-", "-", " " and ":" sit at fixed positions of a 16-character string |
| ProfileModels.FormatDateShape | DeepFate/Models/ProfileModels.swift:313-320 | a date whose fields fit their widths renders as 16 characters with the separators in place, and each field reads back as its value, a missing one as 0 |
| ProfileModels.SafeAt | DeepFate/Models/ProfileModels.swift:322-326 | an element exactly when the index is in bounds, and then the element at that index |
| Auth.UpsertEffect | DeepFate/Services/AuthViewModel.swift:348-365 | a known id keeps its place and avatar and takes the new phone and nickname, every other account unchanged; a new id goes to the front; either way the id is then saved |
| Auth.UpsertKeepsUnique | DeepFate/Services/AuthViewModel.swift:348-365 | upserting keeps the saved ids unique |
| Auth.Session.constructor | DeepFate/Services/AuthViewModel.swift:23-33 | the saved accounts, signed out; a stored id becomes the user id, and its account's nickname the display name |
| Auth.Session.SelectAccount | DeepFate/Services/AuthViewModel.swift:80-86 | signed in as the account, with its id and nickname; the saved accounts unchanged |
| Auth.Session.ApplyAuthenticatedUser | DeepFate/Services/AuthViewModel.swift:178-185 | signed in as the user, whose account is upserted; unique ids stay unique |
| Auth.Session.UpsertAccount | DeepFate/Services/AuthViewModel.swift:348-365 | the accounts become `Upserted`; unique ids stay unique; the session fields unchanged |
| Auth.Session.DeleteAccount | DeepFate/Services/AuthViewModel.swift:88-106 | every account with the id goes; deleting the signed-in account clears the session, any other leaves it |
| Auth.Session.UpdateAvatar | DeepFate/Services/AuthViewModel.swift:108-127 | nothing for an unknown id; otherwise that account's avatar path becomes the saved path, or none for nil data, its inline data is dropped, and the signed-in account's nickname is shown |
| Auth.Session.SignOut | DeepFate/Services/AuthViewModel.swift:129-137 | every session field back to empty, the saved accounts kept |
| Auth.ParseDefaults | DeepFate/Services/AuthViewModel.swift:262-319 | longitude 120, latitude 0, Asia/Shanghai and "manual" stand in for missing values; structured fields, when any has text, are taken trimmed; otherwise the names come from the free text |
| Auth.FreeTextMeaning | DeepFate/Services/AuthViewModel.swift:287-318 | the free-text names are the first three pieces between separators, none holding a separator, with an empty detail; "未知" is the province exactly when there are no pieces |
| Auth.NamesOfPiecesMeaning | DeepFate/Services/AuthViewModel.swift:290-318 | pieces without separators are read as province, city and district in order, missing ones empty, "未知" for no pieces |
| Auth.FreeTextJoined | DeepFate/Services/AuthViewModel.swift:287-318 | province, city and district written with single spaces between them are read back as those three names |
| Auth.JoinThree | DeepFate/Services/AuthViewModel.swift:288 | three parts joined by a space read as the parts with a space between each |
| Auth.NonEmptyThree | DeepFate/Services/AuthViewModel.swift:288 | splitting keeps three non-empty parts |
| Auth.MapGender | DeepFate/Services/AuthViewModel.swift:321-326 | the gender whose raw value the text is, or `.other` for a missing or unknown value |
| Auth.MapGenderRoundTrip | DeepFate/Services/AuthViewModel.swift:321-326 | every gender is mapped back from its raw value |
| Divination.Heads | DeepFate/Views/OneThingDivinationView.swift:801 | the heads of a toss are at most its coins |
| Divination.CoinSumByHeads | DeepFate/Views/OneThingDivinationView.swift:801-802 | three per head and two per tail is the sum of the coins' values, coin by coin |
| Divination.LinePreview | DeepFate/Views/OneThingDivinationView.swift:797-815 | "待摇" for a missing toss or one without three coins; otherwise the line type of its number of heads, never "待摇", shown solid exactly for an odd sum |
| Divination.ThreeCoinSum | DeepFate/Views/OneThingDivinationView.swift:802-814 | a three-coin sum lies in 6 to 9, so the `default` branch is never taken, and it picks the line type of the table |
| Divination.NumbersAvoid | DeepFate/Views/OneThingDivinationView.swift:819 | no number's text holds the separator "、" |
| Divination.JoinedNumbers | DeepFate/Views/OneThingDivinationView.swift:819 | numbers joined by "、" split back into the same texts, and never begin like "无" |
| Divination.MovingLinesMeaning | DeepFate/Views/OneThingDivinationView.swift:817-820 | "无" exactly for no lines; otherwise split at "、" the text gives back the lines, ascending, each as often as given |
| Divination.LineName | DeepFate/Views/OneThingDivinationView.swift:822-832 | 初爻 to 上爻 for lines 1 to 6, else the number followed by 爻 |
| Divination.LineNameInjective | DeepFate/Views/OneThingDivinationView.swift:822-832 | distinct lines have distinct names |
| Divination.Question | DeepFate/Views/OneThingDivinationView.swift:606-607 | no question exactly for a blank input; otherwise the trimmed input, not empty |
| Divination.BeginCastingEffect | DeepFate/Views/OneThingDivinationView.swift:605-616 | a blank question changes nothing; any other becomes the active question with no tosses, no result, no error and a fresh start time; validity is kept |
| Divination.ShakeEffect | DeepFate/Views/OneThingDivinationView.swift:618-628 | a shake is let through exactly under the guard and leaves the tosses alone; validity is kept |
| Divination.LandEffect | DeepFate/Views/OneThingDivinationView.swift:630-642 | a landing appends exactly one toss of the three faces drawn, submits exactly at the sixth, and keeps the state valid |
| Divination.StepEffect | DeepFate/Views/OneThingDivinationView.swift:618-642 | a shake the guard allows, once landed, appends the next toss |
| Divination.CastSteps | DeepFate/Views/OneThingDivinationView.swift:618-642 | n shakes from an empty cast give n tosses in landing order, all allowed by the guard, submitting only at six |
| Divination.CastSix | DeepFate/Views/OneThingDivinationView.swift:618-642 | six shakes from an empty cast fill it in landing order and start the submission |
| Divination.TossesAppended | DeepFate/Views/OneThingDivinationView.swift:632 | appending the next toss keeps every earlier toss in its place |
| Divination.CastingSession.constructor | DeepFate/Views/OneThingDivinationView.swift:9-29 | the screen's first state, which is valid |
| Divination.CastingSession.EditQuestion | DeepFate/Views/OneThingDivinationView.swift:11 | only the typed question changes |
| Divination.CastingSession.BeginCasting | DeepFate/Views/OneThingDivinationView.swift:605-616 | the state becomes `BeginCastingState` |
| Divination.CastingSession.Activate | DeepFate/Views/OneThingDivinationView.swift:608-615 | the state becomes `Activated` |
| Divination.CastingSession.ShakeOnce | DeepFate/Views/OneThingDivinationView.swift:618-629 | the state becomes `ShakeState`; the coins are thrown exactly under the guard |
| Divination.CastingSession.LandCoins | DeepFate/Views/OneThingDivinationView.swift:630-642 | the state becomes `LandState`; the submission starts exactly at the sixth toss |
| Divination.CastingSession.FinishSubmit | DeepFate/Views/OneThingDivinationView.swift:645-668 | the state becomes `FinishState`: a result, or the error text, and no longer submitting |
| Divination.CastingSession.StartNewDivination | DeepFate/Views/OneThingDivinationView.swift:744-755 | the state becomes `StartNewState` |
| BaZi.StemElements | DeepFate/Models/BaZiModel.swift:21-29 | the ten stems go two by two to wood, fire, earth, metal and water |
| BaZi.BranchTable | DeepFate/Models/BaZiModel.swift:25-26 | each of the twelve branches has its listed element |
| BaZi.KnownExactly | DeepFate/Models/BaZiModel.swift:21-29 | an element is found exactly for a stem or a branch |
| BaZi.EarthBranches | DeepFate/Models/BaZiModel.swift:25 | the earth branches are exactly 辰, 戌, 丑 and 未 |
| BaZi.Pillars | DeepFate/Models/BaZiModel.swift:94-95 | four pillars, one per title, year to hour |
| BaZi.ReadGanZhi | DeepFate/Models/BaZiModel.swift:111-115 | a value of at least two characters gives its first as the stem and its last as the branch; a shorter one keeps the pillar as it was |
| BaZi.FromPlainText | DeepFate/Models/BaZiModel.swift:98-151 | a chart always comes back, built from every newline-separated line read in order |
| BaZi.ReadLinesStep | DeepFate/Models/BaZiModel.swift:105-127 | reading one more line is one more step of the loop |
| BaZi.ReadOne | DeepFate/Models/BaZiModel.swift:105-106 | one loop step on the line trimmed of spaces |
| BaZi.ReadTrimmed | DeepFate/Models/BaZiModel.swift:107-126 | the tags tried in order on the trimmed line |
| BaZi.BuildShape | DeepFate/Models/BaZiModel.swift:129-150 | the four pillars in title order carry only stem and branch, the day pillar also the na-yin; no relational or optional field but the gender is set |
| BaZi.OtherHead | DeepFate/Models/BaZiModel.swift:107-126 | a line that starts with one tag does not start with a tag of another first character |
| BaZi.TagHeads | DeepFate/Models/BaZiModel.swift:107-126 | the tags' first characters are 公 真 农 年 月 日 时 日 性, the two 日 tags differing at the third |
| BaZi.ReadYear | DeepFate/Models/BaZiModel.swift:110-115 | a 年柱： line sets the year pillar from its trimmed rest and nothing else |
| BaZi.ReadMonth | DeepFate/Models/BaZiModel.swift:116-118 | a 月柱： line sets the month pillar and nothing else |
| BaZi.ReadDay | DeepFate/Models/BaZiModel.swift:119-121 | a 日柱： line sets the day pillar and nothing else |
| BaZi.ReadHour | DeepFate/Models/BaZiModel.swift:122-124 | a 时柱： line sets the hour pillar and nothing else |
| BaZi.ReadTrueSolar | DeepFate/Models/BaZiModel.swift:108 | a 真太阳时 line is kept whole, trimmed of spaces |
| BaZi.ReadLabels | DeepFate/Models/BaZiModel.swift:107-126 | the 公历：, 农历：, 日柱纳音： and 性别： lines store only their trimmed rest |
| BaZi.NaYinNotDay | DeepFate/Models/BaZiModel.swift:119-125 | a 日柱纳音： line is never taken for the day pillar |
| BaZi.ReadOther | DeepFate/Models/BaZiModel.swift:105-127 | a line that starts with no tag changes nothing |
| Markdown.LeadingHashes | DeepFate/Components/ChatBubbleView.swift:122 | the run of '#' a text opens with: all hashes, and followed by no further one |
| Markdown.LeadingHashesAt | DeepFate/Components/ChatBubbleView.swift:122-123 | a run of hashes followed by another character, or by the end, is the count |
| Markdown.NormalizeLineCases | DeepFate/Components/ChatBubbleView.swift:120-127 | a line is unchanged unless its trimmed text opens with hashes followed by text that is not a space; then it becomes the hashes, one space and that text |
| Markdown.TrimContained | DeepFate/Components/ChatBubbleView.swift:120 | every character of the trimmed line is in the line |
| Markdown.NormalizeKeepsOut | DeepFate/Components/ChatBubbleView.swift:119-128 | normalising adds only a space, so a line without line feeds gains none |
| Markdown.SpacedKeepsOut | DeepFate/Components/ChatBubbleView.swift:127 | a spaced heading holds no character, other than a space, that the line did not |
| Markdown.SpacedSettled | DeepFate/Components/ChatBubbleView.swift:127 | a spaced heading is already trimmed and has a space after its hashes |
| Markdown.NormalizeLineIdempotent | DeepFate/Components/ChatBubbleView.swift:119-128 | a second pass leaves a normalised line alone |
| Markdown.PreprocessLines | DeepFate/Components/ChatBubbleView.swift:117-130 | split at line feeds, the result is the normalised lines of the input |
| Markdown.PreprocessLineCount | DeepFate/Components/ChatBubbleView.swift:117-130 | the number of lines is kept |
| Markdown.PreprocessKeepsPlainLines | DeepFate/Components/ChatBubbleView.swift:121 | a line whose trimmed text does not open with '#' comes out unchanged, in its place |
| Markdown.NormalizeAllIdempotent | DeepFate/Components/ChatBubbleView.swift:119-129 | normalising every line a second time changes none of them |
| Markdown.PreprocessIdempotent | DeepFate/Components/ChatBubbleView.swift:117-130 | preprocessing twice is preprocessing once |
| FortuneChart.FindFrom | DeepFate/Views/FortuneChartView.swift:533 | the first position from the start point where the pattern occurs, or none exactly when it occurs nowhere after it |
| FortuneChart.DashUnchanged | DeepFate/Views/FortuneChartView.swift:532 | the dash is shown as it is |
| FortuneChart.NoMarkerUnchanged | DeepFate/Views/FortuneChartView.swift:533-540 | an item without ") " is shown as it is |
| FortuneChart.BlankTailUnchanged | DeepFate/Views/FortuneChartView.swift:533-540 | an item whose text after the first ") " is blank is shown as it is |
| FortuneChart.DaYunSplit | DeepFate/Views/FortuneChartView.swift:531-541 | any other item with a first ") " is shown as its trimmed head, ending with the parenthesis, a line feed and its trimmed tail |
| FortuneChart.HeadEndsParen | DeepFate/Views/FortuneChartView.swift:534 | the trimmed head up to ") " ends with the parenthesis |
| FortuneChart.DaYunChanged | DeepFate/Views/FortuneChartView.swift:531-541 | only an item of the `DaYunSplit` kind is changed |
| FortuneChart.FirstMatch | DeepFate/Views/FortuneChartView.swift:533 | the search from the start finds the first occurrence |
| FortuneChart.TrimBeforeSpace | DeepFate/Views/FortuneChartView.swift:534 | trimming text that ends with a character and a space leaves it ending with that character |
| FortuneChart.Shown | DeepFate/Views/FortuneChartView.swift:498 | never empty, and the items themselves when there are any |
| FortuneChart.PairsFlatten | DeepFate/Views/FortuneChartView.swift:499-501 | the slices read in order are the sequence |
| FortuneChart.PairsShort | DeepFate/Views/FortuneChartView.swift:499-501 | one or two elements make a single slice |
| FortuneChart.PairsLast | DeepFate/Views/FortuneChartView.swift:499-501 | the slices up to the last pair are those of the sequence before it |
| FortuneChart.ColumnRowsShape | DeepFate/Views/FortuneChartView.swift:497-501 | the rows read in order are the shown items; every row but the last holds two, the last one or two; there are ⌈n/2⌉ rows and at least one |
| FortuneChart.NoItemsShowDash | DeepFate/Views/FortuneChartView.swift:498-501 | no items show a single row holding the dash |
| FortuneChart.ColumnCells | DeepFate/Views/FortuneChartView.swift:509-522 | row k shows items 2k and 2k+1, the right cell falling back to the dash exactly when there is no item 2k+1 |
| FortuneChart.RowCellsMeaning | DeepFate/Views/FortuneChartView.swift:289-298 | one cell per title, none empty; a cell is a placeholder exactly when its field is missing, empty or the dash, and otherwise it is the field |
| DrawResult.Chunks | DeepFate/Views/DrawResultView.swift:189-203 | the rows read in order are the tags; every row but the last holds three, the last one to three; there are ⌈n/3⌉ rows |
| DailyDraw.Wrap | DeepFate/Views/OneThingDrawView.swift:308 | a value of Swift's 64-bit `Int` with the same low 64 bits as the exact result |
| DailyDraw.HashOf | DeepFate/Views/OneThingDrawView.swift:306-309 | the hash of a key stays a 64-bit `Int` |
| DailyDraw.Hash | DeepFate/Views/OneThingDrawView.swift:305-309 | the loop computes the hash of the key, one wrapped round per Unicode scalar |
| DailyDraw.Choose | DeepFate/Views/OneThingDrawView.swift:310 | a trap exactly for the least `Int`, whose `abs` overflows; otherwise the sigil exactly for an even hash |
| DailyDraw.WrapParity | DeepFate/Views/OneThingDrawView.swift:308 | wrapping to 64 bits keeps the parity |
| DailyDraw.SumParity | DeepFate/Views/OneThingDrawView.swift:308 | the parity of a sum is the sum of the parities |
| DailyDraw.WrapSumParity | DeepFate/Views/OneThingDrawView.swift:308 | a wrapped sum has the parity of the exact sum |
| DailyDraw.WrapShiftEven | DeepFate/Views/OneThingDrawView.swift:308 | a shift left by five, wrapped, is even |
| DailyDraw.MixParity | DeepFate/Views/OneThingDrawView.swift:308 | one round keeps the parity of the hash plus the scalar |
| DailyDraw.HashParity | DeepFate/Views/OneThingDrawView.swift:306-309 | the hash's parity is that of 5381 plus the key's scalar sum |
| DailyDraw.RitualBySum | DeepFate/Views/OneThingDrawView.swift:300-310 | the sigil for a key whose scalar sum is odd, the face for an even one, except the trapping least `Int` |
| DailyDraw.StrokePointsInk | DeepFate/Views/OneThingDrawView.swift:189 | the summed stroke lengths are the number of points of ink |
| DailyDraw.HasDrawnMeaning | DeepFate/Views/OneThingDrawView.swift:188-191 | drawn exactly when more than 12 points of ink are on the canvas |
| DailyDraw.DraggedEffect | DeepFate/Views/OneThingDrawView.swift:493-499 | a drag change adds its point at the end of the ink, in an open stroke, and keeps the finished strokes |
| DailyDraw.ReleasedEffect | DeepFate/Views/OneThingDrawView.swift:500-505 | a drag end keeps the ink, leaves no open stroke and never finishes an empty one |
| DailyDraw.ReplayInk | DeepFate/Views/OneThingDrawView.swift:493-505 | any run of gestures adds exactly its drag points, in order, to the ink |
| DailyDraw.DrawnAfterThirteen | DeepFate/Views/OneThingDrawView.swift:188-191 | thirteen drag changes on a blank canvas, with any drag ends between them, count as drawn |
| DailyDraw.DrawScreen.constructor | DeepFate/Views/OneThingDrawView.swift:24-33 | the sigil on a blank canvas |
| DailyDraw.DrawScreen.HasDrawnNow | DeepFate/Views/OneThingDrawView.swift:188-191 | more than 12 points of ink are on the canvas |
| DailyDraw.DrawScreen.ResolveRitual | DeepFate/Views/OneThingDrawView.swift:300-313 | the ritual of the day's key, and a blank canvas; nothing changes where `abs` traps |
| DailyDraw.DrawScreen.DragChanged | DeepFate/Views/OneThingDrawView.swift:493-499 | the canvas becomes `Dragged`; the ritual stays |
| DailyDraw.DrawScreen.DragEnded | DeepFate/Views/OneThingDrawView.swift:500-505 | the canvas becomes `Released`; the ritual stays |
| DailyDraw.DrawScreen.Redraw | DeepFate/Views/OneThingDrawView.swift:151-154 | the canvas is blank again; the ritual stays |
| FaceRitual.Raw | DeepFate/Views/FaceRitualCaptureView.swift:15-19 | a step's raw value is below the number of steps |
| FaceRitual.StepAt | DeepFate/Views/FaceRitualCaptureView.swift:15-19 | the step with that raw value |
| FaceRitual.Trues | DeepFate/Views/FaceRitualCaptureView.swift:901 | the number of flags set is at most the number of flags |
| FaceRitual.StepDone | DeepFate/Views/FaceRitualCaptureView.swift:858-860 | a step is done exactly when its index is within the flags and its flag is set |
| FaceRitual.TruesSet | DeepFate/Views/FaceRitualCaptureView.swift:899-901 | setting a flag that was clear adds one to the count |
| FaceRitual.CountIsFlags | DeepFate/Views/FaceRitualCaptureView.swift:901 | in a valid detector the completed count is the number of flags set, at most three |
| FaceRitual.ResetValid | DeepFate/Views/FaceRitualCaptureView.swift:852-856 | a reset is valid, flags nothing, and leaves the running state alone |
| FaceRitual.ConsumedValid | DeepFate/Views/FaceRitualCaptureView.swift:874-902 | a consumed frame keeps the detector valid |
| FaceRitual.ConsumedOrder | DeepFate/Views/FaceRitualCaptureView.swift:874-902 | a frame changes nothing or completes exactly the current step, whose condition it meets, while running with a step left; a stopped or finished detector ignores frames |
| FaceRitual.DoneInOrder | DeepFate/Views/FaceRitualCaptureView.swift:874-902 | a step is done only after every step before it |
| FaceRitual.MarkedOnce | DeepFate/Views/FaceRitualCaptureView.swift:896-902 | marking a step a second time changes nothing |
| FaceRitual.PhaseGuards | DeepFate/Views/FaceRitualCaptureView.swift:530-566 | each phase-guarded transition leaves any other phase untouched, and moves its own phase on |
| FaceRitual.ResetToReadyEffect | DeepFate/Views/FaceRitualCaptureView.swift:579-586 | a reset gives the ready phase, no crack, the full minute, no timer, a stopped detector with no step done, and an enabled button |
| FaceRitual.ActionDisabledMeaning | DeepFate/Views/FaceRitualCaptureView.swift:521-528 | the button is disabled exactly outside the ready phase |
| FaceRitual.TicksCountDown | DeepFate/Views/FaceRitualCaptureView.swift:592-597 | fewer ticks than the seconds left only count down |
| FaceRitual.TimesOut | DeepFate/Views/FaceRitualCaptureView.swift:592-601 | as many ticks as the seconds left raise the timeout, stop the timer and the detector, and leave zero seconds |
| FaceRitual.FrameEffect | DeepFate/Views/FaceRitualCaptureView.swift:92-96 | frames keep the detector valid, and recognition ends only in the activated phase with every step done and the timer stopped |
| FaceRitual.RitualDetector.constructor | DeepFate/Views/FaceRitualCaptureView.swift:793-803 | no step done, not running |
| FaceRitual.RitualDetector.Start | DeepFate/Views/FaceRitualCaptureView.swift:833-842 | the error exactly on an unsupported device; otherwise reset and running |
| FaceRitual.RitualDetector.Stop | DeepFate/Views/FaceRitualCaptureView.swift:845-849 | the detector is no longer running |
| FaceRitual.RitualDetector.ResetSteps | DeepFate/Views/FaceRitualCaptureView.swift:852-856 | back to the first step with no flag set |
| FaceRitual.RitualDetector.Consume | DeepFate/Views/FaceRitualCaptureView.swift:874-894 | the detector becomes `Consumed` |
| FaceRitual.RitualDetector.Mark | DeepFate/Views/FaceRitualCaptureView.swift:896-902 | the detector becomes `Marked` |
| FaceRitual.CountDone | DeepFate/Views/FaceRitualCaptureView.swift:901 | the loop counts the flags that are set |
| FaceRitual.CaptureScreen.constructor | DeepFate/Views/FaceRitualCaptureView.swift:36-47 | the ready phase with the full minute and a fresh idle detector |
| FaceRitual.CaptureScreen.BeginFlow | DeepFate/Views/FaceRitualCaptureView.swift:530-536 | the screen becomes `BeginFlowState` |
| FaceRitual.CaptureScreen.CameraAnswered | DeepFate/Views/FaceRitualCaptureView.swift:537-554 | the screen becomes `CameraAnsweredState` |
| FaceRitual.CaptureScreen.StartTimer | DeepFate/Views/FaceRitualCaptureView.swift:588-591 | the timer runs from the full minute |
| FaceRitual.CaptureScreen.RecognitionFinished | DeepFate/Views/FaceRitualCaptureView.swift:557-562 | the screen becomes `RecognitionFinishedState` |
| FaceRitual.CaptureScreen.FrameArrived | DeepFate/Views/FaceRitualCaptureView.swift:92-96 | the screen becomes `FrameState` |
| FaceRitual.CaptureScreen.OpenSealedStick | DeepFate/Views/FaceRitualCaptureView.swift:564-571 | the screen becomes `OpenSealedStickState` |
| FaceRitual.CaptureScreen.ResetToReady | DeepFate/Views/FaceRitualCaptureView.swift:578-586 | the screen becomes `ResetToReadyState` |
| FaceRitual.CaptureScreen.Tick | DeepFate/Views/FaceRitualCaptureView.swift:594-601 | the screen becomes `TickState` |
| ProfileWizard.DefaultsWellformed | DeepFate/Models/ProfileModels.swift:172-208 | the built-in location tree, which stands in for an empty loaded list, has an entry at every level |
| ProfileWizard.Fallback | DeepFate/Views/CreateProfileSheet.swift:68-78 | the entry at the index, else the first entry; a trap exactly for an empty list |
| ProfileWizard.SelectedMeaning | DeepFate/Views/CreateProfileSheet.swift:68-78 | on a well-formed tree the selected province, city and district never trap: each is the entry at its index, or that level's first entry for an index out of range |
| ProfileWizard.ClampMeaning | DeepFate/Views/CreateProfileSheet.swift:396-406 | the clamp keeps an index in range and moves one past the end to the last |
| ProfileWizard.LocationViewsAgree | DeepFate/Views/CreateProfileSheet.swift:396-410 | within bounds the location step lists the districts of the selected city, and the sheet's selected district is the one at the index |
| ProfileWizard.PicksStayInBounds | DeepFate/Views/CreateProfileSheet.swift:146-152 | picking a listed entry at any level keeps the selection in bounds; a new province resets city and district, a new city the district |
| ProfileWizard.InitialSelectionMeaning | DeepFate/Views/CreateProfileSheet.swift:41-54 | the first selection is in bounds; a level whose name is found points at its first entry of that name, a level not found stays at 0 with the levels below it |
| ProfileWizard.InitialSelectionFound | DeepFate/Views/CreateProfileSheet.swift:41-54 | when all three names are found the sheet shows the saved province, city and district |
| ProfileWizard.CanProceedMeaning | DeepFate/Views/CreateProfileSheet.swift:160-169 | only the first step can be held back, and only by a name of white space alone |
| ProfileWizard.PrimaryMeaning | DeepFate/Views/CreateProfileSheet.swift:171-212 | the first step always moves on; the birth step moves on with the converted birth info exactly when the input validates and converts, else stays with an error; the last step stays; name, selection and gender unchanged |
| ProfileWizard.SavedProfileMeaning | DeepFate/Views/CreateProfileSheet.swift:188-210 | the last step with birth info and true solar time saves: the edited profile's id and creation time or a new id and now, the trimmed name, the birth data, and the selected district |
| ProfileWizard.BackMeaning | DeepFate/Views/CreateProfileSheet.swift:128-132 | back is absent on the first step, goes one step back with the error cleared, and undoes a forward move |
| ProfileWizard.ProfileSheet.constructor | DeepFate/Views/CreateProfileSheet.swift:20-62 | an edit starts from the saved profile, anything else from blank fields and today's input |
| ProfileWizard.ProfileSheet.EditName | DeepFate/Views/CreateProfileSheet.swift:9 | only the name changes |
| ProfileWizard.ProfileSheet.EditBirthInput | DeepFate/Views/CreateProfileSheet.swift:11 | only the birth input changes |
| ProfileWizard.ProfileSheet.SelectProvince | DeepFate/Views/CreateProfileSheet.swift:146-149 | the selection becomes `PickProvince` |
| ProfileWizard.ProfileSheet.SelectCity | DeepFate/Views/CreateProfileSheet.swift:150-152 | the selection becomes `PickCity` |
| ProfileWizard.ProfileSheet.SelectDistrict | DeepFate/Views/CreateProfileSheet.swift:15 | the selection becomes `PickDistrict` |
| ProfileWizard.ProfileSheet.Back | DeepFate/Views/CreateProfileSheet.swift:128-132 | the sheet becomes `BackState` |
| ProfileWizard.ProfileSheet.PrimaryAction | DeepFate/Views/CreateProfileSheet.swift:171-212 | the sheet becomes `PrimaryState`, and the outcome is `PrimaryOutcome` |
| ProfileWizard.ProfileSheet.Save | DeepFate/Views/CreateProfileSheet.swift:194-209 | the outcome is the `Handover` of the selected place |
| XiuXin.TriggeredCounts | DeepFate/Views/XiuXinView.swift:135-136 | a trigger counts one more for its element, an absent count as zero, leaves the others, and adds one to the total merit |
| XiuXin.IndexOfNew | DeepFate/Views/XiuXinView.swift:139-146 | a badge with a fresh id is found at the end, where it was appended |
| XiuXin.TriggeredLabel | DeepFate/Views/XiuXinView.swift:134-143 | a trigger appends exactly one badge, the element's text and "+1", already fading, and keeps the badges numbered |
| XiuXin.StaleWaitIgnored | DeepFate/Views/XiuXinView.swift:156-164 | every trigger hides the summary and issues a newer token, so a wait started earlier never fires |
| XiuXin.SummaryFiredMeaning | DeepFate/Views/XiuXinView.swift:164-169 | the current wait moves the counts to the summary, empties them, loses no merit and shows the summary |
| XiuXin.TapsCount | DeepFate/Views/XiuXinView.swift:121-143 | a run of taps counts each element as often as it was tapped |
| XiuXin.SummaryAfterTaps | DeepFate/Views/XiuXinView.swift:121-169 | after a run of taps from the first screen, the last wait's summary holds each element's number of taps |
| XiuXin.MeritScreen.constructor | DeepFate/Views/XiuXinView.swift:4-11 | the screen's first state |
| XiuXin.MeritScreen.Tap | DeepFate/Views/XiuXinView.swift:124-127 | the state becomes `Tapped`; the token returned is the current one |
| XiuXin.MeritScreen.TriggerEffect | DeepFate/Views/XiuXinView.swift:134-143 | the state becomes `Triggered`; the token returned is the current one |
| XiuXin.MeritScreen.AnimateFloatingEffect | DeepFate/Views/XiuXinView.swift:145-150 | the first badge with the id starts fading |
| XiuXin.MeritScreen.RemoveEffect | DeepFate/Views/XiuXinView.swift:151-153 | the state becomes `EffectExpired` |
| XiuXin.MeritScreen.ScheduleSummary | DeepFate/Views/XiuXinView.swift:156-160 | the state becomes `Scheduled`; the token returned is the new one |
| XiuXin.MeritScreen.SummaryDue | DeepFate/Views/XiuXinView.swift:161-169 | the state becomes `SummaryFired` for the token |
| XiuXin.MeritScreen.SummaryHidden | DeepFate/Views/XiuXinView.swift:170-174 | only the summary hides |
| Avatar.PaletteIndex | DeepFate/Views/ProfilePickerSheet.swift:88-89 | the colour index is within the palette |
| Avatar.AvatarTextMeaning | DeepFate/Views/ProfilePickerSheet.swift:81-84 | a blank name shows 档; any other shows its first character that is not white space, alone |
| Avatar.AvatarColourMeaning | DeepFate/Views/ProfilePickerSheet.swift:86-90 | the colour is the palette entry at the scalar sum modulo six, never gray |
| Avatar.ColourIgnoresOrder | DeepFate/Views/ProfilePickerSheet.swift:88-89 | names with the same letters in any order have the same colour |
| Avatar.ColourOfPadded | DeepFate/Views/ProfilePickerSheet.swift:88-89 | the colour of a padded name is decided by the scalar sums of the padding and the name together |
| ConsultRouter.ChartPromptMeaning | DeepFate/Services/ConsultRouter.swift:10-14 | the chart prompt is the fixed request followed by the chart text, unchanged |
| ConsultRouter.BaziSectionMeaning | DeepFate/Services/ConsultRouter.swift:27-32 | the chart block is empty exactly for a missing or blank chart text, and otherwise holds it verbatim |
| ConsultRouter.MovingLinesSummaryMeaning | DeepFate/Services/ConsultRouter.swift:67-69 | "无动爻" exactly when no line moves; otherwise, split at "、", each line's number in the order given |
| ConsultRouter.OneLineConcat | DeepFate/Services/ConsultRouter.swift:71 | two texts joined hold no line feed exactly when neither does |
| ConsultRouter.RelativeLineOneLine | DeepFate/Services/ConsultRouter.swift:71 | a relative whose role, element and note are single lines gives a single line |
| ConsultRouter.RelativesBlockLines | DeepFate/Services/ConsultRouter.swift:70-72 | the six-relatives block, split at line feeds, is one line per relative in the reading's order |
| ConsultRouter.ContainsAround | DeepFate/Services/ConsultRouter.swift:33-46 | text around a block that holds a needle holds it too |
| ConsultRouter.ChartInPrompt | DeepFate/Services/ConsultRouter.swift:27-38 | a prompt built around the chart block holds the chart text when it is not blank, and is just its other parts otherwise |
| ConsultRouter.DrawPromptCarriesChart | DeepFate/Services/ConsultRouter.swift:16-49 | the draw prompt quotes the chart text when one is given, and leaves the block out otherwise |
| ConsultRouter.ReadingPromptCarriesChart | DeepFate/Services/ConsultRouter.swift:51-100 | the divination prompt quotes the chart text when one is given, and leaves the block out otherwise |
| ConsultRouter.Router.constructor | DeepFate/Services/ConsultRouter.swift:7-8 | no pending prompt and no tab switch |
| ConsultRouter.Router.AskWithChart | DeepFate/Services/ConsultRouter.swift:10-14 | the chart prompt is pending and the consult tab is asked for |
| ConsultRouter.Router.AskWithDraw | DeepFate/Services/ConsultRouter.swift:16-49 | the draw prompt is pending and the consult tab is asked for |
| ConsultRouter.Router.AskWithReading | DeepFate/Services/ConsultRouter.swift:51-100 | the divination prompt is pending and the consult tab is asked for |
| ConsultRouter.Router.ClearPendingChart | DeepFate/Services/ConsultRouter.swift:102-104 | the prompt is dropped; the tab request stays |
| LoginForms.PrimaryDisabledMeaning | DeepFate/Views/LoginView.swift:199-204 | signing in by password needs a phone and a password that are not blank, by code a phone that is not blank and a six-character code, once trimmed; the other mode's field plays no part |
| LoginForms.CanCreateAccountMeaning | DeepFate/Views/LoginView.swift:326-334 | exactly when the nickname is not blank, the trimmed password has at least six characters and matches the trimmed confirmation, and the phone in use is not blank, a handed-in phone winning over the typed one when it is not empty |
| LoginForms.CanSubmitMeaning | DeepFate/Views/LoginView.swift:440-445 | exactly when the phone is not blank, the code has six characters, and the password at least six and matches its confirmation, all once trimmed; the typed fields are then at least that long too |
| Archive.KeepMatchingMeaning | DeepFate/Views/ArchiveView.swift:90-98 | only matching profiles are kept, every matching one is, in the archive's order |
| Archive.FilteredProfilesMeaning | DeepFate/Views/ArchiveView.swift:85-99 | a blank search shows the archive unchanged; any other shows, in order, exactly the profiles whose name or place holds the trimmed keyword |
| Archive.NameMatches | DeepFate/Views/ArchiveView.swift:91-97 | a profile whose name holds the keyword matches it |
| Archive.ComparatorStrict | DeepFate/Views/ArchiveView.swift:101-108 | both orders are strict orders |
| Archive.SortedProfilesMeaning | DeepFate/Views/ArchiveView.swift:101-114 | either order keeps every profile as often as it was there; newest first puts no profile after a later-created one; earliest birth first puts none after an earlier-born one, and a date that cannot be built sorts as `distantPast` |
| Sorting.Insert | DeepFate/Views/MainView.swift:832-841 | insertion adds exactly the one element |
| Sorting.InsertSorted | DeepFate/Views/MainView.swift:832-841 | inserting into a sorted sequence keeps it sorted under a strict order |
| Sorting.Sort | DeepFate/Views/ArchiveView.swift:101-108 | the sort keeps every element as often as it was there |
| Sorting.SortSorted | DeepFate/Views/ArchiveView.swift:101-108 | the result is sorted under any strict order |

## Left out
- SwiftUI layout, animation, colours, gradients, drag offsets and the drawer's ratio clamp: these are presentation and floating-point, with no logic to state.
- Networking. The parts left out are URLSession and `bytes.lines`, the Spark websocket, the place-search clients, `ProfileSyncClient`'s upserts, `AuthViewModel.post`/`fetchProfiles` and the title request behind `updateTitleIfNeeded`. They are I/O, so a server answer or a stream's lines are given as values.
- Line splitting: whether Foundation delivers empty lines is not modelled, because the stream's lines are taken as given.
- Persistence: CoreData behind `ProfileStore`, UserDefaults and `@AppStorage`, avatar files, the location cache and the server's PostgreSQL handlers. Each store is its in-memory fields.
- Calendar and time-zone arithmetic: `daysInMonth`, `makeBirthInfo`, the true-solar-time computation, `compute_utc_offset_minutes`, the `DateFormatter` in `resolveRitual` and the `lunar_python` chart calls are foreign libraries. They enter as parameters: the success of `makeBirthInfo`, a date-building function, and the formatted day text.
- `location.fullDisplayText`: it is given to the prompts as the `place` parameter rather than modelled.
- Cryptography, meaning password hashing, signed URLs and map signatures: this is foreign code the core only calls.
- Randomness, meaning coin faces, rotation angles and the SMS code: these are inputs.
- Concurrency: Task cancellation, `DispatchQueue` hops and delays, the one-second timer task and the summary sleep are events applied in sequence. The delay inside `shakeOnce` becomes the two steps `ShakeOnce` and `LandCoins`. The delayed `dismiss()` and `onSuccess()` after `openSealedStick` are navigation and are not modelled. Interleavings other than those sequences are not modelled either.
- Platform services: ARKit, speech, Face ID, the pasteboard and haptics. The face tracker's jaw and yaw thresholds arrive as booleans saying whether the current step's condition is met.
- The server's prompt templates, `parse_draw_response`'s JSON decoding and the language model's output: they are string interpolation and a foreign decoder, with no behaviour beyond that.
- Sorting.Sort: insertion sort stands in for Swift's `sorted(by:)`, which is not stable. Keeping every element and the order are proved; the order of ties matches no particular Swift result, so nothing is stated about it.
- Archive.Matches: `localizedCaseInsensitiveContains` is modelled as case-sensitive containment, because case folding and locale rules are not available on `seq<char>`.
- Archive.FilteredProfilesMeaning: a profile is kept when the query is contained case-sensitively, for the reason given for `Archive.Matches`.
- Archive.KeepMatchingMeaning: the filter's loop keeps the case-sensitive matches, for the reason given for `Archive.Matches`.
- Avatar.PaletteIndex: the sum of scalar values is unbounded, so neither the trap of Swift's `Int` addition on overflow nor `abs` is modelled. The sum of scalars is never negative, and a name would need some 10^12 characters to overflow.
- Avatar.AvatarText: Swift's `prefix(1)` takes one grapheme cluster, and the model takes one Unicode scalar.
- Avatar.AvatarTextMeaning: the letter it states is the first Unicode scalar, for the reason given for `Avatar.AvatarText`.
- LoginForms.PrimaryDisabledMeaning: Swift's `count` counts grapheme clusters and the model counts scalars.
- LoginForms.CanSubmitMeaning: the length limits count scalars, for the reason given for `LoginForms.PrimaryDisabledMeaning`.
- LoginForms.CanCreateAccountMeaning: the length limits count scalars, for the reason given for `LoginForms.PrimaryDisabledMeaning`.
- BaZi.ReadGanZhi: `first` and `last` take grapheme clusters in Swift, and the model takes scalars. Stems and branches are single scalars either way.
- String comparison: Swift compares strings by canonical equivalence, and the model compares scalar sequences.
