# AION GPT chat client, modelled in Dafny

A model of the client core of the AION GPT web app. The app is a chat front end that streams answers from a gateway and keeps conversations in the browser. The model covers:

- **The gateway client** (`src/lib/ai/stream-chat.ts`):
  - the server-sent-event decoder, an `SseDecoder` class whose `Push` runs the buffer/line loop over one chunk and whose `Flush` is the final best-effort pass;
  - the outer read loop, which stops after `data: [DONE]`;
  - the error thrown for a response that is not ok.

  The decoder is proved against a reference meaning. `Deltas(text)` is the deltas of every `\n`-separated line of the received text, in order. After the final flush, what the decoder has emitted equals `Deltas` of the text it read (`RunFacts`, `FlushMeaning`, `ReadChunks`).
- **The chat page** (`src/pages/Chat.tsx`):
  - `suggestTitle`, `appendMessage`, `updateLastAssistant` and `shouldAutoContinue`;
  - `send`: the input checks, the first pass, the long-mode continuation loop of at most eight further requests, and the mapping of errors to a toast and an annotation of the assistant message.

  `send` is the method `ChatSession.Send`, which updates the page's `conversation` and `isStreaming` in place. It is proved equal to the function `Sent`, about which the properties are proved as lemmas. The outside world is an input `World`: the exchange answering the `k`-th request, the abort flag at the `k`-th loop check, and the JSON readers. `Replies(world)` is what `streamChat` makes of each exchange.
- **The conversation store** (`src/lib/chat/storage.ts`):
  - load, save, upsert and delete on one localStorage slot (`ConversationStore`);
  - the Markdown export, a loop pushing lines.
- **The history page** (`src/pages/History.tsx`): the search filter and the export file name.
- **The wizard** (`src/pages/Wizard.tsx`): the prompt built from the form.

The continuation loop (`ContinueFrom`, `Streaming`, `ChatSession.ContinueTurns`, `ChatSession.StreamTurns`) takes two parameters: the test for another turn and the removal of the token. `send` (`Sent`, `ChatSession.Send`) passes `ShouldAutoContinue` and `StripTokenAsWritten`, the regular expression as the code writes it. The loop's own lemmas hold for any removal. `CorrectedAsksOnce` runs the loop with `StripToken`, the intended removal, for contrast.

The model follows the code in three places where the code behaves differently from what one might read into its comments:

- **`[DONE]` only stops reading further chunks.** Lines after `data: [DONE]` in a chunk that was already read are still delivered by the final flush, which skips only the `[DONE]` line itself (`OneChunkDeliversAll`, `TerminatorStopsReading`).
- **A payload that does not parse is put back and stalls the read loop.** The text is deterministic, so the line fails again on every later chunk. Nothing is emitted until the final flush (`StalledEmitsNothing`). The flush then drops the bad line and delivers everything after it, so deltas are delayed, not lost (`FlushMeaning`), as long as the body ends normally. When the reader fails before `[DONE]`, `streamChat` throws before the flush, and the deltas of the bad line's successors are lost (`ReadBody`: only what the read loop emitted is delivered).
- **The token removal does not remove the token.** `send` runs the removal as written, so an answer ending in the token is sent back with it (`SendResendsToken`, `AsWrittenRepeatsToken`). See Findings below.

## Model

| member | source | states |
|---|---|---|
| StreamChat.StripCR | src/lib/ai/stream-chat.ts:58 | removes the last character exactly when the line ends with a carriage return, and nothing else |
| StreamChat.Classify | src/lib/ai/stream-chat.ts:58-67 | the read loop's filters in the source's order; what each kind of line does is stated by `IgnoredLines`, `TerminatorLine`, `DataLine` and `ClassifyDropsCR` |
| StreamChat.FieldDelta | src/lib/ai/stream-chat.ts:69-72 | a line yields a delta exactly when its content field is a non-empty string, and the delta is that string |
| StreamChat.LineDeltas | src/lib/ai/stream-chat.ts:55-76 | one line yields at most one delta, never an empty one |
| StreamChat.IgnoredLines | src/lib/ai/stream-chat.ts:58-61 | comment lines, blank lines and lines without `data: ` yield nothing and do not stop the stream |
| StreamChat.TerminatorLine | src/lib/ai/stream-chat.ts:63-67 | a `data: [DONE]` line, whatever whitespace surrounds the marker, yields nothing and ends the stream |
| StreamChat.DataLine | src/lib/ai/stream-chat.ts:63-76 | any other data line yields the delta of its parsed payload, and stalls the loop exactly when the payload does not parse |
| StreamChat.ClassifyDropsCR | src/lib/ai/stream-chat.ts:58 | a carriage return after a data line does not change its payload |
| StreamChat.StripCRKeepsPayload | src/lib/ai/stream-chat.ts:83 | removing the carriage return in the flush does not change a data line's payload |
| StreamChat.BlankYieldsNothing | src/lib/ai/stream-chat.ts:80 | a buffer of whitespace only yields no delta, so skipping the flush when `trim()` is empty loses nothing |
| StreamChat.DeltasNonEmpty | src/lib/ai/stream-chat.ts:72 | no delta handed to `onDelta` is empty |
| StreamChat.DeltasOrder | src/lib/ai/stream-chat.ts:54-77 | the deltas of two texts joined by a newline are the deltas of the first followed by those of the second |
| StreamChat.ScanExtend | src/lib/ai/stream-chat.ts:64-66 | once the complete lines reach `[DONE]` or a bad payload, more text does not change that |
| StreamChat.ReadCountFrom | src/lib/ai/stream-chat.ts:48-50 | reading stops before the body ends only after a chunk whose complete lines reach `[DONE]` |
| StreamChat.NoTerminatorReadsAll | src/lib/ai/stream-chat.ts:48-50 | without `[DONE]` every chunk is read |
| StreamChat.TerminatorStopsReading | src/lib/ai/stream-chat.ts:64-66 | chunks after the one completing `[DONE]` are never read and change nothing |
| StreamChat.ChunkSplitInvariance | src/lib/ai/stream-chat.ts:48-97 | without `[DONE]`, the deltas are those of the whole text, however it is cut into chunks |
| StreamChat.OneChunkDeliversAll | src/lib/ai/stream-chat.ts:48-97 | a body in one chunk delivers the deltas of all its lines, including those after `[DONE]` |
| StreamChat.DrainMeaning | src/lib/ai/stream-chat.ts:54-77 | the line loop keeps the invariant: emitted plus the meaning of the buffer is the meaning of the text received |
| StreamChat.Drain | src/lib/ai/stream-chat.ts:54-77 | the inner line loop over the buffer, up to the last newline, `[DONE]` or a payload put back; its meaning is stated by `DrainMeaning` and `StalledEmitsNothing`, and `SseDecoder.Push` runs it |
| StreamChat.PushMeaning | src/lib/ai/stream-chat.ts:49-77 | reading one more chunk keeps that invariant |
| StreamChat.Run | src/lib/ai/stream-chat.ts:48-78 | the outer read loop over the chunks; `RunFacts`, `ChunkSplitInvariance`, `TerminatorStopsReading` and `OneChunkDeliversAll` state what it delivers, and `ReadChunks` runs it |
| StreamChat.StalledEmitsNothing | src/lib/ai/stream-chat.ts:73-75 | after a complete line whose payload does not parse, later chunks emit nothing and the loop stays stalled |
| StreamChat.FlushMeaning | src/lib/ai/stream-chat.ts:80-97 | after the final flush, what was emitted is exactly the deltas of the text received |
| StreamChat.RunFacts | src/lib/ai/stream-chat.ts:48-78 | after reading chunks, the decoder has seen `[DONE]` exactly when the text reaches it, and emitted plus the flush gives the text's deltas |
| StreamChat.SseDecoder.constructor | src/lib/ai/stream-chat.ts:44-46 | an empty buffer, not done, nothing emitted |
| StreamChat.SseDecoder.Push | src/lib/ai/stream-chat.ts:49-77 | appends the chunk and runs the line loop: new buffer, deltas and done flag are those of `Drain` |
| StreamChat.SseDecoder.Flush | src/lib/ai/stream-chat.ts:80-97 | emits the deltas of every line of the remaining buffer |
| StreamChat.SseDecoder.FlushLine | src/lib/ai/stream-chat.ts:82-95 | one line of the flush emits that line's deltas |
| StreamChat.ErrorMessage | src/lib/ai/stream-chat.ts:26-35 | the message is the body's `error` field when it is a non-empty string, otherwise `Request failed (<status>)`; never empty |
| Text.NatToString | src/lib/ai/stream-chat.ts:31-33 | the status is printed as decimal digits without leading zeros, which denote the status (`DecimalValue`) |
| StreamChat.ReadChunks | src/lib/ai/stream-chat.ts:43-78 | the read loop reads up to the `[DONE]` chunk; emitted plus the flush is the answer of the body |
| StreamChat.ReadBody | src/lib/ai/stream-chat.ts:43-97 | a body that ends normally delivers its answer; an interrupted one fails exactly when `[DONE]` was not reached, after delivering a prefix of the text's deltas |
| StreamChat.Stream | src/lib/ai/stream-chat.ts:16-99 | a failed fetch, a non-ok status (with `ErrorMessage`), a missing body (`Stream start failed`) and a body each give the deltas and error stated |
| StreamChat.Expected | src/lib/ai/stream-chat.ts:16-99 | the reply to one exchange; `Stream` is proved to give it, and `ReadBody` states the body case |
| Chat.SuggestTitle | src/pages/Chat.tsx:22-25 | `New chat` for blank text; otherwise 1 to 48 characters: the whole trimmed text when it fits, else its first 48 characters |
| Chat.BlankTitle | src/pages/Chat.tsx:22-25 | whitespace-only text gives `New chat` |
| Chat.NewConversation | src/pages/Chat.tsx:30-39 | a new conversation has the given id, no messages, the title `AION GPT Chat`, and was created and updated now |
| Chat.AppendMessage | src/pages/Chat.tsx:65-72 | the message goes last; id and creation time kept; the first user message names the conversation, any other keeps the title |
| Chat.UpdateLastAssistant | src/pages/Chat.tsx:74-82 | unchanged unless the last message is the assistant's; then only that message's content and `updatedAt` change |
| Chat.UpdateTwice | src/pages/Chat.tsx:74-82 | of two updates only the last is seen |
| Chat.UpdateSame | src/pages/Chat.tsx:74-82 | writing back the current content at the recorded time changes nothing |
| Chat.CountFences | src/pages/Chat.tsx:97 | the non-overlapping matches of a code fence, scanned from the left; `CountFencesAppend` and `OpenFenceContinues` state what one more fence does |
| Chat.CountFencesAppend | src/pages/Chat.tsx:97 | one more fence at the end adds one match |
| Chat.ShouldAutoContinue | src/pages/Chat.tsx:92-100 | false for blank text, true when the trimmed text ends with the token, otherwise true exactly when the fence count is odd |
| Chat.TokenContinues | src/pages/Chat.tsx:93-95 | text ending in the token, whatever whitespace follows, asks for more |
| Chat.OpenFenceContinues | src/pages/Chat.tsx:96-98 | text ending in a fence asks for more exactly when that fence opens a block |
| Chat.StripTokenAsWritten | src/pages/Chat.tsx:151 | the regular expression as written keeps a prefix without trailing whitespace, and the right-trimmed text unless that ends in a class character followed by `]` |
| Chat.AsWrittenCutsClass | src/pages/Chat.tsx:151 | as written, any text ending in a class character, `]` and whitespace loses those and the whitespace before them |
| Chat.AsWrittenKeepsToken | src/pages/Chat.tsx:151 | as written, text ending in the token keeps it and still asks for more |
| Chat.AsWrittenCutsText | src/pages/Chat.tsx:151 | as written, `see [NOTE]` loses its last two characters |
| Chat.StripToken | src/pages/Chat.tsx:150-151 | the kept text is a prefix without trailing whitespace, and is the right-trimmed text when there is no token |
| Chat.StripTokenRemoves | src/pages/Chat.tsx:150-151 | text, token and trailing whitespace leave the right-trimmed text |
| Chat.ErrorTitle | src/pages/Chat.tsx:180-185 | `Rate limited` exactly for status 429, `Credits required` exactly for 402, `Error` otherwise |
| Chat.ErrorText | src/pages/Chat.tsx:181 | never empty, and the error's own message whenever it has a non-empty one |
| Chat.ErrorAnnotation | src/pages/Chat.tsx:188-190 | the assistant message after an error starts with `**Error:** ` and the message |
| Chat.StreamMessages | src/pages/Chat.tsx:61-63 | role and content of every message, in order |
| Chat.ContinueFromRequests | src/pages/Chat.tsx:146-171 | the loop makes at most as many requests as turns remain; request `k` holds the history, the user's text, the answer as it stands when continuation `k` begins with the token removal applied (`AnswerAt`), and the continue prompt |
| Chat.ContinueFromStops | src/pages/Chat.tsx:147 | each request is made after the loop's check passed (not aborted, the answer so far asks for more), and unless a request failed or the turns ran out, the check after the last request failed |
| Chat.ContinueFrom | src/pages/Chat.tsx:146-171 | the continuation loop from one turn on; `ContinueFromRequests`, `ContinueFromAnswer` and `ContinueFromStops` state its requests, its answer and where it stops, and `ChatSession.ContinueTurns` runs it |
| Chat.AnswerAtShift | src/pages/Chat.tsx:151-163 | the answer after `j + 1` continuations is the answer after `j` continuations of the loop that starts one turn later |
| Chat.ContinueFromAnswer | src/pages/Chat.tsx:146-171 | the loop ends with the answer after its last continuation: each continuation keeps what the removal leaves and appends its reply's deltas |
| Chat.AsWrittenRepeatsToken | src/pages/Chat.tsx:146-171 | with the removal as written, an answer ending in the token and a gateway that adds nothing make the loop send the same text, token included, on every remaining turn |
| Chat.CorrectedAsksOnce | src/pages/Chat.tsx:146-171 | with the intended removal, the same answer gives one continuation request holding the right-trimmed text without the token, and the loop stops |
| Chat.SendResendsToken | src/pages/Chat.tsx:131-163 | in long mode, a first answer ending in the token is sent back, token included, in the second request |
| Chat.StreamingRequests | src/pages/Chat.tsx:131-172 | one `send` makes 1 to 9 requests: the first request first, none after it outside long mode; request `k` after it holds the answer after `k - 1` continuations, and the final answer is the one after the last; each continuation follows a passed check, and in long mode the check after the last request failed unless a request failed or the turns ran out |
| Chat.Streaming | src/pages/Chat.tsx:131-172 | the first pass, then in long mode and without an error the loop; `StreamingRequests` states its requests and answer, and `ChatSession.StreamTurns` runs it |
| Chat.Sent | src/pages/Chat.tsx:102-192 | `send` as a function; `SendValidation`, `SendAppends`, `SingleAnswer`, `FailedContinuation` and `SendResendsToken` state its outcome, and `ChatSession.Send` is proved to leave it |
| Chat.SendValidation | src/pages/Chat.tsx:103-113 | no session, blank text and text over 4000 characters give their toast or nothing; exactly then no request is made and the conversation is kept |
| Chat.SendAppends | src/pages/Chat.tsx:119-191 | an accepted `send` appends the trimmed user message and one assistant message holding the streamed text (with the removal as written), or the annotation and a toast after an error that is not an abort |
| Chat.SingleAnswer | src/pages/Chat.tsx:131-148 | outside long mode, or when the first answer looks complete, one request is made and the answer is shown as received |
| Chat.FailedContinuation | src/pages/Chat.tsx:146-190 | a first continuation that fails with any error but an abort makes two requests, replaces the whole answer by that error's annotation and shows its toast |
| Chat.ChatSession.constructor | src/pages/Chat.tsx:30-42 | a new page: a new conversation, not streaming |
| Chat.ChatSession.ApplyDeltas | src/pages/Chat.tsx:136-139 | each delta is appended to the answer and shown; the message ends up holding the whole answer |
| Chat.ChatSession.Fetch | src/pages/Chat.tsx:132-142 | the `k`-th call of `streamChat` gives the `k`-th reply of the world |
| Chat.ChatSession.Turn | src/pages/Chat.tsx:149-170 | one continuation (token removed, blank line shown, continuation request sent, deltas appended) is one step of `ContinueFrom`: its request, then what is left of the loop |
| Chat.ChatSession.ContinueTurns | src/pages/Chat.tsx:146-171 | the loop computes `ContinueFrom`: the same answer, requests, error and message content |
| Chat.ChatSession.StreamTurns | src/pages/Chat.tsx:127-172 | the first pass and the loop compute `Streaming` |
| Chat.ChatSession.Send | src/pages/Chat.tsx:102-192 | `send` leaves the conversation, toast, requests and redirect of `Sent`, with the removal as written; streaming is off after any request |
| Storage.SafeParse | src/lib/chat/storage.ts:5-14 | the parsed array, and the empty list for a missing, unparsable or non-array slot |
| Storage.Records | src/lib/chat/storage.ts:18 | exactly the entries of the expected shape are kept |
| Storage.RecordsAppend | src/lib/chat/storage.ts:18 | the kept entries of two stretches of the array are those of the first, then those of the second |
| Storage.RecordsSingle | src/lib/chat/storage.ts:18 | one entry is kept exactly when it has the expected shape |
| Storage.RecordsOfStored | src/lib/chat/storage.ts:16-24 | what is saved is read back unchanged |
| Storage.SortNewestFirst | src/lib/chat/storage.ts:19 | the result is newest first and a permutation of the input |
| Storage.SortIsStable | src/lib/chat/storage.ts:19 | conversations with the same `updatedAt` keep their order |
| Storage.FindIndex | src/lib/chat/storage.ts:28 | the first position holding the id, or -1 when none does |
| Storage.UpsertInto | src/lib/chat/storage.ts:26-33 | the entry with the id is replaced in place and nothing else changes, or the conversation is put in front |
| Storage.Without | src/lib/chat/storage.ts:37 | no entry with the id remains, every other entry does, in order |
| Storage.ConversationStore.constructor | src/lib/chat/storage.ts:3 | a store over the given slot |
| Storage.ConversationStore.Load | src/lib/chat/storage.ts:16-20 | newest first, and a permutation of the stored entries of the expected shape |
| Storage.ConversationStore.Save | src/lib/chat/storage.ts:22-24 | the slot holds the list, and loading gives it back sorted |
| Storage.ConversationStore.Upsert | src/lib/chat/storage.ts:26-33 | saves the upserted list; the conversation is then loaded |
| Storage.ConversationStore.Delete | src/lib/chat/storage.ts:35-38 | saves the list without the id; no loaded conversation has it |
| Storage.MessageLinesLayout | src/lib/chat/storage.ts:44-49 | message `i` occupies lines `4i` to `4i+3`: heading, blank, content, blank |
| Storage.MarkdownLines | src/lib/chat/storage.ts:40-51 | the title heading, a blank line, then every message's heading and content at its place |
| Storage.ExportMarkdown | src/lib/chat/storage.ts:40-51 | the pushed lines joined by newlines are `MarkdownLines` |
| History.Search | src/pages/History.tsx:23-31 | everything for a blank query; otherwise exactly the conversations whose title or a message contains the query, ignoring case, in loaded order |
| History.SearchIgnoresSurroundingSpace | src/pages/History.tsx:25 | any whitespace before and after the query does not change the result |
| History.DashRuns | src/pages/History.tsx:58 | `replace(/\W+/g, "-")`; `DashRunsRun` and `DashRunsWord` state it run by run, and `DashRunsAlphabet` and `DashRunsKeepsWords` state what the result holds |
| History.DashRunsAlphabet | src/pages/History.tsx:58 | the file name stem holds only word characters and dashes, never two dashes in a row |
| History.DashRunsKeepsWords | src/pages/History.tsx:58 | the word characters of the title survive in order |
| History.DashRunsOfWord | src/pages/History.tsx:58 | a title of word characters only is kept as it is |
| History.SkipRunOfRun | src/pages/History.tsx:58 | a run of non-word characters is skipped up to the next word character |
| History.DashRunsRun | src/pages/History.tsx:58 | a maximal run of non-word characters becomes exactly one dash |
| History.DashRunsWord | src/pages/History.tsx:58 | word characters are kept as they are |
| History.FileName | src/pages/History.tsx:58 | the title with its non-word runs dashed (`DashRuns`), then `.md` |
| Wizard.Picked | src/pages/Wizard.tsx:27 | every ticked feature's caption is picked, and no more captions than features |
| Wizard.PickedAppend | src/pages/Wizard.tsx:27 | the captions picked from two stretches of the list are those of the first, then those of the second |
| Wizard.PickedSingle | src/pages/Wizard.tsx:27 | one feature gives its caption exactly when it is ticked |
| Wizard.PickedAreTicked | src/pages/Wizard.tsx:27 | every picked caption belongs to a ticked feature |
| Wizard.NothingPicked | src/pages/Wizard.tsx:27 | with nothing ticked nothing is picked |
| Wizard.Header | src/pages/Wizard.tsx:29-31 | three header lines, none of them empty |
| Wizard.Entries | src/pages/Wizard.tsx:26-40 | the array the page builds, with `""` for a missing description or feature list; `PromptLines` states what remains of it |
| Wizard.Prompt | src/pages/Wizard.tsx:26-43 | the non-empty entries joined by newlines; `PromptLines` and `BarePrompt` state its lines |
| Wizard.KeepNonEmpty | src/pages/Wizard.tsx:41 | `filter(Boolean)` keeps the fixed lines and drops an empty optional line |
| Wizard.PromptLines | src/pages/Wizard.tsx:26-43 | the prompt is the header, the description line when the trimmed description is not empty, the features line when one is ticked, and the footer |
| Wizard.BarePrompt | src/pages/Wizard.tsx:26-43 | with nothing ticked and a blank description, the prompt is the header and the footer |
| Text.TrimEnd | src/pages/Chat.tsx:93 | `trimEnd` keeps a prefix and leaves no trailing whitespace |
| Text.TrimEndEmptyIffBlank | src/pages/Chat.tsx:93-94 | the right-trimmed text is empty exactly for whitespace-only text |
| Text.TrimEmptyIffBlank | src/pages/Chat.tsx:108-109 | the trimmed text is empty exactly for whitespace-only text |
| Text.Trim | src/pages/Chat.tsx:108 | `trim`; `TrimEnds`, `TrimIsMiddle`, `TrimEmptyIffBlank`, `TrimBlankPrefix` and `TrimBlankSuffix` state what it keeps |
| Text.TrimEnds | src/pages/Chat.tsx:108 | the trimmed text neither starts nor ends with whitespace |
| Text.TrimIsMiddle | src/pages/Chat.tsx:108 | the trimmed text is the text without its leading and its trailing whitespace |
| Text.TrimBlankPrefix | src/pages/History.tsx:25 | leading whitespace does not change the trimmed text |
| Text.TrimBlankSuffix | src/pages/History.tsx:25 | trailing whitespace does not change the trimmed text |
| Text.ToLower | src/pages/History.tsx:25 | same length, each character lower-cased |
| Text.ContainsAt | src/pages/History.tsx:28-29 | `includes` holds exactly when the needle occurs at some index |
| Text.Split | src/lib/ai/stream-chat.ts:81 | at least one piece, and no piece contains the separator |
| Text.JoinAppend | src/lib/chat/storage.ts:50 | joining one more line appends the separator and the line |
| Lists.Filter | src/pages/History.tsx:27 | every kept element passes the test and every passing element is kept |
| Lists.FilterIsSubsequence | src/pages/History.tsx:27 | `filter` keeps the order |

## Left out

- The network: `fetch`, the gateway URL and headers, and the request body encoding are not modelled. A request is the list of messages it sends, and its outcome is an input (`Exchange`). `resp.text()` failing to give `""` is folded into the error text input.
- `TextDecoder`: the body arrives as decoded text chunks, so characters split across chunks are not modelled.
- `JSON.parse` is an input function (`parse`, `parseError`) giving the content field or a failure. A truthy content or `error` field that is not a string is not modelled.
- The reader failing mid-body is an input (`StreamEnd.Interrupted`). `onDone` has no effect in the page and is left out.
- Abort: the abort flag at each loop check is an input. An abort during a request appears as that request's error (`AbortError`). `stop()` and a second `send` while one is streaming (src/pages/Chat.tsx:84-88, 115) are not modelled; `ChatSession.Send` runs to completion.
- `Date.now()` and `crypto.randomUUID()` are parameters: one `now` for the whole `send`, where the page reads the clock at every update.
- React: state batching, the effect that saves the conversation on every change (src/pages/Chat.tsx:47-49), the login redirect effect, scrolling, toast display and navigation. Toasts and the redirect are results of `Sent`.
- localStorage: the slot is modelled after `JSON.parse`, and saving is assumed to read back the same records. Only the shape check of `loadConversations` is modelled; fields beyond `id` and `messages` are not validated. A non-numeric `updatedAt` in the comparator is not modelled.
- Text: `trim` uses the JavaScript whitespace set; `toLowerCase` is modelled for ASCII letters only; `\w` is ASCII. UTF-16 code units are not distinguished from characters.
- The file download and clipboard copy (src/pages/History.tsx:10-17, src/pages/Wizard.tsx:45-52) are I/O; only the file name and the prompt are modelled.
- Chat.ErrorText: does not state the fallback text `AI request failed` for an abort or an empty message; only that the text is never empty.
- Chat.ErrorAnnotation: states the prefix `**Error:** <message>`; the fixed closing sentence is in the definition only.
- Storage.MarkdownLines: states the heading and content lines of every message; the blank lines between them are stated per index by `Storage.MessageLinesLayout`.

## Findings

| source | as written | input that shows it | evidently intended | confidence | as-written member | corrected member |
|---|---|---|---|---|---|---|
| src/pages/Chat.tsx:151 | `new RegExp(`${CONTINUE_TOKEN}\\s*$`)` puts the token unescaped into the pattern. `[[AION_CONTINUE]` is a character class, so the pattern matches one of `[AION_CTUE` followed by `]` and trailing whitespace. It removes the last two characters of such text and never the token. | `"part one[[AION_CONTINUE]]"` keeps the token, so the next request repeats it and the loop keeps asking for more (`AsWrittenKeepsToken`). `"see [NOTE]"` becomes `"see [NOT"` (`AsWrittenCutsText`), and so does any text ending in a class character and `]` (`AsWrittenCutsClass`). `send` runs it as written: the second request repeats the token (`SendResendsToken`) and a silent gateway is asked on all eight turns (`AsWrittenRepeatsToken`). | Remove the literal token at the end, up to trailing whitespace, and the whitespace before it; the intended removal drops the token (`StripTokenRemoves`) and, on the same input, asks once (`CorrectedAsksOnce`) | not executed | Chat.StripTokenAsWritten | Chat.StripToken |
