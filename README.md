# WHOOP coach chat library, modelled in Dafny

This project models the TypeScript library behind a WHOOP coaching chat assistant
(`src/lib/` of the repository). The library builds a system prompt from a user's persona and
daily recovery metrics, keeps a bounded conversation history, cleans user input, parses the
model's reply into sections, and maps failures to user-facing messages. Each source file
becomes one Dafny module:

- `Messages` holds the `ChatMessage` record: a system, user or assistant role plus content.
- `ResponseProcessor` models `parseWhoopCoachResponse`.
  - The loop over the reply's lines is an imperative method.
  - That method is proved equal to `Parse`, a fold of a one-line state machine (`Step`).
  - The properties of the parser are lemmas about `Parse`.
- `ConversationManager` models the module-level history as a class with a `seq` field.
  - The add-and-trim operation and the "recent messages" view are specified by functions.
  - Bounds, pinning of the system prompt and the order of the survivors are lemmas about those functions.
- `ConversationStateManager` models the mutable topic/mood record as a class.
  - Updating it is `Merge` of a partial record, and lemmas state how updates compose.
- `ErrorHandler` models `categorizeError` and `handleGenericError`.
  - The classification is also restated as an ordered rule table, and the two are proved equal.
  - `ThrownErrors` proves how the three errors thrown while building the prompt are classified.
- `PromptConstructor` covers the formatting blocks, the trends window and the placeholder substitution.
  - It also covers the validation and the in-place latest-first sort done at load time, and the fallback shape of the system context message.
  - Substitution is proved against a template datatype (`Segment`): the final prompt is the template with its holes filled.
- `MessagePreprocessor` models `preprocessUserMessage`.
- Supporting modules:
  - `Strings` gives JavaScript's `trim`, `startsWith`, `includes`, `split`, `join`, global literal `replace` and ASCII `toLowerCase`.
  - `Slices` gives `Array.prototype.slice` with negative positions, and `reverse`.
  - `Wrappers` gives `Option` and `Result`.

File reads and `JSON.parse` are not modelled. Their outcomes are parameters: `None` when the read or the parse fails.

## Model

| member | source | states |
|---|---|---|
| MessagePreprocessor.PreprocessUserMessage | src/lib/message_preprocessor.ts:11-23 | `None` exactly when the input is only whitespace. Otherwise: a user-role message whose content is the trimmed input, starts and ends with a visible character, and is the contiguous slice of the input between its leading and trailing whitespace. |
| MessagePreprocessor.PreprocessIdempotent | src/lib/message_preprocessor.ts:12-22 | Preprocessing the content of a preprocessed message gives the same message back. |
| ConversationStateManager.Merge | src/lib/conversation_state_manager.ts:28-30 | A field the partial gives takes the given value (possibly null). A field it leaves out keeps the old value. |
| ConversationStateManager.MergeNoChange | src/lib/conversation_state_manager.ts:28-30 | Updating with an empty partial changes nothing. |
| ConversationStateManager.MergeIdempotent | src/lib/conversation_state_manager.ts:28-30 | Applying the same update twice equals applying it once. |
| ConversationStateManager.MergeThen | src/lib/conversation_state_manager.ts:28-30 | Two updates in a row equal one update in which the later partial wins field by field. |
| ConversationStateManager.MergeFullOverwrites | src/lib/conversation_state_manager.ts:28-30 | An update giving both fields replaces the state entirely. |
| ConversationStateManager.MergeDisjointCommute | src/lib/conversation_state_manager.ts:28-30 | Updates of different fields commute. |
| ConversationStateManager.ConversationStateStore.constructor | src/lib/conversation_state_manager.ts:11-14 | The state starts with no topic and a neutral mood. |
| ConversationStateManager.ConversationStateStore.GetConversationState | src/lib/conversation_state_manager.ts:20-22 | Returns the current state and changes nothing. |
| ConversationStateManager.ConversationStateStore.UpdateConversationState | src/lib/conversation_state_manager.ts:28-30 | The new state is the old state merged with the partial. |
| ConversationStateManager.ConversationStateStore.ResetConversationState | src/lib/conversation_state_manager.ts:35-40 | From any state, the state becomes the default, so a second reset changes nothing. |
| ConversationManager.SystemPrefix | src/lib/conversation_manager.ts:29 | A one-element prefix of the history exactly when the first message has the system role, otherwise empty. |
| ConversationManager.AddTrimmedSpec | src/lib/conversation_manager.ts:23-33 | After an add, the history holds `min(old length + 1, 20)` messages and ends with the new message. A leading system prompt stays first. The result is the pushed list with its oldest messages after the system prompt dropped, the rest kept in order. |
| ConversationManager.AddTrimmedBelowMax | src/lib/conversation_manager.ts:24-28 | Below the maximum, an add is a plain push. |
| ConversationManager.SystemPromptSurvives | src/lib/conversation_manager.ts:23-33 | However many messages are added, a history that starts with a system prompt keeps it at index 0. |
| ConversationManager.AddAllBounded | src/lib/conversation_manager.ts:5-33 | However many messages are added, the history never exceeds 20 messages. |
| ConversationManager.RecentAsWrittenRepeatsSystemPrompt | src/lib/conversation_manager.ts:56-63 | As written, a history `[system, user]` asked for 1 message gives `[system, system, user]`: longer than the history, with the system prompt twice. |
| ConversationManager.RecentAsWrittenAtPrefixLength | src/lib/conversation_manager.ts:56-63 | As written, for every history longer than `count` where `count` equals the system prefix length, the result is the system prefix followed by the whole history. With a system prompt, that is one message more than the history. |
| ConversationManager.RecentAsWrittenZeroCount | src/lib/conversation_manager.ts:56-63 | As written, a one-message history without a system prompt asked for 0 messages gives the whole history. |
| ConversationManager.RecentSpec | src/lib/conversation_manager.ts:56-63 | Corrected view. The whole history when it fits in `count`. Otherwise exactly `max(count, system prefix length)` messages: the system prompt, once, then the most recent messages in order. |
| ConversationManager.RecentAgreesAwayFromZero | src/lib/conversation_manager.ts:56-63 | The corrected view equals the source's whenever `count` exceeds the system prefix length. |
| ConversationManager.ConversationHistory.constructor | src/lib/conversation_manager.ts:7 | The history starts empty. |
| ConversationManager.ConversationHistory.InitializeConversation | src/lib/conversation_manager.ts:14-16 | The history becomes the system prompt alone, or empty when none is given. |
| ConversationManager.ConversationHistory.AddMessageToHistory | src/lib/conversation_manager.ts:23-33 | The new history is the old one after add-and-trim. It stays within 20 messages and ends with the new message. |
| ConversationManager.ConversationHistory.GetConversationHistory | src/lib/conversation_manager.ts:39-41 | Returns the history's contents and changes nothing. |
| ConversationManager.ConversationHistory.ClearConversationHistory | src/lib/conversation_manager.ts:47-49 | The history becomes empty. |
| ConversationManager.ConversationHistory.GetRecentMessagesWithSystemPrompt | src/lib/conversation_manager.ts:56-63 | Returns the corrected recent view of the current history. |
| Slices.SliceFromMinusZero | src/lib/conversation_manager.ts:62 | `slice(-0)` is the whole list, not an empty tail. |
| ErrorHandler.StatusKind | src/lib/error_handler.ts:24-29 | A status decides the kind exactly for 400, 401, 403, 429 and 500 through 599. |
| ErrorHandler.CategorizeError | src/lib/error_handler.ts:23-39 | Classification never yields the response-parsing kind. |
| ErrorHandler.StatusDecides | src/lib/error_handler.ts:24-29 | For an API error, status 401 or 403 is an authentication error, 429 a rate limit, 400 a bad request and 500 through 599 a server error, whatever the message says. |
| ErrorHandler.OtherStatusFallsThrough | src/lib/error_handler.ts:24-30 | An API error with no status or another status is classified by its message alone, like a plain error. |
| ErrorHandler.NoMessageIsUnknown | src/lib/error_handler.ts:30-38 | A value without a string message is an unknown error. |
| ErrorHandler.FirstMatchSpec | src/lib/error_handler.ts:31-36 | In an ordered rule table, the first rule that matches decides the kind. |
| ErrorHandler.FirstMatchNone | src/lib/error_handler.ts:31-38 | When no rule matches, the kind is unknown. |
| ErrorHandler.CategorizeMessageIsFirstMatch | src/lib/error_handler.ts:30-38 | The message checks are the first match of the ordered table: key missing, prompt load, two user-data patterns, context message, then the three connection patterns. Only the connection patterns look at the lower-cased message. |
| ErrorHandler.KeyMissingWins | src/lib/error_handler.ts:31 | A message naming the missing API key is classified as such whatever else it contains. |
| ErrorHandler.ContextBeforeConnection | src/lib/error_handler.ts:35-36 | A message that matches none of the key-missing, prompt-load and user-data patterns, but matches both the context pattern and a connection pattern, is a context-generation error. |
| ErrorHandler.ConnectionIgnoresCase | src/lib/error_handler.ts:36 | Past the first five checks, messages equal up to ASCII case are classified alike, as connection failures or unknown. |
| ErrorHandler.KeyMissingIsCaseSensitive | src/lib/error_handler.ts:31 | A lower-cased missing-key message does not match the key-missing check. |
| ErrorHandler.Failure.Details | src/lib/error_handler.ts:44 | The details are the message of an Error object, or the value's string rendering otherwise. |
| ErrorHandler.UserMessageDistinguishes | src/lib/error_handler.ts:43-73 | Two kinds get the same user message exactly when they are equal or both are data kinds (prompt load, user data, context generation). |
| ErrorHandler.OnlyConnectionGetsDefault | src/lib/error_handler.ts:43-73 | The default "trouble connecting" message is given exactly to connection failures, which have no case of their own. |
| ErrorHandler.HandleGenericError | src/lib/error_handler.ts:41-82 | The result's kind is the classification, its message is that kind's fixed message, its details are the error's details, and its kind is never response-parsing. |
| ThrownErrors.PromptLoadFailureClassified | src/lib/prompt_constructor.ts:56 | The base-prompt load error classifies as a prompt-load error. |
| ThrownErrors.UserDataFailureClassified | src/lib/prompt_constructor.ts:75 | The user-data load error classifies as a user-data load error. |
| ThrownErrors.ContextFailureClassified | src/lib/prompt_constructor.ts:164 | The final context error classifies as a context-generation error, not as a prompt-load error, though it mentions failing to load the base prompt. |
| ThrownErrors.ThrownErrorsShareMessage | src/lib/error_handler.ts:62-66 | All three errors the prompt constructor throws reach the user as the same data-access message. |
| PromptConstructor.PersonaProfileLines | src/lib/prompt_constructor.ts:79-89 | For a persona without line breaks, the block is exactly nine lines, each starting with its label in the fixed order. List fields are joined with ", ". |
| PromptConstructor.CurrentMetricsLines | src/lib/prompt_constructor.ts:91-103 | For metrics without line breaks, the block is exactly eleven lines, the first being "Date: " and the date. |
| PromptConstructor.TrendWindowSpec | src/lib/prompt_constructor.ts:109 | The trend window holds `min(numDays, length)` days: the first ones of the list, in reverse order. |
| PromptConstructor.TrendWindowNegative | src/lib/prompt_constructor.ts:109 | For a negative `numDays`, the window is the list without its last `-numDays` days (empty if none remain), in reverse order. |
| PromptConstructor.TrendWindowOldestFirst | src/lib/prompt_constructor.ts:108-109 | From a latest-first list, the window runs from oldest to newest. |
| PromptConstructor.NoRecentDataIffEmpty | src/lib/prompt_constructor.ts:105-117 | The trends text is "No recent data available." exactly when there are no days. |
| PromptConstructor.TrendsTextVisible | src/lib/prompt_constructor.ts:111-116 | The trends text starts with the "L" of "Last" and ends with a visible character. |
| PromptConstructor.TrendsTextDropsFinalBreak | src/lib/prompt_constructor.ts:111-116 | When the last strain ends visibly, the trends text is the header and one entry per day with only the final line break removed. |
| PromptConstructor.FormatRecentTrends | src/lib/prompt_constructor.ts:105-117 | The loop that accumulates the entries returns the specified trends text. |
| PromptConstructor.SlotNamesDiffer | src/lib/prompt_constructor.ts:130-132 | The three placeholder names differ in their first character. |
| PromptConstructor.NoPlaceholderUnchanged | src/lib/prompt_constructor.ts:129-134 | A base prompt holding none of the three placeholders comes back unchanged, whatever other braces it holds. |
| PromptConstructor.ReplaceFills | src/lib/prompt_constructor.ts:130-132 | For a plain template (no text segment holds "{{" or ends with "{"), replacing every occurrence of one placeholder in the rendered template fills exactly that slot's holes and leaves the other holes and the text alone. |
| PromptConstructor.FillAllExpands | src/lib/prompt_constructor.ts:129-134 | Filling the three slots in turn renders the template with every hole replaced by its value. |
| PromptConstructor.FinalPromptExpands | src/lib/prompt_constructor.ts:122-135 | Take a template whose literal text never doubles an opening brace or ends a segment with one (single braces are allowed), and persona and current-metrics blocks with the same property. The final prompt is the template with every placeholder replaced by its block. The current block is from the first day and the trends use three days. |
| PromptConstructor.ConstructFinalPrompt | src/lib/prompt_constructor.ts:122-135 | The step-by-step replacement returns the specified final prompt. |
| PromptConstructor.LoadBaseSystemPrompt | src/lib/prompt_constructor.ts:51-58 | Succeeds exactly when the file was read, with its contents. Otherwise fails with the base-prompt error message. |
| PromptConstructor.SortNewestFirst | src/lib/prompt_constructor.ts:71 | Afterwards the array is latest first and a permutation of what it held. |
| PromptConstructor.LoadWhoopUserData | src/lib/prompt_constructor.ts:63-77 | Fails exactly when the data did not parse or lacks a persona or a non-empty metrics list, and then with the user-data error message. Otherwise it returns the same persona and the same days, latest first. |
| PromptConstructor.LoadedCurrentIsLatest | src/lib/prompt_constructor.ts:124-126 | For loaded data, the current-metrics block is built from a day no older than any loaded day. |
| PromptConstructor.LoadedTrendsOldestFirst | src/lib/prompt_constructor.ts:109 | For loaded data, the trend window runs from oldest to newest. |
| PromptConstructor.GetSystemContextMessage | src/lib/prompt_constructor.ts:140-167 | Any message returned has the system role. When the prompt and the data load, its content is the final prompt for the loaded data. Otherwise it is the re-read base prompt followed by the fixed warning. When that re-read fails too, it fails with the context error message. |
| ResponseProcessor.ParsedResponse.Set | src/lib/response_processor.ts:63 | Writing a section sets that one field and leaves every other field alone. |
| ResponseProcessor.MatchHeaderExact | src/lib/response_processor.ts:48-71 | A line opens section `k` exactly when it starts with `k`'s header, so the table order never matters. |
| ResponseProcessor.CtaIsNotHeader | src/lib/response_processor.ts:59-74 | A call-to-action line never opens a section. |
| ResponseProcessor.Flush | src/lib/response_processor.ts:91-94 | Saving an open section with a non-empty buffer writes the buffer joined by newlines and trimmed into that section and changes no other section. With no open section or an empty buffer the result is unchanged. Every section that is open or already written ends non-null. The call to action and the raw text are kept. |
| ResponseProcessor.FindHeader | src/lib/response_processor.ts:59-71 | The search over the header table finds the section the trimmed line opens. |
| ResponseProcessor.ProcessLine | src/lib/response_processor.ts:55-88 | One iteration of the loop is one step of the state machine on the trimmed line. |
| ResponseProcessor.ParseWhoopCoachResponse | src/lib/response_processor.ts:16-106 | The loop computes the specified parse. A null or blank reply gives the fallback record. Any other reply is kept in `raw` unchanged. |
| ResponseProcessor.StepPreserves | src/lib/response_processor.ts:55-88 | A step keeps a non-empty buffer for an open section and keeps `raw`. It never un-sets a pending section or a call to action. |
| ResponseProcessor.BlankGivesFallback | src/lib/response_processor.ts:17-27 | A null or blank reply gives the apology TL;DR, the fixed closing line, three empty sections and an empty `raw`. |
| ResponseProcessor.ParseKeepsRaw | src/lib/response_processor.ts:29-36 | Any other reply is kept in `raw` exactly. |
| ResponseProcessor.HeaderSeenYieldsSection | src/lib/response_processor.ts:59-94 | Once a line opens a section, that field is non-null in the result. |
| ResponseProcessor.StarredCtaYieldsCta | src/lib/response_processor.ts:73-88 | A starred call-to-action line anywhere gives a non-null closing line. |
| ResponseProcessor.FullReplyPopulated | src/lib/response_processor.ts:48-94 | A reply with all four headers and a starred call to action fills all five fields and keeps `raw`. |
| ResponseProcessor.HeaderlessReply | src/lib/response_processor.ts:73-88 | A reply without headers has four null sections, and its closing line is the last starred call-to-action line. |
| ResponseProcessor.LastSectionValue | src/lib/response_processor.ts:55-94 | Take the last header of a section, followed by ordinary lines up to a closing line or the end. The section's value is the text after that header plus the non-empty lines, joined by newlines and trimmed. |
| ResponseProcessor.CtaClosesSection | src/lib/response_processor.ts:74-81 | Inside a section, either call-to-action form closes it and becomes the closing line, unless a later starred line or a later section replaces it. |
| ResponseProcessor.LinesNormalised | src/lib/response_processor.ts:44 | The lines contain no line feed. Joined back with line feeds, they give the reply with CRLF pairs turned into LF, and a reply without carriage returns comes back unchanged. |

## Left out

- Strings are sequences of `char`.
  - UTF-16 surrogate pairs are not distinguished.
  - `toLowerCase` is modelled on ASCII letters only.
- `String.replace` with a global regular expression also expands the patterns `$$`, `$&`, `` $` `` and `$'` in the replacement (the expressions have no capture groups, so `$1` stays literal). The model replaces literally, so a persona or metric text containing `$` may differ.
- Numbers are the text they print as.
  - `toFixed(1)` and template-literal number rendering are not modelled.
  - Dates are an integer key standing for `new Date(date).getTime()`. An invalid date (NaN) is not modelled.
- File reads and `JSON.parse` are parameters. `None` stands for a failed read or parse, and `RawUserData` for the parsed JSON.
  - Shape errors that `JSON.parse` would not catch, such as a non-array `daily_metrics`, are out of the model.
- `loadWhoopUserData` throws a specific message when the persona or the metrics are missing, but its own catch replaces it with "Failed to load or parse user data." That first message therefore never escapes. The model gives the replacing message only.
- PromptConstructor.SortNewestFirst: uses insertion sort in place of the engine's sort. Stability (the order of days with equal dates) is not stated.
- PromptConstructor.FinalPromptExpands: assumes the template's literal text never holds "{{" and never ends a segment with "{". Otherwise a text segment could spell or start a placeholder, and the split into text and placeholders would be ambiguous. The persona and current-metrics blocks need the same property, since a placeholder they form would be replaced by a later step. Those cases are not described, though the function `FinalPrompt` still computes them.
- Default parameters are not modelled: `count = 10` for the recent view and `numDays = 3` for the trends, which the prompt builder passes explicitly.
  - PromptConstructor.TrendWindowSpec: stated for non-negative `numDays`. `TrendWindowNegative` covers negative values.
  - A fractional `numDays` is not modelled.
- The empty-metrics branch of `constructFinalPrompt` ("No current metrics available.") is modelled by `CurrentMetricsText`. Loading never produces empty metrics, so it is unreachable through `GetSystemContextMessage`.
- The warning-only branch after parsing (src/lib/response_processor.ts:97-103) only logs and does not change the result.
- Console logging throughout is not modelled.
- `instanceof APIError` and `instanceof Error` become the constructors of `Failure`.
- ConversationStateManager.Merge: a partial whose property is explicitly `undefined` is not modelled. `Field` gives a property a value (possibly `null`) or leaves it out, but the spread would store `undefined`, which is neither `null` nor a mood.
- ConversationManager.Recent: `count` is an integer. A fractional `count` (compared as a number, then truncated by `slice`) and `NaN` (where `slice(NaN)` starts at 0) are not modelled. The same holds for `RecentAsWritten` and `GetRecentMessagesWithSystemPrompt`.
- The module-level history and state are one object each. Concurrent access is not modelled.
- ConversationManager.ConversationHistory.GetRecentMessagesWithSystemPrompt: models the corrected view (see Findings). For a `count` at or below the system prefix length, including negative counts, it returns the system prefix alone.
- `getConversationHistory` returns a copy. Sequences are values in Dafny, so the copy is implicit.
- The completion client, HTTP servers, UI components and the synthetic-data script are not part of this model. `src/lib/openai_client.ts` contributes only the `ChatMessage` type.

## Findings

| source | as written | input that shows it | evidently intended | confidence | as-written member | corrected member |
|---|---|---|---|---|---|---|
| src/lib/conversation_manager.ts:62 | `history.slice(-(count - systemPrompt.length))`. When `count` equals the system prefix length the position is `-0`, which `slice` reads as 0, so the whole history is appended after the system prompt. | History `[system, user]` with `count = 1` gives `[system, system, user]`. History `[user]` with `count = 0` gives `[user]`. | At most `max(count, system prefix length)` messages: the system prompt once, then only as many recent messages as `count` leaves room for. | high; not executed | ConversationManager.RecentAsWrittenAtPrefixLength | ConversationManager.RecentSpec |
