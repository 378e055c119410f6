# Chat session state machine of the AI Chatbot page

This project models, in Dafny, the per-session state of the Streamlit chat page
`AiChatbot.py`. The page keeps four keys in `st.session_state`:

- `messages`: the transcript, a list of `{role, content}` turns;
- `text`: the draft bound to the text input;
- `clear_text_next`: a flag asking for the draft to be emptied on the next run;
- `user_profile`: the profile record.

Each user interaction re-runs the script from the top. The script applies four
transitions to this state:

- initialisation fills in only the keys that are missing;
- the pending-clear step empties the draft before the input widget is drawn;
- the "Clear chat" button empties the transcript;
- "Send" strips the draft, ignores a blank one, and otherwise appends a user
  turn and an assistant turn. The assistant turn holds the model's reply or
  the text `(Error calling model: <detail>)`. Finally it sets the clear flag.

Modules:

- `Options`: the optional value used for Python's `None` and for absent keys.
- `PyStrip`: Python's whitespace set and `str.strip()`, with a declarative
  characterisation (`IsStripOf`) that the function meets and that fixes the
  result uniquely.
- `Transcript`: turns, roles, and the shape the transcript keeps. The shape
  is defined exchange by exchange (`WellFormed`). It is proved equivalent to
  a positional definition: alternation by index (`Alternates`) plus stripped
  user turns (`UserTurnsStripped`).
- `ChatSession`: the store, `Init`, `ApplyPendingClear`, `ClearChat` and `Submit`.
- `Cycle`: one interaction as the script runs it, where `st.rerun()` means
  "run the top of the script again"; runs over sequences of interactions; and
  the invariants that hold between interactions.

The remote model is a parameter `invoke: string -> ModelOutcome` of `Submit`,
with outcome `Replied(content)` or `Raised(detail)`. The page sends the
stripped latest query alone, not the transcript, and `SubmitAsksOnlyQuery`
states this.

Facts about the code that the model keeps:

- "Clear chat" sets `messages = []` (line 95).
- Turns have role `user` or `assistant` (lines 168 and 177).
- The model receives only `user_query` (line 172).

## Model

| member | source | states |
|---|---|---|
| PyStrip.TrimLeft | AiChatbot.py:165 | the result is a suffix of the input, everything cut is whitespace, and the result does not start with whitespace |
| PyStrip.TrimRight | AiChatbot.py:165 | the result is a prefix of the input, everything cut is whitespace, and the result does not end with whitespace |
| PyStrip.Strip | AiChatbot.py:165 | `strip()` yields a slice of the input with only whitespace cut at both ends, and neither end of the slice is whitespace |
| PyStrip.StripOfUnique | AiChatbot.py:165 | two results that meet that characterisation are equal, so it defines `strip()` exactly |
| PyStrip.StripEmptyIffAllSpace | AiChatbot.py:165-166 | the stripped query is empty exactly when the draft is entirely whitespace |
| PyStrip.StripOfTrimmed | AiChatbot.py:165 | a string with no leading or trailing whitespace strips to itself |
| PyStrip.StripIdempotent | AiChatbot.py:165 | stripping twice equals stripping once |
| PyStrip.StripTrimmed | AiChatbot.py:165 | a non-empty stripped string has no whitespace at its first or last position |
| Transcript.Exchange | AiChatbot.py:168-177 | one submission contributes two turns, a user turn and then an assistant turn |
| Transcript.WellFormedIffPositional | AiChatbot.py:165-177 | the transcript is a chain of user-then-assistant exchanges with stripped non-empty queries exactly when it has even length, user turns sit at even positions and assistant turns at odd ones, and every user turn is stripped and non-empty |
| Transcript.WellFormedPairsTurns | AiChatbot.py:165-177 | a well-formed transcript has even length and user turns exactly at even positions; each user turn is stripped, non-empty and followed at once by an assistant turn; each assistant turn follows a user turn |
| Transcript.AppendExchangeWellFormed | AiChatbot.py:166-177 | appending an exchange whose query is non-empty and stripped keeps the transcript a chain of such exchanges |
| ChatSession.Init | AiChatbot.py:65-72 | each present key keeps its value; each absent key gets its default: `[]`, `""`, `False`, or Guest / Not provided |
| ChatSession.FreshSession | AiChatbot.py:65-72 | a new session has an empty transcript, an empty draft, no pending clear and the guest profile |
| ChatSession.InitOnInitialised | AiChatbot.py:65-72 | initialising an already initialised session changes nothing, so initialisation is idempotent |
| ChatSession.ApplyPendingClear | AiChatbot.py:75-77 | afterwards the flag is false; a set flag empties the draft; an unset flag leaves the session unchanged; transcript and profile are kept |
| ChatSession.ApplyPendingClearIdempotent | AiChatbot.py:75-77 | applying the pending-clear step twice equals applying it once |
| ChatSession.ClearChat | AiChatbot.py:94-95 | the transcript becomes empty; draft, flag and profile are untouched |
| ChatSession.ClearChatWellFormed | AiChatbot.py:94-95 | the cleared transcript is well formed, and clearing twice equals clearing once |
| ChatSession.AnswerText | AiChatbot.py:171-175 | a reply is stored as its content; a failure with detail D is stored as `(Error calling model: D)`, from which D reads back |
| ChatSession.ErrorDetail | AiChatbot.py:175 | recovers D from exactly the strings of the form `(Error calling model: D)` and from no others |
| ChatSession.Query | AiChatbot.py:165 | a `None` draft gives the empty query; otherwise the query is the strip of the draft and has no surrounding whitespace |
| ChatSession.Submit | AiChatbot.py:163-183 | a blank query leaves the session unchanged; otherwise the old transcript is a prefix of the new one, which is longer by exactly 2 turns: `{user, query}` then `{assistant, answer}`; the flag is set; draft and profile are kept |
| ChatSession.BlankSubmitIgnoresModel | AiChatbot.py:165-166 | when the draft is `None` or all whitespace, the submission leaves the session unchanged whatever the model would answer, so no model outcome is consumed |
| ChatSession.BlankQueryIff | AiChatbot.py:165-166 | the query is blank exactly when the draft is `None` or entirely whitespace |
| ChatSession.SubmitAsksOnlyQuery | AiChatbot.py:172 | changing what the model would answer to any prompt other than the stripped query leaves the result unchanged, so the model is asked only that query and never the earlier transcript |
| ChatSession.SubmittedQueryStripped | AiChatbot.py:165-168 | the stored user turn is non-empty, has no leading or trailing whitespace, and is its own strip |
| ChatSession.SubmitRecordsFailure | AiChatbot.py:171-180 | when the model fails with D, the last turn is the assistant turn `(Error calling model: D)` and the flag is still set |
| ChatSession.SubmitKeepsWellFormed | AiChatbot.py:166-177 | a submission keeps a well-formed transcript well formed: still a chain of user-then-assistant exchanges with stripped non-empty queries |
| ChatSession.SubmitThenClearEmptiesInput | AiChatbot.py:75-77 | after a non-blank submission, which sets the flag (line 180), the next pending-clear step shows an empty input whatever the draft held |
| Cycle.TopOfScript | AiChatbot.py:65-77 | before any widget is drawn the flag is false, a pending clear has emptied the shown draft, and transcript and profile are kept |
| Cycle.FreshSettled | AiChatbot.py:65-72 | a fresh session has a well-formed transcript and no pending clear |
| Cycle.StepClearChat | AiChatbot.py:65-96 | between interactions, "Clear chat" empties the transcript and leaves draft, flag and profile as they were |
| Cycle.StepBlankSend | AiChatbot.py:163-166 | a send of a `None` or all-whitespace draft leaves the transcript as it was, keeps the typed draft in the box, and sets no flag |
| Cycle.StepSend | AiChatbot.py:65-183 | a non-blank send appends exactly `{user, stripped draft}` then `{assistant, answer}` after the old transcript. After the rerun the input box is empty and no clear is pending |
| Cycle.Step | AiChatbot.py:65-183 | after any interaction no clear is pending and the profile is unchanged. "Clear chat" empties the transcript. With no clear pending beforehand, a blank send keeps the transcript and the typed draft. A non-blank send extends the old transcript by 2 turns, the first `{user, stripped draft}`, and leaves the input box empty |
| Cycle.Run | AiChatbot.py:65-183 | a sequence of Clear-chat and Send interactions never changes the profile, and after at least one interaction no clear is pending |
| Cycle.StepSettled | AiChatbot.py:65-183 | every interaction keeps the transcript well formed, leaves no clear pending, and keeps the profile |
| Cycle.RunSettled | AiChatbot.py:65-183 | over any sequence of Clear-chat and Send interactions the transcript stays well formed, no clear is pending between interactions, and the profile never changes |

## Left out

- Page styling, the navbar and the chat-bubble rendering (AiChatbot.py:9-48, 101-106): presentation only.
- Sidebar profile editing (AiChatbot.py:84-85): free text with no validation. The profile is kept only as a field that the chat transitions must not change.
- Cycle.RunSettled: profile edits are not events, so "the profile never changes" holds only over Clear-chat and Send interactions. Lines 84-85 do overwrite `user_profile` when the sidebar fields are edited.
- The sidebar history listing (AiChatbot.py:88-92): a display projection with no effect on state.
- The Hugging Face endpoint setup and call (AiChatbot.py:53-60, 172-173). The model becomes the `invoke` parameter.
- The `getattr(reply, "content", str(reply))` extraction: `Replied(content)` carries the extracted text.
- The exception object: `Raised(detail)` carries its `str()`. Failures are not told apart by exception type.
- ChatSession.Submit: line 174 catches only `Exception` subclasses. The model assumes every failure of lines 172-173 is one, and that its `str()` does not itself raise. A `BaseException` that is not an `Exception` (such as `KeyboardInterrupt` or `SystemExit`) is not modelled. Neither is an exception whose `str()` raises while line 175 formats it. Either would leave a user turn with no answer, no pending clear and no rerun, a state outside `WellFormed`.
- The browser speech-to-text script (AiChatbot.py:120-156): it runs in the browser and only writes into the input widget.
- `load_dotenv`, `st.form` and the widget drawing: framework plumbing.
- `st.rerun()` is modelled as "run the top of the script once more, then stop".
- Streamlit's widget-key shadowing of `text` is not modelled. It is why the clear must come before the draw. The model keeps only that ordering: `TopOfScript` runs before the draft is read.
- PyStrip.IsSpace: it lists the code points CPython's `str.isspace()` accepts as a fixed table. This approximates Python's whitespace set, which follows the Unicode database of the running interpreter.
