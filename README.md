# Session model of a Gemini chat front-end

This Dafny project models the conversation session of a single-page Streamlit chat app
for the Gemini API (`main.py`). The Streamlit session state is modelled as plain state
with explicit operations:

- the **history**, an ordered sequence of turns. Each turn has a role (`user` or `model`)
  and an ordered list of parts. A part is a text or an opaque image reference.
- the **raw log**, an append-only sequence of entries. Each entry holds a request snapshot
  and either the normalised response (`success` true) or the error text (`success` false).
- the **configuration**: model name, system prompt, generation parameters, safety
  thresholds per harm category, and UI settings.

The modelled operations are:

- sending a prompt. This step checks the API key and binds a chat session if needed. It
  appends the user turn, consumes a streamed or whole reply, appends the model turn only
  when the reply arrived without an exception, and appends exactly one log entry.
- editing and deleting turns from the log tab.
- the plain-text export of the history.
- `response_to_dict`.
- `initialize_session_state`.
- the safety-settings loop.
- the default choice in the model select box.
- the newest-first numbering of the raw log display.

Modules, one per component:

| module | file | contents |
|---|---|---|
| `Wrappers` | wrappers.dfy | `Option`, `Result` |
| `Conversation` | conversation.dfy | roles, parts, turns, first-text lookup, edit definition, user parts, role labels |
| `Streaming` | streaming.dfy | the abstract reply of the remote client, stream aggregation |
| `Normalizer` | normalizer.dfy | JSON values, the response datatype, `response_to_dict`, reading a record back |
| `Settings` | settings.dfy | harm categories, thresholds, defaults, parameter ranges, model list filter and sort |
| `Interaction` | interaction.dfy | request snapshot, raw-log entries, newest-first numbering |
| `TextExport` | export.dfy | the `.txt` history export |
| `Session` | session.dfy | the store and its initialisation, the `SessionState` class and its operations |

The remote client is abstracted as values:

- `modelCreated` says whether `GenerativeModel(...)`/`start_chat` succeed.
- A `Reply` is one of three things. `send_message` raises at once (`SendRaised`), or it
  returns a stream of chunk events, any of which may raise (`Streamed`), or it returns a
  single response whose `.text` may raise (`Whole`).
- Timestamps are opaque strings passed in by the caller.

## Model

| member | source | states |
|---|---|---|
| `Conversation.FirstTextAt` | main.py:338 | the `next(...)` lookup returns the text of the first text part of a turn |
| `Conversation.FirstTextNone` | main.py:325 | a turn without a text part looks up as the fallback (`""` in the editor, the placeholder in the export) |
| `Conversation.FirstTextExists` | main.py:344-346 | a part list that contains text has a first text part |
| `Conversation.FindTextPartIndex` | main.py:344-346 | the scan returns -1 exactly when the turn has no text part, and otherwise the index of the first text part |
| `Conversation.EditedParts` | main.py:343-348 | the edit definition never yields an empty part list; its effect is stated in the two lemmas below |
| `Conversation.EditReplacesFirstText` | main.py:347 | an edit of a turn with text replaces exactly the first text part in place; all other parts are unchanged |
| `Conversation.EditAppendsWhenNoText` | main.py:348 | an edit of a turn without text appends the new text after all existing parts |
| `Conversation.EditedFirstText` | main.py:343-348 | after an edit, the turn's first text is the new text, whatever it was before |
| `Conversation.SkippedEditIsNoOp` | main.py:338-343 | when the new text equals the current text of a turn that has text, the skipped edit would not have changed the turn |
| `Conversation.NoTextInTail` | main.py:345-346 | a part list without text has no text in its tail either |
| `Conversation.UserParts` | main.py:192-195 | a user turn is `[prompt]`, or `[image, prompt]` with an attached file; the prompt is always the last part and the first text |
| `Conversation.DisplayRole` | main.py:169 | the role `model` is shown as `assistant`, and `user` as itself |
| `Conversation.ExportLabel` | main.py:324 | the export labels user turns `User` and every other turn `AI` |
| `Normalizer.EnumNameOr` | main.py:113 | an absent enum, or its zero member, gives the default; any other member gives its name |
| `Normalizer.RatingsToMap` | main.py:114 | the ratings map has exactly the categories that occur in the ratings as its keys |
| `Normalizer.RatedSnoc` | main.py:114 | a category occurs in a rating list with one more rating exactly when it occurs earlier in the list or in that last rating |
| `Normalizer.LastRatingWins` | main.py:114 | for a repeated category, the value kept is the probability of its last rating |
| `Normalizer.ResponseToDict` | main.py:102-137 | the record has exactly the keys `candidates`, `prompt_feedback` and `usage_metadata`. There is one candidate object per candidate, or none when the response or its candidates are missing. Candidate i records candidate i's part texts and role under `content`, its finish reason by name (`"UNKNOWN"` when unset or zero), its safety ratings by category name, and its token count. Present usage records its three counts, and present feedback records its block reason by name (`"NONE"` when unset or zero) and its ratings. Missing usage or feedback gives `{}` |
| `Normalizer.PartTextsRoundTrip` | main.py:112 | the texts of a `parts` list can be read back in order |
| `Normalizer.CandidateTextsRoundTrip` | main.py:110-116 | the part texts of every candidate can be read back in order |
| `Normalizer.CandidateDictTexts` | main.py:111-112 | the texts of one candidate's `content.parts` read back unchanged |
| `Normalizer.CandidateListSplit` | main.py:110-111 | the first normalised candidate reads back, and the rest are the remaining candidates normalised in order |
| `Normalizer.NormalizedTextsRoundTrip` | main.py:108-116 | normalisation keeps every candidate's part texts, in order |
| `Normalizer.NormalizedUsageRoundTrip` | main.py:118-124 | normalisation keeps the three token counts, or records their absence as `{}` |
| `Streaming.FirstRaise` | main.py:225-227 | finds the first chunk event that raises, with no raise before it, or confirms that none raises |
| `Streaming.JoinedAppend` | main.py:224-227 | the aggregated text of two consecutive stretches of a stream is the concatenation of their texts |
| `Streaming.EmptyChunkIgnored` | main.py:226 | an empty chunk never changes the aggregated text |
| `Streaming.AggregateStream` | main.py:224-229 | the streaming loop joins the chunk texts in order; at the first exception it stops with that error and the partial text |
| `Streaming.ReplySucceedsIffNothingRaises` | main.py:217-244 | a send attempt succeeds exactly when neither `send_message`, nor any chunk, nor `.text` raises |
| `Streaming.StreamedTextIsJoined` | main.py:224-230 | a stream without exceptions yields the concatenation of all chunk texts |
| `Streaming.HiThereExample` | main.py:224-227 | the chunks `"Hi"` and `" there"` aggregate to `"Hi there"` |
| `Streaming.PartialThenRaiseExample` | main.py:244-249 | a stream that raises after `"Partial"` fails with the raised error |
| `Settings.ThresholdByName` | main.py:308 | `HarmBlockThreshold[name]` succeeds exactly for the offered names and returns the member of that name |
| `Settings.ThresholdNameRoundTrip` | main.py:298-308 | every threshold's name is offered, and looking it up returns the threshold |
| `Settings.IndexOf` | main.py:305 | `list.index` returns the first position of an element, and fails exactly when the element is absent |
| `Settings.ShownOption` | main.py:301-305 | the option a select box shows by default maps back to the current threshold, so `index` never fails |
| `Settings.SafetyLogRoundTrip` | main.py:206 | the logged safety settings name every configured category, and each threshold can be read back from its name |
| `Settings.CategoryAt` | main.py:300 | the loop visits the categories in the order in which the default settings insert them |
| `Settings.SelectedThreshold` | main.py:301-308 | one pass of the loop stores the picked threshold, or the current one when the user keeps the shown option |
| `Settings.SafetyLogAt` | main.py:206 | each configured category is logged under its own name with its threshold's name |
| `Settings.CategoryNameInjective` | main.py:206 | distinct categories have distinct names, so no logged entry overwrites another |
| `Settings.DefaultsAreValid` | main.py:30-45 | the default parameters are within the widget ranges, and all four categories default to `BLOCK_NONE` |
| `Settings.OfferedNames` | main.py:269-270 | a name is offered exactly when some listed model has it, supports `generateContent`, and contains `gemini` |
| `Settings.StrLeTotal` | main.py:270 | Python's string order is total |
| `Settings.StrLeTrans` | main.py:270 | Python's string order is transitive |
| `Settings.Insert` | main.py:270 | inserting into a sorted list keeps it sorted and adds exactly the new element |
| `Settings.SortNames` | main.py:270 | `sorted` returns an ordered permutation of its input |
| `Settings.DefaultModelChoice` | main.py:270-275 | the select box starts on the current model when it is offered, and otherwise on the smallest offered name; it has no choice when nothing is offered |
| `Interaction.SuccessEntry` | main.py:237-242 | a successful attempt is logged with `success` true, its timestamp and request, and as body exactly `response_to_dict` of the final response, a three-key record |
| `Interaction.FailureEntry` | main.py:244-251 | a failed attempt is logged with `success` false and the error text as its body |
| `Interaction.NewestFirst` | main.py:385-387 | the display lists entries newest first; position i shows entry `len - 1 - i` numbered `len - i` |
| `Interaction.NumberIsAppendPosition` | main.py:387 | the p-th appended entry (from 0) is shown as number p + 1 |
| `Interaction.AppendKeepsNumbers` | main.py:385-387 | appending an entry puts it on top with the next number, and older entries keep theirs |
| `TextExport.TextLogSingle` | main.py:326 | the export of a one-turn history is that turn's block |
| `TextExport.TextLogConcat` | main.py:322-326 | the export of two consecutive stretches of history is the concatenation of their exports |
| `TextExport.TextLogAt` | main.py:323-326 | every turn contributes exactly its own block, at its own place |
| `TextExport.BlockShape` | main.py:324-326 | a block starts with `[User]\n` or `[AI]\n` and ends with `\n\n---\n`; a turn without text shows `[이미지 또는 파일]` |
| `TextExport.EditedBlock` | main.py:326 | an edited turn's block shows the new text |
| `TextExport.ExportAfterEdit` | main.py:321-348 | after editing turn i, only turn i's block changes, and it shows the new text |
| `TextExport.ExportTextLog` | main.py:321-326 | the export loop produces the text export, and offers a download only when the history is not empty |
| `Session.Initialize` | main.py:15-57 | after initialisation every key is present. Every key that was already present keeps its value, and every missing key gets its own default |
| `Session.LateKeyGetsDefault` | main.py:47-53 | a session stored before `ui_settings` existed gains that key with its default, and nothing else changes |
| `Session.InitializeCompleteIsNoOp` | main.py:15-57 | when every key is present, initialisation changes nothing |
| `Session.InitializeIdempotent` | main.py:15-57 | initialising twice is the same as initialising once |
| `Session.FirstRunDefaults` | main.py:18-57 | the first run holds each of the twelve defaults literally: an empty key, `gemini-1.5-pro-latest`, no chat session, an empty history, the Korean-answering system prompt, temperature 0.7, top-p 1.0, top-k 40, 2048 output tokens, `BLOCK_NONE` for all four categories, the default avatars at 40 px, and an empty log |
| `Session.ModelTurns` | main.py:223-234 | a successful reply adds one model turn with exactly one text part, and a failed one adds none |
| `Session.EntryFor` | main.py:237-251 | the log entry of an attempt has `success` set exactly when the reply succeeded, and holds the error text otherwise |
| `Session.InterruptedStreamKeepsOnlyUserTurn` | main.py:225-251 | a stream that raises adds no model turn, and the attempt is logged as failed with the first error |
| `Session.CompletedStreamAddsJoinedText` | main.py:224-230 | a stream without exceptions adds one model turn holding the joined chunk texts |
| `Session.ReceiveReply` | main.py:217-251 | consuming a reply produces exactly the model turns and the log entry that the reply determines |
| `Session.ApplyPicks` | main.py:300-308 | the loop over the categories gives every category its picked threshold, or keeps its own; it adds and removes no category |
| `Session.SessionState.Request` | main.py:206-215 | the logged request holds the current model name, system prompt and the four generation parameters. Its safety settings are the logged form `SafetyLog` of the current thresholds, which by `Settings.SafetyLogRoundTrip` names exactly the configured categories and reads back to each threshold |
| `Session.SessionState.Stored` | main.py:15-57 | the session state is a complete store |
| `Session.SessionState.constructor` | main.py:15-57 | the first run holds the defaults that initialisation gives an empty store, and the state invariant holds |
| `Session.SessionState.RecreateChatSession` | main.py:71-97 | a chat session is bound exactly when an API key is set and the model can be created; otherwise the binding is unchanged |
| `Session.SessionState.Send` | main.py:183-251 | nothing changes for an empty prompt, a missing API key, or a failed model creation. Otherwise the chat is bound, the history gains the user turn and then the model turn if the reply succeeded, and exactly one entry is appended to the log. The configuration is unchanged |
| `Session.SessionState.Exchange` | main.py:197-251 | the user turn is appended first, then the reply's model turns; exactly one log entry is appended and earlier entries are unchanged |
| `Session.SessionState.EditTurnText` | main.py:335-349 | an index past the end is reported and changes nothing; an unchanged text is skipped; otherwise only turn i changes, to its edited parts |
| `Session.SessionState.DeleteTurn` | main.py:352-353 | deleting index i removes exactly that turn: the length drops by one and the remaining turns keep their order; an index past the end changes nothing |
| `Session.SessionState.UpdateSafetySettings` | main.py:300-308 | every configured category takes its picked threshold, or keeps its own; the set of categories is unchanged |
| `Session.SessionState.SetParameters` | main.py:289-293 | values inside the widget ranges (`top_k` in 1..100, `max_output_tokens` in 1..8192) are stored; any other values change nothing |
| `Session.SessionState.SetSystemInstruction` | main.py:283 | the system prompt is replaced, and the chat session is not rebuilt |
| `Session.SessionState.SetApiKey` | main.py:257-259 | the key is stored whether or not configuring the client succeeds |

Some definitions model source lines directly and carry no contract of their own. The
lemmas in the table state their properties:

- `Conversation.FirstText` is the `next(...)` lookup (main.py:325, 338).
- `TextExport.Block` is one export block (main.py:324-326).
- `TextExport.TextLog` is the whole export (main.py:321-326).
- `Streaming.Joined` is the accumulated stream text (main.py:224-227).
- `Streaming.StreamOutcomeOf` is the stream's result, or its first exception (main.py:224-229, 244).
- `Streaming.ReplyResult` is the outcome of one send attempt (main.py:217-244).
- `Settings.SafetyLog` is the logged safety settings (main.py:206).

The `SessionState` invariant `Valid()` is kept by every operation. It says:

- the parameters are within their widget ranges.
- exactly the four harm categories are configured.
- every turn has at least one part.
- every log entry's `success` flag matches its body.

## Behaviour that a reader might expect otherwise

The model follows the code in each of these cases:

- A stream that fails midway keeps nothing of its partial text. The code appends no model
  turn, and it logs only `str(e)` as the body. A best-effort client would keep the partial
  text; this one does not.
- Missing usage metadata gives an empty object `{}`, not three counts of zero.
- Changing a setting or editing a turn does not rebuild the chat session by itself.
  `get_gemini_model`, modelled as `RecreateChatSession`, is called in three places: by the
  "save" button (main.py:310), by the "apply changes" button (main.py:357), and by the chat
  path when no session is bound yet (main.py:188-190, part of `Send`).
  An edit returns whether it changed the history, which is the code's `history_changed`
  flag (main.py:334, 349).
- The stored role of the assistant is `model`, not `assistant`. It is displayed as
  `assistant`.
- The code never validates turns. Every turn it builds has at least one part, and the
  model proves this as an invariant.

## Left out

- Streamlit rendering, widgets, tabs, CSS and avatar handling (main.py:161-183, 199-202, 396-460): user interface only. This includes the avatar size slider (20..80) and the error messages shown with `st.error`.
- Remote calls (`genai.configure`, `GenerativeModel`, `start_chat`, `send_message`, `list_models`): foreign network calls. Their outcomes are parameters (`modelCreated`, `Reply`, the model listing). The chat session's own copy of the history is not modelled.
- PIL image decoding (main.py:194): images are opaque references. Reading `CHANGELOG.md` (main.py:146-155): file I/O.
- `datetime.now()` (main.py:238, 330, 371): timestamps are opaque strings supplied by the caller.
- The raw-log download (main.py:365-380): `json.dumps` is a library serialiser. The "json" and "txt" choices produce the same text and differ only in MIME type (`application/json` or `text/plain`) and file-name suffix.
- `image_to_base64` (main.py:139-143): it wraps the library's Base64 encoder (RFC 4648, section 4) and prefixes the result with `data:image/png;base64,`.
- The UTF-8 encoding of the text download (main.py:329): the model produces the string.
- Temperature and top-p are floats in the source. Here they are exact reals that are only copied and range-checked, so no floating-point behaviour is modelled.
- Writing the model select box's value back into the session (main.py:271): this is a widget result. `DefaultModelChoice` gives the value the box starts on. `None` means the box is empty, in which case the source stores `None` as the model name. A failing `list_models` leaves the model name unchanged.
- Session.SessionState.EditTurnText: indices are natural numbers. Python's negative indices never reach the edit or delete paths, because `enumerate` produces the indices. An index past the end is reported as a status, where Python would raise `IndexError`.
- Session.SessionState.DeleteTurn: the same index convention as `EditTurnText`.
- Session.SessionState.UpdateSafetySettings: the select box's answer is a parameter, the picked threshold, or no pick when the user keeps the shown option. The name round trip through `HarmBlockThreshold[...]` is proved in `Settings.SelectedThreshold`.
- Settings.ThresholdByName: it covers the five threshold members of SDK versions whose `HarmBlockThreshold` enum has five members; the source pins no SDK version. Later SDK versions add `OFF`, which would simply be one more offered option.
- Normalizer.ResponseToDict: it is total, so the case where the library's attribute access raises inside the `try` block is not modelled. In that case the source would log a failure after the model turn was already appended.
