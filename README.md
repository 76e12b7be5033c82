# E-commerce chat support: session controller

This project models the per-session controller of a Streamlit chat page
(`ecommerce_chat_support/app.py`). The page forwards visitor messages to a
hosted language model and streams the reply back into a chat transcript.
It also captures a visitor's name and email in a scripted two-turn dialogue
when the prompt mentions subscribing.

The model covers:

- **The transcript** (`Transcript`): role-tagged messages, the fixed system
  prompt that seeds it, and the role filter applied when a backend request
  is built.
- **The model registry and token budget** (`Models`): the six registered
  models, their token ceilings, and the max-tokens slider's bounds, step
  and starting value.
- **The intent router** (`IntentRouter`): a case-insensitive substring test
  of the prompt against the keywords "subscribe", "sign up", "provide info",
  "information" and "register".
- **The token stream** (`TokenStream`): the generator that drops absent or
  empty chunk contents, and the join of the remaining fragments into one
  reply.
- **The session** (`ChatSession.Session`): a class whose fields are the
  page's session state (`messages`, `selected_model`, `collecting_info`,
  `user_info`) plus a ghost log of the records written to the CSV sink.
  Its methods are the first run (`Init`), the model-change reset
  (`SelectModel`), the prompt handler (`HandlePrompt`, whose branches are
  `RecordPrompt`, `TakeName`, `TakeEmail`, `StartCapture` and `Forward`) and
  one full script run (`Rerun`). `HandlePrompt` is proved against `Turn`, a
  function on the session's values (`SessionState`) that gives the new
  values, the request sent, the fragments shown and the record saved. The
  properties of a turn, and of a run of turns (`Conversation`), are lemmas
  about `Turn`.
  `Valid()` is the session invariant:
  - the transcript starts with the single system message and holds only chat roles;
  - an idle session holds no name;
  - no email outlives the turn that supplies it, provided the CSV save on
    that turn does not raise (see "## Left out" for the state a failing save
    leaves behind, and `ChatSession.StuckCaptureSwallowsAll`).
- **Scenarios** (`Scenarios`): client methods that drive a session through
  the contracts alone: the three steps of the registration dialogue and the
  whole dialogue, a model switch during capture, and an interrupted and a
  completed stream.

The backend reply is an input to the turn. It is either a stream that ran
to its end, or an exception raised after some chunks had arrived
(`Completion`). Each chunk's content is `None` or a string, as in
`chunk.choices[0].delta.content`.

In these places the page does less than a reader might expect, and the model follows the page:

- Selecting a different model reseeds the transcript but does not clear
  the capture state. A name captured before the switch is still paired
  with the next prompt and saved (`Scenarios.SwitchModelDuringCapture`).
- The max-tokens value is not clamped. It is whatever the slider returns,
  passed through unchanged into the request. `Models.SliderValue` describes
  the values the slider offers.
- There is no check that rejects unknown roles on append. Roles are strings,
  and the request filter drops any role other than system, user and assistant.
- There is no unknown-model error. The select box offers only the registered
  keys, so `ModelId` has exactly those six values.
- The select box starts at index 4, which is `llama3-8b-8192`, although the
  comment beside it names mixtral (`Models.DefaultOption`).

## Model

| member | source | states |
|---|---|---|
| `Models.DefaultOption` | ecommerce_chat_support/app.py:63-68 | the select box starts on a registered model, `llama3-8b-8192`, whose ceiling is 8192 |
| `Models.OptionsAreTheRegistry` | ecommerce_chat_support/app.py:50-65 | every model is offered by the select box, and no two options share a key |
| `Models.SliderValue` | ecommerce_chat_support/app.py:87-93 | the slider offers the values from 512 to the model's `tokens` ceiling in steps of 512; every such value is a multiple of 512 and at most 128000, the largest ceiling in the table |
| `Models.SliderDefault` | ecommerce_chat_support/app.py:83-93 | the slider's starting value `min(32768, tokens)` is one the slider can take: at least 512, at most the model's ceiling, on the 512 grid; it is 32768 exactly when the model allows that much, and the ceiling otherwise |
| `Models.CeilingIsSliderValue` | ecommerce_chat_support/app.py:50-57 | for every model, both 512 and the model's `tokens` ceiling are slider values, so the range is non-empty and its top is reachable in steps of 512 |
| `Transcript.ChatMessages` | ecommerce_chat_support/app.py:165-172 | the request holds a message exactly when the transcript holds it with role system, user or assistant; it holds no other role and is no longer than the transcript |
| `Transcript.ChatMessagesAppend` | ecommerce_chat_support/app.py:165-172 | the filter distributes over concatenation, so it keeps transcript order |
| `Transcript.ChatMessagesOfChatTranscript` | ecommerce_chat_support/app.py:165-172 | a transcript holding only chat roles is forwarded whole and unchanged |
| `Transcript.ChatMessagesDropsOtherRoles` | ecommerce_chat_support/app.py:171 | a message with any other role is dropped wherever it sits, and the rest is kept |
| `IntentRouter.MentionsKeyword` | ecommerce_chat_support/app.py:155 | the router fires when one of the five keywords is a substring of the lower-cased prompt; a prompt that fires has at least 7 characters, the length of the shortest keyword ("sign up") |
| `IntentRouter.Contains` | ecommerce_chat_support/app.py:155 | the scan returns true exactly when the keyword occurs as a contiguous substring of the text (Python's `in` on strings) |
| `IntentRouter.MentionsKeywordMeans` | ecommerce_chat_support/app.py:155 | the router fires exactly when some keyword occurs at some index of the lowered prompt |
| `IntentRouter.MentionsKeywordIgnoresCase` | ecommerce_chat_support/app.py:155 | the decision is the same for a prompt and its lower-cased form |
| `IntentRouter.LowerIdempotent` | ecommerce_chat_support/app.py:155 | lowering an already lowered prompt changes nothing |
| `IntentRouter.KeywordAnywhere` | ecommerce_chat_support/app.py:155 | any prompt with a keyword inside it triggers capture, whatever text surrounds it |
| `IntentRouter.MoreInformationPleaseIsCaptured` | ecommerce_chat_support/app.py:155 | the substring false positive is kept: "more information please" triggers capture |
| `IntentRouter.UpperCaseKeywordIsCaptured` | ecommerce_chat_support/app.py:155 | an upper-case keyword ("SIGN UP") triggers capture |
| `IntentRouter.GreetingIsNotCaptured` | ecommerce_chat_support/app.py:155 | a prompt without any keyword ("Hello there") does not trigger capture |
| `TokenStream.Fragments` | ecommerce_chat_support/app.py:122-126 | no fragment is empty, and there are never more fragments than chunks |
| `TokenStream.FragmentsAppend` | ecommerce_chat_support/app.py:122-126 | the generator is a single in-order pass: the fragments of two chunk runs are the fragments of each, concatenated |
| `TokenStream.ConcatAppend` | ecommerce_chat_support/app.py:180-185 | joining fragments distributes over concatenation |
| `TokenStream.JoinedFragmentsAreAllText` | ecommerce_chat_support/app.py:122-126 | dropping absent and empty chunks loses no text: the joined fragments are all the streamed text, in order |
| `TokenStream.HelloWorld` | ecommerce_chat_support/app.py:122-126 | from the chunks "Hel", None, "lo, ", "", "world!", exactly "Hel", "lo, ", "world!" are yielded, and they join to "Hello, world!" |
| `TokenStream.GenerateChatResponses` | ecommerce_chat_support/app.py:122-126 | the loop yields exactly the non-empty chunk contents in arrival order, and their join is all the streamed text |
| `TokenStream.JoinFragments` | ecommerce_chat_support/app.py:180-185 | the reply string is the in-order concatenation of the yielded fragments, and `""` when there were none |
| `ChatSession.Confirmation` | ecommerce_chat_support/app.py:146 | the confirmation is the fixed text of the f-string with the name and the email put in; its length is theirs plus the 94 fixed characters, so nothing else is interpolated |
| `ChatSession.ConfirmationQuotesBoth` | ecommerce_chat_support/app.py:146 | the confirmation contains both the captured name and the captured email |
| `ChatSession.Turn` | ecommerce_chat_support/app.py:128-192 | one submitted prompt as a function of the session's values: the prompt is recorded, then the name or email branch, the keyword branch or the backend call runs; every turn adds to the transcript, nothing is shown unless the backend is called, and a turn that saves a record neither calls the backend nor stays in capture |
| `ChatSession.InitialIsValid` | ecommerce_chat_support/app.py:29-47 | the first-run values satisfy the session invariant and are idle |
| `ChatSession.TurnRecordsPrompt` | ecommerce_chat_support/app.py:128-192 | every turn keeps the invariant, appends the prompt as a user message right after the unchanged history, and adds at most one more message |
| `ChatSession.TurnTakesName` | ecommerce_chat_support/app.py:135-141 | awaiting the name, the prompt becomes the name verbatim, the email request is appended, the email stays None, and nothing is saved, sent or shown |
| `ChatSession.TurnTakesEmail` | ecommerce_chat_support/app.py:142-152 | awaiting the email, `(name, prompt)` is saved, the confirmation quoting both is appended, and capture ends with both fields None; nothing is sent or shown |
| `ChatSession.TurnStartsCapture` | ecommerce_chat_support/app.py:154-159 | idle with a keyword, capture starts with both fields None and the name request is appended; nothing is saved, sent or shown |
| `ChatSession.TurnForwards` | ecommerce_chat_support/app.py:160-175 | idle without a keyword, the request carries the model, the whole transcript including the prompt (the role filter drops nothing) and the slider value; the session stays idle and nothing is saved |
| `ChatSession.TurnShowsReply` | ecommerce_chat_support/app.py:177-192 | idle without a keyword, the shown fragments are the generator's output and join to all the streamed text; a completed stream appends one assistant message holding that text, an exception appends nothing |
| `ChatSession.TurnSavesAndSends` | ecommerce_chat_support/app.py:135-192 | a record is saved exactly on the turn that supplies the email, and the backend is called exactly on an idle turn without a keyword |
| `ChatSession.ConversationKeepsHistory` | ecommerce_chat_support/app.py:128-192 | over any run of prompts the invariant holds, the earlier transcript is never edited, each prompt adds at least one message, and at most one record is saved per prompt |
| `ChatSession.TurnInStuckCapture` | ecommerce_chat_support/app.py:135-152 | with the flag set and both a name and an email held (what a raising save leaves), a turn matches neither capture branch: it only records the prompt, and nothing is saved, sent or shown |
| `ChatSession.StuckCaptureSwallowsAll` | ecommerce_chat_support/app.py:128-152 | once in that state, any run of prompts keeps the flag, the name and the email, only appends one user message per prompt after the unchanged history, and saves nothing |
| `ChatSession.EmailEndsCapture` | ecommerce_chat_support/app.py:142-152 | awaiting the email, one prompt saves exactly the captured name with it and the session is idle again |
| `ChatSession.NameThenEmail` | ecommerce_chat_support/app.py:137-152 | awaiting the name, a name and then an email save exactly that pair, end idle, and append the four messages of the exchange |
| `ChatSession.CaptureDialogue` | ecommerce_chat_support/app.py:135-159 | from any idle state, a keyword prompt, a name and an email save exactly that one pair, end idle, and append the six messages of the dialogue in order |
| `ChatSession.Session.Init` | ecommerce_chat_support/app.py:29-47 | a new session holds exactly the one system message, no selected model, `collecting_info` false, `user_info` both None, and nothing saved |
| `ChatSession.Session.SelectModel` | ecommerce_chat_support/app.py:71-81 | a different model resets the transcript to the single system message and is recorded; the same model leaves the transcript unchanged; the capture state and the saved log are untouched either way |
| `ChatSession.Session.HandlePrompt` | ecommerce_chat_support/app.py:128-192 | the new values, the request sent, the fragments shown and the record saved are exactly those of `Turn` on the old values, so every `Turn` lemma holds of the handler; the invariant is kept and the selected model is untouched |
| `ChatSession.Session.RecordPrompt` | ecommerce_chat_support/app.py:129 | the prompt is appended as a user message and the invariant is kept |
| `ChatSession.Session.TakeName` | ecommerce_chat_support/app.py:137-139 | the prompt is stored verbatim as the name, the email stays None, and the email request is appended |
| `ChatSession.Session.TakeEmail` | ecommerce_chat_support/app.py:142-152 | `(name, prompt)` is saved exactly once, the confirmation for that pair is appended, and the state returns to idle with both fields None |
| `ChatSession.Session.StartCapture` | ecommerce_chat_support/app.py:155-157 | capture starts awaiting a name and the name request is appended |
| `ChatSession.Session.Forward` | ecommerce_chat_support/app.py:162-192 | the request carries the selected model, the chat-role transcript and the slider value; the fragments are shown in order; a completed stream appends one assistant message with all streamed text; an exception appends nothing |
| `ChatSession.Session.Rerun` | ecommerce_chat_support/app.py:70-192 | the model selection runs before the prompt: a non-empty chat input is handled as `Turn` on the values after the possible reseed, with the selected model and the slider value; an empty or absent input changes nothing beyond the selection |
| `Scenarios.AskToRegister` | ecommerce_chat_support/app.py:154-159 | on an idle session, a keyword prompt leaves it awaiting the name with the prompt and the name request appended, and nothing saved |
| `Scenarios.GiveName` | ecommerce_chat_support/app.py:137-141 | awaiting the name, the prompt becomes the awaited-email state's name, with the prompt and the email request appended, and nothing saved |
| `Scenarios.GiveEmail` | ecommerce_chat_support/app.py:142-152 | awaiting the email, the pair is saved once, the prompt and the confirmation are appended, and the session is idle |
| `Scenarios.RegistrationDialogue` | ecommerce_chat_support/app.py:128-157 | "I'd like to register", "Jane Doe", "jane@x.com" saves exactly the pair (Jane Doe, jane@x.com), leaves the session idle, and records all six turns after the system message |
| `Scenarios.SwitchModelDuringCapture` | ecommerce_chat_support/app.py:71-152 | switching models while the email is awaited reseeds the transcript but keeps the name, so the next prompt completes and saves the pair |
| `Scenarios.InterruptedStream` | ecommerce_chat_support/app.py:160-192 | when the stream breaks after one fragment, the request was the whole transcript, the fragment was shown, and no assistant message is appended |
| `Scenarios.CompletedStream` | ecommerce_chat_support/app.py:122-192 | a completed stream with absent and empty chunks shows three fragments and appends their join "Hello, world!" |

## Left out

- Page rendering: the page configuration, icon, subheader, columns, and the display of messages (lines 8-22, 60-68, 97-103, 131-132 and the `st.chat_message` blocks). The widgets' values are method inputs.
- The Groq client, the API key from the secrets store, and the network call (lines 24-26, 163-175). The backend's answer is a `Completion` input. The request's constant `stream=True` is not a field of `Request`.
- `save_user_info` (lines 105-120): the CSV file, its header row and the `datetime.now()` timestamp. Each save is an append of `(name, email)` to the ghost `saved` log.
- A failing `save_user_info`: the call at line 145 is outside any `try`, so a write that raises stops the script after line 143 has set the email while `collecting_info` is still true. The session then stays stuck in capture: every later prompt is only recorded, nothing is saved and the backend is never called, and a model change does not clear it (lines 71-81). `SessionState.Valid` and the handler's contract assume the save succeeds; the stuck state itself is modelled by `Turn` and described by `ChatSession.TurnInStuckCapture` and `ChatSession.StuckCaptureSwallowsAll`.
- The `name` and `developer` entries of the model table (lines 51-56): the name is only the select box's display text (`format_func`, line 66) and the developer is never read, so `ModelId` carries only the key and the `tokens` ceiling.
- The error banner `st.error` (line 192). A raised exception is modelled only by what it prevents: the reply is not appended.
- `TokenStream.JoinFragments`: assumes `st.write_stream` returns the concatenation of the fragments as a string. The non-string branch that joins items with newlines (lines 186-190) depends on that library's return type and is not modelled.
- `IntentRouter.Lower`: lowers only ASCII letters, while Python's `str.lower` handles all of Unicode. For the five ASCII keywords this gives the same decision. The only non-ASCII characters whose lower case contains ASCII letters are the Kelvin sign (to "k", in no keyword) and dotted capital I (to "i" plus a combining dot, and no keyword continues after an "i" with that dot).
- `ChatSession.Session.Rerun`: does not require the slider value to be a `Models.SliderValue`, because the handler does not check it. The slider widget is what keeps it in range.
