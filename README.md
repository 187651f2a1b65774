# Arraial do Cabo guide chat: session history model

The application is a one-page Streamlit chat that forwards questions to
the Gemini model. Its only logic with structure is the conversation
history kept in `st.session_state.messages`. Each run of the script does
three things to that history:

1. It seeds the history with one hidden turn carrying the system prompt,
   and only when the session has no history yet.
2. It draws every stored turn except those whose text equals the system
   prompt.
3. On a non-empty input, it appends the user turn, starts a chat with the
   whole stored history, and sends the same prompt again as the live
   message. On success it appends the model's reply. On any exception it
   shows an error banner that contains the exception detail and appends
   nothing more.

The model has three modules:

- `Turns` holds the data: `Turn`, `Outcome`, `ChatRequest`. It also holds
  the pure history functions `Initialised`, `Step` and `RequestFor`.
- `Display` holds the display filter. `Visible` is its specification, and
  the method `Render` models the drawing loop.
- `Session` holds the class `ChatSession`, which models the session state.
  Its field `messages` is `None` while the key is absent. Its methods are
  `InitHistory`, `Submit` and `Run`, where `Run` is one run of the script.
  The module also holds lemmas about a whole series of submissions
  (`Replay`).

The Gemini call is an `Outcome` parameter: `Ok(reply)` stands for a
returned `response.text`, and `Err(detail)` for any exception raised
between `start_chat` and the append of the reply. The chat input is an
`Option<string>`. A prompt is acted on only when it is present and
non-empty, which is Python truthiness for a string or `None`. The system
prompt is an opaque string fixed when the session object is built.

## Model

| member | source | states |
|---|---|---|
| Turns.Initialised | app.py:43-46 | An existing history is kept unchanged. A missing one becomes exactly one `user` turn whose text is the system prompt. |
| Turns.InitialisedIdempotent | app.py:43-46 | Running the initialisation guard a second time changes nothing. |
| Turns.Step | app.py:56-77 | A submission keeps the old history as a prefix and stores the user turn right after it. It grows the history by 2 on success, ending with the model turn that holds the reply, and by 1 on failure. |
| Turns.StepKeepsPrefix | app.py:58-74 | A submission never edits, reorders or removes a stored turn, so index 0 stays where it is. |
| Turns.RequestShape | app.py:58-69 | The request history is the stored list plus the new user turn. It starts with the system turn and ends with the prompt's turn. The live message equals that last turn's text, so the prompt reaches the service at least twice. |
| Display.SpeakerOf | app.py:52 | A `user` role is drawn as the user and any other role as the assistant, in both directions. |
| Display.ShownOf | app.py:51-53 | A turn contributes nothing exactly when its text equals the system prompt, and at most one message otherwise. |
| Display.Visible | app.py:50-53 | The page never shows more turns than are stored, and no shown message has the system prompt as its text. |
| Display.Render | app.py:50-53 | The drawing loop produces exactly `Visible` of the stored history. |
| Display.VisibleConcat | app.py:50-53 | The filter distributes over concatenation, so it is applied turn by turn in stored order. |
| Display.FreshHistoryShowsNothing | app.py:43-53 | A freshly seeded history shows nothing. |
| Display.VisibleMembership | app.py:50-53 | A message is shown if and only if some stored turn that is not hidden renders to it. |
| Display.VisibleAt | app.py:50-53 | Every turn that is not hidden is shown, at the position given by the count of shown turns before it. |
| Display.VisibleRankIncreasing | app.py:50-53 | Those positions strictly increase, so stored order is kept on the page. |
| Display.VisibleNoneHidden | app.py:50-53 | When no stored text equals the system prompt, every turn is shown one for one with its speaker. |
| Display.HiddenAnywhere | app.py:51 | The filter compares content, not position: a turn with the system prompt's text is hidden wherever it is stored and whatever its role, including one the user typed. |
| Display.StepVisible | app.py:50-77 | After a submission the page gains the prompt and then, only on success, the reply, each unless its text equals the system prompt. |
| Session.ErrorText | app.py:76 | The error banner is the fixed Portuguese prefix followed by the exception detail. |
| Session.ChatSession.constructor | app.py:43 | A new session has no stored history. |
| Session.ChatSession.InitHistory | app.py:43-46 | The method seeds the history with the system turn only when none exists and otherwise changes nothing. It keeps the invariant that the first stored turn is the system turn. |
| Session.ChatSession.Submit | app.py:58-77 | The user turn is stored before the call. The request is built from the history that already ends with it. The new history is `Step` of the old one. The error banner appears exactly on failure. |
| Session.ChatSession.Run | app.py:43-77 | One script run seeds the history if needed and draws the history as it stood before the input. On a truthy input it submits. On a missing or empty input it leaves the history unchanged and sends nothing. |
| Session.ReplayAppendOnly | app.py:44-74 | Over any series of submissions, the starting history stays a prefix. The history grows by one turn per attempt plus one per successful call. |
| Session.ReplayVisibleCount | app.py:43-77 | Take a fresh session and prompts and replies that differ from the system prompt. The page then shows one message per attempt plus one per success, which is twice the number of exchanges when every call succeeded. |
| Session.SubmitVisible | app.py:50-77 | When the prompt and reply differ from the system prompt, a failed call makes the page exactly one message longer, ending with the prompt. A successful call makes it exactly two longer, ending with the prompt and then the reply. |
| Session.FreshSessionExchange | app.py:43-74 | A fresh session shows nothing. After "Quais praias você recomenda?" is answered, the next run shows exactly that question and then the answer. |

## Left out

- Page set-up, the title and the introductory text (app.py:36-38) are not modelled, because they are UI only.
- The echo of the prompt and of the reply within the run that submits them (app.py:60-61, 72) is not modelled. Neither is the "Por favor, tente novamente mais tarde." line (app.py:77). These are rendering and do not touch the history. The model's `Run` returns only the history drawn at lines 50-53 and the error text.
- Loading `.env` and `GOOGLE_API_KEY`, and the halt through `st.stop()` when the key is missing (app.py:7-14), are configuration I/O. The model assumes a key is present.
- The Gemini client (`genai.configure`, `GenerativeModel`, `start_chat`, `send_message`, `response.text`; app.py:16-19, 68-71) is a network library that is not part of this model. It is replaced by the `Outcome` parameter. `Err` covers an exception raised anywhere in lines 68-74, and in each such case nothing beyond the user turn is stored.
- The text of the system prompt (app.py:24-34) is kept opaque. The topical rules it asks the model to follow are the external model's behaviour.
- `Turns.RequestFor` models what is passed to `start_chat` and `send_message` as a value. Whether the client copies the session list or keeps a reference to it is not modelled.
- Streamlit's rerun and session machinery is modelled only as far as the `"messages" not in st.session_state` guard. One session handles one request at a time.
- Each stored turn holds a single text part, because the application only ever builds `parts` lists of length one.
