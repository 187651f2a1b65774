/** The stored conversation of one chat session: role-tagged turns, the
    outcome of the external generation call, the history after one
    submission, and the request handed to the generation service. */
module Turns {

  datatype Option<+T> = None | Some(value: T)

  /** Role tag of a stored turn. The hidden system instruction is stored
      with the `User` tag, like real user input. */
  datatype Role = User | Model

  /** One stored message `{"role": ..., "parts": [text]}`. The application
      only ever builds a one-element `parts` list, so the single part is
      kept as `text`. */
  datatype Turn = Turn(role: Role, text: string)

  /** What the external generation call produced: the reply text, or the
      detail of whatever exception it raised. */
  datatype Outcome = Ok(reply: string) | Err(detail: string)

  /** The request handed to the generation service: the chat is started
      with `history`, then `message` is sent as the live prompt. */
  datatype ChatRequest = ChatRequest(history: seq<Turn>, message: string)

  function UserTurn(prompt: string): Turn { Turn(User, prompt) }

  function ModelTurn(reply: string): Turn { Turn(Model, reply) }

  /** The turn that seeds every new history. */
  function SystemTurn(systemPrompt: string): Turn { UserTurn(systemPrompt) }

  /** The history of a session once the initialisation guard has run:
      an existing history is kept as it is, a missing one is seeded with
      the system turn alone. */
  function Initialised(messages: Option<seq<Turn>>, systemPrompt: string): (h: seq<Turn>)
    ensures messages.Some? ==> h == messages.value
    ensures messages.None? ==> |h| == 1 && h[0].role == User && h[0].text == systemPrompt
  {
    match messages
    case Some(h) => h
    case None => [SystemTurn(systemPrompt)]
  }

  /** Running the guard again changes nothing. */
  lemma InitialisedIdempotent(messages: Option<seq<Turn>>, systemPrompt: string)
    ensures Initialised(Some(Initialised(messages, systemPrompt)), systemPrompt) == Initialised(messages, systemPrompt)
  {
  }

  /** The history after one submission of `prompt`: the user turn, and
      after it the model turn only when the call succeeded. */
  function Step(history: seq<Turn>, prompt: string, outcome: Outcome): (r: seq<Turn>)
    ensures |r| == |history| + (if outcome.Ok? then 2 else 1)
    ensures r[..|history|] == history
    ensures r[|history|] == UserTurn(prompt)
    ensures outcome.Ok? ==> r[|r| - 1] == ModelTurn(outcome.reply)
  {
    var asked := history + [UserTurn(prompt)];
    match outcome
    case Ok(reply) => asked + [ModelTurn(reply)]
    case Err(_) => asked
  }

  /** The request built once the prompt is stored: the whole stored
      history, and the prompt once more as the live message. */
  function RequestFor(stored: seq<Turn>, prompt: string): ChatRequest
  {
    ChatRequest(stored, prompt)
  }

  /** Number of stored turns whose text is `text`. */
  function CountText(history: seq<Turn>, text: string): (n: nat)
    ensures n <= |history|
  {
    if history == [] then 0
    else CountText(history[..|history| - 1], text) + (if history[|history| - 1].text == text then 1 else 0)
  }

  /** How many times `text` reaches the generation service in one request,
      counting the history and the live message. */
  function Occurrences(request: ChatRequest, text: string): nat
  {
    CountText(request.history, text) + (if request.message == text then 1 else 0)
  }

  /** The request sent for a prompt starts with the system turn, ends with
      the prompt's own user turn, and the live message repeats that last
      turn's text, so the prompt reaches the service at least twice. */
  lemma {:induction false} RequestShape(history: seq<Turn>, systemPrompt: string, prompt: string)
    requires |history| >= 1 && history[0] == SystemTurn(systemPrompt)
    ensures var request := RequestFor(history + [UserTurn(prompt)], prompt);
      |request.history| == |history| + 1 &&
      request.history[0] == SystemTurn(systemPrompt) &&
      request.history[|request.history| - 1] == UserTurn(request.message) &&
      Occurrences(request, prompt) >= 2
  {
  }

  /** Submitting never edits, reorders or removes a stored turn: the old
      history is a prefix of the new one, so its first turn stays first. */
  lemma StepKeepsPrefix(history: seq<Turn>, prompt: string, outcome: Outcome, i: nat)
    requires i < |history|
    ensures i < |Step(history, prompt, outcome)| && Step(history, prompt, outcome)[i] == history[i]
  {
  }
}
