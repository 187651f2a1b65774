/** The session-scoped history and what one run of the chat page does to
    it: seed it once, draw it, and on a submitted prompt store the prompt,
    call the generation service and store the reply when there is one. */
module Session {
  import opened Turns
  import opened Display

  const ERROR_PREFIX: string := "Ocorreu um erro ao processar sua pergunta: "

  /** The error banner shown when the generation call raised. */
  function ErrorText(detail: string): (r: string)
    ensures |r| == |ERROR_PREFIX| + |detail|
    ensures r[..|ERROR_PREFIX|] == ERROR_PREFIX && r[|ERROR_PREFIX|..] == detail
  {
    ERROR_PREFIX + detail
  }

  /** The chat input widget yields nothing, or a text that is acted on only
      when it is not empty. */
  predicate Submitted(input: Option<string>) { input.Some? && input.value != "" }

  /** The session state of one user: `messages` is `None` until the page
      first seeds it. */
  class ChatSession {
    const systemPrompt: string
    var messages: Option<seq<Turn>>

    /** Once the history exists its first turn is the system turn. */
    ghost predicate Valid()
      reads this
    {
      messages.Some? ==> |messages.value| >= 1 && messages.value[0] == SystemTurn(systemPrompt)
    }

    /** A new session: nothing stored yet. */
    constructor (systemPrompt: string)
      ensures Valid()
      ensures this.systemPrompt == systemPrompt && messages == None
    {
      this.systemPrompt := systemPrompt;
      messages := None;
    }

    /** The initialisation guard: seeds the history with the system turn
        only when the session has none; otherwise changes nothing. */
    method InitHistory()
      requires Valid()
      modifies this
      ensures Valid() && messages.Some?
      ensures old(messages).Some? ==> messages == old(messages)
      ensures old(messages).None? ==> messages == Some([SystemTurn(systemPrompt)])
    {
      if messages.None? {
        messages := Some([SystemTurn(systemPrompt)]);
      }
    }

    /** One submission: the user turn is stored before the call, the request
        is built from the history that already ends with it, and the model
        turn is stored only when the call succeeded; a failure yields the
        error banner instead. */
    method Submit(prompt: string, outcome: Outcome) returns (request: ChatRequest, error: Option<string>)
      requires Valid() && messages.Some?
      modifies this
      ensures Valid() && messages.Some?
      ensures messages.value == Step(old(messages).value, prompt, outcome)
      ensures request == RequestFor(old(messages).value + [UserTurn(prompt)], prompt)
      ensures outcome.Ok? ==> error == None
      ensures outcome.Err? ==> error == Some(ErrorText(outcome.detail))
    {
      messages := Some(messages.value + [UserTurn(prompt)]);
      request := RequestFor(messages.value, prompt);
      match outcome {
        case Ok(reply) =>
          messages := Some(messages.value + [ModelTurn(reply)]);
          error := None;
        case Err(detail) =>
          error := Some(ErrorText(detail));
      }
    }

    /** One run of the page: initialise, draw the stored history, then act
        on the input. `outcome` stands for what the generation call does
        on this run; it is consulted only when a prompt was submitted. */
    method Run(input: Option<string>, outcome: Outcome)
      returns (shown: seq<Shown>, request: Option<ChatRequest>, error: Option<string>)
      requires Valid()
      modifies this
      ensures Valid() && messages.Some?
      ensures shown == Visible(Initialised(old(messages), systemPrompt), systemPrompt)
      ensures Submitted(input) ==>
        messages.value == Step(Initialised(old(messages), systemPrompt), input.value, outcome) &&
        request == Some(RequestFor(Initialised(old(messages), systemPrompt) + [UserTurn(input.value)], input.value)) &&
        error == (if outcome.Err? then Some(ErrorText(outcome.detail)) else None)
      ensures !Submitted(input) ==>
        messages.value == Initialised(old(messages), systemPrompt) && request == None && error == None
    {
      InitHistory();
      shown := Render(messages.value, systemPrompt);
      request, error := None, None;
      if input.Some? && input.value != "" {
        var sent;
        sent, error := Submit(input.value, outcome);
        request := Some(sent);
      }
    }
  }

  /** One submitted prompt of a session and what the call did with it. */
  datatype Exchange = Exchange(prompt: string, outcome: Outcome)

  /** The history after a series of submissions, in order. */
  function Replay(history: seq<Turn>, exchanges: seq<Exchange>): seq<Turn>
  {
    if exchanges == [] then history
    else
      var last := exchanges[|exchanges| - 1];
      Step(Replay(history, exchanges[..|exchanges| - 1]), last.prompt, last.outcome)
  }

  /** Number of exchanges whose call succeeded. */
  function Successes(exchanges: seq<Exchange>): (n: nat)
    ensures n <= |exchanges|
  {
    if exchanges == [] then 0
    else Successes(exchanges[..|exchanges| - 1]) + (if exchanges[|exchanges| - 1].outcome.Ok? then 1 else 0)
  }

  /** Neither a prompt nor a reply of the exchanges equals the system prompt. */
  predicate NoneHidden(exchanges: seq<Exchange>, systemPrompt: string)
  {
    forall k :: 0 <= k < |exchanges| ==>
      exchanges[k].prompt != systemPrompt &&
      (exchanges[k].outcome.Ok? ==> exchanges[k].outcome.reply != systemPrompt)
  }

  /** Any series of submissions only appends: the starting history stays
      a prefix, and the history grows by one turn per attempt plus one per
      successful call. */
  lemma {:induction false} ReplayAppendOnly(history: seq<Turn>, exchanges: seq<Exchange>)
    ensures |Replay(history, exchanges)| == |history| + |exchanges| + Successes(exchanges)
    ensures Replay(history, exchanges)[..|history|] == history
  {
    if exchanges != [] {
      var front := exchanges[..|exchanges| - 1];
      var last := exchanges[|exchanges| - 1];
      ReplayAppendOnly(history, front);
      var mid := Replay(history, front);
      var r := Step(mid, last.prompt, last.outcome);
      assert r[..|mid|] == mid;
      assert r[..|history|] == mid[..|history|];
    }
  }

  /** From a fresh session, the page shows one message per attempt plus
      one per successful call, so twice the number of exchanges when every
      call succeeded. */
  lemma {:induction false} ReplayVisibleCount(systemPrompt: string, exchanges: seq<Exchange>)
    requires NoneHidden(exchanges, systemPrompt)
    ensures |Visible(Replay([SystemTurn(systemPrompt)], exchanges), systemPrompt)| ==
      |exchanges| + Successes(exchanges)
    ensures Successes(exchanges) == |exchanges| ==>
      |Visible(Replay([SystemTurn(systemPrompt)], exchanges), systemPrompt)| == 2 * |exchanges|
  {
    if exchanges == [] {
      FreshHistoryShowsNothing(systemPrompt);
    } else {
      var front := exchanges[..|exchanges| - 1];
      var last := exchanges[|exchanges| - 1];
      assert NoneHidden(front, systemPrompt) by {
        forall k | 0 <= k < |front| ensures front[k] == exchanges[k] { }
      }
      ReplayVisibleCount(systemPrompt, front);
      StepVisible(Replay([SystemTurn(systemPrompt)], front), systemPrompt, last.prompt, last.outcome);
    }
  }

  /** A failed call leaves the page one message longer, ending with the
      prompt; a successful one two longer, ending with the prompt and then
      the reply. */
  lemma SubmitVisible(history: seq<Turn>, systemPrompt: string, prompt: string, outcome: Outcome)
    requires prompt != systemPrompt && (outcome.Ok? ==> outcome.reply != systemPrompt)
    ensures var before := Visible(history, systemPrompt);
      var after := Visible(Step(history, prompt, outcome), systemPrompt);
      (outcome.Err? ==> after == before + [Shown(UserBubble, prompt)]) &&
      (outcome.Ok? ==> after == before + [Shown(UserBubble, prompt), Shown(AssistantBubble, outcome.reply)])
  {
  }

  /** A fresh session shows nothing; after the question is answered the
      next run shows exactly the question and the answer. */
  method FreshSessionExchange(systemPrompt: string) returns (first: seq<Shown>, second: seq<Shown>)
    requires systemPrompt != "Quais praias você recomenda?"
    requires systemPrompt != "Praia do Farol! 🎉 Mais alguma dúvida?"
    ensures first == []
    ensures second == [Shown(UserBubble, "Quais praias você recomenda?"),
                       Shown(AssistantBubble, "Praia do Farol! 🎉 Mais alguma dúvida?")]
  {
    var session := new ChatSession(systemPrompt);
    var request, error;
    first, request, error := session.Run(Some("Quais praias você recomenda?"), Ok("Praia do Farol! 🎉 Mais alguma dúvida?"));
    FreshHistoryShowsNothing(systemPrompt);
    SubmitVisible([SystemTurn(systemPrompt)], systemPrompt, "Quais praias você recomenda?", Ok("Praia do Farol! 🎉 Mais alguma dúvida?"));
    second, request, error := session.Run(None, Err(""));
  }
}
