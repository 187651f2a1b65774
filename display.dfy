/** The conversation as the page shows it: every stored turn except those
    whose text is the system prompt, in stored order, in a user or an
    assistant bubble. */
module Display {
  import opened Turns

  /** The chat bubble a turn is drawn in. */
  datatype Speaker = UserBubble | AssistantBubble

  /** One rendered message. */
  datatype Shown = Shown(speaker: Speaker, text: string)

  /** A `user` turn is drawn as the user; every other role as the assistant. */
  function SpeakerOf(role: Role): (s: Speaker)
    ensures s == UserBubble <==> role == User
  {
    if role == User then UserBubble else AssistantBubble
  }

  function Show(t: Turn): Shown { Shown(SpeakerOf(t.role), t.text) }

  /** The filter compares content, not position: any turn whose text is
      the system prompt is hidden, whoever wrote it. */
  predicate Hidden(t: Turn, systemPrompt: string) { t.text == systemPrompt }

  /** What one turn contributes to the page. */
  function ShownOf(t: Turn, systemPrompt: string): (r: seq<Shown>)
    ensures |r| <= 1
    ensures r == [] <==> Hidden(t, systemPrompt)
  {
    if Hidden(t, systemPrompt) then [] else [Show(t)]
  }

  /** The rendered conversation for a stored history. */
  function Visible(history: seq<Turn>, systemPrompt: string): (r: seq<Shown>)
    ensures |r| <= |history|
    ensures forall k :: 0 <= k < |r| ==> r[k].text != systemPrompt
  {
    if history == [] then []
    else Visible(history[..|history| - 1], systemPrompt) + ShownOf(history[|history| - 1], systemPrompt)
  }

  /** The display loop: walks the stored history in order and draws every
      turn that is not hidden. */
  method Render(messages: seq<Turn>, systemPrompt: string) returns (shown: seq<Shown>)
    ensures shown == Visible(messages, systemPrompt)
  {
    shown := [];
    for i := 0 to |messages|
      invariant shown == Visible(messages[..i], systemPrompt)
    {
      assert messages[..i + 1][..i] == messages[..i];
      if messages[i].text != systemPrompt {
        shown := shown + [Show(messages[i])];
      }
    }
    assert messages[..|messages|] == messages;
  }

  lemma {:induction false} VisibleConcat(a: seq<Turn>, b: seq<Turn>, systemPrompt: string)
    ensures Visible(a + b, systemPrompt) == Visible(a, systemPrompt) + Visible(b, systemPrompt)
    decreases |b|
  {
    if b == [] {
      assert a + b == a;
    } else {
      var b' := b[..|b| - 1];
      var t := b[|b| - 1];
      assert (a + b)[..|a + b| - 1] == a + b';
      VisibleConcat(a, b', systemPrompt);
    }
  }

  /** A history made of the system turn alone shows nothing. */
  lemma FreshHistoryShowsNothing(systemPrompt: string)
    ensures Visible([SystemTurn(systemPrompt)], systemPrompt) == []
  {
  }

  /** A turn is shown exactly when some stored turn that is not hidden
      renders to it. */
  lemma {:induction false} VisibleMembership(history: seq<Turn>, systemPrompt: string, s: Shown)
    ensures s in Visible(history, systemPrompt) <==>
      exists i :: 0 <= i < |history| && !Hidden(history[i], systemPrompt) && Show(history[i]) == s
  {
    if history != [] {
      var front := history[..|history| - 1];
      var t := history[|history| - 1];
      VisibleMembership(front, systemPrompt, s);
      if s in Visible(history, systemPrompt) {
        if s !in Visible(front, systemPrompt) {
          assert s in ShownOf(t, systemPrompt);
          assert !Hidden(history[|history| - 1], systemPrompt) && Show(history[|history| - 1]) == s;
        } else {
          var i :| 0 <= i < |front| && !Hidden(front[i], systemPrompt) && Show(front[i]) == s;
          assert history[i] == front[i];
        }
      } else {
        forall i | 0 <= i < |history| && !Hidden(history[i], systemPrompt)
          ensures Show(history[i]) != s
        {
          if i < |front| {
            assert front[i] == history[i];
          } else {
            assert ShownOf(t, systemPrompt) == [Show(history[i])];
          }
        }
      }
    }
  }

  /** Stored order is kept: a turn that is not hidden is shown at the
      position given by the number of shown turns before it, so an earlier
      shown turn always comes before a later one. */
  lemma {:induction false} VisibleAt(history: seq<Turn>, systemPrompt: string, i: nat)
    requires i < |history| && !Hidden(history[i], systemPrompt)
    ensures |Visible(history[..i], systemPrompt)| < |Visible(history, systemPrompt)|
    ensures Visible(history, systemPrompt)[|Visible(history[..i], systemPrompt)|] == Show(history[i])
  {
    assert history == history[..i] + [history[i]] + history[i + 1..];
    VisibleConcat(history[..i] + [history[i]], history[i + 1..], systemPrompt);
    VisibleConcat(history[..i], [history[i]], systemPrompt);
    assert [history[i]][..0] == [];
  }

  /** The number of shown turns before position `i` grows strictly past a
      shown turn, which makes the positions of `VisibleAt` increasing. */
  lemma {:induction false} VisibleRankIncreasing(history: seq<Turn>, systemPrompt: string, i: nat, j: nat)
    requires i < j <= |history| && !Hidden(history[i], systemPrompt)
    ensures |Visible(history[..i], systemPrompt)| < |Visible(history[..j], systemPrompt)|
  {
    var prefix := history[..j];
    assert prefix[..i] == history[..i];
    assert prefix[i] == history[i];
    VisibleAt(prefix, systemPrompt, i);
  }

  /** When no stored turn is hidden, every turn is shown, one for one. */
  lemma {:induction false} VisibleNoneHidden(history: seq<Turn>, systemPrompt: string)
    requires forall i :: 0 <= i < |history| ==> !Hidden(history[i], systemPrompt)
    ensures |Visible(history, systemPrompt)| == |history|
    ensures forall i :: 0 <= i < |history| ==> Visible(history, systemPrompt)[i] == Show(history[i])
  {
    if history != [] {
      var front := history[..|history| - 1];
      VisibleNoneHidden(front, systemPrompt);
    }
  }

  /** A turn whose text equals the system prompt disappears from the page
      wherever it is stored, even a message the user typed. */
  lemma HiddenAnywhere(a: seq<Turn>, b: seq<Turn>, role: Role, systemPrompt: string)
    ensures Visible(a + [Turn(role, systemPrompt)] + b, systemPrompt) == Visible(a + b, systemPrompt)
  {
    var t := Turn(role, systemPrompt);
    assert [t][..0] == [];
    assert Visible([t], systemPrompt) == [];
    calc {
      Visible(a + [t] + b, systemPrompt);
      { VisibleConcat(a + [t], b, systemPrompt); }
      Visible(a + [t], systemPrompt) + Visible(b, systemPrompt);
      { VisibleConcat(a, [t], systemPrompt); }
      Visible(a, systemPrompt) + Visible(b, systemPrompt);
      { VisibleConcat(a, b, systemPrompt); }
      Visible(a + b, systemPrompt);
    }
  }

  /** What the page gains from one submission: the prompt, then the reply
      only when the call succeeded, each unless its text is the system
      prompt. */
  lemma StepVisible(history: seq<Turn>, systemPrompt: string, prompt: string, outcome: Outcome)
    ensures Visible(Step(history, prompt, outcome), systemPrompt) ==
      Visible(history, systemPrompt) + ShownOf(UserTurn(prompt), systemPrompt) +
      (if outcome.Ok? then ShownOf(ModelTurn(outcome.reply), systemPrompt) else [])
  {
  }
}
