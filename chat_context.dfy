/** The chat state of the front end's context provider: the prompts sent so
    far, the input box, the flags of the result pane and the conversation
    history, with the formatting `onSent` applies to the assistant's response
    (`**x**` becomes bold, every other `*` a line break). The assistant itself
    (`runChat`) is a parameter. */
module ChatContext {
  import opened Wrappers
  import opened Strings

  datatype Role = User | Bot

  /** `{ role, content }`, one entry of the conversation history. */
  datatype Message = Message(role: Role, content: string)

  /** What the formatter makes of the `i`-th piece of `response.split('**')`:
      pieces at odd positions are wrapped in `<b>`, the others are copied. */
  function Piece(i: nat, piece: string): string {
    if Copied(i) then piece else "<b>" + piece + "</b>"
  }

  /** The formatter's test `i === 0 || i % 2 !== 1`: the piece is copied as is. */
  predicate Copied(i: nat) {
    i == 0 || i % 2 != 1
  }

  /** The pieces formatted and concatenated in order. */
  function Emboldened(pieces: seq<string>): string
    decreases |pieces|
  {
    if |pieces| == 0 then ""
    else Emboldened(pieces[..|pieces| - 1]) + Piece(|pieces| - 1, pieces[|pieces| - 1])
  }

  /** The formatted response:
      `formatted.split('*').join("</br>")` of the emboldened pieces. */
  function Format(response: string): string {
    Replace(Emboldened(Split(response, "**")), "*", "</br>")
  }

  /** One more piece formatted extends the text formatted so far. */
  lemma EmboldenedStep(pieces: seq<string>, i: nat)
    requires i < |pieces|
    ensures Emboldened(pieces[..i + 1]) == Emboldened(pieces[..i]) + Piece(i, pieces[i])
  {
    assert pieces[..i + 1][..i] == pieces[..i];
  }

  /** The loop of `onSent` over the pieces of `response.split('**')`. */
  method Embolden(responseArray: seq<string>) returns (formatted: string)
    ensures formatted == Emboldened(responseArray)
  {
    formatted := "";
    var i := 0;
    while i < |responseArray|
      invariant 0 <= i <= |responseArray|
      invariant formatted == Emboldened(responseArray[..i])
    {
      EmboldenedStep(responseArray, i);
      if Copied(i) {
        formatted := formatted + responseArray[i];
      } else {
        formatted := formatted + ("<b>" + responseArray[i] + "</b>");
      }
      i := i + 1;
    }
    assert responseArray[..|responseArray|] == responseArray;
  }

  /** The formatting of `onSent`, proved to compute `Format`. */
  method FormatResponse(response: string) returns (finalResponse: string)
    ensures finalResponse == Format(response)
  {
    var formatted := Embolden(Split(response, "**"));
    finalResponse := Join(Split(formatted, "*"), "</br>");
  }

  /** A text without `*` contains neither `*` nor `**`. */
  lemma StarFree(s: string)
    requires '*' !in s
    ensures !Contains(s, "*") && !Contains(s, "**")
  {
    forall i | 0 <= i <= |s|
      ensures !OccursAt(s, "*", i) && !OccursAt(s, "**", i)
    {
      if i + 1 <= |s| {
        assert s[i..i + 1][0] == s[i];
      }
      if i + 2 <= |s| {
        assert s[i..i + 2][0] == s[i];
      }
    }
  }

  /** Splitting `a + sep + rest`, when `a` has no first character of `sep`,
      gives `a` and then the pieces of `rest`. */
  lemma SplitAtFirst(a: string, sep: string, rest: string)
    requires sep != [] && sep[0] !in a
    ensures Split(a + sep + rest, sep) == [a] + Split(rest, sep)
  {
    var s := a + sep + rest;
    assert s[|a|..|a| + |sep|] == sep;
    forall j | 0 <= j < |a|
      ensures !OccursAt(s, sep, j)
    {
      assert s[j] == a[j];
      if j + |sep| <= |s| {
        assert s[j..j + |sep|][0] == s[j];
      }
    }
    FindFromFirst(s, sep, |a|);
    assert s[..|a|] == a;
    assert s[|a| + |sep|..] == rest;
  }

  /** The formatted response never contains `*`: every `*` the bold markers
      leave becomes a line break. */
  lemma FormatRemovesStars(response: string)
    ensures '*' !in Format(response)
  {
    ReplaceCharRemoves(Emboldened(Split(response, "**")), '*', "</br>");
  }

  /** A response without `*` is shown as it is. */
  lemma FormatIdentity(response: string)
    requires '*' !in response
    ensures Format(response) == response
  {
    StarFree(response);
    SplitAbsent(response, "**");
    assert Emboldened([response]) == Emboldened([]) + Piece(0, response);
    ReplaceAbsent(response, "*", "</br>");
  }

  /** The first two pieces: the second is bold. */
  lemma EmboldenedPair(a: string, b: string)
    ensures Emboldened([a, b]) == a + "<b>" + b + "</b>"
  {
    assert [a, b][..1] == [a] && [a][..0] == [];
    assert Emboldened([a]) == a;
  }

  /** `a**b**c` splits into `a`, `b` and `c` when none of them has a `*`. */
  lemma SplitBoldPair(a: string, b: string, c: string)
    requires '*' !in a && '*' !in b && '*' !in c
    ensures Split(a + "**" + b + "**" + c, "**") == [a, b, c]
  {
    assert a + "**" + b + "**" + c == a + "**" + (b + "**" + c);
    SplitAtFirst(a, "**", b + "**" + c);
    SplitAtFirst(b, "**", c);
    StarFree(c);
    SplitAbsent(c, "**");
  }

  /** `a**b**c` shows `b` in bold between `a` and `c`. */
  lemma BoldPair(a: string, b: string, c: string)
    requires '*' !in a && '*' !in b && '*' !in c
    ensures Format(a + "**" + b + "**" + c) == a + "<b>" + b + "</b>" + c
  {
    SplitBoldPair(a, b, c);
    EmboldenedPair(a, b);
    assert [a, b, c][..2] == [a, b];
    var shown := a + "<b>" + b + "</b>" + c;
    assert Emboldened([a, b, c]) == shown;
    StarFree(shown);
    ReplaceAbsent(shown, "*", "</br>");
  }

  /** An unmatched `**` bolds the rest of the response. */
  lemma TrailingBold(a: string, b: string)
    requires '*' !in a && '*' !in b
    ensures Format(a + "**" + b) == a + "<b>" + b + "</b>"
  {
    SplitAtFirst(a, "**", b);
    StarFree(b);
    SplitAbsent(b, "**");
    assert Split(a + "**" + b, "**") == [a, b];
    EmboldenedPair(a, b);
    var shown := a + "<b>" + b + "</b>";
    StarFree(shown);
    ReplaceAbsent(shown, "*", "</br>");
  }

  /** A single `*` becomes a line break. */
  lemma SingleStarBreaks(a: string, b: string)
    requires '*' !in a && '*' !in b
    ensures Format(a + "*" + b) == a + "</br>" + b
  {
    var s := a + "*" + b;
    forall j | 0 <= j < |s| - 1
      ensures !OccursAt(s, "**", j)
    {
      assert s[j..j + 2][0] == s[j] && s[j..j + 2][1] == s[j + 1];
      if j < |a| {
        assert s[j] == a[j];
      } else {
        assert s[j + 1] == b[j - |a|];
      }
    }
    assert !Contains(s, "**");
    SplitAbsent(s, "**");
    assert Emboldened([s]) == Emboldened([]) + Piece(0, s);
    assert Split(s, "**") == [s];
    assert Emboldened(Split(s, "**")) == s;
    SplitAtFirst(a, "*", b);
    StarFree(b);
    SplitAbsent(b, "*");
    assert Split(s, "*") == [a, b];
    assert Join([a, b], "</br>") == a + "</br>" + Join([b], "</br>");
    assert Format(s) == Replace(s, "*", "</br>");
  }

  /** `prompt || input`: an explicit prompt unless it is missing or empty. */
  function CurrentPrompt(prompt: Option<string>, input: string): string {
    if prompt.Some? && prompt.value != "" then prompt.value else input
  }

  /** The prompts of the user's entries of a history, in order. */
  function UserPrompts(history: seq<Message>): seq<string>
    decreases |history|
  {
    if |history| == 0 then []
    else
      var last := history[|history| - 1];
      UserPrompts(history[..|history| - 1]) + (if last.role == User then [last.content] else [])
  }

  /** The history is made of exchanges: a user entry then the bot's answer. */
  predicate Exchanges(history: seq<Message>) {
    |history| % 2 == 0 &&
    forall k :: 0 <= k < |history| ==> (history[k].role == User <==> k % 2 == 0)
  }

  /** Appending one exchange adds its prompt to the user prompts. */
  lemma UserPromptsExchange(history: seq<Message>, prompt: string, answer: string)
    ensures UserPrompts(history + [Message(User, prompt), Message(Bot, answer)]) == UserPrompts(history) + [prompt]
  {
    var h := history + [Message(User, prompt), Message(Bot, answer)];
    assert h[..|h| - 1] == history + [Message(User, prompt)];
    assert (history + [Message(User, prompt)])[..|history|] == history;
  }

  /** The history is a sequence of exchanges, its bot entries hold formatted
      text (no `*`), and its user prompts are the latest of the prompts sent. */
  predicate Consistent(prompts: seq<string>, history: seq<Message>) {
    Exchanges(history) &&
    (forall k :: 0 <= k < |history| && history[k].role == Bot ==> '*' !in history[k].content) &&
    |UserPrompts(history)| <= |prompts| &&
    prompts[|prompts| - |UserPrompts(history)|..] == UserPrompts(history)
  }

  /** Appending a user entry then a bot entry keeps the history a sequence of exchanges. */
  lemma ExchangesAppend(history: seq<Message>, prompt: string, answer: string)
    requires Exchanges(history)
    ensures Exchanges(history + [Message(User, prompt), Message(Bot, answer)])
  {
    var h := history + [Message(User, prompt), Message(Bot, answer)];
    forall k | 0 <= k < |h|
      ensures h[k].role == User <==> k % 2 == 0
    {
      if k < |history| {
        assert h[k] == history[k];
      }
    }
  }

  /** Sending a prompt and appending the exchange with its formatted answer
      keeps the history consistent with the prompts. */
  lemma SendKeepsConsistent(prompts: seq<string>, history: seq<Message>, prompt: string, response: string)
    requires Consistent(prompts, history)
    ensures Consistent(prompts + [prompt], history + [Message(User, prompt), Message(Bot, Format(response))])
  {
    var answer := Format(response);
    var history' := history + [Message(User, prompt), Message(Bot, answer)];
    FormatRemovesStars(response);
    ExchangesAppend(history, prompt, answer);
    UserPromptsExchange(history, prompt, answer);
    var n := |UserPrompts(history)|;
    assert (prompts + [prompt])[|prompts| + 1 - (n + 1)..] == prompts[|prompts| - n..] + [prompt];
    forall k | 0 <= k < |history'| && history'[k].role == Bot
      ensures '*' !in history'[k].content
    {
      if k < |history| {
        assert history'[k] == history[k];
      }
    }
  }

  /** What every interleaving of sends, answers and new chats keeps: the
      history is a sequence of exchanges, its bot entries hold formatted text
      (no `*`), and every user entry holds a prompt that was sent. */
  predicate ChatInvariant(prompts: seq<string>, history: seq<Message>) {
    Exchanges(history) &&
    (forall k :: 0 <= k < |history| && history[k].role == Bot ==> '*' !in history[k].content) &&
    (forall k :: 0 <= k < |history| && history[k].role == User ==> history[k].content in prompts)
  }

  /** Recording a sent prompt keeps the invariant. */
  lemma SendKeepsInvariant(prompts: seq<string>, history: seq<Message>, prompt: string)
    requires ChatInvariant(prompts, history)
    ensures ChatInvariant(prompts + [prompt], history)
  {
    forall k | 0 <= k < |history| && history[k].role == User
      ensures history[k].content in prompts + [prompt]
    {
      var j :| 0 <= j < |prompts| && prompts[j] == history[k].content;
      assert (prompts + [prompt])[j] == prompts[j];
    }
  }

  /** Answering a sent prompt with a formatted response keeps the invariant. */
  lemma AnswerKeepsInvariant(prompts: seq<string>, history: seq<Message>, prompt: string, response: string)
    requires ChatInvariant(prompts, history) && prompt in prompts
    ensures ChatInvariant(prompts, history + [Message(User, prompt), Message(Bot, Format(response))])
  {
    var answer := Format(response);
    var history' := history + [Message(User, prompt), Message(Bot, answer)];
    FormatRemovesStars(response);
    ExchangesAppend(history, prompt, answer);
    forall k | 0 <= k < |history'|
      ensures history'[k].role == Bot ==> '*' !in history'[k].content
      ensures history'[k].role == User ==> history'[k].content in prompts
    {
      if k < |history| {
        assert history'[k] == history[k];
      }
    }
  }

  /** The state of the chat context. `onSent` is asynchronous: it records the
      prompt, awaits `runChat`, and only then appends the exchange, so sends
      may overlap and a send whose `runChat` fails is never answered. */
  class Chat {
    var prevPrompts: seq<string>
    var input: string
    var recentPrompt: string
    var showResult: bool
    var loading: bool
    var resultData: string
    var chatHistory: seq<Message>

    /** The invariant of the chat state. */
    predicate Valid()
      reads this
    {
      ChatInvariant(prevPrompts, chatHistory)
    }

    /** The initial state of every `useState`. */
    constructor ()
      ensures prevPrompts == [] && input == "" && recentPrompt == ""
      ensures !showResult && !loading && resultData == "" && chatHistory == []
      ensures Valid()
    {
      prevPrompts := [];
      input := "";
      recentPrompt := "";
      showResult := false;
      loading := false;
      resultData := "";
      chatHistory := [];
    }

    /** `onSent(prompt)` up to `await runChat(...)`: the flags are set, and the
        prompt is recorded and appended to the sent prompts. */
    method Send(prompt: Option<string>) returns (currentPrompt: string)
      modifies this
      requires Valid()
      ensures Valid()
      ensures currentPrompt == CurrentPrompt(prompt, old(input)) && recentPrompt == currentPrompt
      ensures prevPrompts == old(prevPrompts) + [currentPrompt]
      ensures loading && showResult && resultData == ""
      ensures chatHistory == old(chatHistory) && input == old(input)
    {
      loading := true;
      showResult := true;
      resultData := "";
      currentPrompt := CurrentPrompt(prompt, input);
      recentPrompt := currentPrompt;
      prevPrompts := prevPrompts + [currentPrompt];
      SendKeepsInvariant(old(prevPrompts), chatHistory, currentPrompt);
    }

    /** `onSent(prompt)` after `runChat` has answered `response` for a sent
        prompt: the formatted answer is appended to the current history after
        the user's entry, loading ends and the input box is cleared. */
    method Answered(currentPrompt: string, response: string)
      modifies this
      requires Valid()
      requires currentPrompt in prevPrompts
      ensures Valid()
      ensures chatHistory ==
              old(chatHistory) + [Message(User, currentPrompt), Message(Bot, Format(response))]
      ensures !loading && input == ""
      ensures prevPrompts == old(prevPrompts) && recentPrompt == old(recentPrompt)
      ensures showResult == old(showResult) && resultData == old(resultData)
    {
      var finalResponse := FormatResponse(response);
      AnswerKeepsInvariant(prevPrompts, chatHistory, currentPrompt, response);
      var history := chatHistory + [Message(User, currentPrompt), Message(Bot, finalResponse)];
      chatHistory := history;
      loading := false;
      input := "";
    }

    /** One send whose `runChat` answers before anything else happens: the
        two halves of `onSent` back to back. When the history's prompts were
        the latest sent, they still are. */
    method OnSent(prompt: Option<string>, runChat: string -> string)
      modifies this
      requires Valid()
      ensures Valid()
      ensures recentPrompt == CurrentPrompt(prompt, old(input))
      ensures prevPrompts == old(prevPrompts) + [recentPrompt]
      ensures chatHistory ==
              old(chatHistory) + [Message(User, recentPrompt), Message(Bot, Format(runChat(recentPrompt)))]
      ensures showResult && !loading && resultData == "" && input == ""
      ensures old(Consistent(prevPrompts, chatHistory)) ==> Consistent(prevPrompts, chatHistory)
    {
      var currentPrompt := Send(prompt);
      var response := runChat(currentPrompt);
      if Consistent(old(prevPrompts), old(chatHistory)) {
        SendKeepsConsistent(old(prevPrompts), old(chatHistory), currentPrompt, response);
      }
      Answered(currentPrompt, response);
    }

    /** `setInput(s)`, which the prompt box and the voice input call: the
        input box holds `s` and nothing else changes. */
    method SetInput(s: string)
      modifies this
      requires Valid()
      ensures Valid()
      ensures input == s
      ensures prevPrompts == old(prevPrompts) && recentPrompt == old(recentPrompt) && chatHistory == old(chatHistory)
      ensures showResult == old(showResult) && loading == old(loading) && resultData == old(resultData)
    {
      input := s;
    }

    /** `newChat()`: the history and the shown result are cleared; the sent
        prompts and the input box are kept. */
    method NewChat()
      modifies this
      requires Valid()
      ensures Valid()
      ensures !loading && !showResult && chatHistory == [] && resultData == ""
      ensures prevPrompts == old(prevPrompts) && input == old(input) && recentPrompt == old(recentPrompt)
    {
      loading := false;
      showResult := false;
      chatHistory := [];
      resultData := "";
    }
  }
}
