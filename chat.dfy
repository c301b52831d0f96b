/** The chat page (src/pages/Chat.tsx): the conversation it edits while an
    answer streams in, the decision to ask for a continuation, and `send`,
    which validates the input, streams the answer and, in long mode, asks
    for up to eight continuations into the same assistant message. */
module Chat {
  import opened Text
  import opened ChatTypes
  import opened StreamChat

  const ContinueToken: string := "[[AION_CONTINUE]]"

  /** Continuation requests allowed after the first one. */
  const MaxTurns: nat := 8

  /** Longest accepted message, after trimming. */
  const MaxLength: nat := 4000

  const TitleLength: nat := 48

  const InitialTitle: string := "AION GPT Chat"

  const ContinuePrompt: string :=
    "Continue EXACTLY from where you stopped. Do not repeat any earlier text. "
    + "If output may still be cut, end with " + ContinueToken + " on the final line."

  /** `suggestTitle`: the trimmed text cut to 48 characters, or `New chat`
      when nothing is left. */
  function SuggestTitle(firstUserText: string): (title: string)
    ensures Trim(firstUserText) == [] ==> title == "New chat"
    ensures Trim(firstUserText) != [] ==> 1 <= |title| <= TitleLength && title <= Trim(firstUserText)
    ensures |Trim(firstUserText)| <= TitleLength && Trim(firstUserText) != [] ==> title == Trim(firstUserText)
    ensures |Trim(firstUserText)| > TitleLength ==> title == Trim(firstUserText)[..TitleLength]
  {
    var trimmed := Trim(firstUserText);
    var cut := if |trimmed| <= TitleLength then trimmed else trimmed[..TitleLength];
    if |cut| > 0 then cut else "New chat"
  }

  /** A text of whitespace only suggests `New chat`. */
  lemma BlankTitle(firstUserText: string)
    requires IsBlank(firstUserText)
    ensures SuggestTitle(firstUserText) == "New chat"
  {
    TrimEmptyIffBlank(firstUserText);
  }

  /** The new conversation of a page: no messages yet. */
  function NewConversation(id: string, now: int): (c: Conversation)
    ensures c.messages == [] && c.title == InitialTitle
    ensures c.id == id && c.createdAt == now && c.updatedAt == now
  {
    Conversation(id, InitialTitle, now, now, [])
  }

  /** `appendMessage`: the message goes last; the first message, when the
      user sends it, names the conversation. */
  function AppendMessage(prev: Conversation, m: ChatMessage, now: int): (next: Conversation)
    ensures next.messages == prev.messages + [m]
    ensures next.id == prev.id && next.createdAt == prev.createdAt && next.updatedAt == now
    ensures prev.messages != [] || m.role != User ==> next.title == prev.title
    ensures prev.messages == [] && m.role == User ==> next.title == SuggestTitle(m.content)
  {
    prev.(
      title := if |prev.messages| == 0 && m.role == User then SuggestTitle(m.content) else prev.title,
      updatedAt := now,
      messages := prev.messages + [m])
  }

  predicate EndsWithAssistant(c: Conversation) {
    c.messages != [] && c.messages[|c.messages| - 1].role == Assistant
  }

  /** `updateLastAssistant`: only the content of the last message changes,
      and only when that message is the assistant's. */
  function UpdateLastAssistant(prev: Conversation, content: string, now: int): (next: Conversation)
    ensures !EndsWithAssistant(prev) ==> next == prev
    ensures EndsWithAssistant(prev) ==>
      var n := |prev.messages|;
      && next.id == prev.id && next.title == prev.title && next.createdAt == prev.createdAt
      && next.updatedAt == now
      && |next.messages| == n
      && next.messages[..n - 1] == prev.messages[..n - 1]
      && next.messages[n - 1] == prev.messages[n - 1].(content := content)
  {
    if !EndsWithAssistant(prev) then prev
    else
      var n := |prev.messages|;
      prev.(updatedAt := now, messages := prev.messages[n - 1 := prev.messages[n - 1].(content := content)])
  }

  /** Only the last update is seen. */
  lemma UpdateTwice(c: Conversation, first: string, second: string, now: int)
    ensures UpdateLastAssistant(UpdateLastAssistant(c, first, now), second, now) == UpdateLastAssistant(c, second, now)
  {
    if EndsWithAssistant(c) {
      var n := |c.messages|;
      var a := UpdateLastAssistant(c, first, now);
      assert a.messages[n - 1].role == Assistant;
      assert UpdateLastAssistant(a, second, now).messages == UpdateLastAssistant(c, second, now).messages;
    }
  }

  /** Writing the content already there, at the time already recorded,
      changes nothing. */
  lemma UpdateSame(c: Conversation, now: int)
    requires EndsWithAssistant(c) && c.updatedAt == now
    ensures UpdateLastAssistant(c, c.messages[|c.messages| - 1].content, now) == c
  {
    var n := |c.messages|;
    assert UpdateLastAssistant(c, c.messages[n - 1].content, now).messages == c.messages;
  }

  // ---------------------------------------------------------------------
  // Asking for a continuation

  /** `(text.match(/```/g) ?? []).length`: the fences found scanning left
      to right, a match never overlapping the previous one. */
  function CountFences(s: string): nat
    decreases |s|
  {
    if |s| < 3 then 0
    else if s[..3] == "```" then 1 + CountFences(s[3..])
    else CountFences(s[1..])
  }

  /** One more fence at the end is one more match. */
  lemma {:induction false} CountFencesAppend(s: string)
    ensures CountFences(s + "```") == CountFences(s) + 1
    decreases |s|
  {
    var t := s + "```";
    if s == [] {
      assert t == "```" && t[3..] == [];
    } else if t[..3] == "```" {
      if |s| >= 3 {
        assert s[..3] == t[..3];
        assert t[3..] == s[3..] + "```";
        CountFencesAppend(s[3..]);
      } else {
        assert |t[3..]| < 3;
      }
    } else {
      assert t[1..] == s[1..] + "```";
      CountFencesAppend(s[1..]);
      if |s| >= 3 {
        assert s[..3] == t[..3];
      }
    }
  }

  /** `shouldAutoContinue`: never for blank text; always when the text ends,
      up to trailing whitespace, with the token; otherwise exactly when a
      code fence is left open. */
  function ShouldAutoContinue(text: string): (r: bool)
    ensures IsBlank(text) ==> !r
    ensures EndsWith(TrimEnd(text), ContinueToken) ==> r
    ensures !IsBlank(text) && !EndsWith(TrimEnd(text), ContinueToken) ==> (r <==> CountFences(TrimEnd(text)) % 2 == 1)
  {
    TrimEndEmptyIffBlank(text);
    var trimmed := TrimEnd(text);
    if trimmed == [] then false
    else if EndsWith(trimmed, ContinueToken) then true
    else CountFences(trimmed) % 2 == 1
  }

  /** Text that ends with the token, whatever whitespace follows, asks for
      a continuation. */
  lemma TokenContinues(s: string, ws: string)
    requires IsBlank(ws)
    ensures ShouldAutoContinue(s + ContinueToken + ws)
  {
    TrimEndBlankSuffix(s + ContinueToken, ws);
    var t := s + ContinueToken;
    assert t[|t| - |ContinueToken|..] == ContinueToken;
  }

  /** An opening fence left unclosed asks for a continuation; closing it
      does not. */
  lemma OpenFenceContinues(s: string)
    ensures ShouldAutoContinue(s + "```") <==> CountFences(s) % 2 == 0
  {
    var t := s + "```";
    CountFencesAppend(s);
    assert t[|t| - 1] == '`' && !IsSpace('`');
    assert TrimEnd(t) == t;
    assert !IsBlank(t);
    assert !EndsWith(t, ContinueToken) by {
      assert ContinueToken[|ContinueToken| - 1] == ']';
      if |ContinueToken| <= |t| {
        assert t[|t| - |ContinueToken|..][|ContinueToken| - 1] == '`';
      }
    }
  }

  // ---------------------------------------------------------------------
  // Removing the token

  /** The characters of the class `[[AION_CONTINUE]` that the token,
      placed unescaped into a regular expression, turns into. */
  const TokenClass: set<char> := {'[', 'A', 'I', 'O', 'N', '_', 'C', 'T', 'U', 'E'}

  /** `text.replace(new RegExp(CONTINUE_TOKEN + "\\s*$"), "").trimEnd()` as
      written: the pattern is one character of `TokenClass` followed by `]`
      and trailing whitespace, so it removes the last two characters of the
      right-trimmed text when they have that form. */
  function StripTokenAsWritten(text: string): (r: string)
    ensures r <= text
    ensures r == [] || !IsSpace(r[|r| - 1])
    ensures !EndsLikeClass(TrimEnd(text)) ==> r == TrimEnd(text)
  {
    var t := TrimEnd(text);
    if EndsLikeClass(t) then TrimEnd(t[..|t| - 2]) else t
  }

  /** `t` ends in a character of `TokenClass` followed by `]`. */
  predicate EndsLikeClass(t: string) {
    |t| >= 2 && t[|t| - 1] == ']' && t[|t| - 2] in TokenClass
  }

  /** Whatever precedes them, a class character, `]` and trailing
      whitespace are removed, and so is the whitespace before them. */
  lemma AsWrittenCutsClass(s: string, x: char, ws: string)
    requires x in TokenClass && IsBlank(ws)
    ensures StripTokenAsWritten(s + [x, ']'] + ws) == TrimEnd(s)
  {
    var t := s + [x, ']'];
    TrimEndBlankSuffix(t, ws);
    assert TrimEnd(t) == t;
    assert t[..|t| - 2] == s;
  }

  /** The token itself is left in place, so the text still asks for a
      continuation. */
  lemma AsWrittenKeepsToken(s: string)
    ensures StripTokenAsWritten(s + ContinueToken) == s + ContinueToken
    ensures ShouldAutoContinue(StripTokenAsWritten(s + ContinueToken))
  {
    var t := s + ContinueToken;
    assert t[|t| - 1] == ']' && t[|t| - 2] == ']';
    assert TrimEnd(t) == t;
    TokenContinues(s, []);
    assert t + [] == t;
  }

  /** Text that merely ends like the class loses its last two characters. */
  lemma AsWrittenCutsText()
    ensures StripTokenAsWritten("see [NOTE]") == "see [NOT"
  {
    var t := "see [NOTE]";
    assert TrimEnd(t) == t;
    assert TrimEnd(t[..|t| - 2]) == "see [NOT";
  }

  /** The removal the comment describes: the literal token at the end, up
      to trailing whitespace, and the whitespace before it. */
  function StripToken(text: string): (r: string)
    ensures r <= text
    ensures r == [] || !IsSpace(r[|r| - 1])
    ensures !EndsWith(TrimEnd(text), ContinueToken) ==> r == TrimEnd(text)
  {
    var t := TrimEnd(text);
    if EndsWith(t, ContinueToken) then TrimEnd(t[..|t| - |ContinueToken|]) else t
  }

  /** The token and what surrounds it are gone. */
  lemma StripTokenRemoves(s: string, ws: string)
    requires IsBlank(ws)
    ensures StripToken(s + ContinueToken + ws) == TrimEnd(s)
  {
    var t := s + ContinueToken;
    TrimEndBlankSuffix(t, ws);
    assert TrimEnd(t) == t;
    assert t[|t| - |ContinueToken|..] == ContinueToken;
    assert t[..|t| - |ContinueToken|] == s;
  }

  // ---------------------------------------------------------------------
  // Errors

  datatype Toast = Toast(title: string, description: string)

  /** The toast title for an error: by HTTP status, 429 and 402 named. */
  function ErrorTitle(e: ChatError): (title: string)
    ensures title == "Rate limited" <==> e.HttpError? && e.status == 429
    ensures title == "Credits required" <==> e.HttpError? && e.status == 402
    ensures title == "Error" <==> !(e.HttpError? && (e.status == 429 || e.status == 402))
  {
    if e.HttpError? && e.status == 429 then "Rate limited"
    else if e.HttpError? && e.status == 402 then "Credits required"
    else "Error"
  }

  /** `e?.message || "AI request failed"`. */
  function ErrorText(e: ChatError): (msg: string)
    ensures msg != []
    ensures !e.AbortError? && e.message != [] ==> msg == e.message
  {
    var m := if e.AbortError? then [] else e.message;
    if m != [] then m else "AI request failed"
  }

  /** What replaces the assistant's message after an error. */
  function ErrorAnnotation(msg: string): (text: string)
    ensures StartsWith(text, "**Error:** " + msg)
  {
    var prefix := "**Error:** " + msg;
    var text := prefix + "\n\nAap dubara try karein ya prompt ko chhota/specific banayein.";
    assert text[..|prefix|] == prefix;
    text
  }

  function ErrorToast(e: ChatError): Toast {
    Toast(ErrorTitle(e), ErrorText(e))
  }

  // ---------------------------------------------------------------------
  // Sending

  /** `streamMessages`: the conversation as the gateway sees it. */
  function StreamMessages(messages: seq<ChatMessage>): (r: seq<StreamMsg>)
    ensures |r| == |messages|
    ensures forall i :: 0 <= i < |messages| ==> r[i] == StreamMsg(messages[i].role, messages[i].content)
  {
    seq(|messages|, i requires 0 <= i < |messages| => StreamMsg(messages[i].role, messages[i].content))
  }

  /** The first request: the earlier messages and the new one. */
  function FirstRequest(history: seq<StreamMsg>, messageText: string): seq<StreamMsg> {
    history + [StreamMsg(User, messageText)]
  }

  /** A continuation request: the first request, the answer so far, and
      the instruction to continue. */
  function ContinueRequest(history: seq<StreamMsg>, messageText: string, soFar: string): seq<StreamMsg> {
    FirstRequest(history, messageText) + [StreamMsg(Assistant, soFar), StreamMsg(User, ContinuePrompt)]
  }

  /** What the outside world does during one `send`: the exchange of the
      `k`-th request (0 is the first pass), whether the abort signal is set
      when the loop condition is checked for the `k`-th time, and the JSON
      readers of the decoder. */
  datatype World = World(
    exchange: nat -> Exchange,
    aborted: nat -> bool,
    parse: string -> JsonField,
    parseError: string -> JsonField)

  /** The reply `streamChat` gives to the `k`-th request. */
  function Replies(world: World): nat -> Reply {
    (k: nat) => Expected(world.exchange(k), world.parse, world.parseError)
  }

  /** `replies` are the replies `streamChat` gives in `world`. */
  ghost predicate Answers(world: World, replies: nat -> Reply) {
    forall k: nat {:trigger Expected(world.exchange(k), world.parse, world.parseError)} ::
      replies(k) == Expected(world.exchange(k), world.parse, world.parseError)
  }

  /** The state of the streaming part of `send`: `assistantSoFar`, the
      content last shown in the assistant's message, the requests made, and
      the error thrown, if any. */
  datatype Progress = Progress(soFar: string, shown: string, requests: seq<seq<StreamMsg>>, error: Option<ChatError>)

  /** The continuation loop from turn `turns` on. */
  function ContinueFrom(replies: nat -> Reply, aborted: nat -> bool, more: string -> bool, strip: string -> string, history: seq<StreamMsg>, messageText: string, soFar: string, shown: string, turns: nat): Progress
    requires turns <= MaxTurns
    decreases MaxTurns - turns
  {
    if aborted(turns) || !more(soFar) || turns >= MaxTurns then Progress(soFar, shown, [], None)
    else
      var stripped := strip(soFar);
      var reply := replies(turns + 1);
      var next := stripped + Concat(reply.deltas);
      var nextShown := if reply.deltas == [] then stripped + "\n\n" else next;
      var request := ContinueRequest(history, messageText, stripped);
      if reply.error.Some? then Progress(next, nextShown, [request], reply.error)
      else
        var rest := ContinueFrom(replies, aborted, more, strip, history, messageText, next, nextShown, turns + 1);
        rest.(requests := [request] + rest.requests)
  }

  /** The first pass, then, in long mode and unless it failed, the
      continuation loop. */
  function Streaming(replies: nat -> Reply, aborted: nat -> bool, more: string -> bool, strip: string -> string, history: seq<StreamMsg>, messageText: string, longMode: bool): Progress {
    var reply := replies(0);
    var soFar := Concat(reply.deltas);
    var first := Progress(soFar, soFar, [FirstRequest(history, messageText)], reply.error);
    if reply.error.Some? || !longMode then first
    else
      var rest := ContinueFrom(replies, aborted, more, strip, history, messageText, soFar, soFar, 0);
      rest.(requests := first.requests + rest.requests)
  }

  /** What `send` leaves behind: the conversation, the toast shown, the
      requests made, and whether it sent the user to the login page. */
  datatype Outcome = Outcome(conversation: Conversation, toast: Option<Toast>, requests: seq<seq<StreamMsg>>, toLogin: bool)

  /** The conversation with the user's message and the empty assistant
      message appended. */
  function Opened(c: Conversation, messageText: string, userId: string, assistantId: string, now: int): Conversation {
    AppendMessage(AppendMessage(c, ChatMessage(userId, User, messageText, now), now), ChatMessage(assistantId, Assistant, "", now), now)
  }

  /** `send`, as a function of the conversation before it, the replies to
      its requests and the abort signal. */
  function Sent(c: Conversation, text: string, loggedIn: bool, longMode: bool, replies: nat -> Reply, aborted: nat -> bool, userId: string, assistantId: string, now: int): Outcome {
    var messageText := Trim(text);
    if !loggedIn then Outcome(c, Some(Toast("Login required", "Pehle login karein.")), [], true)
    else if messageText == [] then Outcome(c, None, [], false)
    else if |messageText| > MaxLength then Outcome(c, Some(Toast("Message too long", "4000 characters se chhota rakhein.")), [], false)
    else
      var started := Opened(c, messageText, userId, assistantId, now);
      var p := Streaming(replies, aborted, ShouldAutoContinue, StripTokenAsWritten, StreamMessages(c.messages), messageText, longMode);
      if p.error.None? || p.error == Some(AbortError) then
        Outcome(UpdateLastAssistant(started, p.shown, now), None, p.requests, false)
      else
        var e := p.error.value;
        Outcome(UpdateLastAssistant(started, ErrorAnnotation(ErrorText(e)), now), Some(ErrorToast(e)), p.requests, false)
  }

  /** `send` goes past its checks: a session, a non-blank text, at most
      4000 characters once trimmed. */
  predicate Accepted(text: string, loggedIn: bool) {
    loggedIn && !IsBlank(text) && |Trim(text)| <= MaxLength
  }

  /** `assistantSoFar` when continuation `j` of the loop, counted from
      turn `turns`, begins: each continuation keeps what `strip` leaves of
      the answer and appends the deltas of its reply. */
  function AnswerAt(replies: nat -> Reply, strip: string -> string, soFar: string, turns: nat, j: nat): string
    decreases j
  {
    if j == 0 then soFar
    else strip(AnswerAt(replies, strip, soFar, turns, j - 1)) + Concat(replies(turns + j).deltas)
  }

  /** The answer after the first continuation is the answer the loop from
      the next turn starts with. */
  lemma {:induction false} AnswerAtShift(replies: nat -> Reply, strip: string -> string, soFar: string, turns: nat, j: nat)
    ensures AnswerAt(replies, strip, soFar, turns, j + 1)
      == AnswerAt(replies, strip, strip(soFar) + Concat(replies(turns + 1).deltas), turns + 1, j)
    decreases j
  {
    if j > 0 {
      AnswerAtShift(replies, strip, soFar, turns, j - 1);
    }
  }

  /** What is left of the loop once a turn has ended with `error`: nothing
      after an error, otherwise the loop from turn `turns` on. */
  ghost function Remaining(replies: nat -> Reply, aborted: nat -> bool, more: string -> bool, strip: string -> string, history: seq<StreamMsg>, messageText: string, soFar: string, shown: string, error: Option<ChatError>, turns: nat): Progress
    requires turns <= MaxTurns
  {
    if error.Some? then Progress(soFar, shown, [], error)
    else ContinueFrom(replies, aborted, more, strip, history, messageText, soFar, shown, turns)
  }

  /** One turn of the loop, taken when it is not aborted, asks for more and
      has turns left. */
  lemma ContinueStep(replies: nat -> Reply, aborted: nat -> bool, more: string -> bool, strip: string -> string, history: seq<StreamMsg>, messageText: string, soFar: string, shown: string, turns: nat)
    requires turns < MaxTurns && !aborted(turns) && more(soFar)
    ensures var stripped := strip(soFar);
      var reply := replies(turns + 1);
      var next := stripped + Concat(reply.deltas);
      var rest := Remaining(replies, aborted, more, strip, history, messageText, next,
        if reply.deltas == [] then stripped + "\n\n" else next, reply.error, turns + 1);
      ContinueFrom(replies, aborted, more, strip, history, messageText, soFar, shown, turns)
        == rest.(requests := [ContinueRequest(history, messageText, stripped)] + rest.requests)
  {
  }

  /** The requests of the loop from the next turn, with this turn's request
      in front, are those of the loop from this turn. */
  lemma ShiftRequests(replies: nat -> Reply, strip: string -> string, history: seq<StreamMsg>, messageText: string, soFar: string, turns: nat, later: seq<seq<StreamMsg>>)
    requires var next := strip(soFar) + Concat(replies(turns + 1).deltas);
      forall k :: 0 <= k < |later| ==>
        later[k] == ContinueRequest(history, messageText, strip(AnswerAt(replies, strip, next, turns + 1, k)))
    ensures var all := [ContinueRequest(history, messageText, strip(soFar))] + later;
      forall k :: 0 <= k < |all| ==>
        all[k] == ContinueRequest(history, messageText, strip(AnswerAt(replies, strip, soFar, turns, k)))
  {
    var all := [ContinueRequest(history, messageText, strip(soFar))] + later;
    forall k | 0 <= k < |all|
      ensures all[k] == ContinueRequest(history, messageText, strip(AnswerAt(replies, strip, soFar, turns, k)))
    {
      if k > 0 {
        assert all[k] == later[k - 1];
        AnswerAtShift(replies, strip, soFar, turns, k - 1);
      }
    }
  }

  /** The loop makes at most one request per remaining turn. Request `k`
      is the first request, the answer so far as `strip` leaves it when
      continuation `k` begins, and the instruction to continue. */
  lemma {:induction false} ContinueFromRequests(replies: nat -> Reply, aborted: nat -> bool, more: string -> bool, strip: string -> string, history: seq<StreamMsg>, messageText: string, soFar: string, shown: string, turns: nat)
    requires turns <= MaxTurns
    ensures var p := ContinueFrom(replies, aborted, more, strip, history, messageText, soFar, shown, turns);
      && |p.requests| <= MaxTurns - turns
      && forall k :: 0 <= k < |p.requests| ==>
           p.requests[k] == ContinueRequest(history, messageText, strip(AnswerAt(replies, strip, soFar, turns, k)))
    decreases MaxTurns - turns
  {
    if !aborted(turns) && more(soFar) && turns < MaxTurns {
      var reply := replies(turns + 1);
      var next := strip(soFar) + Concat(reply.deltas);
      var nextShown := if reply.deltas == [] then strip(soFar) + "\n\n" else next;
      if reply.error.None? {
        var rest := ContinueFrom(replies, aborted, more, strip, history, messageText, next, nextShown, turns + 1);
        ContinueFromRequests(replies, aborted, more, strip, history, messageText, next, nextShown, turns + 1);
        ShiftRequests(replies, strip, history, messageText, soFar, turns, rest.requests);
      }
    }
  }

  /** The loop ends with the answer after its last continuation. */
  lemma {:induction false} ContinueFromAnswer(replies: nat -> Reply, aborted: nat -> bool, more: string -> bool, strip: string -> string, history: seq<StreamMsg>, messageText: string, soFar: string, shown: string, turns: nat)
    requires turns <= MaxTurns
    ensures var p := ContinueFrom(replies, aborted, more, strip, history, messageText, soFar, shown, turns);
      p.soFar == AnswerAt(replies, strip, soFar, turns, |p.requests|)
    decreases MaxTurns - turns
  {
    if !aborted(turns) && more(soFar) && turns < MaxTurns {
      var reply := replies(turns + 1);
      var next := strip(soFar) + Concat(reply.deltas);
      var nextShown := if reply.deltas == [] then strip(soFar) + "\n\n" else next;
      if reply.error.None? {
        ContinueFromAnswer(replies, aborted, more, strip, history, messageText, next, nextShown, turns + 1);
      }
      AnswerStep(replies, aborted, more, strip, history, messageText, soFar, shown, turns);
    }
  }

  /** One turn of the loop: if the rest of the loop ends with the answer
      after its last continuation, so does the loop from this turn. */
  lemma AnswerStep(replies: nat -> Reply, aborted: nat -> bool, more: string -> bool, strip: string -> string, history: seq<StreamMsg>, messageText: string, soFar: string, shown: string, turns: nat)
    requires turns < MaxTurns && !aborted(turns) && more(soFar)
    requires var reply := replies(turns + 1);
      var next := strip(soFar) + Concat(reply.deltas);
      var rest := Remaining(replies, aborted, more, strip, history, messageText, next,
        if reply.deltas == [] then strip(soFar) + "\n\n" else next, reply.error, turns + 1);
      rest.soFar == AnswerAt(replies, strip, next, turns + 1, |rest.requests|)
    ensures var p := ContinueFrom(replies, aborted, more, strip, history, messageText, soFar, shown, turns);
      p.soFar == AnswerAt(replies, strip, soFar, turns, |p.requests|)
  {
    var reply := replies(turns + 1);
    var next := strip(soFar) + Concat(reply.deltas);
    var rest := Remaining(replies, aborted, more, strip, history, messageText, next,
      if reply.deltas == [] then strip(soFar) + "\n\n" else next, reply.error, turns + 1);
    ContinueStep(replies, aborted, more, strip, history, messageText, soFar, shown, turns);
    AnswerAfter(replies, strip, soFar, turns, rest.soFar, |rest.requests|);
  }

  /** An answer reached by the loop from the next turn is reached by the
      loop from this turn one continuation later. */
  lemma AnswerAfter(replies: nat -> Reply, strip: string -> string, soFar: string, turns: nat, answer: string, n: nat)
    requires answer == AnswerAt(replies, strip, strip(soFar) + Concat(replies(turns + 1).deltas), turns + 1, n)
    ensures answer == AnswerAt(replies, strip, soFar, turns, n + 1)
  {
    AnswerAtShift(replies, strip, soFar, turns, n);
  }

  /** The check at the head of the loop passes before continuation `k`,
      counted from turn `turns`: not aborted, and the answer so far asks
      for more. */
  predicate Proceeds(replies: nat -> Reply, aborted: nat -> bool, more: string -> bool, strip: string -> string, soFar: string, turns: nat, k: nat) {
    !aborted(turns + k) && more(AnswerAt(replies, strip, soFar, turns, k))
  }

  /** The loop makes a request only after its check passed, and it stops
      at the first check that fails: unless a request failed or all turns
      are used, the check after the last request fails. */
  lemma {:induction false} ContinueFromStops(replies: nat -> Reply, aborted: nat -> bool, more: string -> bool, strip: string -> string, history: seq<StreamMsg>, messageText: string, soFar: string, shown: string, turns: nat)
    requires turns <= MaxTurns
    ensures var p := ContinueFrom(replies, aborted, more, strip, history, messageText, soFar, shown, turns);
      && (forall k :: 0 <= k < |p.requests| ==> Proceeds(replies, aborted, more, strip, soFar, turns, k))
      && (p.error.None? && turns + |p.requests| < MaxTurns ==> !Proceeds(replies, aborted, more, strip, soFar, turns, |p.requests|))
    decreases MaxTurns - turns
  {
    if !aborted(turns) && more(soFar) && turns < MaxTurns {
      var reply := replies(turns + 1);
      var next := strip(soFar) + Concat(reply.deltas);
      var nextShown := if reply.deltas == [] then strip(soFar) + "\n\n" else next;
      if reply.error.None? {
        ContinueFromStops(replies, aborted, more, strip, history, messageText, next, nextShown, turns + 1);
      }
      StopsStep(replies, aborted, more, strip, history, messageText, soFar, shown, turns);
    }
  }

  /** The checks before the first `n` continuations all pass. */
  predicate AllProceed(replies: nat -> Reply, aborted: nat -> bool, more: string -> bool, strip: string -> string, soFar: string, turns: nat, n: nat) {
    forall k :: 0 <= k < n ==> Proceeds(replies, aborted, more, strip, soFar, turns, k)
  }

  /** One turn of the loop: if the rest of the loop checks before each of
      its requests and stops at its first failed check, so does the loop
      from this turn. */
  lemma StopsStep(replies: nat -> Reply, aborted: nat -> bool, more: string -> bool, strip: string -> string, history: seq<StreamMsg>, messageText: string, soFar: string, shown: string, turns: nat)
    requires turns < MaxTurns && !aborted(turns) && more(soFar)
    requires var reply := replies(turns + 1);
      var next := strip(soFar) + Concat(reply.deltas);
      var rest := Remaining(replies, aborted, more, strip, history, messageText, next,
        if reply.deltas == [] then strip(soFar) + "\n\n" else next, reply.error, turns + 1);
      && AllProceed(replies, aborted, more, strip, next, turns + 1, |rest.requests|)
      && (rest.error.None? && turns + 1 + |rest.requests| < MaxTurns ==> !Proceeds(replies, aborted, more, strip, next, turns + 1, |rest.requests|))
    ensures var p := ContinueFrom(replies, aborted, more, strip, history, messageText, soFar, shown, turns);
      && AllProceed(replies, aborted, more, strip, soFar, turns, |p.requests|)
      && (p.error.None? && turns + |p.requests| < MaxTurns ==> !Proceeds(replies, aborted, more, strip, soFar, turns, |p.requests|))
  {
    var reply := replies(turns + 1);
    var next := strip(soFar) + Concat(reply.deltas);
    var rest := Remaining(replies, aborted, more, strip, history, messageText, next,
      if reply.deltas == [] then strip(soFar) + "\n\n" else next, reply.error, turns + 1);
    var p := ContinueFrom(replies, aborted, more, strip, history, messageText, soFar, shown, turns);
    ContinueStep(replies, aborted, more, strip, history, messageText, soFar, shown, turns);
    assert |p.requests| == |rest.requests| + 1 && p.error == rest.error;
    ShiftChecks(replies, aborted, more, strip, soFar, turns, |rest.requests|);
  }

  /** The checks of the loop from the next turn are those of the loop from
      this turn, one continuation later. */
  lemma ShiftChecks(replies: nat -> Reply, aborted: nat -> bool, more: string -> bool, strip: string -> string, soFar: string, turns: nat, n: nat)
    requires !aborted(turns) && more(soFar)
    ensures var next := strip(soFar) + Concat(replies(turns + 1).deltas);
      && (AllProceed(replies, aborted, more, strip, next, turns + 1, n) ==> AllProceed(replies, aborted, more, strip, soFar, turns, n + 1))
      && (Proceeds(replies, aborted, more, strip, soFar, turns, n + 1) == Proceeds(replies, aborted, more, strip, next, turns + 1, n))
  {
    var next := strip(soFar) + Concat(replies(turns + 1).deltas);
    if AllProceed(replies, aborted, more, strip, next, turns + 1, n) {
      forall k | 0 <= k < n + 1
        ensures Proceeds(replies, aborted, more, strip, soFar, turns, k)
      {
        if k > 0 {
          assert Proceeds(replies, aborted, more, strip, next, turns + 1, k - 1);
          AnswerAtShift(replies, strip, soFar, turns, k - 1);
        }
      }
    }
    AnswerAtShift(replies, strip, soFar, turns, n);
  }

  /** The requests of one `send`: the first request, then at most eight
      continuation requests, none of them outside long mode, each carrying
      the answer so far as `strip` leaves it and each made after the loop's
      check passed; in long mode, unless a request failed or the turns ran
      out, the check after the last request failed. */
  lemma StreamingRequests(replies: nat -> Reply, aborted: nat -> bool, more: string -> bool, strip: string -> string, history: seq<StreamMsg>, messageText: string, longMode: bool)
    ensures var p := Streaming(replies, aborted, more, strip, history, messageText, longMode);
      var first := Concat(replies(0).deltas);
      && 1 <= |p.requests| <= 1 + MaxTurns
      && p.requests[0] == FirstRequest(history, messageText)
      && (!longMode ==> |p.requests| == 1)
      && (forall k :: 1 <= k < |p.requests| ==>
            p.requests[k] == ContinueRequest(history, messageText, strip(AnswerAt(replies, strip, first, 0, k - 1))))
      && p.soFar == AnswerAt(replies, strip, first, 0, |p.requests| - 1)
      && AllProceed(replies, aborted, more, strip, first, 0, |p.requests| - 1)
      && (longMode && p.error.None? && |p.requests| <= MaxTurns ==> !Proceeds(replies, aborted, more, strip, first, 0, |p.requests| - 1))
  {
    var reply := replies(0);
    var soFar := Concat(reply.deltas);
    ContinueFromStops(replies, aborted, more, strip, history, messageText, soFar, soFar, 0);
    ContinueFromRequests(replies, aborted, more, strip, history, messageText, soFar, soFar, 0);
    ContinueFromAnswer(replies, aborted, more, strip, history, messageText, soFar, soFar, 0);
    var p := Streaming(replies, aborted, more, strip, history, messageText, longMode);
    if reply.error.None? && longMode {
      forall k | 1 <= k < |p.requests|
        ensures p.requests[k] == ContinueRequest(history, messageText, strip(AnswerAt(replies, strip, soFar, 0, k - 1)))
      {
        assert p.requests[k] == ContinueFrom(replies, aborted, more, strip, history, messageText, soFar, soFar, 0).requests[k - 1];
      }
    }
  }

  /** The checks of `send`: without a session the user is sent to log in,
      a blank text is ignored, a long one is refused; in these cases and
      only in these nothing is requested and the conversation is kept. */
  lemma SendValidation(c: Conversation, text: string, loggedIn: bool, longMode: bool, replies: nat -> Reply, aborted: nat -> bool, userId: string, assistantId: string, now: int)
    ensures var o := Sent(c, text, loggedIn, longMode, replies, aborted, userId, assistantId, now);
      && (!loggedIn ==> o == Outcome(c, Some(Toast("Login required", "Pehle login karein.")), [], true))
      && (loggedIn && IsBlank(text) ==> o == Outcome(c, None, [], false))
      && (loggedIn && |Trim(text)| > MaxLength ==> o == Outcome(c, Some(Toast("Message too long", "4000 characters se chhota rakhein.")), [], false))
      && (o.requests == [] <==> !Accepted(text, loggedIn))
      && (!Accepted(text, loggedIn) ==> o.conversation == c)
  {
    TrimEmptyIffBlank(text);
    if Accepted(text, loggedIn) {
      StreamingRequests(replies, aborted, ShouldAutoContinue, StripTokenAsWritten, StreamMessages(c.messages), Trim(text), longMode);
    }
  }

  /** An accepted `send` adds the trimmed user message and one assistant
      message, names a new conversation after the user's text, and leaves
      in the assistant message the last streamed content or, after an
      error other than an abort, the error annotation with a toast. */
  lemma SendAppends(c: Conversation, text: string, loggedIn: bool, longMode: bool, replies: nat -> Reply, aborted: nat -> bool, userId: string, assistantId: string, now: int)
    requires Accepted(text, loggedIn)
    ensures var o := Sent(c, text, loggedIn, longMode, replies, aborted, userId, assistantId, now);
      var p := Streaming(replies, aborted, ShouldAutoContinue, StripTokenAsWritten, StreamMessages(c.messages), Trim(text), longMode);
      var failed := p.error.Some? && p.error != Some(AbortError);
      var content := if failed then ErrorAnnotation(ErrorText(p.error.value)) else p.shown;
      && o.conversation.messages == c.messages + [ChatMessage(userId, User, Trim(text), now), ChatMessage(assistantId, Assistant, content, now)]
      && o.conversation.id == c.id && o.conversation.createdAt == c.createdAt && o.conversation.updatedAt == now
      && (c.messages == [] ==> o.conversation.title == SuggestTitle(Trim(text)))
      && (c.messages != [] ==> o.conversation.title == c.title)
      && (o.toast.Some? <==> failed)
      && (failed ==> o.toast == Some(ErrorToast(p.error.value)))
  {
    TrimEmptyIffBlank(text);
    var messageText := Trim(text);
    var a := AppendMessage(c, ChatMessage(userId, User, messageText, now), now);
    var started := AppendMessage(a, ChatMessage(assistantId, Assistant, "", now), now);
    assert started.messages == c.messages + [ChatMessage(userId, User, messageText, now), ChatMessage(assistantId, Assistant, "", now)];
    assert EndsWithAssistant(started);
  }

  /** Outside long mode, or when the first answer looks complete, the
      assistant message is the first answer and nothing more is asked. */
  lemma SingleAnswer(c: Conversation, text: string, loggedIn: bool, longMode: bool, replies: nat -> Reply, aborted: nat -> bool, userId: string, assistantId: string, now: int)
    requires Accepted(text, loggedIn)
    requires replies(0).error.None?
    requires !longMode || aborted(0) || !ShouldAutoContinue(Concat(replies(0).deltas))
    ensures var o := Sent(c, text, loggedIn, longMode, replies, aborted, userId, assistantId, now);
      && o.requests == [FirstRequest(StreamMessages(c.messages), Trim(text))]
      && o.toast == None
      && o.conversation.messages[|o.conversation.messages| - 1].content == Concat(replies(0).deltas)
  {
    SendAppends(c, text, loggedIn, longMode, replies, aborted, userId, assistantId, now);
  }

  /** A first continuation that fails with any error but an abort replaces
      the answer by the error annotation and shows the error toast. */
  lemma FailedContinuation(c: Conversation, text: string, loggedIn: bool, replies: nat -> Reply, aborted: nat -> bool, userId: string, assistantId: string, now: int)
    requires Accepted(text, loggedIn)
    requires replies(0).error.None?
    requires !aborted(0) && ShouldAutoContinue(Concat(replies(0).deltas))
    requires replies(1).error.Some? && replies(1).error != Some(AbortError)
    ensures var o := Sent(c, text, loggedIn, true, replies, aborted, userId, assistantId, now);
      var e := replies(1).error.value;
      && |o.requests| == 2
      && o.toast == Some(ErrorToast(e))
      && o.conversation.messages[|o.conversation.messages| - 1].content == ErrorAnnotation(ErrorText(e))
  {
    SendAppends(c, text, loggedIn, true, replies, aborted, userId, assistantId, now);
  }

  /** With the removal as written, an answer ending in the token is sent
      back with the token, and while the gateway adds nothing the loop asks
      again on every turn, up to the bound. */
  lemma {:induction false} AsWrittenRepeatsToken(replies: nat -> Reply, aborted: nat -> bool, history: seq<StreamMsg>, messageText: string, s: string, shown: string, turns: nat)
    requires turns <= MaxTurns
    requires forall k :: turns <= k < MaxTurns ==> !aborted(k)
    requires forall k :: turns < k <= MaxTurns ==> replies(k) == Reply([], None)
    ensures var p := ContinueFrom(replies, aborted, ShouldAutoContinue, StripTokenAsWritten, history, messageText, s + ContinueToken, shown, turns);
      && |p.requests| == MaxTurns - turns
      && (forall k :: 0 <= k < |p.requests| ==> p.requests[k] == ContinueRequest(history, messageText, s + ContinueToken))
      && p.soFar == s + ContinueToken
    decreases MaxTurns - turns
  {
    if turns < MaxTurns {
      var t := s + ContinueToken;
      AsWrittenKeepsToken(s);
      assert Concat(replies(turns + 1).deltas) == [];
      assert t + [] == t;
      AsWrittenRepeatsToken(replies, aborted, history, messageText, s, t + "\n\n", turns + 1);
    }
  }

  /** With the intended removal and the same silent gateway, the token is
      dropped from the request and, unless the rest of the answer still
      looks cut, the loop stops after one continuation. */
  lemma CorrectedAsksOnce(replies: nat -> Reply, aborted: nat -> bool, history: seq<StreamMsg>, messageText: string, s: string, shown: string, turns: nat)
    requires turns < MaxTurns && !aborted(turns)
    requires !ShouldAutoContinue(TrimEnd(s))
    requires replies(turns + 1) == Reply([], None)
    ensures var p := ContinueFrom(replies, aborted, ShouldAutoContinue, StripToken, history, messageText, s + ContinueToken, shown, turns);
      && p.requests == [ContinueRequest(history, messageText, TrimEnd(s))]
      && p.soFar == TrimEnd(s)
  {
    StripTokenRemoves(s, []);
    assert s + ContinueToken + [] == s + ContinueToken;
    TokenContinues(s, []);
    assert TrimEnd(s) + Concat([]) == TrimEnd(s);
  }

  /** In long mode, a first answer ending in the token is sent back, token
      included, as the answer so far of the second request. */
  lemma SendResendsToken(c: Conversation, text: string, loggedIn: bool, replies: nat -> Reply, aborted: nat -> bool, userId: string, assistantId: string, now: int, s: string)
    requires Accepted(text, loggedIn)
    requires replies(0).error.None? && Concat(replies(0).deltas) == s + ContinueToken
    requires !aborted(0)
    ensures var o := Sent(c, text, loggedIn, true, replies, aborted, userId, assistantId, now);
      && |o.requests| >= 2
      && o.requests[1] == ContinueRequest(StreamMessages(c.messages), Trim(text), s + ContinueToken)
  {
    var history := StreamMessages(c.messages);
    var t := s + ContinueToken;
    TrimEmptyIffBlank(text);
    AsWrittenKeepsToken(s);
    StreamingRequests(replies, aborted, ShouldAutoContinue, StripTokenAsWritten, history, Trim(text), true);
    ContinueStep(replies, aborted, ShouldAutoContinue, StripTokenAsWritten, history, Trim(text), t, t, 0);
    assert AnswerAt(replies, StripTokenAsWritten, t, 0, 0) == t;
  }

  /** The page's state: the conversation and whether an answer streams. */
  class ChatSession {
    var conversation: Conversation
    var isStreaming: bool

    constructor (id: string, now: int)
      ensures conversation == NewConversation(id, now) && !isStreaming
    {
      conversation := NewConversation(id, now);
      isStreaming := false;
    }

    /** `onDelta` for each delta in turn: `assistantSoFar += chunk`, then
        `updateLastAssistant(assistantSoFar)`. */
    method ApplyDeltas(soFar: string, deltas: seq<string>, now: int) returns (next: string)
      modifies this`conversation
      ensures next == soFar + Concat(deltas)
      ensures conversation == if deltas == [] then old(conversation) else UpdateLastAssistant(old(conversation), next, now)
    {
      next := soFar;
      for i := 0 to |deltas|
        invariant next == soFar + Concat(deltas[..i])
        invariant conversation == if i == 0 then old(conversation) else UpdateLastAssistant(old(conversation), next, now)
      {
        assert deltas[..i + 1][..i] == deltas[..i];
        UpdateTwice(old(conversation), next, next + deltas[i], now);
        next := next + deltas[i];
        conversation := UpdateLastAssistant(conversation, next, now);
      }
      assert deltas[..|deltas|] == deltas;
    }

    /** `streamChat` for the `k`-th request. */
    method Fetch(world: World, ghost replies: nat -> Reply, k: nat) returns (deltas: seq<string>, err: Option<ChatError>)
      requires Answers(world, replies)
      ensures Reply(deltas, err) == replies(k)
    {
      deltas, err := Stream(world.exchange(k), world.parse, world.parseError);
    }

    /** The continuation loop of `send`, from `soFar` with `shown` in the
        assistant's message. `more` is the test for another turn and `strip`
        what is kept of the answer before asking for more. */
    method ContinueTurns(more: string -> bool, strip: string -> string, history: seq<StreamMsg>, messageText: string, world: World, ghost replies: nat -> Reply, now: int, soFar0: string, ghost shown0: string)
      returns (soFar: string, err: Option<ChatError>, requests: seq<seq<StreamMsg>>)
      requires Answers(world, replies)
      requires EndsWithAssistant(conversation) && conversation.updatedAt == now
      requires conversation.messages[|conversation.messages| - 1].content == shown0
      modifies this`conversation
      ensures var p := ContinueFrom(replies, world.aborted, more, strip, history, messageText, soFar0, shown0, 0);
        soFar == p.soFar && err == p.error && requests == p.requests
        && conversation == UpdateLastAssistant(old(conversation), p.shown, now)
    {
      UpdateSame(conversation, now);
      soFar, err, requests := soFar0, None, [];
      ghost var shown := shown0;
      var turns: nat := 0;
      while err.None? && !world.aborted(turns) && more(soFar) && turns < MaxTurns
        invariant turns <= MaxTurns
        invariant conversation == UpdateLastAssistant(old(conversation), shown, now)
        invariant var rest := Remaining(replies, world.aborted, more, strip, history, messageText, soFar, shown, err, turns);
          rest.(requests := requests + rest.requests) == ContinueFrom(replies, world.aborted, more, strip, history, messageText, soFar0, shown0, 0)
        decreases MaxTurns - turns
      {
        ghost var made := requests;
        ghost var shownBefore := shown;
        var request;
        soFar, shown, err, request := Turn(more, strip, history, messageText, world, replies, now, soFar, shownBefore, turns);
        UpdateTwice(old(conversation), shownBefore, shown, now);
        requests := requests + [request];
        turns := turns + 1;
        ghost var after := Remaining(replies, world.aborted, more, strip, history, messageText, soFar, shown, err, turns);
        Associative(made, [request], after.requests);
        assert requests + after.requests == made + ([request] + after.requests);
      }
    }

    /** One turn of the continuation loop: the answer so far without the
        token, shown with a blank line while the request runs, then with
        the deltas of the reply appended as they arrive. What is left of the
        loop after it, with its request in front, is the loop before it. */
    method Turn(more: string -> bool, strip: string -> string, history: seq<StreamMsg>, messageText: string, world: World, ghost replies: nat -> Reply, now: int, soFar: string, ghost shownBefore: string, turns: nat)
      returns (next: string, ghost shown: string, err: Option<ChatError>, request: seq<StreamMsg>)
      requires Answers(world, replies)
      requires turns < MaxTurns && !world.aborted(turns) && more(soFar)
      requires EndsWithAssistant(conversation) && conversation.updatedAt == now
      modifies this`conversation
      ensures var rest := Remaining(replies, world.aborted, more, strip, history, messageText, next, shown, err, turns + 1);
        ContinueFrom(replies, world.aborted, more, strip, history, messageText, soFar, shownBefore, turns)
          == rest.(requests := [request] + rest.requests)
      ensures conversation == UpdateLastAssistant(old(conversation), shown, now)
    {
      var stripped := strip(soFar);
      request := ContinueRequest(history, messageText, stripped);
      conversation := UpdateLastAssistant(conversation, stripped + "\n\n", now);
      var deltas;
      deltas, err := Fetch(world, replies, turns + 1);
      UpdateTwice(old(conversation), stripped + "\n\n", stripped + Concat(deltas), now);
      next := ApplyDeltas(stripped, deltas, now);
      shown := if deltas == [] then stripped + "\n\n" else next;
      ContinueStep(replies, world.aborted, more, strip, history, messageText, soFar, shownBefore, turns);
    }

    /** The streaming part of `send`: the first request, then, in long mode
        and unless it failed, the continuation loop. */
    method StreamTurns(more: string -> bool, strip: string -> string, history: seq<StreamMsg>, messageText: string, longMode: bool, world: World, ghost replies: nat -> Reply, now: int)
      returns (soFar: string, err: Option<ChatError>, requests: seq<seq<StreamMsg>>)
      requires Answers(world, replies)
      requires EndsWithAssistant(conversation) && conversation.updatedAt == now
      requires conversation.messages[|conversation.messages| - 1].content == ""
      modifies this`conversation
      ensures var p := Streaming(replies, world.aborted, more, strip, history, messageText, longMode);
        soFar == p.soFar && err == p.error && requests == p.requests
        && conversation == UpdateLastAssistant(old(conversation), p.shown, now)
    {
      UpdateSame(conversation, now);
      requests := [FirstRequest(history, messageText)];
      var deltas;
      deltas, err := Fetch(world, replies, 0);
      soFar := ApplyDeltas("", deltas, now);
      assert "" + Concat(deltas) == Concat(deltas);
      ghost var p := Streaming(replies, world.aborted, more, strip, history, messageText, longMode);
      assert Reply(deltas, err) == replies(0);
      assert err.Some? || !longMode ==> p == Progress(soFar, soFar, requests, err);
      if err.None? && longMode {
        ghost var first := soFar;
        var later;
        soFar, err, later := ContinueTurns(more, strip, history, messageText, world, replies, now, soFar, soFar);
        UpdateTwice(old(conversation), first, Streaming(replies, world.aborted, more, strip, history, messageText, longMode).shown, now);
        requests := requests + later;
      }
    }

    /** `send`. */
    method Send(text: string, loggedIn: bool, longMode: bool, world: World, userId: string, assistantId: string, now: int)
      returns (toast: Option<Toast>, requests: seq<seq<StreamMsg>>, toLogin: bool)
      modifies this
      ensures var o := Sent(old(conversation), text, loggedIn, longMode, Replies(world), world.aborted, userId, assistantId, now);
        conversation == o.conversation && toast == o.toast && requests == o.requests && toLogin == o.toLogin
      ensures requests == [] ==> isStreaming == old(isStreaming)
      ensures requests != [] ==> !isStreaming
    {
      toast, requests, toLogin := None, [], false;
      if !loggedIn {
        toast, toLogin := Some(Toast("Login required", "Pehle login karein.")), true;
        return;
      }
      var messageText := Trim(text);
      if messageText == [] {
        return;
      }
      if |messageText| > MaxLength {
        toast := Some(Toast("Message too long", "4000 characters se chhota rakhein."));
        return;
      }
      var history := StreamMessages(conversation.messages);
      conversation := AppendMessage(conversation, ChatMessage(userId, User, messageText, now), now);
      conversation := AppendMessage(conversation, ChatMessage(assistantId, Assistant, "", now), now);
      isStreaming := true;
      ghost var started := conversation;
      var soFar, err;
      soFar, err, requests := StreamTurns(ShouldAutoContinue, StripTokenAsWritten, history, messageText, longMode, world, Replies(world), now);
      StreamingRequests(Replies(world), world.aborted, ShouldAutoContinue, StripTokenAsWritten, history, messageText, longMode);
      isStreaming := false;
      if err.Some? && err.value != AbortError {
        var e := err.value;
        toast := Some(ErrorToast(e));
        UpdateTwice(started, Streaming(Replies(world), world.aborted, ShouldAutoContinue, StripTokenAsWritten, history, messageText, longMode).shown, ErrorAnnotation(ErrorText(e)), now);
        conversation := UpdateLastAssistant(conversation, ErrorAnnotation(ErrorText(e)), now);
      }
    }
  }
}
