/** The generation stream that feeds a model round: tokens are forwarded as they come, and the answer is
    reconciled with the terminal response. */
module Client {
  import opened Records
  import opened Conversation
  import opened Agent

  /** Keeps the answer deltas a prefix of the terminal answer. */
  class StreamTextReconciler {
    var emitted: string
    var withhold: bool

    constructor ()
      ensures emitted == [] && !withhold
    {
      emitted, withhold := [], false;
    }

    method ObserveToolSpan()
      modifies this`withhold
      ensures withhold
    {
      withhold := true;
    }

    method PushText(text: string) returns (forward: Option<string>)
      modifies this`emitted
      ensures forward == (if withhold then None else Some(text))
      ensures emitted == (if withhold then old(emitted) else old(emitted) + text)
    {
      if withhold {
        return None;
      }
      emitted := emitted + text;
      return Some(text);
    }

    method TerminalSuffix(terminal: string) returns (suffix: Option<string>)
      ensures suffix.Some? <==> emitted <= terminal
      ensures suffix.Some? ==> emitted + suffix.value == terminal
    {
      return if emitted <= terminal then Some(terminal[|emitted|..]) else None;
    }
  }

  /** What the engine reports while it generates. */
  datatype Token = ProgressReport | TextToken(text: string) | ReasoningToken(text: string) | ToolToken

  /** The sending half of the channel; it closes, for good, when the receiver is dropped. */
  class Sender {
    var sent: seq<Item>
    var room: nat

    constructor (room: nat)
      ensures sent == [] && this.room == room
    {
      sent, this.room := [], room;
    }

    method Send(item: Item) returns (ok: bool)
      modifies this
      ensures ok <==> old(room) > 0
      ensures sent == (if ok then old(sent) + [item] else old(sent))
      ensures room == (if ok then old(room) - 1 else 0)
    {
      if room == 0 {
        return false;
      }
      sent, room := sent + [item], room - 1;
      return true;
    }
  }

  lemma SentSnoc(items: seq<Item>, item: Item)
    ensures TextOf(items + [item]) == TextOf(items) + (if item.TextDelta? then item.text else [])
    ensures ReasoningOf(items + [item]) == ReasoningOf(items) + (if item.ReasoningDelta? then item.text else [])
    ensures CallsOf(items + [item]) == CallsOf(items) + (if item.CallDelta? then [item.call] else [])
  {
    SnocFront(items, item);
  }

  /** Nothing terminal has been sent. */
  ghost predicate Running(items: seq<Item>) {
    forall i | 0 <= i < |items| :: !items[i].Completed? && !items[i].Broken?
  }

  /** What a list of tokens says: the answer text up to the first tool token, whether there was one, and the
      reasoning. */
  datatype Heard = Heard(text: string, withheld: bool, reasoning: string)

  ghost function Hear(heard: Heard, token: Token): Heard {
    match token
    case ProgressReport => heard
    case TextToken(t) => if heard.withheld then heard else heard.(text := heard.text + t)
    case ReasoningToken(t) => heard.(reasoning := heard.reasoning + t)
    case ToolToken => heard.(withheld := true)
  }

  ghost function HearAll(tokens: seq<Token>): Heard {
    if tokens == [] then Heard([], false, [])
    else Hear(HearAll(tokens[..|tokens| - 1]), tokens[|tokens| - 1])
  }

  lemma HearSnoc(tokens: seq<Token>, i: nat)
    requires i < |tokens|
    ensures HearAll(tokens[..i + 1]) == Hear(HearAll(tokens[..i]), tokens[i])
  {
    assert tokens[..i + 1][..i] == tokens[..i];
  }

  /** While the channel is open, what was sent as answer text is what the reconciler recorded. */
  ghost predicate InStep(text: StreamTextReconciler, sender: Sender, heard: Heard)
    reads text, sender
  {
    && Running(sender.sent) && CallsOf(sender.sent) == []
    && text.emitted == heard.text && text.withhold == heard.withheld
    && (sender.room > 0 ==> TextOf(sender.sent) == text.emitted && ReasoningOf(sender.sent) == heard.reasoning)
  }

  /** The callback for one token: whether generation goes on. */
  method OnToken(token: Token, text: StreamTextReconciler, sender: Sender, ghost heard: Heard) returns (more: bool)
    requires InStep(text, sender, heard)
    modifies text, sender
    ensures InStep(text, sender, Hear(heard, token))
    ensures more <==> old(sender.room) > 0
    ensures old(sender.room) - 1 <= sender.room <= old(sender.room)
  {
    var item := Progress;
    match token {
      case ProgressReport =>
      case TextToken(t) =>
        var forward := text.PushText(t);
        if forward.None? || forward.value == [] {
          return sender.room > 0;
        }
        item := TextDelta(forward.value);
      case ReasoningToken(t) =>
        if t == [] {
          return sender.room > 0;
        }
        item := ReasoningDelta(t);
      case ToolToken =>
        text.ObserveToolSpan();
        return sender.room > 0;
    }
    more := Forward(item, sender);
  }

  /** Send a delta that carries no call. */
  method Forward(item: Item, sender: Sender) returns (ok: bool)
    requires Running(sender.sent) && (item.Progress? || item.TextDelta? || item.ReasoningDelta?)
    modifies sender
    ensures ok <==> old(sender.room) > 0
    ensures sender.room == (if ok then old(sender.room) - 1 else 0)
    ensures Running(sender.sent) && CallsOf(sender.sent) == CallsOf(old(sender.sent))
    ensures ok ==>
              && TextOf(sender.sent) == TextOf(old(sender.sent)) + (if item.TextDelta? then item.text else [])
              && ReasoningOf(sender.sent) ==
                 ReasoningOf(old(sender.sent)) + (if item.ReasoningDelta? then item.text else [])
  {
    SentSnoc(sender.sent, item);
    ok := sender.Send(item);
  }

  /** Send the calls of the terminal response, then the response itself. */
  method SendTerminal(response: Response, sender: Sender)
    requires Running(sender.sent) && CallsOf(sender.sent) == []
    requires sender.room > 0 ==> TextOf(sender.sent) == response.text
    modifies sender
    ensures Delivered(sender.sent)
    ensures old(sender.room) > |response.calls| ==>
              EndsWith(sender.sent, response) && ReasoningOf(sender.sent) == ReasoningOf(old(sender.sent))
    ensures old(sender.room) == 0 ==> sender.sent == old(sender.sent)
  {
    assert response.calls[..0] == [];
    for i := 0 to |response.calls|
      invariant Running(sender.sent)
      invariant sender.room > 0 ==> TextOf(sender.sent) == response.text && CallsOf(sender.sent) == response.calls[..i]
      invariant i == 0 ==> sender.sent == old(sender.sent)
      invariant ReasoningOf(sender.sent) == ReasoningOf(old(sender.sent))
      invariant old(sender.room) >= i && sender.room == old(sender.room) - i
    {
      SentSnoc(sender.sent, CallDelta(response.calls[i]));
      var ok := sender.Send(CallDelta(response.calls[i]));
      if !ok {
        return;
      }
      PrefixSnoc(response.calls, i);
    }
    assert response.calls[..|response.calls|] == response.calls;
    SentSnoc(sender.sent, Completed(response));
    var ok := sender.Send(Completed(response));
  }

  /** A stream that delivers a terminal response has delivered its whole answer and all of its calls. */
  ghost predicate Delivered(items: seq<Item>) {
    forall response | EndsWith(items, response) :: TextOf(items) == response.text && CallsOf(items) == response.calls
  }

  /** Room for every token, the rest of the answer, every call and the response. */
  ghost predicate RoomFor(room: nat, tokens: seq<Token>, response: Response) {
    room > |tokens| + 1 + |response.calls|
  }

  /** The streaming job: forward the tokens of a generation, then reconcile its outcome.  The receiver
      may go away at any point; `reply` is nothing when generation fails. */
  method StreamJob(tokens: seq<Token>, reply: Option<Response>, room: nat) returns (sent: seq<Item>)
    ensures Delivered(sent) && AnswerCoherent(sent)
    ensures reply.Some? && RoomFor(room, tokens, reply.value) && HearAll(tokens).text <= reply.value.text ==>
              EndsWith(sent, reply.value) && ReasoningOf(sent) == HearAll(tokens).reasoning
    ensures room > |tokens| && (reply.None? || !(HearAll(tokens).text <= reply.value.text)) ==>
              sent != [] && sent[|sent| - 1] == Broken
  {
    var text := new StreamTextReconciler();
    var sender := new Sender(room);
    var i, more := 0, true;
    while i < |tokens| && more
      invariant fresh(text) && fresh(sender) && i <= |tokens| && InStep(text, sender, HearAll(tokens[..i]))
      invariant sender.room + i >= room && (more || room < |tokens|)
      decreases |tokens| - i
    {
      HearSnoc(tokens, i);
      more := OnToken(tokens[i], text, sender, HearAll(tokens[..i]));
      i := i + 1;
    }
    assert tokens[..|tokens|] == tokens;
    if reply.None? {
      var failed := sender.Send(Broken);
      return sender.sent;
    }
    var suffix := text.TerminalSuffix(reply.value.text);
    if suffix.None? {
      var failed := sender.Send(Broken);
      return sender.sent;
    }
    if suffix.value != [] {
      SentSnoc(sender.sent, TextDelta(suffix.value));
      var ok := sender.Send(TextDelta(suffix.value));
      if !ok {
        return sender.sent;
      }
    }
    SendTerminal(reply.value, sender);
    return sender.sent;
  }

  /** A round fed by the streaming job never finds that the answer deltas or the streamed calls contradict
      the terminal response. */
  method FedRound(session: AgentSession, env: Environment, start: Round, ghost items: seq<Item>)
    returns (r: Agent.Result<Response>, round: Round)
    requires env.Valid() && start == StartRound(start.issued, start.argumentBytes, start.modelBytes)
    requires Delivered(items) && env.answers(env.next).stream == Some(items)
    modifies env`next, env`shownText, env`shownReasoning, env`rounds, env`pages, env`badStreams
    ensures r.Err? ==> !ContradictsAnswer(r.error)
    ensures r.Ok? ==> env.shownText == r.value.text == TextOf(items)
  {
    assert AnswerCoherent(items);
    r, round := session.StreamModelRound(env, start);
  }
}
