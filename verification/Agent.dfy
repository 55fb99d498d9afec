/** One agent turn: model rounds and tool batches against an arbitrary environment. */
module Agent {
  import opened Records
  import opened Conversation

  const MAX_TOTAL_TOOL_OUTPUT_BYTES := 0xc_0000
  const MAX_TOTAL_MODEL_OUTPUT_BYTES := 0xc_0000
  const MAX_APPROVAL_REASON_BYTES := 4096
  const MAX_DRAFT_DEPTHS := 8
  const ID_ATTEMPTS := 8
  const MAX_AGENT_MODEL_ROUNDS := 20

  datatype FinishReason = Stop | Length | ToolCalls | Aborted

  /** `drafts` is the number of speculation depths reported. */
  datatype Response = Response(text: string, reasoning: Option<string>, calls: seq<Call>, finish: FinishReason,
                               drafts: nat)

  /** What a model stream yields. */
  datatype Item =
    Progress | TextDelta(text: string) | ReasoningDelta(text: string) | CallDelta(call: Call)
    | Completed(response: Response) | Broken

  /** How a tool invocation ends. */
  datatype Reply = Output(text: string) | Respond(text: string) | Interrupted | Fatal

  /** What the tool's approval rule and the approval policy say. */
  datatype Approval = NotRequired | Required(reason: string, denial: Option<string>)

  datatype Complaint =
    AnswerNotPrefix | ReasoningNotPrefix | CallsDiffer | BadCall | BadStream | BadTerminal | TooMuchOutput

  datatype Failure =
    Configuration | EventSink | CheckpointSink | Cancelled | Generation | Protocol(why: Complaint)
    | ToolFatal | MaxModelRounds | Cleanup(primary: Failure)

  datatype Result<+T> = Ok(value: T) | Err(error: Failure)

  /** One answer of the environment; each question reads the part it asks for. */
  datatype Answer = Answer(yes: bool, cancelled: bool, uuid: string, stream: Option<seq<Item>>, reply: Reply,
                           approval: Approval)

  /** An answer that lets a turn go on: nothing refuses, nobody cancels, and the words of an approval are
      admissible. */
  predicate Sound(answer: Answer) {
    && answer.yes && !answer.cancelled
    && (answer.approval.Required? ==>
          && ApprovalTextOk(answer.approval.reason)
          && (answer.approval.denial.Some? ==> ApprovalTextOk(answer.approval.denial.value)))
  }

  /** What one round showed: its text, its reasoning and its calls. */
  datatype Page = Page(text: string, reasoning: string, calls: seq<Call>)

  /** Everything outside the turn: event sink, durable checkpoints, cancellation, the model, the tools
      and the UUID generator.  Its answers are an arbitrary sequence, read one at a time; only UUIDs
      are known to be well formed.  The ghost fields record what it was made to do. */
  class Environment {
    const answers: nat -> Answer
    var next: nat
    /** The tool invocations begun, and how each one ended. */
    ghost var invoked: seq<Call>
    ghost var replies: seq<Reply>
    /** The calls of every stored batch plan, those permitted, and those whose start was stored. */
    ghost var planned: set<Call>
    ghost var allowed: set<Call>
    ghost var started: set<Call>
    /** The messages of every turn checkpoint that was stored. */
    ghost var stored: seq<Message>
    /** How many checkpoints have failed. */
    ghost var losses: nat
    /** How many model rounds were begun. */
    ghost var rounds: nat
    /** The rounds that succeeded, and how many streams could not be accepted. */
    ghost var pages: seq<Page>
    ghost var badStreams: nat
    /** The text and reasoning deltas shown in the current round. */
    ghost var shownText: string
    ghost var shownReasoning: string

    ghost predicate Valid() {
      forall n: nat :: IsUuidV7(answers(n).uuid)
    }

    /** Some answer since the `from`-th stood in the way. */
    ghost predicate Rough(from: nat)
      reads this`next
    {
      exists n | from <= n < next :: !Sound(answers(n))
    }

    /** Some UUID since the `from`-th answer was taken already. */
    ghost predicate Clash(from: nat, taken: set<string>)
      reads this`next
    {
      exists n | from <= n < next :: answers(n).uuid in taken || Repeats(from, n)
    }

    ghost predicate Repeats(from: nat, n: nat) {
      exists m | from <= m < n :: answers(m).uuid == answers(n).uuid
    }

    /** Some approval since the `from`-th answer was a denial. */
    ghost predicate Denied(from: nat)
      reads this`next
    {
      exists n | from <= n < next :: !Permits(answers(n).approval)
    }

    ghost predicate Mishap(from: nat, taken: set<string>)
      reads this`next
    {
      Rough(from) || Clash(from, taken)
    }

    /** The identifiers beyond `base` come from answers since the `from`-th. */
    ghost predicate Drew(from: nat, base: set<string>, issued: set<string>)
      reads this`next
    {
      forall id | id in issued && id !in base :: DrawnBy(from, next, id)
    }

    ghost predicate DrawnBy(from: nat, to: nat, id: string) {
      exists m | from <= m < to :: answers(m).uuid == id
    }

    /** What is drawn stays drawn, and what was drawn since a later answer was drawn since an earlier one. */
    lemma DrawnStill(from: nat, at: nat, to: nat, to': nat, id: string)
      requires from <= at && to <= to' && DrawnBy(at, to, id)
      ensures DrawnBy(from, to', id)
    {
      var m :| at <= m < to && answers(m).uuid == id;
      assert answers(m).uuid == id;
    }

    /** A mishap of a part of a turn is one of the turn, whose identifiers are known or drawn. */
    lemma MishapSince(from: nat, at: nat, base: set<string>, taken: set<string>)
      requires from <= at <= next && Mishap(at, taken)
      requires forall id | id in taken && id !in base :: DrawnBy(from, at, id)
      ensures Mishap(from, base)
    {
      if !Rough(at) {
        var n :| at <= n < next && (answers(n).uuid in taken || Repeats(at, n));
        if answers(n).uuid in taken {
          if answers(n).uuid !in base {
            DrawnStill(from, from, at, n, answers(n).uuid);
            assert Repeats(from, n);
          }
        } else {
          DrawnStill(from, at, n, n, answers(n).uuid);
          assert Repeats(from, n);
        }
      }
    }

    constructor (answers: nat -> Answer)
      requires forall n: nat :: IsUuidV7(answers(n).uuid)
      ensures Valid() && next == 0 && invoked == [] && replies == [] && stored == [] && pages == []
      ensures losses == 0 && rounds == 0 && badStreams == 0
    {
      this.answers := answers;
      next, invoked, stored, losses, rounds, shownText, shownReasoning := 0, [], [], 0, 0, [], [];
      planned, allowed, started, replies, pages, badStreams := {}, {}, {}, [], [], 0;
    }

    method Ask() returns (answer: Answer)
      modifies this`next
      ensures answer == answers(old(next)) && next == old(next) + 1
    {
      answer := answers(next);
      next := next + 1;
    }

    /** Send an event that carries no generated text. */
    method Emit() returns (ok: bool)
      modifies this`next
      ensures next == old(next) + 1 && ok == answers(old(next)).yes
    {
      var answer := Ask();
      return answer.yes;
    }

    /** A new round, of which nothing has been shown yet. */
    ghost method BeginRound()
      modifies this`shownText, this`shownReasoning, this`rounds
      ensures shownText == [] && shownReasoning == [] && rounds == old(rounds) + 1
    {
      shownText, shownReasoning, rounds := [], [], rounds + 1;
    }

    /** A round has succeeded with these calls. */
    ghost method EndRound(calls: seq<Call>)
      modifies this`pages
      ensures pages == old(pages) + [Page(shownText, shownReasoning, calls)]
    {
      pages := pages + [Page(shownText, shownReasoning, calls)];
    }

    /** Count a stream that could not be accepted. */
    ghost method Judge(good: bool)
      modifies this`badStreams
      ensures badStreams == old(badStreams) + (if good then 0 else 1)
    {
      badStreams := badStreams + (if good then 0 else 1);
    }

    method ShowText(text: string) returns (ok: bool)
      modifies this`next, this`shownText
      ensures next == old(next) + 1 && ok == answers(old(next)).yes
      ensures shownText == if ok then old(shownText) + text else old(shownText)
    {
      var answer := Ask();
      if answer.yes { shownText := shownText + text; }
      return answer.yes;
    }

    method ShowReasoning(text: string) returns (ok: bool)
      modifies this`next, this`shownReasoning
      ensures next == old(next) + 1 && ok == answers(old(next)).yes
      ensures shownReasoning == if ok then old(shownReasoning) + text else old(shownReasoning)
    {
      var answer := Ask();
      if answer.yes { shownReasoning := shownReasoning + text; }
      return answer.yes;
    }

    /** Store a checkpoint that does not close messages. */
    method Checkpoint() returns (ok: bool)
      modifies this`next, this`losses
      ensures next == old(next) + 1 && ok == answers(old(next)).yes
      ensures losses == old(losses) + (if ok then 0 else 1)
    {
      var answer := Ask();
      losses := losses + (if answer.yes then 0 else 1);
      return answer.yes;
    }

    /** Store the plan of a tool batch. */
    method CheckpointPlan(calls: seq<Call>) returns (ok: bool)
      modifies this`next, this`losses, this`planned
      ensures next == old(next) + 1 && ok == answers(old(next)).yes
      ensures losses == old(losses) + (if ok then 0 else 1)
      ensures planned == if ok then old(planned) + set call | call in calls else old(planned)
    {
      var answer := Ask();
      losses := losses + (if answer.yes then 0 else 1);
      if answer.yes { planned := planned + set call | call in calls; }
      return answer.yes;
    }

    /** Store that a call is about to run. */
    method CheckpointStart(call: Call) returns (ok: bool)
      modifies this`next, this`losses, this`started
      ensures next == old(next) + 1 && ok == answers(old(next)).yes
      ensures losses == old(losses) + (if ok then 0 else 1)
      ensures started == if ok then old(started) + {call} else old(started)
    {
      var answer := Ask();
      losses := losses + (if answer.yes then 0 else 1);
      if answer.yes { started := started + {call}; }
      return answer.yes;
    }

    /** Store the messages of a finished batch or turn. */
    method CheckpointMessages(messages: seq<Message>) returns (ok: bool)
      modifies this`next, this`losses, this`stored
      ensures next == old(next) + 1 && ok == answers(old(next)).yes
      ensures losses == old(losses) + (if ok then 0 else 1)
      ensures stored == if ok then old(stored) + messages else old(stored)
    {
      var answer := Ask();
      losses := losses + (if answer.yes then 0 else 1);
      if answer.yes { stored := stored + messages; }
      return answer.yes;
    }

    method IsCancelled() returns (cancelled: bool)
      modifies this`next
      ensures next == old(next) + 1 && cancelled == answers(old(next)).cancelled
    {
      var answer := Ask();
      return answer.cancelled;
    }

    method NewUuid() returns (uuid: string)
      requires Valid()
      modifies this`next
      ensures IsUuidV7(uuid) && uuid == answers(old(next)).uuid && next == old(next) + 1
    {
      var answer := Ask();
      return answer.uuid;
    }

    /** Enter a tool; it may have had an effect whatever it answers.  Only a call that was planned,
        permitted and announced in the store may run. */
    method Invoke(call: Call) returns (reply: Reply)
      requires call in planned && call in allowed && call in started
      modifies this`next, this`invoked, this`replies
      ensures next == old(next) + 1
      ensures invoked == old(invoked) + [call] && replies == old(replies) + [reply]
    {
      var answer := Ask();
      invoked, replies := invoked + [call], replies + [answer.reply];
      return answer.reply;
    }
  }

  // ----- a model round

  ghost function TextOf(items: seq<Item>): string {
    if items == [] then []
    else
      var last := items[|items| - 1];
      TextOf(items[..|items| - 1]) + (if last.TextDelta? then last.text else [])
  }

  ghost function ReasoningOf(items: seq<Item>): string {
    if items == [] then []
    else
      var last := items[|items| - 1];
      ReasoningOf(items[..|items| - 1]) + (if last.ReasoningDelta? then last.text else [])
  }

  ghost function CallsOf(items: seq<Item>): seq<Call> {
    if items == [] then []
    else
      var last := items[|items| - 1];
      CallsOf(items[..|items| - 1]) + (if last.CallDelta? then [last.call] else [])
  }

  /** A stream that ends in its only terminal response. */
  ghost predicate EndsWith(items: seq<Item>, response: Response) {
    && items != [] && items[|items| - 1] == Completed(response)
    && forall i | 0 <= i < |items| - 1 :: !items[i].Completed? && !items[i].Broken?
  }

  /** What one round has accumulated, and the turn's running totals. */
  datatype Round = Round(observed: seq<Call>, source: seq<Call>, text: string, reasoning: string,
                         completed: Option<Response>, issued: set<string>, argumentBytes: nat, modelBytes: nat)

  function StartRound(issued: set<string>, argumentBytes: nat, modelBytes: nat): Round {
    Round([], [], [], [], None, issued, argumentBytes, modelBytes)
  }

  /** A call of the model under the identifier the agent issued for it. */
  predicate Renamed(call: Call, issued: Call) {
    issued.name == call.name && issued.arguments == call.arguments
  }

  /** The calls taken so far have fresh, distinct identifiers and pass the checks on a history. */
  ghost predicate RoundOk(start: Round, round: Round, known: set<string>) {
    && |round.source| == |round.observed| <= MAX_TOOL_CALLS_PER_ROUND
    && DistinctIds(round.source) && DistinctIds(round.observed)
    && (forall i | 0 <= i < |round.observed| :: Renamed(round.source[i], round.observed[i]))
    && (forall call | call in round.observed :: CallOk(call))
    && Ids(round.observed) !! start.issued && Ids(round.observed) !! known
    && round.issued == start.issued + Ids(round.observed)
    && round.argumentBytes == start.argumentBytes + ArgumentBytes(round.observed)
    && (round.observed != [] ==> round.argumentBytes <= MAX_TOTAL_TOOL_ARGUMENT_BYTES)
  }

  predicate CallIdOk(id: string) {
    ByteLen(id) <= MAX_TOOL_CALL_ID_BYTES && !Blank(id) && !HasControl(id)
  }

  /** A call that a round may still take. */
  predicate Admits(round: Round, call: Call) {
    && CallIdOk(call.id) && ValidToolName(call.name)
    && call.arguments.length.Some? && call.arguments.length.value <= MAX_TOOL_SCHEMA_BYTES
    && round.argumentBytes + call.arguments.length.value <= MAX_TOTAL_TOOL_ARGUMENT_BYTES
    && call.id !in Ids(round.source) && call.arguments.isObject
    && |round.source| < MAX_TOOL_CALLS_PER_ROUND
  }

  lemma IdsSnocCall(calls: seq<Call>, call: Call)
    ensures Ids(calls + [call]) == Ids(calls) + {call.id}
    ensures DistinctIds(calls) && call.id !in Ids(calls) ==> DistinctIds(calls + [call])
    ensures ArgumentBytes(calls + [call]) ==
            ArgumentBytes(calls) + (if call.arguments.length.Some? then call.arguments.length.value else 0)
  {
    var longer := calls + [call];
    assert longer[..|calls|] == calls && longer[|calls|] == call;
    forall i | 0 <= i < |calls| ensures longer[i].id in Ids(calls) { assert calls[i] in calls; }
  }

  lemma Rejoin(part: string, whole: string)
    requires part <= whole
    ensures part + whole[|part|..] == whole
    ensures whole[|part|..] == [] ==> part == whole
  {
  }

  lemma TakeCallOk(start: Round, round: Round, known: set<string>, call: Call, id: string)
    requires RoundOk(start, round, known) && Admits(round, call)
    requires IsUuidV7(id) && id !in known && id !in round.issued
    ensures RoundOk(start, TakeCall(round, call, id), known)
  {
    IdsSnocCall(round.source, call);
    IdsSnocCall(round.observed, call.(id := id));
  }

  function TakeCall(round: Round, call: Call, id: string): Round {
    round.(observed := round.observed + [call.(id := id)], source := round.source + [call],
           issued := round.issued + {id},
           argumentBytes := round.argumentBytes
                            + (if call.arguments.length.Some? then call.arguments.length.value else 0))
  }

  predicate TerminalCallOk(call: Call) {
    CallIdOk(call.id) && ValidToolName(call.name) && ArgumentsOk(call.arguments)
  }

  /** Calls that a terminal response may carry, within the argument budget. */
  predicate TerminalCallsOk(calls: seq<Call>) {
    (forall call | call in calls :: TerminalCallOk(call)) && ArgumentBytes(calls) <= MAX_TOTAL_TOOL_ARGUMENT_BYTES
  }

  predicate TerminalOk(response: Response) {
    && ByteLen(response.text) <= MAX_MODEL_OUTPUT_BYTES && ReasoningOk(response.reasoning)
    && |response.calls| <= MAX_TOOL_CALLS_PER_ROUND && TerminalCallsOk(response.calls)
    && response.drafts <= MAX_DRAFT_DEPTHS
  }

  lemma TerminalCallsSnoc(calls: seq<Call>, call: Call)
    requires TerminalCallsOk(calls)
    ensures TerminalCallsOk(calls + [call]) <==>
            TerminalCallOk(call) && ArgumentBytes(calls + [call]) <= MAX_TOTAL_TOOL_ARGUMENT_BYTES
    ensures TerminalCallOk(call) ==> ArgumentBytes(calls + [call]) == ArgumentBytes(calls) + call.arguments.length.value
  {
    IdsSnocCall(calls, call);
    assert (calls + [call])[|calls|] == call;
  }

  lemma {:induction false} ArgumentBytesGrow(calls: seq<Call>, n: nat)
    requires n <= |calls|
    ensures ArgumentBytes(calls[..n]) <= ArgumentBytes(calls)
    decreases |calls|
  {
    if n < |calls| {
      assert calls[..|calls| - 1][..n] == calls[..n];
      ArgumentBytesGrow(calls[..|calls| - 1], n);
    } else {
      assert calls[..n] == calls;
    }
  }

  lemma TerminalCallsPrefix(calls: seq<Call>, n: nat)
    requires n <= |calls| && TerminalCallsOk(calls)
    ensures TerminalCallsOk(calls[..n])
  {
    ArgumentBytesGrow(calls, n);
  }

  /** The loop over the calls of a terminal response. */
  method ValidateTerminalCalls(calls: seq<Call>) returns (ok: bool)
    ensures ok <==> TerminalCallsOk(calls)
  {
    var total := 0;
    for i := 0 to |calls|
      invariant total == ArgumentBytes(calls[..i]) && TerminalCallsOk(calls[..i])
    {
      PrefixSnoc(calls, i);
      TerminalCallsSnoc(calls[..i], calls[i]);
      ok := TerminalCallOk(calls[i]);
      if ok {
        total := total + calls[i].arguments.length.value;
        ok := total <= MAX_TOTAL_TOOL_ARGUMENT_BYTES;
      }
      if !ok {
        if TerminalCallsOk(calls) { TerminalCallsPrefix(calls, i + 1); }
        return;
      }
    }
    assert calls[..|calls|] == calls;
    return true;
  }

  method ValidateTerminal(response: Response) returns (ok: bool)
    ensures ok <==> TerminalOk(response)
  {
    if ByteLen(response.text) > MAX_MODEL_OUTPUT_BYTES || !ReasoningOk(response.reasoning)
       || |response.calls| > MAX_TOOL_CALLS_PER_ROUND {
      return false;
    }
    ok := ValidateTerminalCalls(response.calls);
    return ok && response.drafts <= MAX_DRAFT_DEPTHS;
  }

  lemma {:induction false} ByteLenAppend(a: string, b: string)
    ensures ByteLen(a + b) == ByteLen(a) + ByteLen(b)
    decreases |b|
  {
    if b == [] {
      assert a + b == a;
    } else {
      var n := |b| - 1;
      assert (a + b)[..|a| + n] == a + b[..n];
      ByteLenAppend(a, b[..n]);
    }
  }

  /** Add a delta to a round's text or reasoning, exactly when the whole stays within the budget of one
      output and the total within the budget of the turn. */
  method AppendDelta(output: string, delta: string, total: nat) returns (ok: bool, longer: string, total': nat)
    ensures ok <==> ByteLen(output + delta) <= MAX_MODEL_OUTPUT_BYTES
                    && total + ByteLen(delta) <= MAX_TOTAL_MODEL_OUTPUT_BYTES
    ensures ok ==> longer == output + delta && total' - total == ByteLen(longer) - ByteLen(output)
    ensures ok ==> ByteLen(longer) <= MAX_MODEL_OUTPUT_BYTES && total' <= MAX_TOTAL_MODEL_OUTPUT_BYTES
  {
    ByteLenAppend(output, delta);
    if ByteLen(output) + ByteLen(delta) > MAX_MODEL_OUTPUT_BYTES
       || total + ByteLen(delta) > MAX_TOTAL_MODEL_OUTPUT_BYTES {
      return false, output, total;
    }
    return true, output + delta, total + ByteLen(delta);
  }

  /** The running total is what the turn had generated before the round, plus the round's own output. */
  ghost predicate Metered(start: Round, round: Round) {
    && round.modelBytes == start.modelBytes + ByteLen(round.text) + ByteLen(round.reasoning)
    && (start.modelBytes <= MAX_TOTAL_MODEL_OUTPUT_BYTES ==> round.modelBytes <= MAX_TOTAL_MODEL_OUTPUT_BYTES)
  }

  ghost predicate SameOutput(round: Round, next: Round) {
    next.text == round.text && next.reasoning == round.reasoning && next.modelBytes == round.modelBytes
  }

  /** A finished round has charged exactly its answer, its reasoning and its arguments, within the budgets. */
  ghost predicate Spent(start: Round, response: Response, round: Round) {
    && round.modelBytes == start.modelBytes + ByteLen(response.text) + ByteLen(Plain(response.reasoning))
    && round.argumentBytes == start.argumentBytes + ArgumentBytes(response.calls)
    && (start.modelBytes <= MAX_TOTAL_MODEL_OUTPUT_BYTES ==> round.modelBytes <= MAX_TOTAL_MODEL_OUTPUT_BYTES)
    && (start.argumentBytes <= MAX_TOTAL_TOOL_ARGUMENT_BYTES ==> round.argumentBytes <= MAX_TOTAL_TOOL_ARGUMENT_BYTES)
  }

  /** What the agent may keep of a finished round. */
  ghost predicate RoundAnswer(start: Round, known: set<string>, response: Response, issued: set<string>) {
    && ByteLen(response.text) <= MAX_MODEL_OUTPUT_BYTES && ReasoningOk(response.reasoning)
    && (response.calls == [] ==> !Blank(response.text))
    && |response.calls| <= MAX_TOOL_CALLS_PER_ROUND && DistinctIds(response.calls)
    && (forall call | call in response.calls :: CallOk(call))
    && ArgumentBytes(response.calls) <= MAX_TOTAL_TOOL_ARGUMENT_BYTES
    && Ids(response.calls) !! start.issued && Ids(response.calls) !! known
    && issued == start.issued + Ids(response.calls)
  }

  /** The failure behind a cleanup failure. */
  function Cause(failure: Failure): Failure {
    if failure.Cleanup? then failure.primary else failure
  }

  /** A response is the stream's terminal one with its calls, in order, under issued identifiers. */
  ghost predicate AnswersStream(items: seq<Item>, response: Response) {
    exists terminal ::
      && EndsWith(items, terminal) && response == terminal.(calls := response.calls)
      && |response.calls| == |terminal.calls|
      && forall i | 0 <= i < |response.calls| :: Renamed(terminal.calls[i], response.calls[i])
  }

  /** An item that an open round may take. */
  ghost predicate Takable(round: Round, item: Item) {
    match item
    case Broken => false
    case Progress => true
    case TextDelta(text) =>
      && ByteLen(round.text + text) <= MAX_MODEL_OUTPUT_BYTES
      && round.modelBytes + ByteLen(text) <= MAX_TOTAL_MODEL_OUTPUT_BYTES
    case ReasoningDelta(text) =>
      && ByteLen(round.reasoning + text) <= MAX_MODEL_OUTPUT_BYTES
      && round.modelBytes + ByteLen(text) <= MAX_TOTAL_MODEL_OUTPUT_BYTES
    case CallDelta(call) => Admits(round, call)
    case Completed(response) => TerminalOk(response)
  }

  /** A response whose text and reasoning the turn can still afford. */
  ghost predicate OutputFits(start: Round, response: Response) {
    && ByteLen(response.text) <= MAX_MODEL_OUTPUT_BYTES && ByteLen(Plain(response.reasoning)) <= MAX_MODEL_OUTPUT_BYTES
    && start.modelBytes + ByteLen(response.text) + ByteLen(Plain(response.reasoning)) <= MAX_TOTAL_MODEL_OUTPUT_BYTES
  }

  /** Calls that the turn can still afford, with identifiers of their own. */
  ghost predicate CallsFit(start: Round, calls: seq<Call>) {
    && |calls| <= MAX_TOOL_CALLS_PER_ROUND && TerminalCallsOk(calls) && DistinctIds(calls)
    && start.argumentBytes + ArgumentBytes(calls) <= MAX_TOTAL_TOOL_ARGUMENT_BYTES
  }

  /** A stream that a round can accept: it ends in one admissible response that its deltas do not contradict
      and the turn can afford. */
  ghost predicate Acceptable(start: Round, items: seq<Item>) {
    && items != [] && items[|items| - 1].Completed?
    && var response := items[|items| - 1].response;
       && EndsWith(items, response) && TerminalOk(response)
       && TextOf(items) <= response.text && ReasoningOf(items) <= Plain(response.reasoning)
       && (CallsOf(items) == [] || CallsOf(items) == response.calls)
       && OutputFits(start, response) && CallsFit(start, response.calls)
       && (response.calls == [] ==> !Blank(response.text))
  }

  /** The finish reason agrees with the calls. */
  predicate FinishOk(response: Response) {
    response.finish != Aborted && (response.calls != [] <==> response.finish == ToolCalls)
  }

  ghost predicate GoodStream(start: Round, stream: Option<seq<Item>>) {
    && stream.Some? && Acceptable(start, stream.value) && FinishOk(stream.value[|stream.value| - 1].response)
  }

  lemma {:induction false} PrefixesGrow(items: seq<Item>, n: nat)
    requires n <= |items|
    ensures TextOf(items[..n]) <= TextOf(items) && ReasoningOf(items[..n]) <= ReasoningOf(items)
    ensures CallsOf(items[..n]) <= CallsOf(items)
    decreases |items|
  {
    if n < |items| {
      var front := items[..|items| - 1];
      assert front[..n] == items[..n];
      PrefixesGrow(front, n);
    } else {
      assert items[..n] == items;
    }
  }

  lemma ItemSnoc(items: seq<Item>, i: nat)
    requires i < |items|
    ensures TextOf(items[..i + 1]) == TextOf(items[..i]) + (if items[i].TextDelta? then items[i].text else [])
    ensures ReasoningOf(items[..i + 1]) ==
            ReasoningOf(items[..i]) + (if items[i].ReasoningDelta? then items[i].text else [])
    ensures CallsOf(items[..i + 1]) == CallsOf(items[..i]) + (if items[i].CallDelta? then [items[i].call] else [])
  {
    assert items[..i + 1][..i] == items[..i];
  }

  lemma ByteLenPrefix(part: string, whole: string)
    requires part <= whole
    ensures ByteLen(part) <= ByteLen(whole)
  {
    Rejoin(part, whole);
    ByteLenAppend(part, whole[|part|..]);
  }

  lemma {:induction false} SameArguments(a: seq<Call>, b: seq<Call>)
    requires |a| == |b| && forall i | 0 <= i < |a| :: Renamed(a[i], b[i])
    ensures ArgumentBytes(a) == ArgumentBytes(b)
    decreases |a|
  {
    if a != [] {
      var n := |a| - 1;
      SameArguments(a[..n], b[..n]);
      assert Renamed(a[n], b[n]);
    }
  }

  /** A call that is next among those the turn can afford is admitted. */
  lemma NextAdmitted(start: Round, round: Round, known: set<string>, calls: seq<Call>, i: nat)
    requires RoundOk(start, round, known) && CallsFit(start, calls) && i < |calls| && round.source == calls[..i]
    ensures Admits(round, calls[i])
  {
    SameArguments(round.source, round.observed);
    PrefixSnoc(calls, i);
    IdsSnocCall(calls[..i], calls[i]);
    ArgumentBytesGrow(calls, i + 1);
    assert calls[i] in calls && TerminalCallOk(calls[i]);
  }

  /** Every item of an acceptable stream can be taken when its turn comes. */
  lemma NextTakable(start: Round, round: Round, known: set<string>, items: seq<Item>, i: nat)
    requires Acceptable(start, items) && i < |items| && Follows(round, items[..i])
    requires RoundOk(start, round, known) && Metered(start, round)
    ensures round.completed.None? && Takable(round, items[i])
  {
    var response := items[|items| - 1].response;
    PrefixesGrow(items, i + 1);
    PrefixesGrow(items, i);
    ItemSnoc(items, i);
    if round.completed.Some? {
      assert items[..i][i - 1] == items[i - 1];
    }
    ByteLenPrefix(round.text, response.text);
    ByteLenPrefix(round.reasoning, Plain(response.reasoning));
    match items[i]
    case TextDelta(text) =>
      ByteLenAppend(round.text, text);
      ByteLenPrefix(round.text + text, response.text);
    case ReasoningDelta(text) =>
      ByteLenAppend(round.reasoning, text);
      ByteLenPrefix(round.reasoning + text, Plain(response.reasoning));
    case CallDelta(call) =>
      NextCall(CallsOf(items[..i]), call, response.calls);
      NextAdmitted(start, round, known, response.calls, |round.source|);
    case Completed(other) =>
    case Progress =>
    case Broken =>
  }

  /** What a stream left out of a response that the turn can afford may be shown. */
  lemma RestFits(start: Round, round: Round, response: Response)
    requires Metered(start, round) && OutputFits(start, response)
    requires round.text <= response.text && round.reasoning <= Plain(response.reasoning)
    ensures Takable(round, TextDelta(response.text[|round.text|..]))
    ensures forall shown: Round | shown.reasoning == round.reasoning
                && shown.modelBytes == round.modelBytes + ByteLen(response.text) - ByteLen(round.text) ::
              Takable(shown, ReasoningDelta(Plain(response.reasoning)[|round.reasoning|..]))
  {
    var text, reasoning := response.text[|round.text|..], Plain(response.reasoning)[|round.reasoning|..];
    Rejoin(round.text, response.text);
    Rejoin(round.reasoning, Plain(response.reasoning));
    ByteLenAppend(round.text, text);
    ByteLenAppend(round.reasoning, reasoning);
  }

  lemma NextCall(before: seq<Call>, call: Call, calls: seq<Call>)
    requires before + [call] <= calls
    ensures |before| < |calls| && calls[|before|] == call && before == calls[..|before|]
  {
    assert (before + [call])[|before|] == call;
  }

  /** The round failed because its answer deltas or calls contradict the terminal response. */
  predicate ContradictsAnswer(failure: Failure) {
    Cause(failure) in {Protocol(AnswerNotPrefix), Protocol(CallsDiffer)}
  }

  predicate ContradictsReasoning(failure: Failure) {
    Cause(failure) == Protocol(ReasoningNotPrefix)
  }

  predicate Contradicts(failure: Failure) {
    ContradictsAnswer(failure) || ContradictsReasoning(failure)
  }

  /** The stream read so far is what the round holds. */
  ghost predicate Follows(round: Round, items: seq<Item>) {
    && round.text == TextOf(items) && round.reasoning == ReasoningOf(items) && round.source == CallsOf(items)
    && (forall i | 0 <= i < |items| :: !items[i].Broken?)
    && match round.completed
       case None => forall i | 0 <= i < |items| :: !items[i].Completed?
       case Some(response) => EndsWith(items, response) && TerminalOk(response)
  }

  /** What one item adds to a round that is still open. */
  ghost predicate Takes(round: Round, item: Item, next: Round) {
    && !item.Broken?
    && next.text == round.text + (if item.TextDelta? then item.text else [])
    && next.reasoning == round.reasoning + (if item.ReasoningDelta? then item.text else [])
    && next.source == round.source + (if item.CallDelta? then [item.call] else [])
    && next.completed == (if item.Completed? then Some(item.response) else None)
    && (item.Completed? ==> TerminalOk(item.response))
  }

  lemma FollowOne(round: Round, items: seq<Item>, item: Item, next: Round)
    requires Follows(round, items) && round.completed.None? && Takes(round, item, next)
    ensures Follows(next, items + [item])
  {
    var longer := items + [item];
    assert longer[..|items|] == items && longer[|items|] == item;
  }

  class AgentSession {
    var history: seq<Message>
    var issuedToolIds: set<string>
    const kit: Kit
    const maxToolOutput: nat
    const maxModelRounds: Option<nat>
    const keepsReasoning: bool

    /** The history passes its check, and the issued identifiers are exactly its calls. */
    ghost predicate Valid()
      reads this
    {
      && Accepted(history) && issuedToolIds == CallIds(history)
      && 0 < maxToolOutput <= MAX_TOOL_OUTPUT_BYTES && KitOk(kit)
      && (maxModelRounds.Some? ==> 1 <= maxModelRounds.value <= MAX_AGENT_MODEL_ROUNDS)
    }

    /** Resume a history that passed its check. */
    constructor (history: seq<Message>, issued: set<string>, tools: set<string>, enabled: set<string>,
                 maxToolOutput: nat, maxModelRounds: Option<nat>, keepsReasoning: bool)
      requires Accepted(history) && issued == ScanAll(history).value.issued
      requires 0 < maxToolOutput <= MAX_TOOL_OUTPUT_BYTES
      requires maxModelRounds.Some? ==> 1 <= maxModelRounds.value <= MAX_AGENT_MODEL_ROUNDS
      ensures Valid() && this.history == history
      ensures kit.tools == tools && kit.enabled == enabled && forall notice :: kit.wording(notice) == Wording(notice)
    {
      this.history, issuedToolIds, kit := history, issued, Kit(tools, enabled, notice => Wording(notice));
      this.maxToolOutput, this.maxModelRounds, this.keepsReasoning := maxToolOutput, maxModelRounds, keepsReasoning;
      ScanMeaning(history);
      WordingFits();
    }

    /** Take one call of the model under a fresh identifier. */
    method ReidentifyCall(env: Environment, call: Call, start: Round, round: Round) returns (r: Result<Round>)
      requires env.Valid() && RoundOk(start, round, issuedToolIds)
      modifies env`next
      ensures r.Ok? ==> Admits(round, call) && RoundOk(start, r.value, issuedToolIds)
      ensures r.Ok? ==>
                && r.value.source == round.source + [call] && r.value.text == round.text
                && r.value.reasoning == round.reasoning && r.value.completed == round.completed
                && r.value.modelBytes == round.modelBytes
      ensures old(env.next) <= env.next
      ensures r.Ok? ==>
                exists n | old(env.next) <= n < env.next :: r.value.issued == round.issued + {env.answers(n).uuid}
      ensures r.Err? ==> r.error == Protocol(BadCall)
      ensures r.Err? && Admits(round, call) ==>
                old(env.next) < env.next && env.answers(old(env.next)).uuid in issuedToolIds + round.issued
    {
      if !Admits(round, call) {
        return Err(Protocol(BadCall));
      }
      for attempt := 0 to ID_ATTEMPTS
        invariant old(env.next) <= env.next && (attempt == 0 ==> env.next == old(env.next))
        invariant attempt > 0 ==>
                    old(env.next) < env.next && env.answers(old(env.next)).uuid in issuedToolIds + round.issued
      {
        var id := env.NewUuid();
        if id !in issuedToolIds && id !in round.issued {
          TakeCallOk(start, round, issuedToolIds, call, id);
          return Ok(TakeCall(round, call, id));
        }
      }
      return Err(Protocol(BadCall));
    }

    method TakeText(env: Environment, text: string, round: Round) returns (r: Result<Round>)
      modifies env`next, env`shownText
      ensures r.Ok? ==>
                && r.value == round.(text := round.text + text, modelBytes := r.value.modelBytes)
                && r.value.modelBytes - round.modelBytes == ByteLen(r.value.text) - ByteLen(round.text)
                && r.value.modelBytes <= MAX_TOTAL_MODEL_OUTPUT_BYTES
                && env.shownText == old(env.shownText) + text
      ensures r.Err? ==> r.error in {Protocol(TooMuchOutput), EventSink}
      ensures old(env.next) <= env.next && (r.Err? ==> env.Rough(old(env.next)) || !Takable(round, TextDelta(text)))
    {
      var fits, longer, total := AppendDelta(round.text, text, round.modelBytes);
      if !fits { return Err(Protocol(TooMuchOutput)); }
      var ok := env.ShowText(text);
      return if ok then Ok(round.(text := longer, modelBytes := total)) else Err(EventSink);
    }

    method TakeReasoning(env: Environment, text: string, round: Round) returns (r: Result<Round>)
      modifies env`next, env`shownReasoning
      ensures r.Ok? ==>
                && r.value == round.(reasoning := round.reasoning + text, modelBytes := r.value.modelBytes)
                && r.value.modelBytes - round.modelBytes == ByteLen(r.value.reasoning) - ByteLen(round.reasoning)
                && r.value.modelBytes <= MAX_TOTAL_MODEL_OUTPUT_BYTES
                && env.shownReasoning == old(env.shownReasoning) + text
      ensures r.Err? ==> r.error in {Protocol(TooMuchOutput), EventSink}
      ensures old(env.next) <= env.next
      ensures r.Err? ==> env.Rough(old(env.next)) || !Takable(round, ReasoningDelta(text))
    {
      var fits, longer, total := AppendDelta(round.reasoning, text, round.modelBytes);
      if !fits { return Err(Protocol(TooMuchOutput)); }
      var ok := env.ShowReasoning(text);
      return if ok then Ok(round.(reasoning := longer, modelBytes := total)) else Err(EventSink);
    }

    /** Take a call under a fresh identifier and show it. */
    method TakeCallDelta(env: Environment, call: Call, start: Round, round: Round, ghost from: nat)
      returns (r: Result<Round>)
      requires env.Valid() && RoundOk(start, round, issuedToolIds)
      requires from <= env.next && env.Drew(from, start.issued, round.issued)
      modifies env`next
      ensures r.Ok? ==>
                && RoundOk(start, r.value, issuedToolIds) && env.Drew(from, start.issued, r.value.issued)
                && r.value.source == round.source + [call] && SameOutput(round, r.value)
                && r.value.completed == round.completed
      ensures r.Err? ==> r.error in {Protocol(BadCall), EventSink}
      ensures old(env.next) <= env.next
      ensures r.Err? ==> env.Mishap(from, issuedToolIds + start.issued) || !Admits(round, call)
    {
      r := ReidentifyCall(env, call, start, round);
      if r.Err? {
        ghost var n := old(env.next);
        if Admits(round, call) && env.answers(n).uuid !in issuedToolIds + start.issued {
          assert env.answers(n).uuid in round.issued;
          assert env.DrawnBy(from, n, env.answers(n).uuid);
          assert env.Repeats(from, n);
        }
        return;
      }
      var ok := env.Emit();
      if !ok { r := Err(EventSink); }
    }

    /** Take what one item adds to a round. */
    method TakeDelta(env: Environment, item: Item, start: Round, round: Round, ghost from: nat)
      returns (r: Result<Round>)
      requires from <= env.next && env.Drew(from, start.issued, round.issued)
      requires env.Valid() && RoundOk(start, round, issuedToolIds) && Metered(start, round) && round.completed.None?
      requires env.shownText == round.text && env.shownReasoning == round.reasoning
      modifies env`next, env`shownText, env`shownReasoning
      ensures r.Ok? ==>
                && RoundOk(start, r.value, issuedToolIds) && Takes(round, item, r.value) && Metered(start, r.value)
                && env.shownText == r.value.text && env.shownReasoning == r.value.reasoning
                && env.Drew(from, start.issued, r.value.issued)
      ensures r.Err? ==> !r.error.Cleanup? && !Contradicts(r.error)
      ensures old(env.next) <= env.next
      ensures r.Err? ==> env.Mishap(from, issuedToolIds + start.issued) || !Takable(round, item)
    {
      match item {
        case Broken =>
          r := Err(Generation);
        case Progress =>
          var ok := env.Emit();
          r := if ok then Ok(round) else Err(EventSink);
        case TextDelta(text) =>
          r := TakeText(env, text, round);
          if r.Ok? { SameCalls(start, round, r.value, issuedToolIds); }
        case ReasoningDelta(text) =>
          r := TakeReasoning(env, text, round);
          if r.Ok? { SameCalls(start, round, r.value, issuedToolIds); }
        case CallDelta(call) =>
          r := TakeCallDelta(env, call, start, round, from);
        case Completed(response) =>
          var valid := ValidateTerminal(response);
          if valid { SameCalls(start, round, round.(completed := Some(response)), issuedToolIds); }
          r := if valid then Ok(round.(completed := Some(response))) else Err(Protocol(BadTerminal));
      }
    }

    /** Take one item of the model's stream. */
    method TakeItem(env: Environment, item: Item, start: Round, round: Round, ghost items: seq<Item>, ghost from: nat)
      returns (r: Result<Round>)
      requires from <= env.next && env.Drew(from, start.issued, round.issued)
      requires env.Valid() && RoundOk(start, round, issuedToolIds) && Follows(round, items) && Metered(start, round)
      requires env.shownText == round.text && env.shownReasoning == round.reasoning
      modifies env`next, env`shownText, env`shownReasoning
      ensures r.Ok? ==>
                && RoundOk(start, r.value, issuedToolIds) && Follows(r.value, items + [item]) && Metered(start, r.value)
                && env.shownText == r.value.text && env.shownReasoning == r.value.reasoning
                && env.Drew(from, start.issued, r.value.issued)
      ensures r.Err? ==> !r.error.Cleanup? && !Contradicts(r.error)
      ensures old(env.next) <= env.next
      ensures r.Err? ==>
                env.Mishap(from, issuedToolIds + start.issued) || round.completed.Some? || !Takable(round, item)
    {
      if round.completed.Some? {
        return Err(Protocol(BadStream));
      }
      r := TakeDelta(env, item, start, round, from);
      if r.Ok? { FollowOne(round, items, item, r.value); }
    }

    /** Read the model's stream to its end. */
    method ReadStream(env: Environment, items: seq<Item>, start: Round, ghost from: nat) returns (r: Result<Round>)
      requires from <= env.next
      requires env.Valid() && start == StartRound(start.issued, start.argumentBytes, start.modelBytes)
      requires env.shownText == [] && env.shownReasoning == []
      modifies env`next, env`shownText, env`shownReasoning
      ensures r.Ok? ==>
                && RoundOk(start, r.value, issuedToolIds) && Follows(r.value, items) && Metered(start, r.value)
                && env.shownText == r.value.text && env.shownReasoning == r.value.reasoning
                && env.Drew(from, start.issued, r.value.issued)
      ensures r.Err? ==> !r.error.Cleanup? && !Contradicts(r.error)
      ensures old(env.next) <= env.next
      ensures r.Err? ==> env.Mishap(from, issuedToolIds + start.issued) || !Acceptable(start, items)
    {
      var round := start;
      for i := 0 to |items|
        invariant RoundOk(start, round, issuedToolIds) && Follows(round, items[..i]) && Metered(start, round)
        invariant env.shownText == round.text && env.shownReasoning == round.reasoning
        invariant old(env.next) <= env.next && env.Drew(from, start.issued, round.issued)
      {
        var cancelled := env.IsCancelled();
        if cancelled { return Err(Cancelled); }
        if Acceptable(start, items) { NextTakable(start, round, issuedToolIds, items, i); }
        var taken := TakeItem(env, items[i], start, round, items[..i], from);
        if taken.Err? { return taken; }
        assert items[..i + 1] == items[..i] + [items[i]];
        round := taken.value;
      }
      assert items[..|items|] == items;
      var cancelled := env.IsCancelled();
      return if cancelled then Err(Cancelled) else Ok(round);
    }

    /** Show what the stream left out of the terminal text. */
    method ShowTextRest(env: Environment, round: Round, response: Response, ghost start: Round)
      returns (r: Result<Round>)
      requires Metered(start, round) && env.shownText == round.text
      modifies env`next, env`shownText
      ensures r.Ok? ==>
                && round.text <= response.text && env.shownText == response.text
                && r.value == round.(text := response.text, modelBytes := r.value.modelBytes) && Metered(start, r.value)
      ensures r.Err? && !(round.text <= response.text) ==> r.error == Protocol(AnswerNotPrefix)
      ensures r.Err? && round.text <= response.text ==> r.error in {Protocol(TooMuchOutput), EventSink}
      ensures old(env.next) <= env.next
      ensures r.Err? && round.text <= response.text ==>
                env.Rough(old(env.next)) || !Takable(round, TextDelta(response.text[|round.text|..]))
    {
      r := Ok(round);
      if !(round.text <= response.text) {
        return Err(Protocol(AnswerNotPrefix));
      }
      Rejoin(round.text, response.text);
      var suffix := response.text[|round.text|..];
      if suffix != [] {
        r := TakeText(env, suffix, round);
      }
    }

    method ShowReasoningRest(env: Environment, round: Round, reasoning: string, ghost start: Round)
      returns (r: Result<Round>)
      requires Metered(start, round) && env.shownReasoning == round.reasoning
      modifies env`next, env`shownReasoning
      ensures r.Ok? ==>
                && round.reasoning <= reasoning && env.shownReasoning == reasoning
                && r.value == round.(reasoning := reasoning, modelBytes := r.value.modelBytes)
                && Metered(start, r.value)
      ensures r.Err? && !(round.reasoning <= reasoning) ==> r.error == Protocol(ReasoningNotPrefix)
      ensures r.Err? && round.reasoning <= reasoning ==> r.error in {Protocol(TooMuchOutput), EventSink}
      ensures old(env.next) <= env.next
      ensures r.Err? && round.reasoning <= reasoning ==>
                env.Rough(old(env.next)) || !Takable(round, ReasoningDelta(reasoning[|round.reasoning|..]))
    {
      r := Ok(round);
      if !(round.reasoning <= reasoning) {
        return Err(Protocol(ReasoningNotPrefix));
      }
      Rejoin(round.reasoning, reasoning);
      var suffix := reasoning[|round.reasoning|..];
      if suffix != [] {
        r := TakeReasoning(env, suffix, round);
      }
    }

    /** Show what the stream left out of the terminal text and reasoning. */
    method ShowRest(env: Environment, round: Round, response: Response, ghost start: Round) returns (r: Result<Round>)
      requires Metered(start, round)
      requires env.shownText == round.text && env.shownReasoning == round.reasoning
      modifies env`next, env`shownText, env`shownReasoning
      ensures r.Ok? ==>
                && r.value.(text := round.text, reasoning := round.reasoning, modelBytes := round.modelBytes) == round
                && r.value.text == response.text && r.value.reasoning == Plain(response.reasoning)
                && Metered(start, r.value)
                && env.shownText == response.text && env.shownReasoning == Plain(response.reasoning)
                && round.text <= response.text && round.reasoning <= Plain(response.reasoning)
      ensures r.Err? ==> !r.error.Cleanup?
      ensures r.Err? && ContradictsAnswer(r.error) ==> !(round.text <= response.text)
      ensures r.Err? && ContradictsReasoning(r.error) ==> !(round.reasoning <= Plain(response.reasoning))
      ensures old(env.next) <= env.next
      ensures r.Err? ==>
                || env.Rough(old(env.next)) || !OutputFits(start, response)
                || !(round.text <= response.text && round.reasoning <= Plain(response.reasoning))
    {
      if OutputFits(start, response) && round.text <= response.text && round.reasoning <= Plain(response.reasoning) {
        RestFits(start, round, response);
      }
      r := ShowTextRest(env, round, response, start);
      if r.Ok? {
        r := ShowReasoningRest(env, r.value, Plain(response.reasoning), start);
      }
    }

    /** Take the calls that only the terminal response carried. */
    method TakeTerminalCalls(env: Environment, calls: seq<Call>, start: Round, round: Round, ghost from: nat)
      returns (r: Result<Round>)
      requires from <= env.next && env.Drew(from, start.issued, round.issued)
      requires env.Valid() && RoundOk(start, round, issuedToolIds) && round.observed == []
      modifies env`next
      ensures r.Ok? ==>
                && RoundOk(start, r.value, issuedToolIds) && r.value.source == calls && SameOutput(round, r.value)
                && env.Drew(from, start.issued, r.value.issued)
      ensures r.Err? ==> !r.error.Cleanup? && !Contradicts(r.error)
      ensures old(env.next) <= env.next
      ensures r.Err? ==> env.Mishap(from, issuedToolIds + start.issued) || !CallsFit(start, calls)
    {
      var next := round;
      for i := 0 to |calls|
        invariant RoundOk(start, next, issuedToolIds) && next.source == calls[..i] && SameOutput(round, next)
        invariant old(env.next) <= env.next && env.Drew(from, start.issued, next.issued)
      {
        if CallsFit(start, calls) { NextAdmitted(start, next, issuedToolIds, calls, i); }
        var taken := TakeCallDelta(env, calls[i], start, next, from);
        if taken.Err? { return taken; }
        next := taken.value;
        PrefixSnoc(calls, i);
      }
      return Ok(next);
    }

    /** The calls of a round, streamed or taken from its terminal response. */
    method SettleCalls(env: Environment, response: Response, start: Round, round: Round, ghost from: nat)
      returns (r: Result<Round>)
      requires from <= env.next && env.Drew(from, start.issued, round.issued)
      requires env.Valid() && RoundOk(start, round, issuedToolIds)
      modifies env`next
      ensures r.Ok? ==>
                && RoundOk(start, r.value, issuedToolIds) && r.value.source == response.calls
                && SameOutput(round, r.value) && env.Drew(from, start.issued, r.value.issued)
      ensures r.Err? ==> !r.error.Cleanup? && !ContradictsReasoning(r.error)
      ensures r.Err? && ContradictsAnswer(r.error) ==> round.source != [] && round.source != response.calls
      ensures old(env.next) <= env.next
      ensures r.Err? ==>
                || env.Mishap(from, issuedToolIds + start.issued) || !CallsFit(start, response.calls)
                || (round.source != [] && round.source != response.calls)
    {
      if round.observed == [] {
        r := TakeTerminalCalls(env, response.calls, start, round, from);
        return;
      }
      return if round.source != response.calls then Err(Protocol(CallsDiffer)) else Ok(round);
    }

    /** Read the stream, then show what it left out of its terminal response. */
    method ReadAndShow(env: Environment, items: seq<Item>, start: Round, ghost from: nat) returns (r: Result<Round>)
      requires from <= env.next
      requires env.Valid() && start == StartRound(start.issued, start.argumentBytes, start.modelBytes)
      requires env.shownText == [] && env.shownReasoning == []
      modifies env`next, env`shownText, env`shownReasoning
      ensures r.Ok? ==>
                && RoundOk(start, r.value, issuedToolIds) && r.value.source == CallsOf(items)
                && r.value.completed.Some? && Metered(start, r.value)
                && var response := r.value.completed.value;
                   && EndsWith(items, response) && TerminalOk(response)
                   && env.shownText == response.text == r.value.text
                   && env.shownReasoning == Plain(response.reasoning) == r.value.reasoning
      ensures r.Ok? ==> env.Drew(from, start.issued, r.value.issued)
      ensures r.Err? ==> !r.error.Cleanup? && BlamesFairly(items, r.error)
      ensures old(env.next) <= env.next
      ensures r.Err? ==> env.Mishap(from, issuedToolIds + start.issued) || !Acceptable(start, items)
    {
      r := ReadStream(env, items, start, from);
      if r.Err? { return; }
      var round := r.value;
      if round.completed.None? { return Err(Protocol(BadStream)); }
      r := ShowRest(env, round, round.completed.value, start);
      if r.Ok? { SameCalls(start, round, r.value, issuedToolIds); }
    }

    /** The end of a round: the terminal response with everything shown and every call renamed. */
    method FinishRound(env: Environment, items: seq<Item>, start: Round, ghost from: nat)
      returns (r: Result<Response>, round: Round)
      requires from <= env.next
      requires env.Valid() && start == StartRound(start.issued, start.argumentBytes, start.modelBytes)
      requires env.shownText == [] && env.shownReasoning == []
      modifies env`next, env`shownText, env`shownReasoning
      ensures r.Ok? ==>
                && RoundAnswer(start, issuedToolIds, r.value, round.issued) && AnswersStream(items, r.value)
                && Spent(start, r.value, round)
                && env.shownText == r.value.text && env.shownReasoning == Plain(r.value.reasoning)
                && env.Drew(from, start.issued, round.issued)
      ensures r.Err? ==> !r.error.Cleanup? && BlamesFairly(items, r.error)
      ensures old(env.next) <= env.next
      ensures r.Err? ==> env.Mishap(from, issuedToolIds + start.issued) || !Acceptable(start, items)
    {
      var read := ReadAndShow(env, items, start, from);
      if read.Err? { return Err(read.error), start; }
      var response := read.value.completed.value;
      var settled := SettleCalls(env, response, start, read.value, from);
      if settled.Err? { return Err(settled.error), read.value; }
      round := settled.value;
      if round.observed == [] && Blank(response.text) {
        return Err(Protocol(BadTerminal)), round;
      }
      AnswerOk(start, round, issuedToolIds, response);
      AnswersItems(items, start, round, issuedToolIds, response);
      return Ok(response.(calls := round.observed)), round;
    }

    /** One model round.  When it succeeds, the deltas shown add up to the terminal response; it
        blames a contradiction only on a stream whose deltas do contradict its terminal response. */
    method StreamModelRound(env: Environment, start: Round) returns (r: Result<Response>, round: Round)
      requires env.Valid() && start == StartRound(start.issued, start.argumentBytes, start.modelBytes)
      modifies env`next, env`shownText, env`shownReasoning, env`rounds, env`pages, env`badStreams
      ensures env.rounds == old(env.rounds) + 1 && old(env.next) <= env.next
      ensures env.badStreams ==
              old(env.badStreams) + (if GoodStream(start, env.answers(old(env.next)).stream) then 0 else 1)
      ensures r.Err? ==>
                && env.pages == old(env.pages)
                && (old(env.badStreams) < env.badStreams || env.Mishap(old(env.next), issuedToolIds + start.issued))
      ensures r.Ok? ==>
                && env.pages == old(env.pages) + [ResponsePage(r.value)]
                && (env.badStreams == old(env.badStreams) ==> FinishOk(r.value))
                && env.Drew(old(env.next), start.issued, round.issued)
      ensures r.Ok? ==>
                && RoundAnswer(start, issuedToolIds, r.value, round.issued) && Spent(start, r.value, round)
                && env.answers(old(env.next)).stream.Some?
                && AnswersStream(env.answers(old(env.next)).stream.value, r.value)
                && env.shownText == r.value.text && env.shownReasoning == Plain(r.value.reasoning)
      ensures var stream := env.answers(old(env.next)).stream;
              stream.Some? && r.Err? ==> BlamesFairly(stream.value, r.error)
    {
      env.BeginRound();
      var answer := env.Ask();
      env.Judge(GoodStream(start, answer.stream));
      if answer.stream.None? {
        return Err(Generation), start;
      }
      r, round := FinishRound(env, answer.stream.value, start, old(env.next));
      if r.Err? {
        var clean := env.Emit();
        if !clean { r := Err(Cleanup(r.error)); }
      } else {
        env.EndRound(r.value.calls);
      }
    }

    // ----- tools

    /** Record a tool's output as the result of a call, within the output budgets. */
    method FinalizeToolOutput(env: Environment, call: Call, output: string, total: nat)
      returns (r: CallOutcome, total': nat)
      requires 0 < maxToolOutput <= MAX_TOOL_OUTPUT_BYTES && KitOk(kit) && IsUuidV7(call.id)
      modifies env`next, env`losses
      ensures old(env.losses) <= env.losses
      ensures OutcomeFor(call, r)
      ensures r.Unfinished? ==> !r.effectPossible
      ensures r.Unfinished? && r.result.None? ==> r.error == CheckpointSink && old(env.losses) < env.losses
      ensures r.Finished? ==> env.losses == old(env.losses)
      ensures total <= MAX_TOTAL_TOOL_OUTPUT_BYTES ==> total' <= MAX_TOTAL_TOOL_OUTPUT_BYTES
      ensures r.Finished? && r.terminal.None? ==> Charged(r.message, total, total')
      ensures old(env.next) <= env.next && (r.Unfinished? ==> env.Rough(old(env.next)))
      ensures r.Finished? && r.terminal.None? ==> Reads(r.message, Legible(kit, output)) && !TooLong(output, total)
      ensures r.Finished? && r.terminal.Some? ==> ReadsNotice(kit, r.message) && TooLong(output, total)
      ensures r.Unfinished? && r.result.Some? ==>
                Reads(r.result.value, Legible(kit, output)) || ReadsNotice(kit, r.result.value)
    {
      total' := total;
      var text := Legible(kit, output);
      var terminal := None;
      ByteLenBounds(text);
      if ByteLen(text) > maxToolOutput {
        terminal, text := Some(ToolFatal), kit.wording(OverLimit);
      } else if total + ByteLen(text) > MAX_TOTAL_TOOL_OUTPUT_BYTES {
        terminal, text := Some(ToolFatal), kit.wording(OverBudget);
      } else {
        total' := total + ByteLen(text);
      }
      var message := ToolMessage(call, text);
      ToolMessageOk(call, text);
      var stored := env.Checkpoint();
      if !stored {
        return Unfinished(CheckpointSink, false, None), total';
      }
      var shown := env.Emit();
      if !shown {
        return Unfinished(EventSink, false, Some(message)), total';
      }
      return Finished(message, terminal), total';
    }

    /** Ask for approval where the tool needs it: an output that replaces the invocation, nothing, or a
        failure. */
    method ApproveTool(env: Environment, call: Call) returns (r: Result<Option<string>>)
      modifies env`next, env`losses, env`allowed
      ensures old(env.losses) <= env.losses
      ensures r == Err(CheckpointSink) ==> old(env.losses) < env.losses
      ensures r.Ok? ==> env.losses == old(env.losses)
      ensures old(env.next) < env.next && (r.Err? ==> env.Rough(old(env.next)))
      ensures r.Ok? ==>
                var approval := env.answers(old(env.next)).approval;
                if Permits(approval) then r.value.None?
                else r.value == Some(kit.wording(Denial) + approval.denial.value)
      ensures env.allowed == if r == Ok(None) then old(env.allowed) + {call} else old(env.allowed)
    {
      var answer := env.Ask();
      if answer.approval.NotRequired? {
        env.allowed := env.allowed + {call};
        return Ok(None);
      }
      if !ApprovalTextOk(answer.approval.reason) {
        return Err(ToolFatal);
      }
      var shown := env.Emit();
      if !shown { return Err(EventSink); }
      var stored := env.Checkpoint();
      if !stored { return Err(CheckpointSink); }
      var cancelled := env.IsCancelled();
      if cancelled { return Err(Cancelled); }
      var denial := answer.approval.denial;
      if denial.Some? && !ApprovalTextOk(denial.value) {
        return Err(ToolFatal);
      }
      shown := env.Emit();
      if !shown { return Err(EventSink); }
      stored := env.Checkpoint();
      if !stored { return Err(CheckpointSink); }
      if denial.Some? {
        return Ok(Some(kit.wording(Denial) + denial.value));
      }
      env.allowed := env.allowed + {call};
      return Ok(None);
    }

    /** Run one call.  A failure that may have had no effect and left no result entered no tool. */
    method ExecuteToolCall(env: Environment, call: Call, total: nat) returns (r: CallOutcome, total': nat)
      requires 0 < maxToolOutput <= MAX_TOOL_OUTPUT_BYTES && KitOk(kit) && IsUuidV7(call.id) && call in env.planned
      modifies env`next, env`losses, env`invoked, env`replies, env`allowed, env`started
      ensures old(env.losses) <= env.losses && old(env.next) <= env.next
      ensures || (env.invoked == old(env.invoked) && env.replies == old(env.replies))
              || (&& env.invoked == old(env.invoked) + [call] && |env.replies| == |old(env.replies)| + 1
                  && old(env.replies) <= env.replies && call.name in kit.tools && call.name in kit.enabled)
      ensures env.invoked == old(env.invoked) && call.name in kit.tools && call.name in kit.enabled ==>
                env.Rough(old(env.next)) || env.Denied(old(env.next))
      ensures Told(call, LastReply(old(env.replies), env.replies), r)
      ensures !env.Rough(old(env.next)) ==> Excused(LastReply(old(env.replies), env.replies), r, total)
      ensures OutcomeFor(call, r)
      ensures r.Unfinished? && r.result.None? ==>
                && (r.error == CheckpointSink ==> old(env.losses) < env.losses)
                && (env.losses == old(env.losses) ==> (r.effectPossible <==> env.invoked != old(env.invoked)))
      ensures r.Finished? ==> env.losses == old(env.losses)
      ensures old(env.losses) < env.losses ==> env.Rough(old(env.next))
      ensures total <= MAX_TOTAL_TOOL_OUTPUT_BYTES ==> total' <= MAX_TOTAL_TOOL_OUTPUT_BYTES
      ensures r.Finished? && r.terminal.None? ==> Charged(r.message, total, total')
    {
      total' := total;
      var screened := ScreenCall(env, call);
      match screened {
        case Stopped(error) =>
          r := Unfinished(error, false, None);
        case Refused(text) =>
          r, total' := FinalizeToolOutput(env, call, text, total);
        case Cleared =>
          r, total' := EnterTool(env, call, total);
      }
    }

    /** Decide whether a call may be entered. */
    method ScreenCall(env: Environment, call: Call) returns (r: Screened)
      modifies env`next, env`losses, env`allowed
      ensures old(env.next) <= env.next && old(env.losses) <= env.losses
      ensures r.Stopped? ==> env.Rough(old(env.next)) && (r.error == CheckpointSink ==> old(env.losses) < env.losses)
      ensures !r.Stopped? ==> env.losses == old(env.losses)
      ensures r.Refused? ==>
                && RefusalText(kit, call, r.text)
                && (call.name in kit.tools && call.name in kit.enabled ==>
                      env.Rough(old(env.next)) || env.Denied(old(env.next)))
      ensures r.Cleared? ==> call in env.allowed && call.name in kit.tools && call.name in kit.enabled
    {
      var cancelled := env.IsCancelled();
      if cancelled {
        return Stopped(Cancelled);
      }
      if call.name !in kit.tools {
        return Refused(kit.wording(UnknownTool) + call.name);
      }
      if call.name !in kit.enabled {
        return Refused(kit.wording(Unavailable) + call.name);
      }
      var answer := env.Ask();
      if !answer.yes {
        return Refused(kit.wording(BadArguments) + call.name);
      }
      var approval := ApproveTool(env, call);
      if approval.Err? {
        return Stopped(approval.error);
      }
      cancelled := env.IsCancelled();
      if cancelled {
        return Stopped(Cancelled);
      }
      return if approval.value.Some? then Refused(approval.value.value) else Cleared;
    }

    /** Announce a permitted call, enter its tool and record what it answers. */
    method EnterTool(env: Environment, call: Call, total: nat) returns (r: CallOutcome, total': nat)
      requires 0 < maxToolOutput <= MAX_TOOL_OUTPUT_BYTES && KitOk(kit) && IsUuidV7(call.id)
      requires call in env.planned && call in env.allowed
      modifies env`next, env`losses, env`invoked, env`replies, env`started
      ensures old(env.losses) <= env.losses && old(env.next) <= env.next
      ensures || (env.invoked == old(env.invoked) && env.replies == old(env.replies) && env.Rough(old(env.next)))
              || (&& env.invoked == old(env.invoked) + [call] && |env.replies| == |old(env.replies)| + 1
                  && old(env.replies) <= env.replies)
      ensures OutcomeFor(call, r)
      ensures r.Unfinished? && r.result.None? ==>
                && (r.error == CheckpointSink ==> old(env.losses) < env.losses)
                && (env.losses == old(env.losses) ==> (r.effectPossible <==> env.invoked != old(env.invoked)))
      ensures r.Finished? ==> env.losses == old(env.losses)
      ensures old(env.losses) < env.losses ==> env.Rough(old(env.next))
      ensures total <= MAX_TOTAL_TOOL_OUTPUT_BYTES ==> total' <= MAX_TOTAL_TOOL_OUTPUT_BYTES
      ensures r.Finished? && r.terminal.None? ==> Charged(r.message, total, total')
      ensures Told(call, LastReply(old(env.replies), env.replies), r)
      ensures !env.Rough(old(env.next)) ==> Excused(LastReply(old(env.replies), env.replies), r, total)
    {
      total' := total;
      var shown := env.Emit();
      if !shown {
        return Unfinished(EventSink, false, None), total;
      }
      var stored := env.CheckpointStart(call);
      if !stored {
        return Unfinished(CheckpointSink, false, None), total;
      }
      var reply := env.Invoke(call);
      if reply.Fatal? {
        return Unfinished(ToolFatal, true, None), total;
      }
      var cancelled := env.IsCancelled();
      var text := match reply { case Output(t) => t case Respond(t) => t case _ => kit.wording(CancelledOutput) };
      r, total' := FinalizeToolOutput(env, call, text, total);
      if r.Unfinished? {
        r := r.(effectPossible := true);
      } else if cancelled || reply.Interrupted? {
        r := r.(terminal := Some(Cancelled));
      }
    }

    /** What an outcome tells of a call. */
    ghost predicate Told(call: Call, reply: Option<Reply>, r: CallOutcome) {
      match r
      case Finished(message, terminal) => Tells(kit, call, reply, message, terminal.None?)
      case Unfinished(error, effectPossible, result) =>
        && (result.Some? ==> Tells(kit, call, reply, result.value, false))
        && (result.None? && effectPossible && error != CheckpointSink ==> reply == Some(Fatal))
        && (result.None? && error != CheckpointSink && !effectPossible ==> reply.None?)
    }

    /** Where nothing else stood in the way, a call ends the batch only because of its tool or its size. */
    ghost predicate Excused(reply: Option<Reply>, r: CallOutcome, total: nat) {
      match r
      case Finished(message, terminal) =>
        terminal.Some? ==> reply == Some(Interrupted) || (ReadsNotice(kit, message) && Overlong(reply, total))
      case Unfinished(_, _, _) => reply == Some(Fatal)
    }

    ghost predicate Overlong(reply: Option<Reply>, total: nat) {
      match reply
      case Some(Output(text)) => TooLong(text, total)
      case Some(Respond(text)) => TooLong(text, total)
      case _ => true
    }

    /** A result within the limit of one output has been charged to the turn. */
    ghost predicate Charged(m: Message, total: nat, total': nat) {
      0 < ContentBytes(m.content) <= maxToolOutput && total' == total + ContentBytes(m.content)
    }

    /** What is shown for an output exceeds the limit of one output or what the turn has left. */
    ghost predicate TooLong(output: string, total: nat) {
      || ByteLen(Legible(kit, output)) > maxToolOutput
      || total + ByteLen(Legible(kit, output)) > MAX_TOTAL_TOOL_OUTPUT_BYTES
    }

    /** Give every call from `from` on a synthetic result. */
    method FillRemaining(env: Environment, calls: seq<Call>, from: nat, results: seq<Message>, notice: Notice)
      returns (ok: bool, filled: seq<Message>)
      requires from == |results| <= |calls| && ResultsFor(calls, results) && KitOk(kit)
      requires forall call | call in calls :: IsUuidV7(call.id)
      modifies env`next, env`losses
      ensures env.losses == old(env.losses) + (if ok then 0 else 1)
      ensures ResultsFor(calls, filled) && (ok ==> |filled| == |calls|)
      ensures results <= filled && forall k | |results| <= k < |filled| :: Says(kit, filled[k], notice)
      ensures old(env.next) <= env.next && (!ok ==> env.Rough(old(env.next)))
    {
      filled := results;
      var text := kit.wording(notice);
      for i := from to |calls|
        invariant |filled| == i && ResultsFor(calls, filled) && env.losses == old(env.losses)
        invariant old(env.next) <= env.next
        invariant results <= filled && forall k | |results| <= k < |filled| :: Says(kit, filled[k], notice)
      {
        assert calls[i] in calls;
        ToolMessageOk(calls[i], text);
        var stored := env.Checkpoint();
        if !stored { return false, filled; }
        filled := filled + [ToolMessage(calls[i], text)];
      }
      return true, filled;
    }

    /** Close a batch whose next call did not finish: give it and every later call a result, or report
        that nothing has to be stored. */
    method SettleFailure(env: Environment, calls: seq<Call>, results: seq<Message>, outcome: CallOutcome)
      returns (batch: Batch)
      requires |results| < |calls| && ResultsFor(calls, results) && KitOk(kit)
      requires forall call | call in calls :: IsUuidV7(call.id)
      requires outcome.Unfinished? && OutcomeFor(calls[|results|], outcome)
      modifies env`next, env`losses
      ensures old(env.losses) <= env.losses
      ensures batch.required ==> |batch.results| == |calls| && ResultsFor(calls, batch.results)
      ensures !batch.required ==>
                || old(env.losses) < env.losses
                || (&& outcome.result.None?
                    && (outcome.error == CheckpointSink || (!outcome.effectPossible && results == [])))
      ensures batch.error.Some? && old(env.next) <= env.next
      ensures old(env.losses) < env.losses ==> env.Rough(old(env.next))
      ensures batch.required ==>
                && results < batch.results && Settles(kit, outcome, batch.results[|results|])
                && forall k | |results| < k < |batch.results| :: Says(kit, batch.results[k], EarlierFailed)
      ensures batch.required && outcome.result.None? ==> outcome.error != CheckpointSink
    {
      var closed := results;
      if outcome.result.Some? {
        closed := closed + [outcome.result.value];
      } else if outcome.error == CheckpointSink || (!outcome.effectPossible && results == []) {
        return Batch(results, Some(outcome.error), false);
      } else {
        var call := calls[|results|];
        var text := kit.wording(if outcome.effectPossible then MaybeExecuted else NotExecuted);
        ToolMessageOk(call, text);
        var stored := env.Checkpoint();
        if !stored {
          return Batch(results, Some(CheckpointSink), false);
        }
        closed := closed + [ToolMessage(call, text)];
      }
      var ok, filled := FillRemaining(env, calls, |closed|, closed, EarlierFailed);
      return if ok then Batch(filled, Some(outcome.error), true) else Batch(filled, Some(CheckpointSink), false);
    }

    /** Close a batch that a finished call ended: no later call is entered. */
    method EndBatch(env: Environment, calls: seq<Call>, results: seq<Message>, error: Failure,
                    ghost invoked: seq<Call>, ghost replies: seq<Reply>)
      returns (batch: Batch)
      requires ResultsFor(calls, results) && DistinctIds(calls) && forall call | call in calls :: IsUuidV7(call.id)
      requires KitOk(kit) && |replies| == |invoked| && InvokedFrom(calls[..|results|], invoked)
      requires ResultsTell(kit, calls, results, invoked, replies, false)
      modifies env`next, env`losses
      ensures old(env.losses) <= env.losses && old(env.next) <= env.next && batch.error.Some?
      ensures if batch.required then env.losses == old(env.losses) else old(env.losses) < env.losses
      ensures !batch.required ==> env.Rough(old(env.next))
      ensures batch.required ==>
                && |batch.results| == |calls| && ResultsFor(calls, batch.results) && results <= batch.results
                && ResultsTell(kit, calls, batch.results, invoked, replies, false)
                && forall k | |results| <= k < |batch.results| :: Says(kit, batch.results[k], EarlierEnded)
    {
      var ok, filled := FillRemaining(env, calls, |results|, results, EarlierEnded);
      if ok { TellRest(kit, calls, results, filled, invoked, replies, false); }
      return if ok then Batch(filled, Some(error), true) else Batch(filled, Some(CheckpointSink), false);
    }

    /** Close a batch whose next call did not finish, with results that tell what became of every call. */
    method FailBatch(env: Environment, calls: seq<Call>, results: seq<Message>, outcome: CallOutcome,
                     ghost invoked: seq<Call>, ghost replies: seq<Reply>,
                     ghost invoked': seq<Call>, ghost replies': seq<Reply>)
      returns (batch: Batch)
      requires |results| < |calls| && ResultsFor(calls, results) && KitOk(kit)
      requires DistinctIds(calls) && forall call | call in calls :: IsUuidV7(call.id)
      requires outcome.Unfinished? && OutcomeFor(calls[|results|], outcome)
      requires |replies| == |invoked| && |replies'| == |invoked'|
      requires InvokedFrom(calls[..|results|], invoked) && InvokedFrom(calls[..|results| + 1], invoked')
      requires ResultsTell(kit, calls, results, invoked, replies, true)
      requires || (invoked' == invoked && replies' == replies)
               || (invoked' == invoked + [calls[|results|]] && replies <= replies')
      requires Told(calls[|results|], LastReply(replies, replies'), outcome)
      modifies env`next, env`losses
      ensures old(env.losses) <= env.losses && old(env.next) <= env.next && batch.error.Some?
      ensures old(env.losses) < env.losses ==> env.Rough(old(env.next))
      ensures !batch.required ==>
                || old(env.losses) < env.losses
                || (&& outcome.result.None?
                    && (outcome.error == CheckpointSink || (!outcome.effectPossible && results == [])))
      ensures batch.required ==>
                && |batch.results| == |calls| && ResultsFor(calls, batch.results)
                && ResultsTell(kit, calls, batch.results, invoked', replies', false)
    {
      batch := SettleFailure(env, calls, results, outcome);
      if batch.required {
        ghost var n := |results|;
        assert Tells(kit, calls[n], LastReply(replies, replies'), batch.results[n], false);
        TellNext(kit, calls, results, batch.results[n], invoked, replies, invoked', replies', false);
        TellRest(kit, calls, results + [batch.results[n]], batch.results, invoked', replies', false);
      }
    }

    /** The results so far tell what became of the first calls, and no other call was entered. */
    ghost predicate Underway(calls: seq<Call>, results: seq<Message>, invoked: seq<Call>, replies: seq<Reply>) {
      && |replies| == |invoked| && ResultsFor(calls, results) && InvokedFrom(calls[..|results|], invoked)
      && ResultsTell(kit, calls, results, invoked, replies, true)
    }

    /** One result per call, in call order, and each tells what became of its call. */
    ghost predicate BatchTells(calls: seq<Call>, batch: Batch, invoked: seq<Call>, replies: seq<Reply>) {
      && |replies| == |invoked| && |batch.results| == |calls| && ResultsFor(calls, batch.results)
      && ResultsTell(kit, calls, batch.results, invoked, replies, batch.error.None?)
    }

    /** Run the next call of a batch: one more result, or the batch is over. */
    method ExecuteNext(env: Environment, calls: seq<Call>, results: seq<Message>, total: nat,
                       ghost was: seq<Call>, ghost wasR: seq<Reply>)
      returns (over: Option<Batch>, results': seq<Message>, total': nat)
      requires 0 < maxToolOutput <= MAX_TOOL_OUTPUT_BYTES && KitOk(kit) && |results| < |calls|
      requires DistinctIds(calls) && forall call | call in calls :: IsUuidV7(call.id) && call in env.planned
      requires was <= env.invoked && wasR <= env.replies && |wasR| == |was| && |env.replies| == |env.invoked|
      requires Underway(calls, results, env.invoked[|was|..], env.replies[|wasR|..])
      modifies env`next, env`losses, env`invoked, env`replies, env`allowed, env`started
      ensures old(env.losses) <= env.losses && old(env.next) <= env.next
      ensures old(env.losses) < env.losses ==> env.Rough(old(env.next))
      ensures was <= env.invoked && wasR <= env.replies && |env.replies| == |env.invoked|
      ensures InvokedFrom(calls, env.invoked[|was|..])
      ensures total <= MAX_TOTAL_TOOL_OUTPUT_BYTES ==> total' <= MAX_TOTAL_TOOL_OUTPUT_BYTES
      ensures over.None? ==>
                && |results'| == |results| + 1 && results == results'[..|results|] && env.losses == old(env.losses)
                && Charged(results'[|results|], total, total')
                && Underway(calls, results', env.invoked[|was|..], env.replies[|wasR|..])
      ensures over.Some? ==>
                && over.value.error.Some?
                && (over.value.required ==>
                      BatchTells(calls, over.value, env.invoked[|was|..], env.replies[|wasR|..]))
                && (!over.value.required ==>
                      || old(env.losses) < env.losses
                      || (env.invoked == old(env.invoked) && results == []))
                && (!env.Rough(old(env.next)) ==>
                      over.value.required && (Troubled(env.replies[|wasR|..]) || HasNotice(kit, over.value.results)))
    {
      var call, n := calls[|results|], |results|;
      assert call in calls;
      ghost var before, beforeR := env.invoked, env.replies;
      var outcome;
      outcome, total' := ExecuteToolCall(env, call, total);
      InvokedOne(calls, n, was, before, env.invoked);
      Since(was, before, env.invoked, wasR, beforeR, env.replies, call);
      over, results' := None, results;
      if outcome.Unfinished? {
        var batch := FailBatch(env, calls, results, outcome, before[|was|..], beforeR[|wasR|..], env.invoked[|was|..],
                               env.replies[|wasR|..]);
        return Some(batch), results, total';
      }
      TellNext(kit, calls, results, outcome.message, before[|was|..], beforeR[|wasR|..],
               env.invoked[|was|..], env.replies[|wasR|..], outcome.terminal.None?);
      results' := results + [outcome.message];
      if outcome.terminal.Some? {
        var batch := EndBatch(env, calls, results', outcome.terminal.value, env.invoked[|was|..],
                              env.replies[|wasR|..]);
        assert batch.required ==> batch.results[n] == outcome.message;
        return Some(batch), results', total';
      }
    }

    /** Run the calls of one round in order.  When the batch must be stored it has one result per call,
        in call order, and each tells what became of its call; otherwise no tool was entered, unless a
        checkpoint failed. */
    method ExecuteToolBatch(env: Environment, calls: seq<Call>, total: nat) returns (batch: Batch, total': nat)
      requires 0 < maxToolOutput <= MAX_TOOL_OUTPUT_BYTES && KitOk(kit) && |env.replies| == |env.invoked|
      requires DistinctIds(calls) && forall call | call in calls :: IsUuidV7(call.id) && call in env.planned
      modifies env`next, env`losses, env`invoked, env`replies, env`allowed, env`started
      ensures old(env.losses) <= env.losses && old(env.next) <= env.next
      ensures old(env.losses) < env.losses ==> env.Rough(old(env.next))
      ensures old(env.invoked) <= env.invoked && old(env.replies) <= env.replies && |env.replies| == |env.invoked|
      ensures InvokedFrom(calls, env.invoked[|old(env.invoked)|..])
      ensures batch.required ==>
                BatchTells(calls, batch, env.invoked[|old(env.invoked)|..], env.replies[|old(env.replies)|..])
      ensures !batch.required ==> old(env.losses) < env.losses || env.invoked == old(env.invoked)
      ensures !batch.required && calls != [] ==> batch.error.Some?
      ensures batch.error.None? ==> env.losses == old(env.losses)
      ensures total <= MAX_TOTAL_TOOL_OUTPUT_BYTES ==> total' <= MAX_TOTAL_TOOL_OUTPUT_BYTES
      ensures batch.error.None? && calls != [] ==> total < total'
      ensures batch.error.None? ==>
                && total' == total + ResultBytes(batch.results)
                && forall k | 0 <= k < |batch.results| :: 0 < ContentBytes(batch.results[k].content) <= maxToolOutput
      ensures batch.error.Some? && !env.Rough(old(env.next)) ==>
                batch.required && (Troubled(env.replies[|old(env.replies)|..]) || HasNotice(kit, batch.results))
    {
      total' := total;
      var results := [];
      ghost var was, wasR := env.invoked, env.replies;
      assert env.invoked[|was|..] == [] && env.replies[|wasR|..] == [];
      while |results| < |calls|
        invariant |results| <= |calls| && env.losses == old(env.losses) && old(env.next) <= env.next
        invariant total' == total + ResultBytes(results) && total + |results| <= total'
        invariant forall k | 0 <= k < |results| :: 0 < ContentBytes(results[k].content) <= maxToolOutput
        invariant total <= MAX_TOTAL_TOOL_OUTPUT_BYTES ==> total' <= MAX_TOTAL_TOOL_OUTPUT_BYTES
        invariant was <= env.invoked && wasR <= env.replies && |env.replies| == |env.invoked|
        invariant Underway(calls, results, env.invoked[|was|..], env.replies[|wasR|..])
        invariant results == [] ==> env.invoked == was
      {
        var over, longer;
        over, longer, total' := ExecuteNext(env, calls, results, total', was, wasR);
        if over.Some? { return over.value, total'; }
        ResultBytesSnoc(calls, results, longer);
        results := longer;
      }
      assert calls[..|calls|] == calls;
      return Batch(results, None, calls != []), total';
    }

    // ----- the turn

    /** Report a failure; a sink that fails while doing so replaces it. */
    method FailTurn(env: Environment, error: Failure) returns (r: TurnResult)
      modifies env`next
      ensures old(env.next) <= env.next
      ensures r == Failed(error) || (r == Failed(EventSink) && env.Rough(old(env.next)))
    {
      if error != EventSink {
        var shown := env.Emit();
        if !shown { return Failed(EventSink); }
      }
      return Failed(error);
    }

    /** During a turn: the history is what it was when the turn began, followed by what the turn has
        committed and stored; no call was entered twice; and unless a checkpoint failed every call entered
        is among the committed ones. */
    ghost predicate InTurn(env: Environment, input: Message, st: TurnState, start: TurnStart)
      reads this, env
    {
      Valid() && TurnHolds(history, issuedToolIds, env.stored, env.invoked, env.losses, input, st, start)
    }

    /** The turn records what happened: its results tell what became of its calls, and the assistant's
        messages say what the rounds showed, but for `lag` of them. */
    ghost predicate Reports(invoked: seq<Call>, replies: seq<Reply>, pages: seq<Page>, turn: seq<Message>,
                            start: TurnStart, strict: bool, lag: nat)
    {
      && start.invoked <= invoked && start.replies <= replies && start.pages <= pages
      && |start.replies| == |start.invoked| && |replies| == |invoked|
      && TurnTells(kit, turn, invoked[|start.invoked|..], replies[|start.replies|..], strict)
      && Shown(turn, pages[|start.pages|..], keepsReasoning, lag)
    }

    /** A turn that fails records what happened up to its last round. */
    ghost predicate ReportsSome(invoked: seq<Call>, replies: seq<Reply>, pages: seq<Page>, turn: seq<Message>,
                                start: TurnStart)
    {
      Reports(invoked, replies, pages, turn, start, false, 0) || Reports(invoked, replies, pages, turn, start, false, 1)
    }

    /** One more exchange that says what was shown and tells what became of its calls. */
    lemma ReportExchange(start: TurnStart, history: seq<Message>, turn: seq<Message>, pending: seq<Message>, m: Message,
                         results: seq<Message>, invoked: seq<Call>, replies: seq<Reply>, invoked': seq<Call>,
                         replies': seq<Reply>, pages: seq<Page>, strict: bool)
      requires Reports(invoked, replies, pages, turn, start, true, 1) && Exchange(pending, m, results)
      requires history == start.history + turn && Accepted(history) && Ids(m.calls) !! CallIds(history)
      requires invoked <= invoked' && replies <= replies' && |replies'| == |invoked'|
      requires AllCalled(turn, invoked[|start.invoked|..]) && InvokedFrom(m.calls, invoked'[|invoked|..])
      requires ResultsTell(kit, m.calls, results, invoked'[|invoked|..], replies'[|replies|..], strict)
      requires PageOf(m) == Kept(pages[|pages| - 1], keepsReasoning)
      ensures Reports(invoked', replies', pages, turn + (pending + [m] + results), start, strict, 0)
    {
      var a, ra := invoked[|start.invoked|..], replies[|start.replies|..];
      KnownIds(start.history, turn);
      CalledIds(start.history, turn, a);
      TellBatch(kit, turn, pending, m, results, a, ra, invoked'[|invoked|..], replies'[|replies|..], strict);
      Longer(start.invoked, invoked, invoked');
      Longer(start.replies, replies, replies');
      ShownNext(turn, pending, m, results, pages[|start.pages|..], keepsReasoning);
    }

    /** Entering calls that the turn does not record. */
    lemma ReportKeeps(start: TurnStart, turn: seq<Message>, calls: seq<Call>, invoked: seq<Call>, replies: seq<Reply>,
                      invoked': seq<Call>, replies': seq<Reply>, pages: seq<Page>, strict: bool, lag: nat)
      requires Reports(invoked, replies, pages, turn, start, strict, lag)
      requires Accepted(start.history + turn) && Ids(calls) !! CallIds(start.history + turn)
      requires invoked <= invoked' && replies <= replies' && |replies'| == |invoked'|
      requires InvokedFrom(calls, invoked'[|invoked|..])
      ensures Reports(invoked', replies', pages, turn, start, strict, lag)
    {
      var b := invoked'[|invoked|..];
      KnownIds(start.history, turn);
      assert Ids(b) <= Ids(calls);
      TellKeeps(kit, turn, invoked[|start.invoked|..], replies[|start.replies|..], b, replies'[|replies|..],
                strict);
      Longer(start.invoked, invoked, invoked');
      Longer(start.replies, replies, replies');
    }

    /** A report in the strict sense is one. */
    lemma ReportsLess(invoked: seq<Call>, replies: seq<Reply>, pages: seq<Page>, turn: seq<Message>, start: TurnStart,
                      strict: bool, lag: nat)
      requires Reports(invoked, replies, pages, turn, start, strict, lag)
      ensures Reports(invoked, replies, pages, turn, start, false, lag)
    {
    }

    /** What keeps a turn from its answer: a refusal, a cancellation, a repeated UUID, a stream that cannot be
        accepted, or a tool that fails, is interrupted or answers too much. */
    ghost predicate Hindered(env: Environment, turn: seq<Message>, start: TurnStart)
      requires start.replies <= env.replies
      reads env
    {
      || env.Mishap(start.next, start.issued) || start.badStreams < env.badStreams
      || Troubled(env.replies[|start.replies|..]) || HasNotice(kit, turn)
    }

    /** The most model rounds that a turn may take: as many as configured, or one more than its tool-output
        budget has bytes. */
    ghost function RoundLimit(): nat {
      if maxModelRounds.Some? then maxModelRounds.value else MAX_TOTAL_TOOL_OUTPUT_BYTES + 1
    }

    /** The round that is about to start may start, and the turn so far has no answer. */
    ghost predicate MayGoOn(env: Environment, round: nat, st: TurnState, start: TurnStart)
      reads this, env
    {
      && env.losses == start.losses && NoAnswer(st.turn) && round <= st.toolBytes
      && env.rounds == start.rounds + round
      && (maxModelRounds.Some? ==> round < maxModelRounds.value)
      && start.badStreams <= env.badStreams && Reports(env.invoked, env.replies, env.pages, st.turn, start, true, 0)
      && Fits(st.turn, st.toolBytes)
    }

    /** The results of a turn are within the limit of one output, and the turn has been charged for them. */
    ghost predicate Fits(turn: seq<Message>, toolBytes: nat) {
      toolBytes == ResultBytes(turn) && forall k | 0 <= k < |turn| :: FitsLimit(turn, k)
    }

    ghost predicate FitsLimit(turn: seq<Message>, k: int)
      requires 0 <= k < |turn|
    {
      turn[k].role == Tool ==> ContentBytes(turn[k].content) <= maxToolOutput
    }

    /** An exchange is charged for its results. */
    lemma ExchangeFits(turn: seq<Message>, pending: seq<Message>, m: Message, results: seq<Message>, toolBytes: nat)
      requires Exchange(pending, m, results) && Fits(turn, toolBytes)
      requires forall k | 0 <= k < |results| :: ContentBytes(results[k].content) <= maxToolOutput
      ensures Fits(turn + (pending + [m] + results), toolBytes + ResultBytes(results))
    {
      var all := turn + (pending + [m] + results);
      ResultBytesAppend(turn, pending + [m] + results);
      ResultBytesAppend(pending + [m], results);
      NoResults(pending + [m]);
      forall k | 0 <= k < |all| ensures FitsLimit(all, k) {
        Located(turn, pending, m, results, k);
        assert k < |turn| ==> FitsLimit(turn, k);
      }
    }

    /** Commit a turn that ends with an answer, and only then announce it.  The message that is stored says what
        the response says. */
    method FinishTurn(env: Environment, response: Response, round: nat, st: TurnState,
                      ghost input: Message, ghost start: TurnStart)
      returns (r: TurnResult, st': TurnState, ghost answer: Message)
      requires InTurn(env, input, st, start) && AnswerAlone(response) && env.losses == start.losses
      modifies this`history, env`next, env`losses, env`stored
      ensures InTurn(env, input, st', start) && old(env.next) <= env.next
      ensures answer.role == Assistant && PageOf(answer) == Kept(ResponsePage(response), keepsReasoning)
      ensures r.Done? || r.EventSinkAfterCommit? ==>
                && history == old(history) + (st.pending + [answer])
                && st'.turn == st.turn + (st.pending + [answer]) && Concluded(input, st'.turn)
      ensures r.Failed? ==>
                && r.error == CheckpointSink && history == old(history) && st' == st && env.Rough(old(env.next))
      ensures r.Done? ==> r.turn == Turn(response, st'.turn, round)
    {
      var message := AssistantMessage(response, |history + st.pending|);
      st', answer := st, message;
      var messages := st.pending + [message];
      var turn := st.turn + messages;
      AnswerHolds(history, issuedToolIds, env.stored, env.invoked, env.losses, input, st, start, message, messages,
                  turn);
      var stored;
      stored, st' := StoreAnswer(env, messages, turn, st, input, start);
      if !stored {
        return Failed(CheckpointSink), st, answer;
      }
      var shown := env.Emit();
      r := if shown then Done(Turn(response, turn, round)) else EventSinkAfterCommit;
    }

    /** The message that keeps a response without calls. */
    method AssistantMessage(response: Response, ghost index: nat) returns (m: Message)
      requires AnswerAlone(response)
      ensures m.role == Assistant && PageOf(m) == Kept(ResponsePage(response), keepsReasoning) && MessageOk(index, m)
    {
      AnswerPage(response, keepsReasoning);
      AnswerAloneOk(response, keepsReasoning, index);
      return AnswerMessage(response, keepsReasoning);
    }

    /** Store the messages that end a turn and append them to the history. */
    method StoreAnswer(env: Environment, messages: seq<Message>, turn: seq<Message>, st: TurnState,
                       ghost input: Message, ghost start: TurnStart)
      returns (stored: bool, st': TurnState)
      requires Valid() && Accepted(history + messages) && CallIds(history + messages) == issuedToolIds
      requires TurnHolds(history, issuedToolIds, env.stored, env.invoked, env.losses, input, st, start)
      requires TurnHolds(history + messages, issuedToolIds, env.stored + messages, env.invoked, env.losses, input,
                         st.(turn := turn, pending := []), start)
      requires env.losses == start.losses
      modifies this`history, env`next, env`losses, env`stored
      ensures old(env.next) <= env.next
      ensures stored ==>
                && history == old(history) + messages && st' == st.(turn := turn, pending := [])
                && InTurn(env, input, st', start)
      ensures !stored ==> history == old(history) && env.Rough(old(env.next)) && InTurn(env, input, st, start)
    {
      st' := st;
      stored := env.CheckpointMessages(messages);
      if stored {
        history := history + messages;
        st' := st.(turn := turn, pending := []);
      }
    }

    /** An answer keeps what holds during a turn. */
    lemma AnswerHolds(history: seq<Message>, issuedIds: set<string>, stored: seq<Message>, invoked: seq<Call>,
                      losses: nat, input: Message, st: TurnState, start: TurnStart, answer: Message,
                      messages: seq<Message>, turn: seq<Message>)
      requires Accepted(history) && losses == start.losses && MessageOk(|history + st.pending|, answer)
      requires answer.role == Assistant && answer.calls == []
      requires TurnHolds(history, issuedIds, stored, invoked, losses, input, st, start)
      requires messages == st.pending + [answer] && turn == st.turn + messages
      ensures Accepted(history + messages) && CallIds(history + messages) == CallIds(history)
      ensures TurnHolds(history + messages, issuedIds, stored + messages, invoked, losses, input,
                        st.(turn := turn, pending := []), start)
      ensures Concluded(input, turn)
    {
      AnswerGrows(history, st.pending, input, answer);
      Regroup(start.history, st.turn, messages);
      Regroup(start.stored, st.turn, messages);
      CalledMore(st.turn, messages, invoked[|start.invoked|..]);
    }

    lemma AnswerFits(turn: seq<Message>, pending: seq<Message>, m: Message, toolBytes: nat)
      requires Exchange(pending, m, []) && Fits(turn, toolBytes)
      ensures Fits(turn + (pending + [m]), toolBytes)
    {
      ExchangeFits(turn, pending, m, [], toolBytes);
      assert pending + [m] + [] == pending + [m];
    }

    /** A turn that ends with the answer of its last round has recorded everything. */
    ghost predicate Complete(invoked: seq<Call>, replies: seq<Reply>, pages: seq<Page>, turn: seq<Message>,
                             start: TurnStart, response: Response)
    {
      && Reports(invoked, replies, pages, turn, start, true, 0) && Affordable(turn)
      && turn != [] && PageOf(turn[|turn| - 1]) == Kept(ResponsePage(response), keepsReasoning)
    }

    /** Whatever message says what was shown last completes the turn. */
    lemma AnswerCompletes(start: TurnStart, history: seq<Message>, st: TurnState, response: Response,
                          invoked: seq<Call>, replies: seq<Reply>, pages: seq<Page>)
      requires Reports(invoked, replies, pages, st.turn, start, true, 1) && response.calls == []
      requires pages[|pages| - 1] == ResponsePage(response) && Fits(st.turn, st.toolBytes) && WithinBudgets(st)
      requires forall k | 0 <= k < |st.pending| :: st.pending[k].role == User && st.pending[k].calls == []
      requires history == start.history + st.turn && Accepted(history)
      requires AllCalled(st.turn, invoked[|start.invoked|..])
      ensures forall m: Message | m.role == Assistant && PageOf(m) == Kept(ResponsePage(response), keepsReasoning) ::
                Complete(invoked, replies, pages, st.turn + (st.pending + [m]), start, response)
    {
      forall m: Message | m.role == Assistant && PageOf(m) == Kept(ResponsePage(response), keepsReasoning)
        ensures Complete(invoked, replies, pages, st.turn + (st.pending + [m]), start, response)
      {
        ReportAnswer(start, history, st.turn, st.pending, m, invoked, replies, pages);
        AnswerFits(st.turn, st.pending, m, st.toolBytes);
      }
    }

    lemma ReportAnswer(start: TurnStart, history: seq<Message>, turn: seq<Message>, pending: seq<Message>, m: Message,
                       invoked: seq<Call>, replies: seq<Reply>, pages: seq<Page>)
      requires Reports(invoked, replies, pages, turn, start, true, 1) && Exchange(pending, m, [])
      requires history == start.history + turn && Accepted(history) && AllCalled(turn, invoked[|start.invoked|..])
      requires PageOf(m) == Kept(pages[|pages| - 1], keepsReasoning)
      ensures Reports(invoked, replies, pages, turn + (pending + [m]), start, true, 0)
    {
      assert Ids(m.calls) == {};
      assert invoked[|invoked|..] == [] && replies[|replies|..] == [];
      ReportExchange(start, history, turn, pending, m, [], invoked, replies, invoked, replies, pages, true);
      assert pending + [m] + [] == pending + [m];
    }

    /** Store a finished batch and append it to the history; if it cannot be stored, nothing changes. */
    method CommitBatch(env: Environment, messages: seq<Message>, st: TurnState, ghost input: Message,
                       ghost start: TurnStart)
      returns (stored: bool, st': TurnState)
      requires Valid() && UserOk(input) && WithinBudgets(st)
      requires start.invoked <= env.invoked && EnteredOnce(env.invoked, |start.invoked|)
      requires history == start.history + st.turn && env.stored == start.stored + st.turn
      requires Accepted(history + messages) && CallIds(history + messages) == issuedToolIds + st.issued
      requires start.losses <= env.losses
      requires start.losses < env.losses || AllCalled(st.turn + messages, env.invoked[|start.invoked|..])
      requires messages != [] && input == (if st.turn == [] then messages[0] else st.turn[0])
      modifies this`history, this`issuedToolIds, env`next, env`losses, env`stored
      ensures env.losses == old(env.losses) + (if stored then 0 else 1)
      ensures old(env.next) <= env.next && (!stored ==> env.Rough(old(env.next)))
      ensures !stored ==>
                history == old(history) && issuedToolIds == old(issuedToolIds) && env.stored == old(env.stored)
      ensures stored ==>
                && InTurn(env, input, st', start) && issuedToolIds == old(issuedToolIds) + st.issued
                && st' == st.(turn := st.turn + messages, pending := [])
    {
      st' := st;
      stored := env.CheckpointMessages(messages);
      if !stored { return; }
      history := history + messages;
      issuedToolIds := issuedToolIds + st.issued;
      st' := st.(turn := st.turn + messages, pending := []);
      Regroup(start.history, st.turn, messages);
      Regroup(start.stored, st.turn, messages);
    }

    /** Run and commit the tool batch of a round.  The message it commits says what the round showed, and its
        results tell what became of the calls.  A batch after which the turn goes on has used some of the
        turn's tool-output budget. */
    method RunBatch(env: Environment, response: Response, st: TurnState,
                    ghost input: Message, ghost start: TurnStart, ghost known: Round)
      returns (failure: Option<Failure>, st': TurnState)
      requires InTurn(env, input, st, start) && response.calls != [] && NoAnswer(st.turn)
      requires env.losses == start.losses
      requires RoundAnswer(known, issuedToolIds, response, st.issued + Ids(response.calls)) && known.issued == st.issued
      requires Reports(env.invoked, env.replies, env.pages, st.turn, start, true, 1) && Fits(st.turn, st.toolBytes)
      requires env.pages[|env.pages| - 1] == ResponsePage(response)
      modifies this`history, this`issuedToolIds
      modifies env`next, env`losses, env`stored, env`planned, env`invoked, env`replies, env`allowed, env`started
      ensures InTurn(env, input, st', start) && NoAnswer(st'.turn) && old(env.next) <= env.next
      ensures issuedToolIds <= old(issuedToolIds) + Ids(response.calls)
      ensures failure.None? ==>
                && env.losses == start.losses && st.toolBytes < st'.toolBytes && Fits(st'.turn, st'.toolBytes)
                && Reports(env.invoked, env.replies, env.pages, st'.turn, start, true, 0)
      ensures failure.Some? ==>
                && ReportsSome(env.invoked, env.replies, env.pages, st'.turn, start)
                && (env.Rough(old(env.next)) || Troubled(env.replies[|start.replies|..]) || HasNotice(kit, st'.turn))
    {
      st' := st;
      ReportsLess(env.invoked, env.replies, env.pages, st.turn, start, true, 1);
      var stored := env.CheckpointPlan(response.calls);
      if !stored {
        return Some(CheckpointSink), st;
      }
      ghost var before, beforeR := env.invoked, env.replies;
      var batch, toolBytes := ExecuteToolBatch(env, response.calls, st.toolBytes);
      BatchRan(history, st.turn, response.calls, before, beforeR, env.invoked, env.replies, env.pages, start);
      if !batch.required {
        return batch.error, st;
      }
      failure, st' := StoreBatch(env, response, batch, toolBytes, st, input, start, known, before, beforeR);
    }

    /** The calls of a batch have been run, and nothing of it is committed yet. */
    ghost predicate Batched(history: seq<Message>, turn: seq<Message>, calls: seq<Call>, before: seq<Call>,
                            beforeR: seq<Reply>, invoked: seq<Call>, replies: seq<Reply>, pages: seq<Page>,
                            start: TurnStart)
    {
      && history == start.history + turn && Accepted(history)
      && Reports(before, beforeR, pages, turn, start, true, 1)
      && before <= invoked && beforeR <= replies && |replies| == |invoked|
      && AllCalled(turn, before[|start.invoked|..]) && EnteredOnce(before, |start.invoked|)
      && InvokedFrom(calls, invoked[|before|..]) && Ids(calls) !! CallIds(history)
    }

    /** None of the calls of a batch was entered before. */
    lemma BatchRan(history: seq<Message>, turn: seq<Message>, calls: seq<Call>, before: seq<Call>, beforeR: seq<Reply>,
                   invoked: seq<Call>, replies: seq<Reply>, pages: seq<Page>, start: TurnStart)
      requires Batched(history, turn, calls, before, beforeR, invoked, replies, pages, start)
      ensures start.invoked <= invoked && EnteredOnce(invoked, |start.invoked|)
      ensures Reports(invoked, replies, pages, turn, start, true, 1)
      ensures Reports(invoked, replies, pages, turn, start, false, 1)
      ensures Troubled(replies[|beforeR|..]) ==> Troubled(replies[|start.replies|..])
    {
      InvokedOnce(start, before, invoked, turn, history, calls);
      ReportKeeps(start, turn, calls, before, beforeR, invoked, replies, pages, true, 1);
      ReportsLess(invoked, replies, pages, turn, start, true, 1);
      TroubledMore(start.replies, beforeR, replies);
    }

    /** What committing a batch keeps. */
    lemma BatchKeeps(history: seq<Message>, turn: seq<Message>, pending: seq<Message>, input: Message,
                     response: Response, batch: Batch, before: seq<Call>, beforeR: seq<Reply>, invoked: seq<Call>,
                     replies: seq<Reply>, pages: seq<Page>, start: TurnStart, known: Round, issuedIds: set<string>)
      requires Batched(history, turn, response.calls, before, beforeR, invoked, replies, pages, start)
      requires issuedIds == CallIds(history)
      requires RoundAnswer(known, issuedIds, response, known.issued + Ids(response.calls))
      requires UserOk(input) && (pending == [] || pending == [input]) && response.calls != []
      requires BatchTells(response.calls, batch, invoked[|before|..], replies[|beforeR|..])
      requires pages[|pages| - 1] == ResponsePage(response)
      ensures var messages := pending + [AnswerMessage(response, keepsReasoning)] + batch.results;
              && Accepted(history + messages) && CallIds(history + messages) == issuedIds + Ids(response.calls)
              && start.invoked <= invoked && AllCalled(turn + messages, invoked[|start.invoked|..])
              && NoAnswer(turn + messages)
              && Reports(invoked, replies, pages, turn + messages, start, batch.error.None?, 0)
              && Reports(invoked, replies, pages, turn + messages, start, false, 0)
              && (HasNotice(kit, batch.results) ==> HasNotice(kit, turn + messages))
    {
      var assistant := AnswerMessage(response, keepsReasoning);
      InvokedInBatch(start.invoked, before, invoked, turn, pending, assistant, batch.results);
      AnswerBatchGrows(history, pending, input, response, batch.results, known, issuedIds,
                       known.issued + Ids(response.calls), keepsReasoning);
      EndsWithResults(turn, pending, assistant, batch.results);
      AnswerPage(response, keepsReasoning);
      ReportExchange(start, history, turn, pending, assistant, batch.results, before, beforeR, invoked, replies, pages,
                     batch.error.None?);
      ReportsLess(invoked, replies, pages, turn + (pending + [assistant] + batch.results), start, batch.error.None?, 0);
      NoticeKept(kit, turn, pending + [assistant], batch.results);
    }

    /** Commit a batch that has been run. */
    method StoreBatch(env: Environment, response: Response, batch: Batch, toolBytes: nat, st: TurnState,
                      ghost input: Message, ghost start: TurnStart, ghost known: Round, ghost before: seq<Call>,
                      ghost beforeR: seq<Reply>)
      returns (failure: Option<Failure>, st': TurnState)
      requires Valid() && UserOk(input) && WithinBudgets(st) && toolBytes <= MAX_TOTAL_TOOL_OUTPUT_BYTES
      requires if st.turn == [] then st.pending == [input] else st.pending == [] && st.turn[0] == input
      requires env.stored == start.stored + st.turn && start.losses <= env.losses && st.issued <= issuedToolIds
      requires NoAnswer(st.turn) && response.calls != []
      requires Batched(history, st.turn, response.calls, before, beforeR, env.invoked, env.replies, env.pages, start)
      requires RoundAnswer(known, issuedToolIds, response, st.issued + Ids(response.calls)) && known.issued == st.issued
      requires BatchTells(response.calls, batch, env.invoked[|before|..], env.replies[|beforeR|..])
      requires env.pages[|env.pages| - 1] == ResponsePage(response) && Fits(st.turn, st.toolBytes)
      requires batch.error.None? ==>
                 && toolBytes == st.toolBytes + ResultBytes(batch.results)
                 && forall k | 0 <= k < |batch.results| :: ContentBytes(batch.results[k].content) <= maxToolOutput
      modifies this`history, this`issuedToolIds, env`next, env`losses, env`stored
      ensures InTurn(env, input, st', start) && NoAnswer(st'.turn) && old(env.next) <= env.next
      ensures issuedToolIds <= old(issuedToolIds) + Ids(response.calls)
      ensures failure == batch.error || (failure == Some(CheckpointSink) && env.Rough(old(env.next)))
      ensures failure.None? ==>
                && env.losses == old(env.losses) && st'.toolBytes == toolBytes && Fits(st'.turn, st'.toolBytes)
                && Reports(env.invoked, env.replies, env.pages, st'.turn, start, true, 0)
      ensures failure.Some? ==>
                && ReportsSome(env.invoked, env.replies, env.pages, st'.turn, start)
                && (HasNotice(kit, batch.results) ==> env.Rough(old(env.next)) || HasNotice(kit, st'.turn))
    {
      var messages := st.pending + [AnswerMessage(response, keepsReasoning)] + batch.results;
      BatchRan(history, st.turn, response.calls, before, beforeR, env.invoked, env.replies, env.pages, start);
      BatchKeeps(history, st.turn, st.pending, input, response, batch, before, beforeR, env.invoked, env.replies,
                 env.pages, start, known, issuedToolIds);
      if batch.error.None? {
        ExchangeFits(st.turn, st.pending, AnswerMessage(response, keepsReasoning), batch.results, st.toolBytes);
      }
      st' := st.(issued := st.issued + Ids(response.calls), toolBytes := toolBytes);
      var stored;
      stored, st' := CommitBatch(env, messages, st', input, start);
      if !stored {
        return Some(CheckpointSink), st;
      }
      return batch.error, st';
    }

    /** The history ends with the answer that was shown. */
    ghost predicate AnswerShown(env: Environment, turn: seq<Message>)
      reads env
    {
      turn != [] && PageOf(turn[|turn| - 1]) == Kept(Page(env.shownText, env.shownReasoning, []), keepsReasoning)
    }

    /** The results are within the limit of one output, and together within the budget of a turn. */
    ghost predicate Affordable(turn: seq<Message>) {
      ResultBytes(turn) <= MAX_TOTAL_TOOL_OUTPUT_BYTES && Fits(turn, ResultBytes(turn))
    }

    /** How a turn ended, what it recorded, and what kept it from its answer. */
    ghost predicate EndedAs(r: TurnResult, env: Environment, turn: seq<Message>, start: TurnStart)
      reads env
    {
      if r.Failed? then
        && ReportsSome(env.invoked, env.replies, env.pages, turn, start)
        && (|| Hindered(env, turn, start)
            || (r.error == MaxModelRounds && maxModelRounds.Some? && env.rounds == start.rounds + maxModelRounds.value))
      else
        && Reports(env.invoked, env.replies, env.pages, turn, start, true, 0) && AnswerShown(env, turn)
        && Affordable(turn)
    }

    /** One round of the turn: it goes on, or the turn is over. */
    method RunRound(env: Environment, round: nat, st: TurnState, ghost input: Message, ghost start: TurnStart)
      returns (r: Option<TurnResult>, st': TurnState)
      requires env.Valid() && InTurn(env, input, st, start) && round > 0 && MayGoOn(env, round - 1, st, start)
      requires start.next <= env.next && env.Drew(start.next, start.issued, issuedToolIds)
      modifies this`history, this`issuedToolIds, env
      ensures InTurn(env, input, st', start) && env.rounds <= start.rounds + round
      ensures start.next <= env.next && env.Drew(start.next, start.issued, issuedToolIds)
      ensures r.None? ==> MayGoOn(env, round, st', start) && st.toolBytes < st'.toolBytes
      ensures r.Some? ==>
                && TurnOver(r.value, input, st'.turn, env.rounds - start.rounds, keepsReasoning)
                && EndedAs(r.value, env, st'.turn, start)
    {
      var response, begin;
      r, response, begin, st' := ReadRound(env, round, st, input, start);
      if r.None? {
        ghost var at, drawn := env.next, issuedToolIds + Ids(response.calls);
        r, st' := ActOn(env, response, round, st', begin, input, start);
        forall id | id in issuedToolIds && id !in start.issued ensures env.DrawnBy(start.next, env.next, id) {
          env.DrawnStill(start.next, start.next, at, env.next, id);
        }
      }
    }

    /** Announce a round, read the model's answer and announce that. */
    method ReadRound(env: Environment, round: nat, st: TurnState, ghost input: Message, ghost start: TurnStart)
      returns (r: Option<TurnResult>, response: Response, begin: Round, st': TurnState)
      requires env.Valid() && InTurn(env, input, st, start) && round > 0 && MayGoOn(env, round - 1, st, start)
      requires start.next <= env.next && env.Drew(start.next, start.issued, issuedToolIds)
      modifies env`next, env`shownText, env`shownReasoning, env`rounds, env`pages, env`badStreams
      ensures InTurn(env, input, st', start) && env.rounds <= start.rounds + round && start.next <= env.next
      ensures start.badStreams <= env.badStreams
      ensures st' == st.(argumentBytes := st'.argumentBytes, modelBytes := st'.modelBytes)
      ensures r.Some? ==>
                && r.value.Failed? && ReportsSome(env.invoked, env.replies, env.pages, st'.turn, start)
                && Hindered(env, st'.turn, start) && env.Drew(start.next, start.issued, issuedToolIds)
      ensures r.None? ==>
                && env.rounds == start.rounds + round
                && RoundAnswer(begin, issuedToolIds, response, st'.issued + Ids(response.calls))
                && begin.issued == st'.issued
                && ShowsRound(env, response, st'.turn, start)
                && env.Drew(start.next, start.issued, issuedToolIds + Ids(response.calls))
    {
      ReportsLess(env.invoked, env.replies, env.pages, st.turn, start, true, 0);
      st', begin := st, StartRound(st.issued, st.argumentBytes, st.modelBytes);
      response := Response([], None, [], Stop, 0);
      var shown := env.Emit();
      if !shown {
        return Some(Failed(EventSink)), response, begin, st;
      }
      ghost var pages := env.pages;
      var streamed, after := Generate(env, st, start);
      if streamed.Err? {
        var failed := FailTurn(env, streamed.error);
        return Some(failed), response, begin, st;
      }
      response := streamed.value;
      ReportPage(env.invoked, env.replies, pages, response, st.turn, start);
      st' := st.(argumentBytes := after.argumentBytes, modelBytes := after.modelBytes);
      shown := env.Emit();
      ChargeRound(history, issuedToolIds, env.stored, env.invoked, env.losses, input, st, st', start);
      r := if shown then None else Some(Failed(EventSink));
    }

    /** The turn is up to date but for the round whose response was just shown. */
    ghost predicate ShowsRound(env: Environment, response: Response, turn: seq<Message>, start: TurnStart)
      reads env
    {
      && Reports(env.invoked, env.replies, env.pages, turn, start, true, 1)
      && env.pages[|env.pages| - 1] == ResponsePage(response)
      && ResponsePage(response) == Page(env.shownText, env.shownReasoning, response.calls)
      && (start.badStreams < env.badStreams || FinishOk(response))
    }

    lemma ReportPage(invoked: seq<Call>, replies: seq<Reply>, pages: seq<Page>, response: Response, turn: seq<Message>,
                     start: TurnStart)
      requires Reports(invoked, replies, pages, turn, start, true, 0)
      ensures Reports(invoked, replies, pages + [ResponsePage(response)], turn, start, true, 1)
      ensures Reports(invoked, replies, pages + [ResponsePage(response)], turn, start, false, 1)
    {
      var all := pages + [ResponsePage(response)];
      assert all[|start.pages|..] == pages[|start.pages|..] + [ResponsePage(response)];
      ShownMore(turn, pages[|start.pages|..], ResponsePage(response), keepsReasoning);
      ReportsLess(invoked, replies, all, turn, start, true, 1);
    }

    /** Build the request of a round and read the model's answer to it. */
    method Generate(env: Environment, st: TurnState, ghost start: TurnStart) returns (r: Result<Response>, round: Round)
      requires env.Valid() && WithinBudgets(st) && st.issued <= issuedToolIds
      requires start.next <= env.next && env.Drew(start.next, start.issued, issuedToolIds)
      modifies env`next, env`shownText, env`shownReasoning, env`rounds, env`pages, env`badStreams
      ensures old(env.rounds) <= env.rounds <= old(env.rounds) + 1 && old(env.badStreams) <= env.badStreams
      ensures old(env.next) <= env.next
      ensures r.Err? ==>
                && env.pages == old(env.pages)
                && (env.Mishap(start.next, start.issued) || old(env.badStreams) < env.badStreams)
      ensures r.Ok? ==>
                && env.rounds == old(env.rounds) + 1
                && RoundAnswer(StartRound(st.issued, st.argumentBytes, st.modelBytes), issuedToolIds, r.value,
                               st.issued + Ids(r.value.calls))
                && WithinBudgets(st.(argumentBytes := round.argumentBytes, modelBytes := round.modelBytes))
                && env.pages == old(env.pages) + [ResponsePage(r.value)]
                && ResponsePage(r.value) == Page(env.shownText, env.shownReasoning, r.value.calls)
                && (env.badStreams == old(env.badStreams) ==> FinishOk(r.value))
                && env.Drew(start.next, start.issued, issuedToolIds + Ids(r.value.calls))
    {
      var begin := StartRound(st.issued, st.argumentBytes, st.modelBytes);
      var request := env.Ask();
      if !request.yes {
        return Err(Configuration), begin;
      }
      ghost var at := env.next;
      assert forall id | id in issuedToolIds && id !in start.issued :: env.DrawnBy(start.next, at, id) by {
        forall id | id in issuedToolIds && id !in start.issued ensures env.DrawnBy(start.next, at, id) {
          env.DrawnStill(start.next, start.next, old(env.next), at, id);
        }
      }
      r, round := StreamModelRound(env, begin);
      if r.Err? {
        if env.badStreams == old(env.badStreams) {
          env.MishapSince(start.next, at, start.issued, issuedToolIds + st.issued);
        }
      } else {
        forall id | id in issuedToolIds + Ids(r.value.calls) && id !in start.issued
          ensures env.DrawnBy(start.next, env.next, id)
        {
          if id in issuedToolIds {
            env.DrawnStill(start.next, start.next, at, env.next, id);
          } else {
            env.DrawnStill(start.next, at, env.next, env.next, id);
          }
        }
      }
    }

    /** Act on the response of a round: finish the turn, or run its tools. */
    method ActOn(env: Environment, response: Response, round: nat, st: TurnState, begin: Round,
                 ghost input: Message, ghost start: TurnStart)
      returns (r: Option<TurnResult>, st': TurnState)
      requires InTurn(env, input, st, start) && NoAnswer(st.turn) && env.losses == start.losses
      requires RoundAnswer(begin, issuedToolIds, response, st.issued + Ids(response.calls)) && begin.issued == st.issued
      requires ShowsRound(env, response, st.turn, start) && Fits(st.turn, st.toolBytes)
      requires start.next <= env.next && env.rounds == start.rounds + round
      modifies this`history, this`issuedToolIds
      modifies env`next, env`losses, env`stored, env`planned, env`invoked, env`replies, env`allowed, env`started
      ensures InTurn(env, input, st', start) && old(env.next) <= env.next
      ensures issuedToolIds <= old(issuedToolIds) + Ids(response.calls)
      ensures r.None? ==>
                && env.losses == start.losses && NoAnswer(st'.turn) && st.toolBytes < st'.toolBytes
                && maxModelRounds != Some(round) && Fits(st'.turn, st'.toolBytes)
                && Reports(env.invoked, env.replies, env.pages, st'.turn, start, true, 0)
      ensures r.Some? ==>
                TurnOver(r.value, input, st'.turn, round, keepsReasoning) && EndedAs(r.value, env, st'.turn, start)
    {
      st' := st;
      ReportsLess(env.invoked, env.replies, env.pages, st.turn, start, true, 1);
      var failed: TurnResult;
      if response.finish == Aborted || (response.calls == []) == (response.finish == ToolCalls) {
        failed := FailTurn(env, Protocol(BadTerminal));
        return Some(failed), st;
      }
      if response.calls == [] {
        var result;
        result, st' := Conclude(env, response, round, st, input, start);
        return Some(result), st';
      }
      r, st' := UseTools(env, response, round, st, begin, input, start);
    }

    /** End the turn with the answer of the round. */
    method Conclude(env: Environment, response: Response, round: nat, st: TurnState,
                    ghost input: Message, ghost start: TurnStart)
      returns (r: TurnResult, st': TurnState)
      requires InTurn(env, input, st, start) && NoAnswer(st.turn) && env.losses == start.losses && AnswerAlone(response)
      requires ShowsRound(env, response, st.turn, start) && start.next <= env.next && Fits(st.turn, st.toolBytes)
      modifies this`history, env`next, env`losses, env`stored
      ensures InTurn(env, input, st', start) && old(env.next) <= env.next
      ensures TurnOver(r, input, st'.turn, round, keepsReasoning) && EndedAs(r, env, st'.turn, start)
    {
      ReportsLess(env.invoked, env.replies, env.pages, st.turn, start, true, 1);
      AnswerCompletes(start, history, st, response, env.invoked, env.replies, env.pages);
      ghost var answer;
      r, st', answer := FinishTurn(env, response, round, st, input, start);
      if r.Failed? {
        assert Hindered(env, st'.turn, start);
      } else {
        assert Complete(env.invoked, env.replies, env.pages, st'.turn, start, response);
      }
    }

    /** Run the tools of the round, unless it was the last one. */
    method UseTools(env: Environment, response: Response, round: nat, st: TurnState, begin: Round,
                    ghost input: Message, ghost start: TurnStart)
      returns (r: Option<TurnResult>, st': TurnState)
      requires InTurn(env, input, st, start) && NoAnswer(st.turn) && env.losses == start.losses && response.calls != []
      requires RoundAnswer(begin, issuedToolIds, response, st.issued + Ids(response.calls)) && begin.issued == st.issued
      requires ShowsRound(env, response, st.turn, start) && Fits(st.turn, st.toolBytes)
      requires start.next <= env.next && env.rounds == start.rounds + round
      modifies this`history, this`issuedToolIds
      modifies env`next, env`losses, env`stored, env`planned, env`invoked, env`replies, env`allowed, env`started
      ensures InTurn(env, input, st', start) && old(env.next) <= env.next && NoAnswer(st'.turn)
      ensures issuedToolIds <= old(issuedToolIds) + Ids(response.calls)
      ensures r.None? ==>
                && env.losses == start.losses && st.toolBytes < st'.toolBytes && maxModelRounds != Some(round)
                && Fits(st'.turn, st'.toolBytes)
                && Reports(env.invoked, env.replies, env.pages, st'.turn, start, true, 0)
      ensures r.Some? ==> r.value.Failed? && EndedAs(r.value, env, st'.turn, start)
    {
      st' := st;
      ReportsLess(env.invoked, env.replies, env.pages, st.turn, start, true, 1);
      var failed: TurnResult;
      if maxModelRounds == Some(round) {
        failed := FailTurn(env, MaxModelRounds);
        return Some(failed), st;
      }
      var failure;
      failure, st' := RunBatch(env, response, st, input, start, begin);
      if failure.Some? {
        failed := FailTurn(env, failure.value);
        return Some(failed), st';
      }
      return None, st';
    }

    lemma ReportsNothing(start: TurnStart)
      requires |start.replies| == |start.invoked|
      ensures Reports(start.invoked, start.replies, start.pages, [], start, true, 0)
      ensures Reports(start.invoked, start.replies, start.pages, [], start, false, 0)
    {
    }

    /** Run rounds until the turn is over. */
    method RunRounds(env: Environment, input: Message, ghost start: TurnStart) returns (r: TurnResult, st: TurnState)
      requires env.Valid() && Valid() && UserOk(input) && |env.replies| == |env.invoked|
      requires start == TurnStart(history, issuedToolIds, env.stored, env.invoked, env.replies, env.pages, env.losses,
                                  env.rounds, env.badStreams, env.next)
      modifies this`history, this`issuedToolIds, env
      ensures InTurn(env, input, st, start) && TurnOver(r, input, st.turn, env.rounds - start.rounds, keepsReasoning)
      ensures env.rounds - start.rounds <= RoundLimit() && start.next <= env.next && EndedAs(r, env, st.turn, start)
    {
      st := TurnState([input], [], {}, 0, 0, 0);
      ReportsNothing(start);
      var over: Option<TurnResult> := None;
      var round := 0;
      while over.None?
        invariant InTurn(env, input, st, start)
        invariant over.None? ==> MayGoOn(env, round, st, start)
        invariant over.Some? ==>
                    && TurnOver(over.value, input, st.turn, env.rounds - start.rounds, keepsReasoning)
                    && EndedAs(over.value, env, st.turn, start)
        invariant start.next <= env.next && env.Drew(start.next, start.issued, issuedToolIds)
        invariant env.rounds - start.rounds <= RoundLimit()
        decreases over.None?, MAX_TOTAL_TOOL_OUTPUT_BYTES - st.toolBytes
      {
        round := round + 1;
        over, st := RunRound(env, round, st, input, start);
      }
      return over.value, st;
    }

    /** Where a turn begins. */
    ghost function Begin(env: Environment): TurnStart
      reads this, env
    {
      TurnStart(history, issuedToolIds, env.stored, env.invoked, env.replies, env.pages, env.losses, env.rounds,
                env.badStreams, env.next)
    }

    /** Check the input and announce the turn; nothing is recorded when that fails. */
    method OpenTurn(env: Environment, input: Message) returns (failure: Option<Failure>)
      modifies env`next, env`losses
      ensures old(env.losses) <= env.losses && old(env.next) <= env.next
      ensures failure.None? ==> UserOk(input) && env.losses == old(env.losses)
      ensures failure.Some? ==> !UserOk(input) || env.Rough(old(env.next))
    {
      if !UserOk(input) {
        return Some(Configuration);
      }
      var policy := env.Ask();
      if !policy.yes {
        return Some(Configuration);
      }
      var stored := env.Checkpoint();
      if !stored { return Some(CheckpointSink); }
      var cancelled := env.IsCancelled();
      var shown := env.Emit();
      if cancelled || !shown {
        return Some(if shown then Cancelled else EventSink);
      }
      return None;
    }

    /** Run one turn to its end.  It ends: every round that goes on uses up tool-output budget, so there
        are at most as many rounds as configured, or as that budget has bytes, and one more.  However it
        ends, the history only grew, still passes its check and holds exactly what was stored; the issued
        identifiers are its calls; no call was entered twice; and if no checkpoint failed, every call
        entered is recorded with exactly one result.  The results tell what became of their calls, and the
        assistant's messages say what the rounds showed.  The history gained an answer exactly when the turn
        finished, announced or not, and that answer is what was shown.  A turn without an answer had an
        inadmissible input, met a hindrance or used up its rounds. */
    method RunMessage(env: Environment, input: Message) returns (r: TurnResult)
      requires Valid() && env.Valid() && |env.replies| == |env.invoked|
      modifies this`history, this`issuedToolIds, env
      ensures Valid() && env.rounds - old(env.rounds) <= RoundLimit()
      ensures Recorded(env, input, old(Begin(env)))
      ensures Reported(r, env, old(Begin(env)))
      ensures Concludes(r, env, input, old(Begin(env)))
    {
      ghost var first := Begin(env);
      var failure := OpenTurn(env, input);
      ghost var start := Begin(env);
      if failure.Some? {
        r := Failed(failure.value);
        Unopened(r, env, input, first);
      } else {
        r := RunOpened(env, input, start);
        OpenedSince(r, env, input, start, first);
      }
    }

    /** Run a turn that has been announced. */
    method RunOpened(env: Environment, input: Message, ghost start: TurnStart) returns (r: TurnResult)
      requires env.Valid() && Valid() && UserOk(input) && |env.replies| == |env.invoked| && start == Begin(env)
      modifies this`history, this`issuedToolIds, env
      ensures Valid() && env.rounds - start.rounds <= RoundLimit() && start.next <= env.next
      ensures Recorded(env, input, start) && Reported(r, env, start) && Concludes(r, env, input, start)
    {
      var st;
      r, st := RunRounds(env, input, start);
      TurnKept(start.history, st.turn, env.invoked[|start.invoked|..], start.losses < env.losses);
      TurnReported(r, env.invoked, env.replies, env.pages, st.turn, start);
    }

    /** The history only grew, by what was stored, and begins with the input; no call was entered twice; and
        if no checkpoint failed, every call entered is recorded with exactly one result. */
    ghost predicate Recorded(env: Environment, input: Message, start: TurnStart)
      reads this, env
    {
      && start.history <= history && env.stored == start.stored + history[|start.history|..]
      && (history != start.history ==> history[|start.history|] == input)
      && start.invoked <= env.invoked && EnteredOnce(env.invoked, |start.invoked|) && start.losses <= env.losses
      && (env.losses == start.losses ==>
            forall call | call in env.invoked[|start.invoked|..] :: Settled(history, |start.history|, call))
    }

    /** The results tell what became of their calls, and the assistant's messages say what the rounds showed;
        only a turn that failed may lack the message of its last round. */
    ghost predicate Reported(r: TurnResult, env: Environment, start: TurnStart)
      reads this, env
    {
      && start.history <= history && start.invoked <= env.invoked && start.replies <= env.replies
      && start.pages <= env.pages && |start.replies| == |start.invoked| && |env.replies| == |env.invoked|
      && TurnTells(kit, history[|start.history|..], env.invoked[|start.invoked|..],
                   env.replies[|start.replies|..], !r.Failed?)
      && (|| Shown(history[|start.history|..], env.pages[|start.pages|..], keepsReasoning, 0)
          || (r.Failed? && Shown(history[|start.history|..], env.pages[|start.pages|..], keepsReasoning, 1)))
      && (!r.Failed? ==> Affordable(history[|start.history|..]))
    }

    /** The history gained an answer exactly when the turn finished, and it is the answer that was shown; a turn
        without one had an inadmissible input, was hindered or used up its rounds. */
    ghost predicate Concludes(r: TurnResult, env: Environment, input: Message, start: TurnStart)
      reads this, env
    {
      && start.history <= history && start.replies <= env.replies
      && TurnOver(r, input, history[|start.history|..], env.rounds - start.rounds, keepsReasoning)
      && (!r.Failed? ==> AnswerShown(env, history[|start.history|..]))
      && (r.Failed? ==>
            || !UserOk(input) || Hindered(env, history[|start.history|..], start)
            || (r.error == MaxModelRounds && maxModelRounds == Some(env.rounds - start.rounds)))
    }

    lemma Unopened(r: TurnResult, env: Environment, input: Message, start: TurnStart)
      requires r.Failed? && start.history == history && start.stored == env.stored && start.invoked == env.invoked
      requires start.replies == env.replies && start.pages == env.pages && start.losses <= env.losses
      requires |env.replies| == |env.invoked| && (!UserOk(input) || Hindered(env, [], start))
      ensures Recorded(env, input, start) && Reported(r, env, start) && Concludes(r, env, input, start)
    {
      assert history[|history|..] == [] && env.stored + [] == env.stored && env.invoked[|env.invoked|..] == [];
    }

    /** What holds since a turn was announced holds since it was asked for. */
    lemma OpenedSince(r: TurnResult, env: Environment, input: Message, start: TurnStart, first: TurnStart)
      requires Recorded(env, input, start) && Reported(r, env, start) && Concludes(r, env, input, start)
      requires first == start.(next := first.next) && first.next <= start.next <= env.next
      ensures Recorded(env, input, first) && Reported(r, env, first) && Concludes(r, env, input, first)
    {
      HinderedSince(env, history[|start.history|..], start, first);
    }

    lemma HinderedSince(env: Environment, turn: seq<Message>, start: TurnStart, first: TurnStart)
      requires start.replies <= env.replies && first.next <= start.next <= env.next
      requires first.replies == start.replies && first.issued == start.issued && first.badStreams == start.badStreams
      ensures Hindered(env, turn, start) ==> Hindered(env, turn, first)
    {
      if env.Mishap(start.next, start.issued) {
        env.MishapSince(first.next, start.next, start.issued, start.issued);
      }
    }

    /** What a turn that is over has recorded. */
    lemma TurnReported(r: TurnResult, invoked: seq<Call>, replies: seq<Reply>, pages: seq<Page>, turn: seq<Message>,
                       start: TurnStart)
      requires if r.Failed? then ReportsSome(invoked, replies, pages, turn, start)
               else Reports(invoked, replies, pages, turn, start, true, 0)
      ensures TurnTells(kit, turn, invoked[|start.invoked|..], replies[|start.replies|..], !r.Failed?)
      ensures || Shown(turn, pages[|start.pages|..], keepsReasoning, 0)
              || (r.Failed? && Shown(turn, pages[|start.pages|..], keepsReasoning, 1))
    {
    }
  }

  /** The identifiers of a turn are known. */
  lemma KnownIds(before: seq<Message>, turn: seq<Message>)
    requires Accepted(before + turn)
    ensures CallIds(turn) <= CallIds(before + turn) && ResultIds(turn) <= CallIds(before + turn)
  {
    var all := before + turn;
    AcceptedMeans(all);
    assert forall i | 0 <= i < |turn| :: all[|before| + i] == turn[i];
    forall id | id in CallIds(turn) ensures id in CallIds(all) {
      var i :| 0 <= i < |turn| && id in Ids(turn[i].calls);
      assert id in Ids(all[|before| + i].calls);
    }
    forall id | id in ResultIds(turn) ensures id in ResultIds(all) {
      var i :| 0 <= i < |turn| && id in ResultId(turn[i]);
      assert id in ResultId(all[|before| + i]);
    }
  }

  lemma Longer<T>(base: seq<T>, before: seq<T>, after: seq<T>)
    requires base <= before <= after
    ensures base <= after && after[|base|..] == before[|base|..] + after[|before|..]
  {
  }

  lemma TroubledMore(base: seq<Reply>, before: seq<Reply>, after: seq<Reply>)
    requires base <= before <= after
    ensures base <= after && (Troubled(after[|before|..]) ==> Troubled(after[|base|..]))
  {
    Longer(base, before, after);
    var earlier, later := before[|base|..], after[|before|..];
    forall i | 0 <= i < |later| ensures (earlier + later)[|earlier| + i] == later[i] {}
  }

  lemma NoticeKept(kit: Kit, turn: seq<Message>, first: seq<Message>, results: seq<Message>)
    ensures HasNotice(kit, results) ==> HasNotice(kit, turn + (first + results))
  {
    if HasNotice(kit, results) {
      var i :| 0 <= i < |results| && ReadsNotice(kit, results[i]);
      assert (turn + (first + results))[|turn| + |first| + i] == results[i];
    }
  }

  ghost predicate TurnHolds(history: seq<Message>, issuedIds: set<string>, stored: seq<Message>, invoked: seq<Call>,
                            losses: nat, input: Message, st: TurnState, start: TurnStart)
  {
    && UserOk(input) && WithinBudgets(st)
    && history == start.history + st.turn && stored == start.stored + st.turn
    && start.invoked <= invoked && EnteredOnce(invoked, |start.invoked|)
    && start.losses <= losses
    && (start.losses < losses || AllCalled(st.turn, invoked[|start.invoked|..]))
    && (if st.turn == [] then st.pending == [input] else st.pending == [] && st.turn[0] == input)
    && st.issued <= issuedIds
  }

  /** Charging a round's output changes nothing else. */
  lemma ChargeRound(history: seq<Message>, issuedIds: set<string>, stored: seq<Message>, invoked: seq<Call>,
                    losses: nat, input: Message, st: TurnState, st': TurnState, start: TurnStart)
    requires TurnHolds(history, issuedIds, stored, invoked, losses, input, st, start)
    requires st' == st.(argumentBytes := st'.argumentBytes, modelBytes := st'.modelBytes) && WithinBudgets(st')
    ensures TurnHolds(history, issuedIds, stored, invoked, losses, input, st', start)
  {
  }

  /** The variables of a turn. */
  datatype TurnState = TurnState(pending: seq<Message>, turn: seq<Message>, issued: set<string>,
                                 argumentBytes: nat, modelBytes: nat, toolBytes: nat)

  /** Where a turn began. */
  datatype TurnStart = TurnStart(history: seq<Message>, issued: set<string>, stored: seq<Message>, invoked: seq<Call>,
                                 replies: seq<Reply>, pages: seq<Page>, losses: nat, rounds: nat, badStreams: nat,
                                 next: nat)

  ghost predicate WithinBudgets(st: TurnState) {
    && st.argumentBytes <= MAX_TOTAL_TOOL_ARGUMENT_BYTES && st.modelBytes <= MAX_TOTAL_MODEL_OUTPUT_BYTES
    && st.toolBytes <= MAX_TOTAL_TOOL_OUTPUT_BYTES
  }

  ghost predicate AllCalled(messages: seq<Message>, calls: seq<Call>) {
    forall call | call in calls :: Called(messages, call)
  }

  lemma CalledMore(turn: seq<Message>, more: seq<Message>, calls: seq<Call>)
    ensures AllCalled(turn, calls) ==> AllCalled(turn + more, calls)
  {
    if AllCalled(turn, calls) {
      forall call | call in calls ensures Called(turn + more, call) {
        assert Called(turn, call);
        var i :| 0 <= i < |turn| && call in turn[i].calls;
        assert (turn + more)[i] == turn[i];
      }
    }
  }

  lemma Regroup(a: seq<Message>, b: seq<Message>, c: seq<Message>)
    ensures a + b + c == a + (b + c)
  {
  }

  /** The tools a batch entered are among the calls of the message that asked for them. */
  lemma InvokedInBatch(base: seq<Call>, before: seq<Call>, after: seq<Call>, turn: seq<Message>, pending: seq<Message>,
                       assistant: Message, results: seq<Message>)
    requires base <= before <= after && forall call | call in after[|before|..] :: call in assistant.calls
    ensures base <= after
    ensures AllCalled(turn, before[|base|..]) ==> AllCalled(turn + (pending + [assistant] + results), after[|base|..])
  {
    if AllCalled(turn, before[|base|..]) {
      var all := turn + (pending + [assistant] + results);
      var at := |turn| + |pending|;
      assert all[at] == assistant;
      forall call | call in after[|base|..] ensures Called(all, call) {
        var k :| 0 <= k < |after| - |base| && after[|base|..][k] == call;
        if |base| + k < |before| {
          assert before[|base|..][k] == call;
          assert Called(turn, call);
          var i :| 0 <= i < |turn| && call in turn[i].calls;
          assert all[i] == turn[i];
        } else {
          assert after[|before|..][|base| + k - |before|] == call;
          assert call in all[at].calls;
        }
      }
    }
  }

  /** No call was entered twice since some point. */
  ghost predicate EnteredOnce(invoked: seq<Call>, from: nat) {
    forall i, j | from <= i < j < |invoked| :: Differ(invoked, i, j)
  }

  ghost predicate Differ(calls: seq<Call>, i: int, j: int)
    requires 0 <= i < |calls| && 0 <= j < |calls|
  {
    calls[i].id != calls[j].id
  }

  /** The calls of a new batch were not entered before, because everything entered before is recorded. */
  lemma InvokedOnce(start: TurnStart, before: seq<Call>, after: seq<Call>, turn: seq<Message>, history: seq<Message>,
                    calls: seq<Call>)
    requires history == start.history + turn && start.invoked <= before <= after
    requires AllCalled(turn, before[|start.invoked|..]) && EnteredOnce(before, |start.invoked|)
    requires InvokedFrom(calls, after[|before|..]) && Ids(calls) !! CallIds(history)
    ensures EnteredOnce(after, |start.invoked|)
  {
    var earlier, later, n := before[|start.invoked|..], after[|before|..], |before|;
    CalledIds(start.history, turn, earlier);
    forall i, j | |start.invoked| <= i < j < |after| ensures Differ(after, i, j) {
      if j < n {
        assert Differ(before, i, j);
      } else if i < n {
        assert earlier[i - |start.invoked|] in earlier && later[j - n] in later;
        assert after[i].id in Ids(earlier) && after[j].id in Ids(calls);
      } else {
        assert later[i - n].id != later[j - n].id;
      }
    }
  }

  lemma CalledIds(before: seq<Message>, turn: seq<Message>, calls: seq<Call>)
    requires AllCalled(turn, calls)
    ensures Ids(calls) <= CallIds(before + turn)
  {
    forall call | call in calls ensures call.id in CallIds(before + turn) {
      assert Called(turn, call);
      var i :| 0 <= i < |turn| && call in turn[i].calls;
      assert (before + turn)[|before| + i] == turn[i] && call.id in Ids(turn[i].calls);
    }
  }

  /** A batch with calls ends with a result. */
  lemma EndsWithResults(turn: seq<Message>, pending: seq<Message>, assistant: Message, results: seq<Message>)
    requires assistant.calls != [] && |results| == |assistant.calls| && ResultsFor(assistant.calls, results)
    ensures NoAnswer(turn + (pending + [assistant] + results))
  {
    var n := |results| - 1;
    assert ResultFor(assistant.calls[n], results[n]);
  }

  lemma BatchGrows(history: seq<Message>, pending: seq<Message>, input: Message, assistant: Message,
                   results: seq<Message>)
    requires Accepted(history) && UserOk(input) && (pending == [] || pending == [input])
    requires MessageOk(|history + pending|, assistant) && assistant.role == Assistant
    requires DistinctIds(assistant.calls) && Ids(assistant.calls) !! CallIds(history)
    requires |results| == |assistant.calls| && ResultsFor(assistant.calls, results)
    ensures Accepted(history + (pending + [assistant] + results))
    ensures CallIds(history + (pending + [assistant] + results)) == CallIds(history) + Ids(assistant.calls)
  {
    AcceptPending(history, pending, input);
    AcceptBatch(history + pending, assistant, results);
    RegroupBatch(history, pending, assistant, results);
  }

  /** The calls of a round and their results may follow any history they were made for. */
  lemma AnswerBatchGrows(history: seq<Message>, pending: seq<Message>, input: Message, response: Response,
                         results: seq<Message>, begin: Round, known: set<string>, issued: set<string>,
                         keepsReasoning: bool)
    requires Accepted(history) && UserOk(input) && (pending == [] || pending == [input])
    requires RoundAnswer(begin, known, response, issued) && known == CallIds(history)
    requires |results| == |response.calls| && ResultsFor(response.calls, results)
    ensures var assistant := AnswerMessage(response, keepsReasoning);
            && Accepted(history + (pending + [assistant] + results))
            && CallIds(history + (pending + [assistant] + results)) == known + Ids(response.calls)
  {
    AnswerMessageOk(begin, known, response, issued, keepsReasoning, |history + pending|);
    BatchGrows(history, pending, input, AnswerMessage(response, keepsReasoning), results);
  }

  lemma AnswerGrows(history: seq<Message>, pending: seq<Message>, input: Message, answer: Message)
    requires Accepted(history) && UserOk(input) && (pending == [] || pending == [input])
    requires MessageOk(|history + pending|, answer) && answer.role == Assistant && answer.calls == []
    ensures Accepted(history + (pending + [answer]))
    ensures CallIds(history + (pending + [answer])) == CallIds(history)
  {
    AcceptPending(history, pending, input);
    AcceptAnswer(history + pending, answer);
    Regroup(history, pending, [answer]);
  }

  lemma RegroupBatch(a: seq<Message>, b: seq<Message>, m: Message, c: seq<Message>)
    ensures a + b + [m] + c == a + (b + [m] + c)
  {
  }

  lemma AcceptPending(history: seq<Message>, pending: seq<Message>, input: Message)
    requires Accepted(history) && UserOk(input) && (pending == [] || pending == [input])
    ensures Accepted(history + pending) && CallIds(history + pending) == CallIds(history)
  {
    if pending == [] {
      AppendNothing(history, pending);
    } else {
      AcceptUser(history, input);
    }
  }

  datatype Turn = Turn(response: Response, messages: seq<Message>, rounds: nat)

  /** `EventSinkAfterCommit`: the answer is committed, but could not be announced. */
  datatype TurnResult = Done(turn: Turn) | EventSinkAfterCommit | Failed(error: Failure)

  /** What a turn has committed starts with its input and ends with an answer. */
  ghost predicate Concluded(input: Message, turn: seq<Message>) {
    && |turn| >= 2 && turn[0] == input
    && turn[|turn| - 1].role == Assistant && turn[|turn| - 1].calls == []
  }

  /** What a turn has committed is nothing, or ends with a tool result. */
  ghost predicate NoAnswer(turn: seq<Message>) {
    turn == [] || turn[|turn| - 1].role == Tool
  }

  /** How a turn ended, and what it then has committed. */
  ghost predicate TurnOver(r: TurnResult, input: Message, turn: seq<Message>, rounds: int, keepsReasoning: bool) {
    match r
    case Done(t) =>
      Concluded(input, turn) && CompleteTurn(input, t, keepsReasoning) && t.messages == turn && t.rounds == rounds
    case EventSinkAfterCommit => Concluded(input, turn)
    case Failed(_) => NoAnswer(turn)
  }

  function AnswerMessage(response: Response, keepsReasoning: bool): Message {
    Message(Assistant, if response.text == [] then [] else [Text(response.text)], response.calls, None,
            if keepsReasoning then response.reasoning else None)
  }

  /** A finished turn starts with its input and ends with its answer. */
  ghost predicate CompleteTurn(input: Message, turn: Turn, keepsReasoning: bool) {
    && |turn.messages| >= 2 && turn.messages[0] == input && turn.response.calls == []
    && PageOf(turn.messages[|turn.messages| - 1]) == Kept(ResponsePage(turn.response), keepsReasoning)
  }

  ghost predicate Called(messages: seq<Message>, call: Call) {
    exists i :: 0 <= i < |messages| && call in messages[i].calls
  }

  ghost predicate IsResult(history: seq<Message>, j: int, id: string) {
    0 <= j < |history| && history[j].role == Tool && history[j].callId == Some(id)
  }

  ghost predicate OnlyResult(history: seq<Message>, j: int, id: string) {
    IsResult(history, j, id) && forall k | IsResult(history, k, id) :: k == j
  }

  /** A call made since position `from`, with its one result. */
  ghost predicate Settled(history: seq<Message>, from: nat, call: Call)
    requires from <= |history|
  {
    Called(history[from..], call) && exists j :: OnlyResult(history, j, call.id)
  }

  lemma AnsweredOnce(history: seq<Message>, i: nat, call: Call)
    requires Accepted(history) && i < |history| && call in history[i].calls
    ensures exists j :: OnlyResult(history, j, call.id)
  {
    var j := EachCallAnswered(history, i, call.id);
    assert OnlyResult(history, j, call.id);
  }

  lemma CalledIsSettled(history: seq<Message>, from: nat, call: Call)
    requires Accepted(history) && from <= |history| && Called(history[from..], call)
    ensures Settled(history, from, call)
  {
    var tail := history[from..];
    var i :| 0 <= i < |tail| && call in tail[i].calls;
    AnsweredOnce(history, from + i, call);
  }

  /** What the last round leaves is what the turn promises. */
  lemma TurnKept(before: seq<Message>, turn: seq<Message>, invoked: seq<Call>, lost: bool)
    requires Accepted(before + turn) && (lost || AllCalled(turn, invoked))
    ensures (before + turn)[|before|..] == turn
    ensures lost || forall call | call in invoked :: Settled(before + turn, |before|, call)
  {
    var all := before + turn;
    assert all[|before|..] == turn;
    if !lost {
      forall call | call in invoked ensures Settled(all, |before|, call) {
        assert Called(turn, call);
        CalledIsSettled(all, |before|, call);
      }
    }
  }

  // ----- growing a history

  lemma AcceptUser(history: seq<Message>, m: Message)
    requires Accepted(history) && UserOk(m)
    ensures Accepted(history + [m]) && CallIds(history + [m]) == CallIds(history)
  {
    ScanSnoc(history, m);
    IdsSnoc(history, m);
    assert Ids(m.calls) == {};
  }

  /** The answer of a round is a message that a history may hold. */
  lemma AnswerMessageOk(start: Round, known: set<string>, response: Response, issued: set<string>,
                        keepsReasoning: bool, index: nat)
    requires RoundAnswer(start, known, response, issued)
    ensures MessageOk(index, AnswerMessage(response, keepsReasoning))
  {
    var m := AnswerMessage(response, keepsReasoning);
    if response.text != [] {
      assert m.content[..0] == [];
      assert ContentBytes(m.content) == ContentBytes(m.content[..0]) + PartBytes(m.content[0]);
    }
  }

  /** A response without calls whose text and reasoning may be kept. */
  ghost predicate AnswerAlone(response: Response) {
    && response.calls == [] && !Blank(response.text)
    && ByteLen(response.text) <= MAX_MODEL_OUTPUT_BYTES && ReasoningOk(response.reasoning)
  }

  lemma AnswerAloneOk(response: Response, keepsReasoning: bool, index: nat)
    requires AnswerAlone(response)
    ensures MessageOk(index, AnswerMessage(response, keepsReasoning))
  {
    AnswerMessageOk(StartRound({}, 0, 0), {}, response, {}, keepsReasoning, index);
  }

  lemma AcceptAnswer(history: seq<Message>, m: Message)
    requires Accepted(history) && MessageOk(|history|, m) && m.role == Assistant && m.calls == []
    ensures Accepted(history + [m]) && CallIds(history + [m]) == CallIds(history)
  {
    ScanSnoc(history, m);
    IdsSnoc(history, m);
    assert Ids(m.calls) == {};
  }

  /** The results of a batch, in call order, leave no call open. */
  lemma {:induction false} ScanBatch(before: seq<Message>, issued: set<string>, calls: seq<Call>, results: seq<Message>)
    requires ScanAll(before) == Some(Scan(issued, Ids(calls))) && DistinctIds(calls)
    requires |results| == |calls| && ResultsFor(calls, results)
    ensures ScanAll(before + results) == Some(Scan(issued, {}))
    decreases |calls|
  {
    if calls == [] {
      assert Ids(calls) == {};
      AppendNothing(before, results);
    } else {
      FirstAnswered(calls);
      ScanFirst(before, issued, calls, results[0]);
      ResultsRest(calls, results);
      ScanBatch(before + [results[0]], issued, calls[1..], results[1..]);
      Reassociate(before, results);
    }
  }

  lemma AppendNothing(before: seq<Message>, results: seq<Message>)
    requires results == []
    ensures before + results == before
  {
  }

  lemma Reassociate(before: seq<Message>, results: seq<Message>)
    requires results != []
    ensures before + [results[0]] + results[1..] == before + results
  {
  }

  lemma ResultsRest(calls: seq<Call>, results: seq<Message>)
    requires calls != [] && |results| == |calls| && ResultsFor(calls, results)
    ensures ResultsFor(calls[1..], results[1..])
  {
  }

  lemma ScanFirst(before: seq<Message>, issued: set<string>, calls: seq<Call>, result: Message)
    requires ScanAll(before) == Some(Scan(issued, Ids(calls))) && DistinctIds(calls) && calls != []
    requires ResultFor(calls[0], result)
    ensures ScanAll(before + [result]) == Some(Scan(issued, Ids(calls[1..])))
  {
    ScanSnoc(before, result);
    FirstAnswered(calls);
  }

  lemma FirstAnswered(calls: seq<Call>)
    requires DistinctIds(calls) && calls != []
    ensures calls[0].id in Ids(calls) && Ids(calls) - {calls[0].id} == Ids(calls[1..]) && DistinctIds(calls[1..])
  {
    assert calls[0] in calls && calls == [calls[0]] + calls[1..];
    forall call | call in calls[1..] ensures call.id != calls[0].id && call in calls {
      var i :| 0 <= i < |calls| - 1 && calls[1..][i] == call;
      assert calls[i + 1] == call;
    }
  }

  lemma ScanCalls(history: seq<Message>, m: Message)
    requires Accepted(history) && MessageOk(|history|, m) && m.role == Assistant
    requires DistinctIds(m.calls) && Ids(m.calls) !! CallIds(history)
    ensures ScanAll(history + [m]) == Some(Scan(CallIds(history) + Ids(m.calls), Ids(m.calls)))
  {
    ScanMeaning(history);
    ScanSnoc(history, m);
    assert Ids(m.calls) * CallIds(history) == {};
    assert {} + Ids(m.calls) == Ids(m.calls);
  }

  lemma AcceptBatch(history: seq<Message>, m: Message, results: seq<Message>)
    requires Accepted(history) && MessageOk(|history|, m) && m.role == Assistant
    requires DistinctIds(m.calls) && Ids(m.calls) !! CallIds(history)
    requires |results| == |m.calls| && ResultsFor(m.calls, results)
    ensures Accepted(history + [m] + results)
    ensures CallIds(history + [m] + results) == CallIds(history) + Ids(m.calls)
  {
    ScanCalls(history, m);
    ScanBatch(history + [m], CallIds(history) + Ids(m.calls), m.calls, results);
    ScanMeaning(history + [m] + results);
  }

  /** The answer deltas and calls of a stream agree with its terminal response. */
  ghost predicate AnswerCoherent(items: seq<Item>) {
    forall response | EndsWith(items, response) ::
      TextOf(items) <= response.text && (CallsOf(items) == [] || CallsOf(items) == response.calls)
  }

  ghost predicate ReasoningCoherent(items: seq<Item>) {
    forall response | EndsWith(items, response) :: ReasoningOf(items) <= Plain(response.reasoning)
  }

  /** A contradiction is reported only of a stream that has it. */
  ghost predicate BlamesFairly(items: seq<Item>, failure: Failure) {
    && (ContradictsAnswer(failure) ==> !AnswerCoherent(items))
    && (ContradictsReasoning(failure) ==> !ReasoningCoherent(items))
  }

  lemma AnswerOk(start: Round, round: Round, known: set<string>, response: Response)
    requires RoundOk(start, round, known) && TerminalOk(response) && !(round.observed == [] && Blank(response.text))
    ensures RoundAnswer(start, known, response.(calls := round.observed), round.issued)
  {
    assert round.observed == [] ==> ArgumentBytes(round.observed) == 0;
  }

  lemma AnswersItems(items: seq<Item>, start: Round, round: Round, known: set<string>, response: Response)
    requires EndsWith(items, response) && RoundOk(start, round, known) && round.source == response.calls
    ensures AnswersStream(items, response.(calls := round.observed))
  {
    var kept := response.(calls := round.observed);
    assert EndsWith(items, response) && kept == response.(calls := kept.calls);
  }

  lemma SameCalls(start: Round, round: Round, next: Round, known: set<string>)
    requires RoundOk(start, round, known)
    requires next.observed == round.observed && next.source == round.source
    requires next.issued == round.issued && next.argumentBytes == round.argumentBytes
    ensures RoundOk(start, next, known)
  {
  }

  // ----- tool results

  /** The tool needs no approval, or the policy allows it. */
  predicate Permits(approval: Approval) {
    approval.NotRequired? || approval.denial.None?
  }

  /** The text that a result shows for an output. */
  function Legible(kit: Kit, output: string): string {
    if output == [] then kit.wording(NoOutput) else output
  }

  ghost predicate Reads(m: Message, text: string) {
    m.content == [Text(text)]
  }

  ghost predicate Says(kit: Kit, m: Message, notice: Notice) {
    Reads(m, kit.wording(notice))
  }

  /** The result stands in for an output that was too large. */
  ghost predicate ReadsNotice(kit: Kit, m: Message) {
    Says(kit, m, OverLimit) || Says(kit, m, OverBudget)
  }

  datatype Screened = Stopped(error: Failure) | Refused(text: string) | Cleared

  /** Why a call is turned down. */
  ghost predicate RefusalText(kit: Kit, call: Call, text: string) {
    if call.name !in kit.tools then text == kit.wording(UnknownTool) + call.name
    else if call.name !in kit.enabled then text == kit.wording(Unavailable) + call.name
    else text == kit.wording(BadArguments) + call.name || kit.wording(Denial) <= text
  }

  ghost predicate ReadsRefusal(kit: Kit, call: Call, m: Message) {
    |m.content| == 1 && m.content[0].Text? && RefusalText(kit, call, m.content[0].text)
  }

  /** The result of a call tells what became of it.  If it was entered, the result is what the tool
      answered; if it failed there, that an effect may have occurred; if it was not entered, why not.  With
      `strict`, nothing ended the batch: the answer is there in full. */
  ghost predicate Tells(kit: Kit, call: Call, reply: Option<Reply>, m: Message,
                        strict: bool)
  {
    match reply
    case Some(Output(text)) => Reads(m, Legible(kit, text)) || (!strict && ReadsNotice(kit, m))
    case Some(Respond(text)) => Reads(m, Legible(kit, text)) || (!strict && ReadsNotice(kit, m))
    case Some(Interrupted) => !strict && (Says(kit, m, CancelledOutput) || ReadsNotice(kit, m))
    case Some(Fatal) => !strict && Says(kit, m, MaybeExecuted)
    case None =>
      || ReadsRefusal(kit, call, m)
      || (&& !strict
          && (|| ReadsNotice(kit, m) || Says(kit, m, NotExecuted) || Says(kit, m, EarlierEnded)
              || Says(kit, m, EarlierFailed)))
  }

  /** How a call that was entered ended. */
  ghost function ReplyTo(invoked: seq<Call>, replies: seq<Reply>, call: Call): Option<Reply>
    requires |replies| == |invoked|
  {
    if invoked == [] then None
    else
      var n := |invoked| - 1;
      if invoked[n] == call then Some(replies[n]) else ReplyTo(invoked[..n], replies[..n], call)
  }

  lemma ReplySnoc(invoked: seq<Call>, replies: seq<Reply>, call: Call, reply: Reply, other: Call)
    requires |replies| == |invoked|
    ensures ReplyTo(invoked + [call], replies + [reply], other) ==
            if other == call then Some(reply) else ReplyTo(invoked, replies, other)
  {
    assert (invoked + [call])[..|invoked|] == invoked && (replies + [reply])[..|invoked|] == replies;
  }

  lemma {:induction false} ReplyNone(invoked: seq<Call>, replies: seq<Reply>, call: Call)
    requires |replies| == |invoked|
    ensures ReplyTo(invoked, replies, call).None? <==> call !in invoked
    decreases |invoked|
  {
    if invoked != [] {
      var n := |invoked| - 1;
      ReplyNone(invoked[..n], replies[..n], call);
      assert invoked == invoked[..n] + [invoked[n]];
    }
  }

  /** Calls entered later do not change how an earlier one ended. */
  lemma {:induction false} ReplyConcat(a: seq<Call>, ra: seq<Reply>, b: seq<Call>, rb: seq<Reply>, call: Call)
    requires |ra| == |a| && |rb| == |b|
    ensures ReplyTo(a + b, ra + rb, call) == if call in b then ReplyTo(b, rb, call) else ReplyTo(a, ra, call)
    decreases |b|
  {
    if b == [] {
      assert a + b == a && ra + rb == ra;
    } else {
      var n := |b| - 1;
      assert (a + b)[..|a| + n] == a + b[..n] && (ra + rb)[..|a| + n] == ra + rb[..n];
      assert b == b[..n] + [b[n]];
      ReplyConcat(a, ra, b[..n], rb[..n], call);
    }
  }

  ghost function LastReply(before: seq<Reply>, after: seq<Reply>): Option<Reply> {
    if |after| == |before| || after == [] then None else Some(after[|after| - 1])
  }

  /** A tool failed, or was interrupted. */
  ghost predicate Troubled(replies: seq<Reply>) {
    exists i | 0 <= i < |replies| :: replies[i].Fatal? || replies[i].Interrupted?
  }

  ghost predicate HasNotice(kit: Kit, messages: seq<Message>) {
    exists i | 0 <= i < |messages| :: ReadsNotice(kit, messages[i])
  }

  /** What one call adds to the invocations and replies since some point. */
  lemma Since(was: seq<Call>, before: seq<Call>, after: seq<Call>, wasR: seq<Reply>, beforeR: seq<Reply>,
              afterR: seq<Reply>, call: Call)
    requires was <= before && wasR <= beforeR && |wasR| == |was| && |beforeR| == |before|
    requires || (after == before && afterR == beforeR)
             || (after == before + [call] && beforeR <= afterR && |afterR| == |beforeR| + 1)
    ensures was <= after && wasR <= afterR && |afterR| == |after|
    ensures || (after[|was|..] == before[|was|..] && afterR[|wasR|..] == beforeR[|wasR|..])
            || (after[|was|..] == before[|was|..] + [call] && beforeR[|wasR|..] <= afterR[|wasR|..])
    ensures LastReply(beforeR[|wasR|..], afterR[|wasR|..]) == LastReply(beforeR, afterR)
  {
  }

  /** The results of the first calls tell what became of them. */
  ghost predicate ResultsTell(kit: Kit, calls: seq<Call>, results: seq<Message>,
                              invoked: seq<Call>, replies: seq<Reply>, strict: bool)
    requires |replies| == |invoked|
  {
    && |results| <= |calls|
    && forall i | 0 <= i < |results| :: ResultTells(kit, calls, results, i, invoked, replies, strict)
  }

  ghost predicate ResultTells(kit: Kit, calls: seq<Call>, results: seq<Message>, i: int,
                              invoked: seq<Call>, replies: seq<Reply>, strict: bool)
    requires |replies| == |invoked| && 0 <= i < |results| <= |calls|
  {
    Tells(kit, calls[i], ReplyTo(invoked, replies, calls[i]), results[i], strict)
  }

  /** The result that a call which did not finish is given. */
  ghost predicate Settles(kit: Kit, outcome: CallOutcome, m: Message)
    requires outcome.Unfinished?
  {
    if outcome.result.Some? then m == outcome.result.value
    else Says(kit, m, if outcome.effectPossible then MaybeExecuted else NotExecuted)
  }

  lemma NotEntered(calls: seq<Call>, n: nat, i: nat, invoked: seq<Call>)
    requires n <= i < |calls| && DistinctIds(calls) && InvokedFrom(calls[..n], invoked)
    ensures calls[i] !in invoked
  {
    forall call | call in invoked ensures call.id != calls[i].id {
      var k :| 0 <= k < n && calls[..n][k] == call;
    }
  }

  /** One more call: its own result tells what became of it, and the earlier ones still do. */
  lemma TellNext(kit: Kit, calls: seq<Call>, results: seq<Message>, m: Message,
                 invoked: seq<Call>, replies: seq<Reply>, invoked': seq<Call>, replies': seq<Reply>, strict: bool)
    requires |results| < |calls| && DistinctIds(calls) && |replies| == |invoked| && |replies'| == |invoked'|
    requires InvokedFrom(calls[..|results|], invoked)
    requires ResultsTell(kit, calls, results, invoked, replies, true)
    requires || (invoked' == invoked && replies' == replies)
             || (invoked' == invoked + [calls[|results|]] && replies <= replies')
    requires Tells(kit, calls[|results|], LastReply(replies, replies'), m, strict)
    ensures ResultsTell(kit, calls, results + [m], invoked', replies', strict)
  {
    NotEntered(calls, |results|, |results|, invoked);
    forall i | 0 <= i < |results| + 1
      ensures ResultTells(kit, calls, results + [m], i, invoked', replies', strict)
    {
      NextReply(calls[|results|], invoked, replies, invoked', replies', calls[i]);
      assert i < |results| ==> calls[i].id != calls[|results|].id;
      if i < |results| {
        TellEarlier(kit, calls, results, m, i, invoked, replies, invoked', replies', strict);
      } else {
        TellLatest(kit, calls, results, m, invoked', replies', strict);
      }
    }
  }

  lemma TellLatest(kit: Kit, calls: seq<Call>, results: seq<Message>, m: Message,
                   invoked: seq<Call>, replies: seq<Reply>, strict: bool)
    requires |results| < |calls| && |replies| == |invoked|
    requires Tells(kit, calls[|results|], ReplyTo(invoked, replies, calls[|results|]), m, strict)
    ensures ResultTells(kit, calls, results + [m], |results|, invoked, replies, strict)
  {
    assert (results + [m])[|results|] == m;
  }

  lemma TellEarlier(kit: Kit, calls: seq<Call>, results: seq<Message>, m: Message,
                    i: nat, invoked: seq<Call>, replies: seq<Reply>, invoked': seq<Call>, replies': seq<Reply>,
                    strict: bool)
    requires i < |results| < |calls| && |replies| == |invoked| && |replies'| == |invoked'|
    requires ResultsTell(kit, calls, results, invoked, replies, true)
    requires ReplyTo(invoked', replies', calls[i]) == ReplyTo(invoked, replies, calls[i])
    ensures ResultTells(kit, calls, results + [m], i, invoked', replies', strict)
  {
    assert ResultTells(kit, calls, results, i, invoked, replies, true);
    TellsLess(kit, calls[i], ReplyTo(invoked', replies', calls[i]), results[i], strict);
  }

  /** What tells all tells enough. */
  lemma TellsLess(kit: Kit, call: Call, reply: Option<Reply>, m: Message, strict: bool)
    requires Tells(kit, call, reply, m, true)
    ensures Tells(kit, call, reply, m, strict)
  {
  }

  /** How a call and the others ended once it has been run. */
  lemma NextReply(call: Call, invoked: seq<Call>, replies: seq<Reply>, invoked': seq<Call>, replies': seq<Reply>,
                  other: Call)
    requires |replies| == |invoked| && |replies'| == |invoked'| && call !in invoked
    requires || (invoked' == invoked && replies' == replies) || (invoked' == invoked + [call] && replies <= replies')
    ensures ReplyTo(invoked', replies', other) ==
            if other == call then LastReply(replies, replies') else ReplyTo(invoked, replies, other)
  {
    ReplyNone(invoked, replies, call);
    if invoked' != invoked {
      assert replies' == replies + [replies'[|replies|]];
      ReplySnoc(invoked, replies, call, replies'[|replies|], other);
    }
  }

  /** The calls after the one that ended a batch were not entered, and their results say so. */
  lemma TellRest(kit: Kit, calls: seq<Call>, results: seq<Message>,
                 filled: seq<Message>, invoked: seq<Call>, replies: seq<Reply>, strict: bool)
    requires DistinctIds(calls) && |replies| == |invoked| && results <= filled && |filled| <= |calls|
    requires InvokedFrom(calls[..|results|], invoked)
    requires ResultsTell(kit, calls, results, invoked, replies, strict)
    requires forall k | |results| <= k < |filled| ::
               Says(kit, filled[k], EarlierEnded) || Says(kit, filled[k], EarlierFailed)
    ensures ResultsTell(kit, calls, filled, invoked, replies, false)
  {
    forall i | 0 <= i < |filled|
      ensures ResultTells(kit, calls, filled, i, invoked, replies, false)
    {
      if i < |results| {
        assert ResultTells(kit, calls, results, i, invoked, replies, strict);
        assert filled[i] == results[i];
      } else {
        NotEntered(calls, |results|, i, invoked);
        ReplyNone(invoked, replies, calls[i]);
      }
    }
  }

  // ----- what a turn records

  /** For every call of a turn that has a result there, the result tells what became of the call. */
  ghost predicate TurnTells(kit: Kit, turn: seq<Message>, invoked: seq<Call>,
                            replies: seq<Reply>, strict: bool)
    requires |replies| == |invoked|
  {
    forall i, j, call | Answers(turn, i, j, call) ::
      Tells(kit, call, ReplyTo(invoked, replies, call), turn[j], strict)
  }

  /** The message at `j` is the result of a call made at `i`. */
  ghost predicate Answers(turn: seq<Message>, i: int, j: int, call: Call) {
    0 <= i < |turn| && call in turn[i].calls && IsResult(turn, j, call.id)
  }

  /** Entering other calls changes nothing of what a turn tells. */
  lemma TellKeeps(kit: Kit, turn: seq<Message>, a: seq<Call>, ra: seq<Reply>,
                  b: seq<Call>, rb: seq<Reply>, strict: bool)
    requires |ra| == |a| && |rb| == |b| && TurnTells(kit, turn, a, ra, strict) && Ids(b) !! CallIds(turn)
    ensures TurnTells(kit, turn, a + b, ra + rb, strict)
  {
    forall i, j, call | Answers(turn, i, j, call)
      ensures Tells(kit, call, ReplyTo(a + b, ra + rb, call), turn[j], strict)
    {
      assert call.id in Ids(turn[i].calls);
      assert call.id in CallIds(turn);
      assert call !in b by { assert call.id !in Ids(b); }
      ReplyConcat(a, ra, b, rb, call);
    }
  }

  /** A message with calls, its results, and before it no more than the input. */
  ghost predicate Exchange(pending: seq<Message>, m: Message, results: seq<Message>) {
    && (forall k | 0 <= k < |pending| :: pending[k].role == User && pending[k].calls == [])
    && m.role == Assistant && DistinctIds(m.calls) && |results| == |m.calls| && ResultsFor(m.calls, results)
  }

  /** Where the calls and results of a turn with one more exchange are. */
  lemma Located(turn: seq<Message>, pending: seq<Message>, m: Message, results: seq<Message>, i: nat)
    requires Exchange(pending, m, results) && i < |turn + (pending + [m] + results)|
    ensures var all, at := turn + (pending + [m] + results), |turn| + |pending|;
            if i < |turn| then all[i] == turn[i]
            else if i < at then all[i].role == User && all[i].calls == []
            else if i == at then all[i] == m
            else i - at - 1 < |results| && all[i] == results[i - at - 1] && ResultFor(m.calls[i - at - 1], all[i])
  {
  }

  /** The result of a call of the exchange is the one at its place. */
  lemma OwnResult(turn: seq<Message>, pending: seq<Message>, m: Message, results: seq<Message>, call: Call, j: int)
    requires Exchange(pending, m, results) && call in m.calls && ResultIds(turn) !! Ids(m.calls)
    requires IsResult(turn + (pending + [m] + results), j, call.id)
    ensures var k := j - |turn| - |pending| - 1;
            0 <= k < |results| && m.calls[k] == call && (turn + (pending + [m] + results))[j] == results[k]
  {
    Located(turn, pending, m, results, j);
    assert call.id in Ids(m.calls);
    assert forall k | 0 <= k < |turn| :: ResultId(turn[k]) <= ResultIds(turn);
    var n :| 0 <= n < |m.calls| && m.calls[n] == call;
  }

  /** A result of an earlier call is an earlier result. */
  lemma OtherResult(turn: seq<Message>, pending: seq<Message>, m: Message, results: seq<Message>, id: string, j: int)
    requires Exchange(pending, m, results) && id !in Ids(m.calls)
    requires IsResult(turn + (pending + [m] + results), j, id)
    ensures j < |turn| && IsResult(turn, j, id)
  {
    Located(turn, pending, m, results, j);
    assert forall k | 0 <= k < |m.calls| :: m.calls[k].id in Ids(m.calls);
  }

  /** One more exchange whose results tell what became of its calls. */
  lemma TellBatch(kit: Kit, turn: seq<Message>, pending: seq<Message>, m: Message,
                  results: seq<Message>, a: seq<Call>, ra: seq<Reply>, b: seq<Call>, rb: seq<Reply>, strict: bool)
    requires |ra| == |a| && |rb| == |b| && TurnTells(kit, turn, a, ra, true)
    requires Exchange(pending, m, results) && InvokedFrom(m.calls, b)
    requires ResultsTell(kit, m.calls, results, b, rb, strict)
    requires CallIds(turn) !! Ids(m.calls) && ResultIds(turn) !! Ids(m.calls) && Ids(a) !! Ids(m.calls)
    ensures TurnTells(kit, turn + (pending + [m] + results), a + b, ra + rb, strict)
  {
    var all := turn + (pending + [m] + results);
    forall i, j, call | Answers(all, i, j, call)
      ensures Tells(kit, call, ReplyTo(a + b, ra + rb, call), all[j], strict)
    {
      Located(turn, pending, m, results, i);
      ReplyConcat(a, ra, b, rb, call);
      if i < |turn| {
        assert call.id in Ids(turn[i].calls);
        assert call.id in CallIds(turn);
        OtherResult(turn, pending, m, results, call.id, j);
        assert Answers(turn, i, j, call);
        assert call !in b by { assert call.id !in Ids(m.calls); }
      } else {
        assert call in m.calls && call.id in Ids(m.calls);
        OwnResult(turn, pending, m, results, call, j);
        assert call !in a by { assert call.id !in Ids(a); }
        ReplyNone(a, ra, call);
        ReplyNone(b, rb, call);
        var k := j - |turn| - |pending| - 1;
        assert ResultTells(kit, m.calls, results, k, b, rb, strict);
      }
    }
  }

  /** The text of a message. */
  function PlainText(parts: seq<Content>): string {
    if parts == [] then []
    else
      var last := parts[|parts| - 1];
      PlainText(parts[..|parts| - 1]) + (if last.Text? then last.text else [])
  }

  /** What a message of the assistant says. */
  function PageOf(m: Message): Page {
    Page(PlainText(m.content), Plain(m.reasoning), m.calls)
  }

  /** What is kept of a page. */
  function Kept(page: Page, keepsReasoning: bool): Page {
    if keepsReasoning then page else page.(reasoning := [])
  }

  function ResponsePage(response: Response): Page {
    Page(response.text, Plain(response.reasoning), response.calls)
  }

  /** What the assistant's messages say, in order. */
  ghost function PagesOf(messages: seq<Message>): seq<Page> {
    if messages == [] then []
    else
      var last := messages[|messages| - 1];
      PagesOf(messages[..|messages| - 1]) + (if last.role == Assistant then [PageOf(last)] else [])
  }

  lemma {:induction false} PagesAppend(a: seq<Message>, b: seq<Message>)
    ensures PagesOf(a + b) == PagesOf(a) + PagesOf(b)
    decreases |b|
  {
    if b == [] {
      assert a + b == a;
    } else {
      var n := |b| - 1;
      assert (a + b)[..|a| + n] == a + b[..n];
      PagesAppend(a, b[..n]);
    }
  }

  lemma {:induction false} NoPages(messages: seq<Message>)
    requires forall k | 0 <= k < |messages| :: messages[k].role != Assistant
    ensures PagesOf(messages) == []
    decreases |messages|
  {
    if messages != [] { NoPages(messages[..|messages| - 1]); }
  }

  /** An exchange adds one page. */
  lemma ExchangePage(turn: seq<Message>, pending: seq<Message>, m: Message, results: seq<Message>)
    requires Exchange(pending, m, results)
    ensures PagesOf(turn + (pending + [m] + results)) == PagesOf(turn) + [PageOf(m)]
  {
    PagesAppend(turn, pending + [m] + results);
    PagesAppend(pending + [m], results);
    PagesAppend(pending, [m]);
    NoPages(pending);
    forall k | 0 <= k < |results| ensures results[k].role != Assistant { assert ResultFor(m.calls[k], results[k]); }
    NoPages(results);
    OnePage(m);
  }

  lemma OnePage(m: Message)
    requires m.role == Assistant
    ensures PagesOf([m]) == [PageOf(m)]
  {
    assert [m][..0] == [];
  }

  /** The message made of a response says what the response says. */
  lemma AnswerPage(response: Response, keepsReasoning: bool)
    ensures PageOf(AnswerMessage(response, keepsReasoning)) == Kept(ResponsePage(response), keepsReasoning)
  {
    var content := AnswerMessage(response, keepsReasoning).content;
    if response.text != [] {
      assert content[..0] == [];
      assert PlainText(content) == PlainText(content[..0]) + content[0].text;
    }
  }

  /** The assistant's messages say what the rounds showed, in order; `lag` pages have no message yet. */
  ghost predicate Shown(turn: seq<Message>, pages: seq<Page>, keepsReasoning: bool, lag: nat) {
    && |PagesOf(turn)| + lag == |pages|
    && forall i | 0 <= i < |pages| - lag :: SaysPage(turn, pages, keepsReasoning, i)
  }

  ghost predicate SaysPage(turn: seq<Message>, pages: seq<Page>, keepsReasoning: bool, i: int) {
    0 <= i < |PagesOf(turn)| && i < |pages| && PagesOf(turn)[i] == Kept(pages[i], keepsReasoning)
  }

  lemma ShownNext(turn: seq<Message>, pending: seq<Message>, m: Message, results: seq<Message>, pages: seq<Page>,
                  keepsReasoning: bool)
    requires Exchange(pending, m, results) && Shown(turn, pages, keepsReasoning, 1)
    requires PageOf(m) == Kept(pages[|pages| - 1], keepsReasoning)
    ensures Shown(turn + (pending + [m] + results), pages, keepsReasoning, 0)
  {
    ExchangePage(turn, pending, m, results);
    var all, n := turn + (pending + [m] + results), |pages| - 1;
    forall i | 0 <= i < |pages| ensures SaysPage(all, pages, keepsReasoning, i) {
      if i < n { assert SaysPage(turn, pages, keepsReasoning, i); }
    }
  }

  lemma ShownMore(turn: seq<Message>, pages: seq<Page>, page: Page, keepsReasoning: bool)
    requires Shown(turn, pages, keepsReasoning, 0)
    ensures Shown(turn, pages + [page], keepsReasoning, 1)
  {
    forall i | 0 <= i < |pages| ensures SaysPage(turn, pages + [page], keepsReasoning, i) {
      assert SaysPage(turn, pages, keepsReasoning, i);
    }
  }

  /** The size of the results among some messages. */
  ghost function ResultBytes(messages: seq<Message>): nat {
    if messages == [] then 0
    else
      var last := messages[|messages| - 1];
      ResultBytes(messages[..|messages| - 1]) + (if last.role == Tool then ContentBytes(last.content) else 0)
  }

  lemma ResultBytesSnoc(calls: seq<Call>, results: seq<Message>, longer: seq<Message>)
    requires |longer| == |results| + 1 && results == longer[..|results|] && ResultsFor(calls, longer)
    ensures ResultBytes(longer) == ResultBytes(results) + ContentBytes(longer[|results|].content)
  {
    assert ResultFor(calls[|results|], longer[|results|]);
  }

  lemma {:induction false} ResultBytesAppend(a: seq<Message>, b: seq<Message>)
    ensures ResultBytes(a + b) == ResultBytes(a) + ResultBytes(b)
    decreases |b|
  {
    if b == [] {
      assert a + b == a;
    } else {
      var n := |b| - 1;
      assert (a + b)[..|a| + n] == a + b[..n];
      ResultBytesAppend(a, b[..n]);
    }
  }

  lemma {:induction false} NoResults(messages: seq<Message>)
    requires forall k | 0 <= k < |messages| :: messages[k].role != Tool
    ensures ResultBytes(messages) == 0
    decreases |messages|
  {
    if messages != [] { NoResults(messages[..|messages| - 1]); }
  }

  datatype CallOutcome =
    | Finished(message: Message, terminal: Option<Failure>)
    | Unfinished(error: Failure, effectPossible: bool, result: Option<Message>)

  datatype Batch = Batch(results: seq<Message>, error: Option<Failure>, required: bool)

  /** What the agent itself says in the place of a tool. */
  datatype Notice =
    | NoOutput | OverLimit | OverBudget | CancelledOutput | UnknownTool | Unavailable | BadArguments | Denial
    | EarlierEnded | EarlierFailed | MaybeExecuted | NotExecuted

  /** The tools of a session, those enabled, and the words in which it puts its notices. */
  datatype Kit = Kit(tools: set<string>, enabled: set<string>, wording: Notice -> string)

  ghost predicate KitOk(kit: Kit) {
    forall notice :: 0 < ByteLen(kit.wording(notice)) <= MAX_TOOL_OUTPUT_BYTES
  }

  function Wording(notice: Notice): (text: string)
    ensures 0 < |text| < 100
  {
    if notice.NoOutput? || notice.OverLimit? || notice.OverBudget? || notice.CancelledOutput? then
      OutputWording(notice)
    else if notice.EarlierEnded? || notice.EarlierFailed? || notice.MaybeExecuted? || notice.NotExecuted? then
      StandInWording(notice)
    else RefusalWording(notice)
  }

  function OutputWording(notice: Notice): (text: string)
    ensures 0 < |text| < 100
  {
    if notice.NoOutput? then "(no output)"
    else if notice.OverLimit? then
      "tool output omitted because its configured byte limit was exceeded; side effect may have occurred"
    else if notice.OverBudget? then
      "tool output omitted because the durable turn budget was exhausted; side effect may have occurred"
    else "tool invocation cancelled before completion"
  }

  function StandInWording(notice: Notice): (text: string)
    ensures 0 < |text| < 100
  {
    if notice.EarlierEnded? then "tool not executed because an earlier call ended the batch"
    else if notice.EarlierFailed? then "tool not executed because an earlier call failed"
    else if notice.MaybeExecuted? then "tool execution failed or was interrupted; side effect may have occurred"
    else "tool was not executed because the harness failed before invocation"
  }

  function RefusalWording(notice: Notice): (text: string)
    ensures 0 < |text| < 100
  {
    if notice.UnknownTool? then "unknown tool "
    else if notice.Unavailable? then "tool is not available in this session: "
    else if notice.BadArguments? then "arguments do not satisfy the JSON Schema of tool "
    else "tool invocation denied: "
  }

  lemma {:induction false} ByteLenBounds(s: string)
    ensures |s| <= ByteLen(s) <= 4 * |s|
  {
    if s != [] { ByteLenBounds(s[..|s| - 1]); }
  }

  lemma WordingFits()
    ensures forall notice :: 0 < ByteLen(Wording(notice)) <= MAX_TOOL_OUTPUT_BYTES
  {
    forall notice: Notice ensures 0 < ByteLen(Wording(notice)) <= MAX_TOOL_OUTPUT_BYTES {
      ByteLenBounds(Wording(notice));
    }
  }

  predicate ApprovalTextOk(text: string) {
    ByteLen(text) <= MAX_APPROVAL_REASON_BYTES && !Blank(text) && !HasControl(text)
  }

  function ToolMessage(call: Call, text: string): Message {
    Message(Tool, [Text(text)], [], Some(call.id), None)
  }

  /** A message that may stand in a history as the result of a call. */
  ghost predicate ResultFor(call: Call, m: Message) {
    m.role == Tool && m.callId == Some(call.id) && ToolOk(m) && |m.content| <= MAX_MESSAGE_CONTENT_PARTS
  }

  lemma ToolMessageOk(call: Call, text: string)
    requires IsUuidV7(call.id) && 0 < ByteLen(text) <= MAX_TOOL_OUTPUT_BYTES
    ensures ResultFor(call, ToolMessage(call, text)) && ContentBytes(ToolMessage(call, text).content) == ByteLen(text)
  {
    var parts := [Text(text)];
    assert parts[..0] == [];
    assert ContentBytes(parts) == ContentBytes(parts[..0]) + PartBytes(parts[0]);
  }

  ghost predicate OutcomeFor(call: Call, r: CallOutcome) {
    match r
    case Finished(message, _) => ResultFor(call, message)
    case Unfinished(_, _, result) => result.Some? ==> ResultFor(call, result.value)
  }

  /** The results of the first calls, in call order. */
  ghost predicate ResultsFor(calls: seq<Call>, results: seq<Message>) {
    |results| <= |calls| && forall i | 0 <= i < |results| :: ResultFor(calls[i], results[i])
  }

  /** The tools entered on behalf of some calls, each at most once. */
  ghost predicate InvokedFrom(calls: seq<Call>, invoked: seq<Call>) {
    (forall call | call in invoked :: call in calls) && DistinctIds(invoked)
  }

  lemma InvokedOne(calls: seq<Call>, i: nat, was: seq<Call>, before: seq<Call>, after: seq<Call>)
    requires i < |calls| && DistinctIds(calls) && was <= before && InvokedFrom(calls[..i], before[|was|..])
    requires after == before || after == before + [calls[i]]
    ensures was <= after && InvokedFrom(calls[..i + 1], after[|was|..])
    ensures InvokedFrom(calls, after[|was|..])
  {
    var old_, new_ := before[|was|..], after[|was|..];
    forall call | call in old_ ensures call in calls[..i + 1] && call.id != calls[i].id {
      var k :| 0 <= k < i && calls[..i][k] == call;
      assert calls[..i + 1][k] == call;
    }
    if after != before {
      assert new_ == old_ + [calls[i]];
      assert calls[..i + 1][i] == calls[i];
      forall k | 0 <= k < |old_| ensures new_[k].id != calls[i].id { assert old_[k] in old_; }
    }
    forall call | call in new_ ensures call in calls { assert call in calls[..i + 1]; }
  }

  function Plain(reasoning: Option<string>): string {
    if reasoning.Some? then reasoning.value else []
  }
}
