/** Messages of an agent conversation and the check that a history must pass. */
module Conversation {
  import opened Records

  const MAX_MESSAGES := 4096
  const MAX_MESSAGE_CONTENT_PARTS := 1024
  const MAX_TOOL_CALLS_PER_ROUND := 16
  const MAX_TOOL_OUTPUT_BYTES: nat := 0x4_0000
  const MAX_TOOL_SCHEMA_BYTES := 0x10_0000
  const MAX_TOOL_CALL_ID_BYTES := 256
  const MAX_TOTAL_TOOL_ARGUMENT_BYTES := 0x8_0000
  const MAX_USER_CONTENT_BYTES := 0x800_0000
  const MAX_SYSTEM_PROMPT_BYTES := 0x40_0000
  const MAX_MODEL_OUTPUT_BYTES := 0x3_0000

  /** JSON arguments: whether they are an object, and their encoded length if they are structurally
      bounded. */
  datatype Json = Json(isObject: bool, length: Option<nat>, text: string)

  datatype Call = Call(id: string, name: string, arguments: Json)

  datatype Role = SystemRole | User | Assistant | Tool

  datatype Content = Text(text: string) | Image(bytes: nat) | Audio(bytes: nat) | Video(bytes: nat) | Translation

  datatype Message = Message(role: Role, content: seq<Content>, calls: seq<Call>, callId: Option<string>,
                             reasoning: Option<string>)

  // ----- text

  /** The UTF-8 length of a character. */
  function CharBytes(c: char): nat {
    var n := c as int;
    if n < 0x80 then 1 else if n < 0x800 then 2 else if n < 0x1_0000 then 3 else 4
  }

  function ByteLen(s: string): nat {
    if s == [] then 0 else ByteLen(s[..|s| - 1]) + CharBytes(s[|s| - 1])
  }

  predicate IsControl(c: char) {
    var n := c as int;
    n < 0x20 || 0x7f <= n <= 0x9f
  }

  predicate IsSpace(c: char) {
    var n := c as int;
    9 <= n <= 13 || n in {0x20, 0x85, 0xa0, 0x1680, 0x2028, 0x2029, 0x202f, 0x205f, 0x3000} || 0x2000 <= n <= 0x200a
  }

  /** `text.trim().is_empty()`. */
  predicate Blank(s: string) {
    forall c | c in s :: IsSpace(c)
  }

  predicate HasControl(s: string) {
    exists c | c in s :: IsControl(c)
  }

  predicate ToolNameChar(c: char) {
    'a' <= c <= 'z' || 'A' <= c <= 'Z' || '0' <= c <= '9' || c == '_' || c == '-'
  }

  predicate ValidToolName(name: string) {
    0 < |name| <= 64 && forall c | c in name :: ToolNameChar(c)
  }

  predicate LowerHex(c: char) {
    '0' <= c <= '9' || 'a' <= c <= 'f'
  }

  /** The canonical text of a version 7 UUID of the RFC variant. */
  predicate IsUuidV7(s: string) {
    && |s| == 36
    && (forall i | 0 <= i < 36 :: if i in {8, 13, 18, 23} then s[i] == '-' else LowerHex(s[i]))
    && s[14] == '7' && s[19] in {'8', '9', 'a', 'b'}
  }

  // ----- single messages

  function PartBytes(part: Content): nat {
    match part
    case Text(text) => ByteLen(text)
    case Image(bytes) => bytes
    case Audio(bytes) => bytes
    case Video(bytes) => bytes
    case Translation => 0
  }

  function ContentBytes(parts: seq<Content>): nat {
    if parts == [] then 0 else ContentBytes(parts[..|parts| - 1]) + PartBytes(parts[|parts| - 1])
  }

  predicate AllText(parts: seq<Content>) {
    forall part | part in parts :: part.Text?
  }

  predicate SystemOk(m: Message) {
    && m.content != [] && AllText(m.content) && m.calls == [] && m.callId.None? && m.reasoning.None?
    && (exists part | part in m.content :: part.Text? && !Blank(part.text))
    && ContentBytes(m.content) <= MAX_SYSTEM_PROMPT_BYTES
  }

  predicate UserOk(m: Message) {
    && m.role == User && 0 < |m.content| <= MAX_MESSAGE_CONTENT_PARTS
    && m.calls == [] && m.callId.None? && m.reasoning.None?
    && (forall part | part in m.content :: !part.Translation? && !part.Video?)
    && 0 < ContentBytes(m.content) <= MAX_USER_CONTENT_BYTES
  }

  /** Reasoning that may be kept: not empty, bounded and without stray control characters. */
  predicate ReasoningOk(reasoning: Option<string>) {
    reasoning.Some? ==>
      && reasoning.value != [] && ByteLen(reasoning.value) <= MAX_MODEL_OUTPUT_BYTES
      && forall c | c in reasoning.value :: IsControl(c) ==> c == '\n' || c == '\r' || c == '\t'
  }

  predicate ArgumentsOk(arguments: Json) {
    arguments.isObject && arguments.length.Some? && arguments.length.value <= MAX_TOOL_SCHEMA_BYTES
  }

  function ArgumentBytes(calls: seq<Call>): nat {
    if calls == [] then 0
    else
      var last := calls[|calls| - 1].arguments.length;
      ArgumentBytes(calls[..|calls| - 1]) + (if last.Some? then last.value else 0)
  }

  predicate CallOk(call: Call) {
    ValidToolName(call.name) && IsUuidV7(call.id) && ArgumentsOk(call.arguments)
  }

  predicate AssistantOk(m: Message) {
    && (m.content != [] || m.calls != []) && m.callId.None? && AllText(m.content)
    && |m.calls| <= MAX_TOOL_CALLS_PER_ROUND
    && ContentBytes(m.content) <= MAX_MODEL_OUTPUT_BYTES && ReasoningOk(m.reasoning)
    && (forall call | call in m.calls :: CallOk(call))
    && ArgumentBytes(m.calls) <= MAX_TOTAL_TOOL_ARGUMENT_BYTES
  }

  predicate ToolOk(m: Message) {
    && m.content != [] && AllText(m.content) && m.calls == [] && m.reasoning.None?
    && m.callId.Some? && IsUuidV7(m.callId.value)
    && 0 < ContentBytes(m.content) <= MAX_TOOL_OUTPUT_BYTES
  }

  /** A message that may stand at a position of a history. */
  predicate MessageOk(index: nat, m: Message) {
    && |m.content| <= MAX_MESSAGE_CONTENT_PARTS
    && match m.role
       case SystemRole => index == 0 && SystemOk(m)
       case User => UserOk(m)
       case Assistant => AssistantOk(m)
       case Tool => ToolOk(m)
  }

  // ----- the scan over a history

  /** The calls seen so far, and those still without a result. */
  datatype Scan = Scan(issued: set<string>, pending: set<string>)

  function Ids(calls: seq<Call>): set<string> {
    set call | call in calls :: call.id
  }

  predicate DistinctIds(calls: seq<Call>) {
    forall i, j | 0 <= i < j < |calls| :: calls[i].id != calls[j].id
  }

  function ScanOne(s: Scan, index: nat, m: Message): Option<Scan> {
    if !MessageOk(index, m) || (s.pending != {} && m.role != Tool) then None
    else
      match m.role
      case SystemRole => Some(s)
      case User => Some(s)
      case Assistant =>
        if !DistinctIds(m.calls) || Ids(m.calls) * s.issued != {} then None
        else Some(Scan(s.issued + Ids(m.calls), s.pending + Ids(m.calls)))
      case Tool =>
        if m.callId.None? || m.callId.value !in s.pending then None
        else Some(s.(pending := s.pending - {m.callId.value}))
  }

  function ScanAll(history: seq<Message>): Option<Scan> {
    if history == [] then Some(Scan({}, {}))
    else
      var n := |history| - 1;
      match ScanAll(history[..n])
      case None => None
      case Some(s) => ScanOne(s, n, history[n])
  }

  lemma ScanSnoc(history: seq<Message>, m: Message)
    ensures ScanAll(history + [m]) ==
            match ScanAll(history) case None => None case Some(s) => ScanOne(s, |history|, m)
  {
    SnocFront(history, m);
  }

  lemma {:induction false} ScanStuck(history: seq<Message>, n: nat)
    requires n <= |history| && ScanAll(history[..n]).None?
    ensures ScanAll(history).None?
    decreases |history| - n
  {
    if n < |history| {
      assert history[..n + 1] == history[..n] + [history[n]];
      ScanSnoc(history[..n], history[n]);
      ScanStuck(history, n + 1);
    } else {
      assert history[..n] == history;
    }
  }

  /** A history that the check accepts, the limit on the number of messages aside. */
  predicate Accepted(history: seq<Message>) {
    ScanAll(history).Some? && ScanAll(history).value.pending == {}
  }

  /** Register the calls of one assistant message; `ok` is false on a repeated identifier. */
  method IssueCalls(calls: seq<Call>, scan: Scan) returns (ok: bool, next: Scan)
    ensures ok <==> DistinctIds(calls) && Ids(calls) * scan.issued == {}
    ensures ok ==> next == Scan(scan.issued + Ids(calls), scan.pending + Ids(calls))
  {
    var issued, pending := scan.issued, scan.pending;
    for i := 0 to |calls|
      invariant issued == scan.issued + Ids(calls[..i]) && pending == scan.pending + Ids(calls[..i])
      invariant DistinctIds(calls[..i]) && Ids(calls[..i]) * scan.issued == {}
    {
      var call := calls[i];
      assert call in calls;
      assert Ids(calls[..i + 1]) == Ids(calls[..i]) + {call.id} by {
        assert calls[..i + 1] == calls[..i] + [call];
        assert call in calls[..i + 1];
      }
      if call.id in issued {
        if call.id in scan.issued {
          assert call.id in Ids(calls) * scan.issued;
        } else {
          var earlier :| earlier in calls[..i] && earlier.id == call.id;
          var k :| 0 <= k < i && calls[..i][k] == earlier;
          assert calls[k].id == calls[i].id;
        }
        return false, scan;
      }
      forall k | 0 <= k < i ensures calls[k].id != call.id {
        assert calls[k] in calls[..i];
      }
      issued, pending := issued + {call.id}, pending + {call.id};
    }
    assert calls[..|calls|] == calls;
    return true, Scan(issued, pending);
  }

  /** The check that a history passes before an agent resumes it: the identifiers it has issued, or
      nothing. */
  method ValidateHistory(history: seq<Message>) returns (issued: Option<set<string>>)
    ensures issued.Some? <==> |history| <= MAX_MESSAGES && Accepted(history)
    ensures issued.Some? ==> issued.value == ScanAll(history).value.issued
  {
    if |history| > MAX_MESSAGES {
      return None;
    }
    var scan := Scan({}, {});
    assert history[..0] == [];
    for index := 0 to |history|
      invariant ScanAll(history[..index]) == Some(scan)
    {
      var m := history[index];
      ScanSnoc(history[..index], m);
      assert history[..index + 1] == history[..index] + [m];
      var next := None;
      if |m.content| <= MAX_MESSAGE_CONTENT_PARTS && !(scan.pending != {} && m.role != Tool) && MessageOk(index, m) {
        match m.role
        case SystemRole => next := Some(scan);
        case User => next := Some(scan);
        case Assistant =>
          var ok, issuing := IssueCalls(m.calls, scan);
          next := if ok then Some(issuing) else None;
        case Tool =>
          if m.callId.Some? && m.callId.value in scan.pending {
            next := Some(scan.(pending := scan.pending - {m.callId.value}));
          }
      }
      if next.None? {
        ScanStuck(history, index + 1);
        return None;
      }
      scan := next.value;
    }
    assert history[..|history|] == history;
    if scan.pending != {} {
      return None;
    }
    return Some(scan.issued);
  }

  // ----- what an accepted history is

  function ResultId(m: Message): set<string> {
    if m.role == Tool && m.callId.Some? then {m.callId.value} else {}
  }

  ghost function CallIds(history: seq<Message>): set<string> {
    set i, id | 0 <= i < |history| && id in Ids(history[i].calls) :: id
  }

  ghost function ResultIds(history: seq<Message>): set<string> {
    set i, id | 0 <= i < |history| && id in ResultId(history[i]) :: id
  }

  ghost predicate MessagesOk(history: seq<Message>) {
    forall i | 0 <= i < |history| :: MessageOk(i, history[i])
  }

  /** No identifier is issued twice. */
  ghost predicate CallsDistinct(history: seq<Message>) {
    && (forall i | 0 <= i < |history| :: DistinctIds(history[i].calls))
    && (forall i, j | 0 <= i < j < |history| :: Ids(history[i].calls) !! Ids(history[j].calls))
  }

  /** No call is answered twice. */
  ghost predicate ResultsDistinct(history: seq<Message>) {
    forall i, j | 0 <= i < j < |history| :: ResultId(history[i]) !! ResultId(history[j])
  }

  /** A result answers a call made before it. */
  ghost predicate ResultsFollow(history: seq<Message>) {
    forall j | 0 <= j < |history| :: ResultId(history[j]) <= CallIds(history[..j])
  }

  /** Whatever is not a result stands where every earlier call has been answered. */
  ghost predicate ResultsPrompt(history: seq<Message>) {
    forall j | 0 <= j < |history| && history[j].role != Tool :: CallIds(history[..j]) <= ResultIds(history[..j])
  }

  ghost predicate Lawful(history: seq<Message>) {
    && MessagesOk(history) && CallsDistinct(history) && ResultsDistinct(history)
    && ResultsFollow(history) && ResultsPrompt(history)
  }

  lemma IdsSnoc(history: seq<Message>, m: Message)
    ensures CallIds(history + [m]) == CallIds(history) + Ids(m.calls)
    ensures ResultIds(history + [m]) == ResultIds(history) + ResultId(m)
  {
    var longer := history + [m];
    forall id | id in CallIds(history) ensures id in CallIds(longer) {
      var i :| 0 <= i < |history| && id in Ids(history[i].calls);
      assert longer[i] == history[i];
    }
    forall id | id in ResultIds(history) ensures id in ResultIds(longer) {
      var i :| 0 <= i < |history| && id in ResultId(history[i]);
      assert longer[i] == history[i];
    }
    assert longer[|history|] == m;
  }

  lemma Prefixes(history: seq<Message>, m: Message)
    ensures var longer := history + [m];
            && longer[|history|] == m && longer[..|history|] == history
            && forall i | 0 <= i < |history| :: longer[i] == history[i] && longer[..i] == history[..i]
  {
  }

  lemma MessagesSnoc(history: seq<Message>, m: Message)
    ensures MessagesOk(history + [m]) <==> MessagesOk(history) && MessageOk(|history|, m)
  {
    Prefixes(history, m);
    var longer := history + [m];
    if MessagesOk(longer) {
      forall i | 0 <= i < |history| ensures MessageOk(i, history[i]) { assert longer[i] == history[i]; }
      assert MessageOk(|history|, longer[|history|]);
    }
  }

  lemma CallsSnoc(history: seq<Message>, m: Message)
    ensures CallsDistinct(history + [m]) <==>
            CallsDistinct(history) && DistinctIds(m.calls) && Ids(m.calls) !! CallIds(history)
  {
    Prefixes(history, m);
    var longer, n := history + [m], |history|;
    if CallsDistinct(longer) {
      assert DistinctIds(longer[n].calls);
      forall i | 0 <= i < n ensures DistinctIds(history[i].calls) { assert longer[i] == history[i]; }
      forall i, j | 0 <= i < j < n ensures Ids(history[i].calls) !! Ids(history[j].calls) {
        assert longer[i] == history[i] && longer[j] == history[j];
      }
      forall id | id in CallIds(history) ensures id !in Ids(m.calls) {
        var i :| 0 <= i < n && id in Ids(history[i].calls);
        assert longer[i] == history[i] && Ids(longer[i].calls) !! Ids(longer[n].calls);
      }
    }
    if Ids(m.calls) !! CallIds(history) {
      forall i, id | 0 <= i < n && id in Ids(history[i].calls) ensures id !in Ids(m.calls) {
        assert id in CallIds(history);
      }
    }
  }

  lemma ResultsSnoc(history: seq<Message>, m: Message)
    ensures ResultsDistinct(history + [m]) <==> ResultsDistinct(history) && ResultId(m) !! ResultIds(history)
  {
    Prefixes(history, m);
    var longer, n := history + [m], |history|;
    if ResultsDistinct(longer) {
      forall i, j | 0 <= i < j < n ensures ResultId(history[i]) !! ResultId(history[j]) {
        assert longer[i] == history[i] && longer[j] == history[j];
      }
      forall id | id in ResultIds(history) ensures id !in ResultId(m) {
        var i :| 0 <= i < n && id in ResultId(history[i]);
        assert longer[i] == history[i] && ResultId(longer[i]) !! ResultId(longer[n]);
      }
    }
    if ResultId(m) !! ResultIds(history) {
      forall i, id | 0 <= i < n && id in ResultId(history[i]) ensures id !in ResultId(m) {
        assert id in ResultIds(history);
      }
    }
  }

  lemma FollowSnoc(history: seq<Message>, m: Message)
    ensures ResultsFollow(history + [m]) <==> ResultsFollow(history) && ResultId(m) <= CallIds(history)
  {
    Prefixes(history, m);
    var longer := history + [m];
    if ResultsFollow(longer) {
      forall j | 0 <= j < |history| ensures ResultId(history[j]) <= CallIds(history[..j]) {
        assert ResultId(longer[j]) <= CallIds(longer[..j]);
      }
      assert ResultId(longer[|history|]) <= CallIds(longer[..|history|]);
    }
  }

  lemma PromptSnoc(history: seq<Message>, m: Message)
    ensures ResultsPrompt(history + [m]) <==>
            ResultsPrompt(history) && (m.role != Tool ==> CallIds(history) <= ResultIds(history))
  {
    Prefixes(history, m);
    var longer := history + [m];
    if ResultsPrompt(longer) {
      forall j | 0 <= j < |history| && history[j].role != Tool
        ensures CallIds(history[..j]) <= ResultIds(history[..j])
      {
        assert longer[j].role != Tool && CallIds(longer[..j]) <= ResultIds(longer[..j]);
      }
      if m.role != Tool { assert CallIds(longer[..|history|]) <= ResultIds(longer[..|history|]); }
    }
  }

  /** What one more message must satisfy. */
  ghost predicate Joins(index: nat, calls: set<string>, results: set<string>, m: Message) {
    && MessageOk(index, m) && DistinctIds(m.calls) && Ids(m.calls) !! calls
    && ResultId(m) !! results && ResultId(m) <= calls && (m.role != Tool ==> calls <= results)
  }

  lemma LawfulSnoc(history: seq<Message>, m: Message)
    ensures Lawful(history + [m]) <==>
            Lawful(history) && Joins(|history|, CallIds(history), ResultIds(history), m)
  {
    MessagesSnoc(history, m);
    CallsSnoc(history, m);
    ResultsSnoc(history, m);
    FollowSnoc(history, m);
    PromptSnoc(history, m);
  }

  lemma NothingLeft(calls: set<string>, results: set<string>)
    ensures calls <= results <==> calls - results == {}
  {
    if calls - results == {} {
      forall id | id in calls ensures id in results { assert id !in calls - results; }
    }
  }

  /** The scan takes a message exactly when it joins, and then knows the calls and the open calls. */
  lemma ScanJoins(index: nat, calls: set<string>, results: set<string>, m: Message)
    requires results <= calls
    ensures var next := ScanOne(Scan(calls, calls - results), index, m);
            && (next.Some? <==> Joins(index, calls, results, m))
            && (next.Some? ==>
                  && next.value == Scan(calls + Ids(m.calls), calls + Ids(m.calls) - (results + ResultId(m)))
                  && results + ResultId(m) <= calls + Ids(m.calls))
  {
    NothingLeft(calls, results);
    if MessageOk(index, m) && m.role != Assistant {
      assert m.calls == [] && Ids(m.calls) == {};
    }
  }

  /** What the scan of a history means. */
  ghost predicate Means(scan: Option<Scan>, history: seq<Message>) {
    && (scan.Some? <==> Lawful(history))
    && (scan.Some? ==>
          && scan.value == Scan(CallIds(history), CallIds(history) - ResultIds(history))
          && ResultIds(history) <= CallIds(history))
  }

  lemma ScanMeansSnoc(history: seq<Message>, m: Message)
    requires Means(ScanAll(history), history)
    ensures Means(ScanAll(history + [m]), history + [m])
  {
    ScanSnoc(history, m);
    IdsSnoc(history, m);
    LawfulSnoc(history, m);
    if Lawful(history) { ScanJoins(|history|, CallIds(history), ResultIds(history), m); }
  }

  /** The scan succeeds exactly on the lawful prefixes, and knows their calls and open calls. */
  lemma {:induction false} ScanMeaning(history: seq<Message>)
    ensures ScanAll(history).Some? <==> Lawful(history)
    ensures ScanAll(history).Some? ==>
              && ScanAll(history).value == Scan(CallIds(history), CallIds(history) - ResultIds(history))
              && ResultIds(history) <= CallIds(history)
    decreases |history|
  {
    if history != [] {
      var n := |history| - 1;
      var front, m := history[..n], history[n];
      ScanMeaning(front);
      ScanMeansSnoc(front, m);
      PrefixSnoc(history, n);
      assert history == history[..n + 1];
    }
  }

  /** The check accepts exactly the lawful histories in which every call has been answered. */
  lemma AcceptedMeans(history: seq<Message>)
    ensures Accepted(history) <==> Lawful(history) && CallIds(history) == ResultIds(history)
  {
    ScanMeaning(history);
    NothingLeft(CallIds(history), ResultIds(history));
  }

  lemma OneResult(history: seq<Message>, j: nat, k: nat, id: string)
    requires ResultsDistinct(history) && j < |history| && k < |history|
    requires id in ResultId(history[j]) && id in ResultId(history[k])
    ensures j == k
  {
  }

  lemma OneCall(history: seq<Message>, j: nat, k: nat, id: string)
    requires CallsDistinct(history) && j < |history| && k < |history|
    requires id in Ids(history[j].calls) && id in Ids(history[k].calls)
    ensures j == k
  {
  }

  /** The result of a call comes after it, with nothing but results in between. */
  lemma ResultComesAfter(history: seq<Message>, i: nat, j: nat, id: string)
    requires Lawful(history) && i < |history| && j < |history|
    requires id in Ids(history[i].calls) && id in ResultId(history[j])
    ensures i < j && forall m | i < m < j :: history[m].role == Tool
  {
    assert id in CallIds(history[..j]);
    var c :| 0 <= c < j && id in Ids(history[..j][c].calls);
    assert history[..j][c] == history[c];
    OneCall(history, i, c, id);
    forall m | i < m < j ensures history[m].role == Tool {
      assert history[..m][i] == history[i];
      NotAnsweredBefore(history, m, j, id);
    }
  }

  lemma NotAnsweredBefore(history: seq<Message>, m: nat, j: nat, id: string)
    requires ResultsDistinct(history) && m <= j < |history| && id in ResultId(history[j])
    ensures id !in ResultIds(history[..m])
  {
    if k :| 0 <= k < m && id in ResultId(history[k]) { OneResult(history, j, k, id); }
  }

  /** In an accepted history every call has exactly one result, which follows it with nothing but
      results in between. */
  lemma EachCallAnswered(history: seq<Message>, i: nat, id: string) returns (j: nat)
    requires Accepted(history) && i < |history| && id in Ids(history[i].calls)
    ensures i < j < |history| && history[j].role == Tool && history[j].callId == Some(id)
    ensures forall k | 0 <= k < |history| && history[k].role == Tool && history[k].callId == Some(id) :: k == j
    ensures forall m | i < m < j :: history[m].role == Tool
  {
    AcceptedMeans(history);
    assert id in CallIds(history);
    j :| 0 <= j < |history| && id in ResultId(history[j]);
    ResultComesAfter(history, i, j, id);
    forall k | 0 <= k < |history| && history[k].role == Tool && history[k].callId == Some(id) ensures k == j {
      OneResult(history, j, k, id);
    }
  }
}
