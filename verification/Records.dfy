/** The rows of the durable session log.

    Identifiers are UUIDs; the model only compares them, so they are natural numbers that stand
    for the UUIDs in their text order.  Times are integers.  SHA-256 and the text form of a UUID
    are fixed but arbitrary functions: nothing is assumed about either of them. */
module Records {
  type Id = nat
  type Time = int
  type Byte = x: int | 0 <= x < 256
  type Bytes = seq<Byte>

  const Sha256: Bytes -> Bytes
  const UuidText: Id -> Bytes

  datatype Option<+T> = None | Some(value: T)

  datatype EventKind =
    System | UserMessage | AssistantMessage | ToolCall | ToolResult | Approval | Audit | Summary | Failure

  /** Where a compaction took its source from. */
  datatype Provenance = Provenance(eventCount: nat, first: Id, last: Id, digest: Bytes)

  /** The `compaction` object inside a summary payload. */
  datatype SummaryMeta = SummaryMeta(job: Id, through: nat, source: Provenance)

  /** One persisted event.  `text` is the stored JSON payload; `meta` is what decoding that payload
      as a compaction summary yields, if it decodes as one. */
  datatype Event = Event(id: Id, sequence: int, turnId: Id, turnIndex: int, turnSize: int,
                         kind: EventKind, text: Bytes, meta: Option<SummaryMeta>, createdAt: Bytes)

  /** The persisted spelling of an event kind. */
  function KindText(kind: EventKind): string {
    match kind
    case System => "system"
    case UserMessage => "user_message"
    case AssistantMessage => "assistant_message"
    case ToolCall => "tool_call"
    case ToolResult => "tool_result"
    case Approval => "approval"
    case Audit => "audit"
    case Summary => "summary"
    case Failure => "error"
  }

  // ----- counting and cutting

  function Pow256(k: nat): nat {
    if k == 0 then 1 else 256 * Pow256(k - 1)
  }

  lemma {:induction false} SubsetSize<T>(a: set<T>, b: set<T>)
    requires a <= b
    ensures |a| <= |b|
  {
    if a != {} {
      var x :| x in a;
      SubsetSize(a - {x}, b - {x});
    }
  }

  lemma SnocFront<T>(s: seq<T>, x: T)
    ensures (s + [x])[..|s|] == s && (s + [x])[|s|] == x
  {
  }

  /** Dropping the first element shifts every later cut by one. */
  lemma ShiftCut<T>(s: seq<T>, n: int)
    requires 0 < n <= |s|
    ensures s[1..][n - 1..] == s[n..] && s[1..][..n - 1] == s[..n][1..]
  {
  }

  /** Cutting twice is cutting once. */
  lemma CutTwice<T>(s: seq<T>, t: int, k: int)
    requires 0 <= t <= k < |s|
    ensures s[t..][..k - t] == s[t..k] && s[t..][k - t + 1..] == s[k + 1..] && s[t..][k - t] == s[k]
  {
  }

  /** The next prefix of a sequence has one more element. */
  lemma PrefixSnoc<T>(s: seq<T>, i: nat)
    requires i < |s|
    ensures s[..i + 1] == s[..i] + [s[i]]
  {
  }
}
