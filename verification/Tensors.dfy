/** Tensor files: a length-prefixed JSON header and a payload that the tensors tile exactly.  The JSON
    text of a header is an arbitrary codec that restores what it encodes. */
module Tensors {
  import opened Records

  const MAX_HEADER_BYTES := 0x640_0000
  const LENGTH_SPAN: nat := 0x1_0000_0000_0000_0000
  const METADATA := "__metadata__"

  const DTYPE_BYTES: map<string, nat> := map[
    "BOOL" := 1, "I8" := 1, "U8" := 1, "F8_E4M3" := 1, "F8_E5M2" := 1, "I16" := 2, "U16" := 2, "F16" := 2, "BF16" := 2,
    "I32" := 4, "U32" := 4, "F32" := 4, "I64" := 8, "U64" := 8, "F64" := 8, "C64" := 8, "C128" := 16]

  datatype Info = Info(dtype: string, shape: seq<int>)

  datatype Tensor = Tensor(name: string, info: Info, data: Bytes)

  /** The file's optional string map; anything else under its key is refused. */
  datatype Metadata = Absent | Strings(values: map<string, string>) | Other

  /** A tensor's header entry; `Malformed` is a descriptor without the three expected fields. */
  datatype Descriptor = Descriptor(info: Info, begin: int, end: int) | Malformed

  datatype Entry = Entry(name: string, descriptor: Descriptor)

  datatype Header = Header(metadata: Metadata, entries: seq<Entry>)

  datatype Contents = Contents(metadata: Metadata, tensors: seq<Tensor>)

  const EncodeJson: Header -> Bytes
  const DecodeJson: Bytes -> Option<Header>

  ghost predicate UniqueEntries(entries: seq<Entry>) {
    && (forall i, j | 0 <= i < j < |entries| :: entries[i].name != entries[j].name)
    && (forall i | 0 <= i < |entries| :: entries[i].name != METADATA)
  }

  /** Decoding restores an encoded header, is never empty text, and refuses repeated names. */
  ghost predicate JsonCodec() {
    && (forall h: Header {:trigger EncodeJson(h)} ::
          |EncodeJson(h)| > 0 && (UniqueEntries(h.entries) ==> DecodeJson(EncodeJson(h)) == Some(h)))
    && (forall b: Bytes {:trigger DecodeJson(b)} :: DecodeJson(b).Some? ==> UniqueEntries(DecodeJson(b).value.entries))
  }

  // ----- the length prefix

  function LittleEndian(n: nat, width: nat): (b: Bytes)
    ensures |b| == width
  {
    if width == 0 then [] else [n % 256] + LittleEndian(n / 256, width - 1)
  }

  function FromLittleEndian(b: Bytes): nat {
    if b == [] then 0 else b[0] + 256 * FromLittleEndian(b[1..])
  }

  lemma {:induction false} LengthRoundTrip(n: nat, width: nat)
    requires n < Pow256(width)
    ensures FromLittleEndian(LittleEndian(n, width)) == n
  {
    if width > 0 {
      LengthRoundTrip(n / 256, width - 1);
      assert LittleEndian(n, width)[1..] == LittleEndian(n / 256, width - 1);
    }
  }

  // ----- descriptors

  function Elements(shape: seq<int>): int {
    if shape == [] then 1 else Elements(shape[..|shape| - 1]) * shape[|shape| - 1]
  }

  /** The number of bytes a description asks for, or nothing if it is not valid. */
  function SizeOf(info: Info): Option<int> {
    if info.dtype !in DTYPE_BYTES || exists d | d in info.shape :: d < 0 then None
    else Some(Elements(info.shape) * DTYPE_BYTES[info.dtype])
  }

  predicate EntryOk(entry: Entry, payload: nat) {
    && entry.descriptor.Descriptor?
    && 0 <= entry.descriptor.begin <= entry.descriptor.end <= payload
    && SizeOf(entry.descriptor.info) == Some(entry.descriptor.end - entry.descriptor.begin)
  }

  function TensorOf(entry: Entry, payload: Bytes): Tensor
    requires EntryOk(entry, |payload|)
  {
    Tensor(entry.name, entry.descriptor.info, payload[entry.descriptor.begin..entry.descriptor.end])
  }

  // ----- ranges that tile

  datatype Range = Range(begin: int, end: int)

  predicate Before(a: Range, b: Range) {
    a.begin < b.begin || (a.begin == b.begin && a.end <= b.end)
  }

  predicate Chains(ranges: seq<Range>, from: int, to: int) {
    if ranges == [] then from == to
    else ranges[0].begin == from && Chains(ranges[1..], ranges[0].end, to)
  }

  ghost predicate Proper(ranges: seq<Range>) {
    forall i | 0 <= i < |ranges| :: 0 <= ranges[i].begin <= ranges[i].end
  }

  /** In some order the ranges follow each other from 0 to the size. */
  ghost predicate Tiles(ranges: seq<Range>, size: int) {
    exists order: seq<Range> :: multiset(order) == multiset(ranges) && Chains(order, 0, size)
  }

  ghost predicate Sorted(ranges: seq<Range>) {
    forall i, j | 0 <= i < j < |ranges| :: Before(ranges[i], ranges[j])
  }

  function Insert(r: Range, ranges: seq<Range>): seq<Range> {
    if ranges == [] then [r]
    else if Before(r, ranges[0]) then [r] + ranges
    else [ranges[0]] + Insert(r, ranges[1..])
  }

  function Sort(ranges: seq<Range>): seq<Range> {
    if ranges == [] then [] else Insert(ranges[0], Sort(ranges[1..]))
  }

  lemma {:induction false} InsertSorts(r: Range, ranges: seq<Range>)
    requires Sorted(ranges)
    ensures Sorted(Insert(r, ranges)) && multiset(Insert(r, ranges)) == multiset(ranges) + multiset{r}
  {
    if ranges != [] && !Before(r, ranges[0]) {
      InsertSorts(r, ranges[1..]);
      var rest := Insert(r, ranges[1..]);
      assert ranges == [ranges[0]] + ranges[1..];
      forall i | 0 <= i < |rest| ensures Before(ranges[0], rest[i]) {
        assert rest[i] in multiset(rest);
        assert rest[i] == r || rest[i] in ranges[1..];
      }
    }
  }

  lemma {:induction false} SortSorts(ranges: seq<Range>)
    ensures Sorted(Sort(ranges)) && multiset(Sort(ranges)) == multiset(ranges)
  {
    if ranges != [] {
      SortSorts(ranges[1..]);
      InsertSorts(ranges[0], Sort(ranges[1..]));
      assert ranges == [ranges[0]] + ranges[1..];
    }
  }

  lemma WithoutAt(ranges: seq<Range>, k: nat)
    requires k < |ranges|
    ensures multiset(ranges[..k] + ranges[k + 1..]) == multiset(ranges) - multiset{ranges[k]}
  {
    assert ranges == ranges[..k] + [ranges[k]] + ranges[k + 1..];
  }

  lemma WithoutFirst(ranges: seq<Range>)
    requires ranges != []
    ensures multiset(ranges[1..]) == multiset(ranges) - multiset{ranges[0]}
  {
    WithoutAt(ranges, 0);
    assert ranges[..0] + ranges[1..] == ranges[1..];
  }

  lemma FirstIsLeast(ranges: seq<Range>, r: Range)
    requires Sorted(ranges) && r in multiset(ranges)
    ensures ranges != [] && Before(ranges[0], r)
  {
    var k :| 0 <= k < |ranges| && ranges[k] == r;
  }

  lemma SameFirst(a: seq<Range>, b: seq<Range>)
    requires a != [] && Sorted(a) && Sorted(b) && multiset(a) == multiset(b)
    ensures b != [] && a[0] == b[0]
  {
    FirstIsLeast(b, a[0]);
    FirstIsLeast(a, b[0]);
  }

  lemma {:induction false} SortedUnique(a: seq<Range>, b: seq<Range>)
    requires Sorted(a) && Sorted(b) && multiset(a) == multiset(b)
    ensures a == b
    decreases |a|
  {
    if a == [] {
      assert |multiset(b)| == 0;
    } else {
      SameFirst(a, b);
      WithoutFirst(a);
      WithoutFirst(b);
      SortedUnique(a[1..], b[1..]);
      assert a == [a[0]] + a[1..] && b == [b[0]] + b[1..];
    }
  }

  /** A chain is already sorted, and starts nowhere before its beginning. */
  lemma {:induction false} ChainSorted(ranges: seq<Range>, from: int, to: int)
    requires Proper(ranges) && Chains(ranges, from, to)
    ensures Sorted(ranges) && forall i | 0 <= i < |ranges| :: from <= ranges[i].begin
    decreases |ranges|
  {
    if ranges != [] {
      ChainSorted(ranges[1..], ranges[0].end, to);
      forall j | 0 < j < |ranges| ensures Before(ranges[0], ranges[j]) && from <= ranges[j].begin {
        assert ranges[1..][j - 1] == ranges[j];
      }
    }
  }

  /** Sorting finds the tiling if there is one. */
  lemma TilesWhenSortedChains(ranges: seq<Range>, size: int)
    requires Proper(ranges)
    ensures Tiles(ranges, size) <==> Chains(Sort(ranges), 0, size)
  {
    SortSorts(ranges);
    if order: seq<Range> :| multiset(order) == multiset(ranges) && Chains(order, 0, size) {
      forall i | 0 <= i < |order| ensures 0 <= order[i].begin <= order[i].end {
        assert order[i] in multiset(ranges);
      }
      ChainSorted(order, 0, size);
      SortedUnique(order, Sort(ranges));
    }
  }

  // ----- each byte belongs to one tensor

  predicate Covers(r: Range, p: int) {
    r.begin <= p < r.end
  }

  ghost function CoverCount(ranges: seq<Range>, p: int): nat {
    if ranges == [] then 0 else (if Covers(ranges[0], p) then 1 else 0) + CoverCount(ranges[1..], p)
  }

  lemma {:induction false} CoverSplit(a: seq<Range>, r: Range, b: seq<Range>, p: int)
    ensures CoverCount(a + [r] + b, p) == (if Covers(r, p) then 1 else 0) + CoverCount(a + b, p)
    decreases |a|
  {
    if a == [] {
      assert a + [r] + b == [r] + b && a + b == b && ([r] + b)[1..] == b;
    } else {
      CoverSplit(a[1..], r, b, p);
      assert (a + [r] + b)[1..] == a[1..] + [r] + b && (a + b)[1..] == a[1..] + b;
    }
  }

  lemma {:induction false} CoverPermutes(a: seq<Range>, b: seq<Range>, p: int)
    requires multiset(a) == multiset(b)
    ensures CoverCount(a, p) == CoverCount(b, p)
    decreases |a|
  {
    if a == [] {
      assert |multiset(b)| == 0;
    } else {
      assert a[0] in multiset(b);
      var k :| 0 <= k < |b| && b[k] == a[0];
      WithoutFirst(a);
      WithoutAt(b, k);
      CoverPermutes(a[1..], b[..k] + b[k + 1..], p);
      CoverSplit(b[..k], b[k], b[k + 1..], p);
      assert b == b[..k] + [b[k]] + b[k + 1..];
    }
  }

  lemma {:induction false} ChainCovers(ranges: seq<Range>, from: int, to: int, p: int)
    requires Proper(ranges) && Chains(ranges, from, to)
    ensures from <= to && CoverCount(ranges, p) == if from <= p < to then 1 else 0
    decreases |ranges|
  {
    if ranges != [] { ChainCovers(ranges[1..], ranges[0].end, to, p); }
  }

  /** Every payload byte lies in exactly one range, and no byte outside lies in any. */
  lemma TilesExactly(ranges: seq<Range>, size: int, p: int)
    requires Proper(ranges) && Tiles(ranges, size)
    ensures CoverCount(ranges, p) == if 0 <= p < size then 1 else 0
  {
    var order: seq<Range> :| multiset(order) == multiset(ranges) && Chains(order, 0, size);
    forall i | 0 <= i < |order| ensures 0 <= order[i].begin <= order[i].end {
      assert order[i] in multiset(ranges);
    }
    ChainCovers(order, 0, size, p);
    CoverPermutes(order, ranges, p);
  }

  // ----- reading

  function RangesOf(entries: seq<Entry>): seq<Range>
    requires forall i | 0 <= i < |entries| :: entries[i].descriptor.Descriptor?
  {
    seq(|entries|, i requires 0 <= i < |entries| => Range(entries[i].descriptor.begin, entries[i].descriptor.end))
  }

  ghost predicate EntriesOk(entries: seq<Entry>, payload: nat) {
    forall i | 0 <= i < |entries| :: EntryOk(entries[i], payload)
  }

  function TensorsOf(entries: seq<Entry>, payload: Bytes): seq<Tensor>
    requires forall i | 0 <= i < |entries| :: EntryOk(entries[i], |payload|)
  {
    seq(|entries|, i requires 0 <= i < |entries| => TensorOf(entries[i], payload))
  }

  /** What a decoded header and a payload stand for. */
  ghost function LoadParts(header: Header, payload: Bytes): Option<Contents> {
    if header.metadata.Other? || !EntriesOk(header.entries, |payload|) then None
    else if !Tiles(RangesOf(header.entries), |payload|) then None
    else Some(Contents(header.metadata, TensorsOf(header.entries, payload)))
  }

  /** The header text and the payload of a file. */
  function Split(blob: Bytes): Option<(Bytes, Bytes)> {
    if |blob| < 8 then None
    else
      var n := FromLittleEndian(blob[..8]);
      if n == 0 || n > MAX_HEADER_BYTES || 8 + n > |blob| then None
      else Some((blob[8..8 + n], blob[8 + n..]))
  }

  /** The contents of a file, or nothing if it is refused. */
  ghost function Load(blob: Bytes): Option<Contents> {
    match Split(blob)
    case None => None
    case Some((text, payload)) =>
      match DecodeJson(text)
      case None => None
      case Some(header) => LoadParts(header, payload)
  }

  /** The size that a description asks for, by multiplying its dimensions up. */
  method ByteSize(info: Info) returns (size: Option<int>)
    ensures size == SizeOf(info)
  {
    if info.dtype !in DTYPE_BYTES || exists d | d in info.shape :: d < 0 {
      return None;
    }
    var elements := 1;
    for i := 0 to |info.shape|
      invariant elements == Elements(info.shape[..i])
    {
      assert info.shape[..i + 1][..i] == info.shape[..i];
      elements := elements * info.shape[i];
    }
    assert info.shape[..|info.shape|] == info.shape;
    return Some(elements * DTYPE_BYTES[info.dtype]);
  }

  /** Check every entry and take its bytes. */
  method ReadEntries(entries: seq<Entry>, payload: Bytes) returns (r: Option<(seq<Tensor>, seq<Range>)>)
    ensures r.Some? <==> EntriesOk(entries, |payload|)
    ensures r.Some? ==> r.value == (TensorsOf(entries, payload), RangesOf(entries))
  {
    var tensors, intervals := [], [];
    for i := 0 to |entries|
      invariant EntriesOk(entries[..i], |payload|)
      invariant tensors == TensorsOf(entries[..i], payload) && intervals == RangesOf(entries[..i])
    {
      var entry := entries[i];
      if entry.descriptor.Malformed? {
        return None;
      }
      var info, begin, end := entry.descriptor.info, entry.descriptor.begin, entry.descriptor.end;
      var size := ByteSize(info);
      if size.None? || begin < 0 || end < begin || end > |payload| || end - begin != size.value {
        return None;
      }
      assert entries[..i + 1] == entries[..i] + [entry];
      intervals := intervals + [Range(begin, end)];
      tensors := tensors + [Tensor(entry.name, info, payload[begin..end])];
    }
    assert entries[..|entries|] == entries;
    return Some((tensors, intervals));
  }

  /** Walk the sorted ranges with a cursor. */
  method CoversPayload(intervals: seq<Range>, size: nat) returns (ok: bool)
    requires Proper(intervals)
    ensures ok <==> Tiles(intervals, size)
  {
    TilesWhenSortedChains(intervals, size);
    var sorted := Sort(intervals);
    var cursor := 0;
    for i := 0 to |sorted|
      invariant Chains(sorted, 0, size) <==> Chains(sorted[i..], cursor, size)
    {
      assert sorted[i..][0] == sorted[i] && sorted[i..][1..] == sorted[i + 1..];
      if sorted[i].begin != cursor {
        return false;
      }
      cursor := sorted[i].end;
    }
    return cursor == size;
  }

  method ReadSafetensors(blob: Bytes) returns (r: Option<Contents>)
    ensures r == Load(blob)
  {
    var parts := Split(blob);
    if parts.None? {
      return None;
    }
    var (text, payload) := parts.value;
    var header := DecodeJson(text);
    if header.None? || header.value.metadata.Other? {
      return None;
    }
    var read := ReadEntries(header.value.entries, payload);
    if read.None? {
      return None;
    }
    var whole := CoversPayload(read.value.1, |payload|);
    return if whole then Some(Contents(header.value.metadata, read.value.0)) else None;
  }

  // ----- writing

  function PayloadOf(tensors: seq<Tensor>): Bytes {
    if tensors == [] then [] else PayloadOf(tensors[..|tensors| - 1]) + tensors[|tensors| - 1].data
  }

  /** The header entries of tensors laid out one after the other; the metadata key is not a tensor. */
  function EntriesOf(tensors: seq<Tensor>): seq<Entry> {
    if tensors == [] then []
    else
      var front, last := tensors[..|tensors| - 1], tensors[|tensors| - 1];
      var offset := |PayloadOf(front)|;
      EntriesOf(front) +
      (if last.name == METADATA then [] else [Entry(last.name, Descriptor(last.info, offset, offset + |last.data|))])
  }

  predicate UsesReserved(tensors: seq<Tensor>) {
    exists t | t in tensors :: t.name == METADATA
  }

  /** A tensor under the metadata key takes the metadata's place. */
  function HeaderOf(contents: Contents): Header {
    Header(if UsesReserved(contents.tensors) then Other else contents.metadata, EntriesOf(contents.tensors))
  }

  function FileOf(contents: Contents): Bytes {
    var text := EncodeJson(HeaderOf(contents));
    LittleEndian(|text|, 8) + text + PayloadOf(contents.tensors)
  }

  /** Write tensors with recomputed offsets; nothing when the header's length does not fit its prefix. */
  method WriteSafetensors(contents: Contents) returns (blob: Option<Bytes>)
    ensures blob == if |EncodeJson(HeaderOf(contents))| < LENGTH_SPAN then Some(FileOf(contents)) else None
  {
    var metadata, entries, payload := contents.metadata, [], [];
    var offset := 0;
    for i := 0 to |contents.tensors|
      invariant payload == PayloadOf(contents.tensors[..i]) && offset == |payload|
      invariant entries == EntriesOf(contents.tensors[..i])
      invariant metadata == if UsesReserved(contents.tensors[..i]) then Other else contents.metadata
    {
      var t := contents.tensors[i];
      assert contents.tensors[..i + 1][..i] == contents.tensors[..i];
      assert contents.tensors[..i + 1] == contents.tensors[..i] + [t];
      if t.name == METADATA {
        assert t in contents.tensors[..i + 1];
        metadata := Other;
      } else {
        entries := entries + [Entry(t.name, Descriptor(t.info, offset, offset + |t.data|))];
      }
      offset := offset + |t.data|;
      payload := payload + t.data;
    }
    assert contents.tensors[..|contents.tensors|] == contents.tensors;
    var text := EncodeJson(Header(metadata, entries));
    return if |text| < LENGTH_SPAN then Some(LittleEndian(|text|, 8) + text + payload) else None;
  }

  // ----- the round trip

  ghost predicate DistinctNames(tensors: seq<Tensor>) {
    forall i, j | 0 <= i < j < |tensors| :: tensors[i].name != tensors[j].name
  }

  /** Contents that survive being written: string metadata, a header within the limit, no tensor under the
      metadata key, and data that fits each description. */
  ghost predicate Writable(contents: Contents) {
    && !contents.metadata.Other? && |EncodeJson(HeaderOf(contents))| <= MAX_HEADER_BYTES
    && !UsesReserved(contents.tensors)
    && forall t | t in contents.tensors :: SizeOf(t.info) == Some(|t.data|)
  }

  lemma {:induction false} PayloadGrows(tensors: seq<Tensor>, n: nat)
    requires n <= |tensors|
    ensures PayloadOf(tensors[..n]) <= PayloadOf(tensors)
    decreases |tensors|
  {
    if n < |tensors| {
      var front := tensors[..|tensors| - 1];
      PayloadGrows(front, n);
      assert front[..n] == tensors[..n];
    } else {
      assert tensors[..n] == tensors;
    }
  }

  /** Where a tensor's bytes lie in the payload. */
  lemma DataAt(tensors: seq<Tensor>, i: nat)
    requires i < |tensors|
    ensures var (a, b) := (|PayloadOf(tensors[..i])|, |PayloadOf(tensors[..i + 1])|);
            b == a + |tensors[i].data| && b <= |PayloadOf(tensors)| && PayloadOf(tensors)[a..b] == tensors[i].data
  {
    assert tensors[..i + 1][..i] == tensors[..i];
    var part := PayloadOf(tensors[..i + 1]);
    assert part == PayloadOf(tensors[..i]) + tensors[i].data;
    PayloadGrows(tensors, i + 1);
    assert PayloadOf(tensors)[..|part|] == part;
  }

  lemma {:induction false} EntryAt(tensors: seq<Tensor>, i: nat)
    requires !UsesReserved(tensors) && i < |tensors|
    ensures |EntriesOf(tensors)| == |tensors| && EntriesOf(tensors)[i] ==
            Entry(tensors[i].name, Descriptor(tensors[i].info, |PayloadOf(tensors[..i])|,
                                              |PayloadOf(tensors[..i + 1])|))
    decreases |tensors|
  {
    var n := |tensors| - 1;
    EntriesCount(tensors);
    if i < n {
      EntryAt(tensors[..n], i);
      FrontPrefixes(tensors, i);
    } else {
      EntriesCount(tensors[..n]);
      assert tensors[..n + 1] == tensors && tensors[n] in tensors;
    }
  }

  lemma FrontPrefixes(tensors: seq<Tensor>, i: nat)
    requires i < |tensors| - 1
    ensures var front := tensors[..|tensors| - 1]; front[..i] == tensors[..i] && front[..i + 1] == tensors[..i + 1]
  {
  }

  lemma {:induction false} EntriesCount(tensors: seq<Tensor>)
    requires !UsesReserved(tensors)
    ensures |EntriesOf(tensors)| == |tensors|
    decreases |tensors|
  {
    if tensors != [] {
      assert tensors[|tensors| - 1] in tensors;
      EntriesCount(tensors[..|tensors| - 1]);
    }
  }

  /** Every entry stands for a tensor of its name. */
  lemma {:induction false} EntryTensor(tensors: seq<Tensor>, i: nat) returns (k: nat)
    requires i < |EntriesOf(tensors)|
    ensures k < |tensors| && tensors[k].name == EntriesOf(tensors)[i].name != METADATA
    decreases |tensors|
  {
    var n := |tensors| - 1;
    if i < |EntriesOf(tensors[..n])| {
      k := EntryTensor(tensors[..n], i);
    } else {
      k := n;
    }
  }

  lemma EntrySnoc(tensors: seq<Tensor>)
    requires tensors != []
    ensures var (n, front) := (|tensors| - 1, EntriesOf(tensors[..|tensors| - 1]));
            || EntriesOf(tensors) == front
            || (&& |EntriesOf(tensors)| == |front| + 1 && EntriesOf(tensors)[..|front|] == front
                && EntriesOf(tensors)[|front|].name == tensors[n].name != METADATA)
  {
  }

  lemma {:induction false} EntryNames(tensors: seq<Tensor>)
    requires DistinctNames(tensors)
    ensures UniqueEntries(EntriesOf(tensors))
    decreases |tensors|
  {
    if tensors != [] {
      var n := |tensors| - 1;
      EntryNames(tensors[..n]);
      EntrySnoc(tensors);
      var front := EntriesOf(tensors[..n]);
      forall i | 0 <= i < |front| ensures front[i].name != tensors[n].name {
        var k := EntryTensor(tensors[..n], i);
      }
    }
  }

  lemma {:induction false} ChainSnoc(ranges: seq<Range>, from: int, mid: int, end: int)
    requires Chains(ranges, from, mid)
    ensures Chains(ranges + [Range(mid, end)], from, end)
    decreases |ranges|
  {
    var longer := ranges + [Range(mid, end)];
    if ranges == [] {
      assert longer[1..] == [];
    } else {
      ChainSnoc(ranges[1..], ranges[0].end, mid, end);
      assert longer[1..] == ranges[1..] + [Range(mid, end)];
    }
  }

  /** The ranges of a written file, in the order of its tensors. */
  ghost function Layout(tensors: seq<Tensor>): seq<Range> {
    seq(|tensors|, i requires 0 <= i < |tensors| => Range(|PayloadOf(tensors[..i])|, |PayloadOf(tensors[..i + 1])|))
  }

  lemma {:induction false} LayoutChains(tensors: seq<Tensor>)
    ensures Chains(Layout(tensors), 0, |PayloadOf(tensors)|)
    decreases |tensors|
  {
    if tensors != [] {
      var n := |tensors| - 1;
      var front := tensors[..n];
      LayoutChains(front);
      ChainSnoc(Layout(front), 0, |PayloadOf(front)|, |PayloadOf(tensors)|);
      assert tensors[..n + 1] == tensors;
      forall i | 0 <= i < n ensures Layout(front)[i] == Layout(tensors)[i] {
        assert front[..i] == tensors[..i] && front[..i + 1] == tensors[..i + 1];
      }
      assert Layout(tensors) == Layout(front) + [Range(|PayloadOf(front)|, |PayloadOf(tensors)|)];
    }
  }

  /** One tensor's entry and bytes, as they are read back. */
  ghost predicate PartOk(tensors: seq<Tensor>, i: nat)
    requires i < |tensors|
  {
    var (entries, payload) := (EntriesOf(tensors), PayloadOf(tensors));
    && |entries| == |tensors| && entries[i].descriptor.Descriptor?
    && Layout(tensors)[i] == Range(entries[i].descriptor.begin, entries[i].descriptor.end)
    && (EntryOk(entries[i], |payload|) <==> SizeOf(tensors[i].info) == Some(|tensors[i].data|))
    && (EntryOk(entries[i], |payload|) ==> TensorOf(entries[i], payload) == tensors[i])
  }

  lemma PartAt(tensors: seq<Tensor>, i: nat)
    requires !UsesReserved(tensors) && i < |tensors|
    ensures PartOk(tensors, i)
  {
    EntryAt(tensors, i);
    DataAt(tensors, i);
  }

  lemma EntriesOkIff(tensors: seq<Tensor>)
    requires |EntriesOf(tensors)| == |tensors| && forall i | 0 <= i < |tensors| :: PartOk(tensors, i)
    ensures EntriesOk(EntriesOf(tensors), |PayloadOf(tensors)|) <==>
            forall t | t in tensors :: SizeOf(t.info) == Some(|t.data|)
  {
    if forall t | t in tensors :: SizeOf(t.info) == Some(|t.data|) {
      forall i | 0 <= i < |tensors| ensures EntryOk(EntriesOf(tensors)[i], |PayloadOf(tensors)|) {
        assert PartOk(tensors, i) && tensors[i] in tensors;
      }
    }
    if EntriesOk(EntriesOf(tensors), |PayloadOf(tensors)|) {
      forall t | t in tensors ensures SizeOf(t.info) == Some(|t.data|) {
        var i :| 0 <= i < |tensors| && tensors[i] == t;
        assert PartOk(tensors, i) && EntryOk(EntriesOf(tensors)[i], |PayloadOf(tensors)|);
      }
    }
  }

  lemma ReadsBack(tensors: seq<Tensor>)
    requires |EntriesOf(tensors)| == |tensors| && forall i | 0 <= i < |tensors| :: PartOk(tensors, i)
    requires EntriesOk(EntriesOf(tensors), |PayloadOf(tensors)|)
    ensures RangesOf(EntriesOf(tensors)) == Layout(tensors)
            && TensorsOf(EntriesOf(tensors), PayloadOf(tensors)) == tensors
  {
    var (entries, payload) := (EntriesOf(tensors), PayloadOf(tensors));
    forall i | 0 <= i < |tensors|
      ensures RangesOf(entries)[i] == Layout(tensors)[i] && TensorsOf(entries, payload)[i] == tensors[i]
    {
      assert PartOk(tensors, i) && EntryOk(entries[i], |payload|);
    }
  }

  /** The header and payload of a writable file are read as what was written. */
  lemma PartsRoundTrip(contents: Contents)
    requires !UsesReserved(contents.tensors)
    ensures LoadParts(HeaderOf(contents), PayloadOf(contents.tensors)) ==
            if !contents.metadata.Other? && forall t | t in contents.tensors :: SizeOf(t.info) == Some(|t.data|)
            then Some(contents) else None
  {
    var tensors := contents.tensors;
    var entries, payload := EntriesOf(tensors), PayloadOf(tensors);
    EntriesCount(tensors);
    forall i | 0 <= i < |tensors| ensures PartOk(tensors, i) {
      PartAt(tensors, i);
    }
    EntriesOkIff(tensors);
    if EntriesOk(entries, |payload|) {
      ReadsBack(tensors);
      LayoutChains(tensors);
      assert multiset(Layout(tensors)) == multiset(RangesOf(entries));
    }
  }

  lemma FilePrefix(contents: Contents)
    requires |EncodeJson(HeaderOf(contents))| < LENGTH_SPAN && |EncodeJson(HeaderOf(contents))| > 0
    ensures Split(FileOf(contents)) ==
            if |EncodeJson(HeaderOf(contents))| > MAX_HEADER_BYTES then None
            else Some((EncodeJson(HeaderOf(contents)), PayloadOf(contents.tensors)))
  {
    var text, blob := EncodeJson(HeaderOf(contents)), FileOf(contents);
    assert Pow256(4) == 0x1_0000_0000 && Pow256(8) == 256 * (256 * (256 * (256 * Pow256(4))));
    LengthRoundTrip(|text|, 8);
    assert blob[..8] == LittleEndian(|text|, 8);
    assert blob[8..8 + |text|] == text && blob[8 + |text|..] == PayloadOf(contents.tensors);
  }

  /** Writing contents and reading them back restores them exactly when they are writable; any other file
      is refused. */
  lemma WriteThenRead(contents: Contents)
    requires JsonCodec() && DistinctNames(contents.tensors) && |EncodeJson(HeaderOf(contents))| < LENGTH_SPAN
    ensures Load(FileOf(contents)) == if Writable(contents) then Some(contents) else None
  {
    FilePrefix(contents);
    EntryNames(contents.tensors);
    if !UsesReserved(contents.tensors) { PartsRoundTrip(contents); }
  }

  /** In a file that is accepted, each payload byte belongs to exactly one tensor, names are distinct, and
      none of them is the metadata key. */
  lemma AcceptedFile(blob: Bytes, p: int)
    requires JsonCodec() && Load(blob).Some?
    ensures Split(blob).Some? && DecodeJson(Split(blob).value.0).Some?
    ensures var (entries, payload) := (DecodeJson(Split(blob).value.0).value.entries, Split(blob).value.1);
            && EntriesOk(entries, |payload|) && Load(blob).value.tensors == TensorsOf(entries, payload)
            && CoverCount(RangesOf(entries), p) == if 0 <= p < |payload| then 1 else 0
    ensures DistinctNames(Load(blob).value.tensors) && !UsesReserved(Load(blob).value.tensors)
    ensures forall t | t in Load(blob).value.tensors :: SizeOf(t.info) == Some(|t.data|)
  {
    var (text, payload) := Split(blob).value;
    var entries := DecodeJson(text).value.entries;
    assert forall i | 0 <= i < |entries| :: EntryOk(entries[i], |payload|);
    TilesExactly(RangesOf(entries), |payload|, p);
  }
}
