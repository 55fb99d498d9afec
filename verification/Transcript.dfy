/** The byte stream that is fed to SHA-256 when a transcript prefix is fingerprinted. */
module Transcript {
  import opened Records

  const TWO64 := 0x1_0000_0000_0000_0000
  const WORD_BYTES: nat := 8
  const I64_MAX := 0x7fff_ffff_ffff_ffff

  /** One event as the hashing loop reads it: the text columns are bytes. */
  datatype RawEvent = RawEvent(id: Bytes, sequence: int, turnId: Bytes, turnIndex: int, turnSize: int,
                               kind: Bytes, payload: Bytes, createdAt: Bytes)

  /** The bytes of an ASCII string. */
  function TextBytes(s: string): (b: Bytes)
    ensures |b| == |s|
  {
    seq(|s|, i requires 0 <= i < |s| => CharByte(s[i]))
  }

  function CharByte(c: char): Byte { c as int % 256 }

  function Raw(event: Event): RawEvent {
    RawEvent(UuidText(event.id), event.sequence, UuidText(event.turnId), event.turnIndex, event.turnSize,
             TextBytes(KindText(event.kind)), event.text, event.createdAt)
  }

  function RawAll(events: seq<Event>): seq<RawEvent> {
    seq(|events|, i requires 0 <= i < |events| => Raw(events[i]))
  }

  /** Big-endian bytes of the low `width` base-256 digits. */
  function BigEndian(n: nat, width: nat): (b: Bytes)
    ensures |b| == width
  {
    if width == 0 then [] else BigEndian(n / 256, width - 1) + [n % 256]
  }

  lemma {:induction false} BigEndianInjective(m: nat, n: nat, width: nat)
    requires m < Pow256(width) && n < Pow256(width)
    requires BigEndian(m, width) == BigEndian(n, width)
    ensures m == n
  {
    if width > 0 {
      var a, b := BigEndian(m, width), BigEndian(n, width);
      assert a[width - 1] == m % 256 && b[width - 1] == n % 256;
      assert a[..width - 1] == BigEndian(m / 256, width - 1);
      assert b[..width - 1] == BigEndian(n / 256, width - 1);
      BigEndianInjective(m / 256, n / 256, width - 1);
    }
  }

  /** A 64-bit two's complement integer. */
  function Word(x: int): (b: Bytes)
    ensures |b| == WORD_BYTES
  {
    BigEndian(x % TWO64, WORD_BYTES)
  }

  ghost predicate InI64(x: int) { -I64_MAX - 1 <= x <= I64_MAX }

  lemma WordSpan()
    ensures Pow256(WORD_BYTES) == TWO64
  {
    assert Pow256(4) == 0x1_0000_0000;
    assert Pow256(8) == 256 * (256 * (256 * (256 * Pow256(4))));
  }

  lemma WordInjective(x: int, y: int)
    requires Word(x) == Word(y)
    ensures x % TWO64 == y % TWO64
    ensures InI64(x) && InI64(y) ==> x == y
    ensures 0 <= x < TWO64 && 0 <= y < TWO64 ==> x == y
  {
    WordSpan();
    BigEndianInjective(x % TWO64, y % TWO64, WORD_BYTES);
  }

  /** A length-prefixed field. */
  function Field(value: Bytes): Bytes {
    Word(|value|) + value
  }

  /** A field whose length fits the 64-bit prefix. */
  ghost predicate Fits(value: Bytes) { |value| < TWO64 }

  ghost predicate FitsEvent(e: RawEvent) {
    && InI64(e.sequence) && InI64(e.turnIndex) && InI64(e.turnSize)
    && Fits(e.id) && Fits(e.turnId) && Fits(e.kind) && Fits(e.payload) && Fits(e.createdAt)
  }

  function EncodeEvent(e: RawEvent): Bytes {
    Word(e.sequence) + (Field(e.id) + (Field(e.turnId) + (Word(e.turnIndex) + (Word(e.turnSize) +
    (Field(e.kind) + (Field(e.payload) + Field(e.createdAt)))))))
  }

  function Join(parts: seq<Bytes>): Bytes {
    if parts == [] then [] else Join(parts[..|parts| - 1]) + parts[|parts| - 1]
  }

  function Parts(events: seq<RawEvent>): seq<Bytes> {
    seq(|events|, i requires 0 <= i < |events| => EncodeEvent(events[i]))
  }

  function EncodeEvents(events: seq<RawEvent>): Bytes {
    Join(Parts(events))
  }

  /** The domain tag that separates this stream from every other use of the hash. */
  const TAG: string := "emelex/session-transcript/v1"

  function Header(tag: Bytes, session: Bytes, through: int): Bytes {
    Field(tag) + (Field(session) + Word(through))
  }

  function Encode(session: Bytes, through: int, events: seq<RawEvent>): Bytes {
    Header(TextBytes(TAG), session, through) + EncodeEvents(events)
  }

  /** The stream grows by one event's encoding at a time, as the hashing loop feeds it. */
  lemma EncodeSnoc(session: Bytes, through: int, events: seq<RawEvent>, e: RawEvent)
    ensures Encode(session, through, events + [e]) == Encode(session, through, events) + EncodeEvent(e)
  {
    assert Parts(events + [e])[..|events|] == Parts(events);
    var head := Header(TextBytes(TAG), session, through);
    assert head + (EncodeEvents(events) + EncodeEvent(e)) == head + EncodeEvents(events) + EncodeEvent(e);
  }

  lemma EncodeNone(session: Bytes, through: int)
    ensures Encode(session, through, []) == Header(TextBytes(TAG), session, through)
  {
    assert Parts([]) == [];
    assert Header(TextBytes(TAG), session, through) + [] == Header(TextBytes(TAG), session, through);
  }

  lemma Peel(a: Bytes, x: Bytes, b: Bytes, y: Bytes)
    requires |a| == |b| && a + x == b + y
    ensures a == b && x == y
  {
    assert a == (a + x)[..|a|] && b == (b + y)[..|b|];
    assert x == (a + x)[|a|..] && y == (b + y)[|b|..];
  }

  lemma PeelWord(m: int, x: Bytes, n: int, y: Bytes)
    requires Word(m) + x == Word(n) + y
    requires InI64(m) && InI64(n)
    ensures m == n && x == y
  {
    Peel(Word(m), x, Word(n), y);
    WordInjective(m, n);
  }

  lemma PeelField(v: Bytes, x: Bytes, w: Bytes, y: Bytes)
    requires Field(v) + x == Field(w) + y
    requires Fits(v) && Fits(w)
    ensures v == w && x == y
  {
    assert Field(v) + x == Word(|v|) + (v + x);
    assert Field(w) + y == Word(|w|) + (w + y);
    Peel(Word(|v|), v + x, Word(|w|), w + y);
    WordInjective(|v|, |w|);
    Peel(v, x, w, y);
  }

  /** Equal encodings of two events, whatever follows them, are encodings of one event. */
  lemma PeelEvent(e: RawEvent, x: Bytes, f: RawEvent, y: Bytes)
    requires FitsEvent(e) && FitsEvent(f)
    requires EncodeEvent(e) + x == EncodeEvent(f) + y
    ensures e == f && x == y
  {
    var e7, f7 := Field(e.createdAt) + x, Field(f.createdAt) + y;
    var e6, f6 := Field(e.payload) + e7, Field(f.payload) + f7;
    var e5, f5 := Field(e.kind) + e6, Field(f.kind) + f6;
    var e4, f4 := Word(e.turnSize) + e5, Word(f.turnSize) + f5;
    var e3, f3 := Word(e.turnIndex) + e4, Word(f.turnIndex) + f4;
    var e2, f2 := Field(e.turnId) + e3, Field(f.turnId) + f3;
    var e1, f1 := Field(e.id) + e2, Field(f.id) + f2;
    assert EncodeEvent(e) + x == Word(e.sequence) + e1;
    assert EncodeEvent(f) + y == Word(f.sequence) + f1;
    PeelWord(e.sequence, e1, f.sequence, f1);
    PeelField(e.id, e2, f.id, f2);
    PeelField(e.turnId, e3, f.turnId, f3);
    PeelWord(e.turnIndex, e4, f.turnIndex, f4);
    PeelWord(e.turnSize, e5, f.turnSize, f5);
    PeelField(e.kind, e6, f.kind, f6);
    PeelField(e.payload, e7, f.payload, f7);
    PeelField(e.createdAt, x, f.createdAt, y);
  }

  lemma {:induction false} JoinCons(parts: seq<Bytes>)
    requires parts != []
    ensures Join(parts) == parts[0] + Join(parts[1..])
    decreases |parts|
  {
    var n := |parts| - 1;
    if n == 0 {
      assert parts[..0] == [] && parts[1..] == [];
    } else {
      JoinCons(parts[..n]);
      assert parts[1..][..n - 1] == parts[..n][1..];
    }
  }

  lemma EncodeEventsCons(events: seq<RawEvent>)
    requires events != []
    ensures EncodeEvents(events) == EncodeEvent(events[0]) + EncodeEvents(events[1..])
    ensures EncodeEvents(events) != []
  {
    JoinCons(Parts(events));
    assert Parts(events)[1..] == Parts(events[1..]);
  }

  lemma {:induction false} EncodeEventsInjective(es: seq<RawEvent>, fs: seq<RawEvent>)
    requires forall e | e in es :: FitsEvent(e)
    requires forall f | f in fs :: FitsEvent(f)
    requires EncodeEvents(es) == EncodeEvents(fs)
    ensures es == fs
    decreases |es|
  {
    if es != [] { EncodeEventsCons(es); }
    if fs != [] { EncodeEventsCons(fs); }
    if es != [] && fs != [] {
      PeelEvent(es[0], EncodeEvents(es[1..]), fs[0], EncodeEvents(fs[1..]));
      EncodeEventsInjective(es[1..], fs[1..]);
      assert es == [es[0]] + es[1..] && fs == [fs[0]] + fs[1..];
    }
  }

  lemma PeelHeader(tag: Bytes, s1: Bytes, t1: int, x: Bytes, s2: Bytes, t2: int, y: Bytes)
    requires Fits(s1) && Fits(s2) && InI64(t1) && InI64(t2)
    requires Header(tag, s1, t1) + x == Header(tag, s2, t2) + y
    ensures s1 == s2 && t1 == t2 && x == y
  {
    var u, v := Field(s1) + (Word(t1) + x), Field(s2) + (Word(t2) + y);
    assert Header(tag, s1, t1) + x == Field(tag) + u;
    assert Header(tag, s2, t2) + y == Field(tag) + v;
    Peel(Field(tag), u, Field(tag), v);
    PeelField(s1, Word(t1) + x, s2, Word(t2) + y);
    PeelWord(t1, x, t2, y);
  }

  /** The stream determines the session, the boundary and every column of every event. */
  lemma EncodingInjective(s1: Bytes, t1: int, es: seq<RawEvent>, s2: Bytes, t2: int, fs: seq<RawEvent>)
    requires Fits(s1) && Fits(s2) && InI64(t1) && InI64(t2)
    requires forall e | e in es :: FitsEvent(e)
    requires forall f | f in fs :: FitsEvent(f)
    requires Encode(s1, t1, es) == Encode(s2, t2, fs)
    ensures s1 == s2 && t1 == t2 && es == fs
  {
    PeelHeader(TextBytes(TAG), s1, t1, EncodeEvents(es), s2, t2, EncodeEvents(fs));
    EncodeEventsInjective(es, fs);
  }
}
