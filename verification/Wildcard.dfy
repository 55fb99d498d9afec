/** Matching a name against a pattern of bytes in which `*` stands for any bytes and `?` for one. */
module Wildcard {
  import opened Records

  const STAR: Byte := 42
  const QUERY: Byte := 63

  /** The bytes that one pattern token may stand for. */
  ghost predicate Fits(token: Byte, piece: Bytes) {
    if token == STAR then true else if token == QUERY then |piece| == 1 else piece == [token]
  }

  /** The value splits into one piece per token. */
  ghost predicate Matches(pattern: Bytes, value: Bytes)
    decreases |pattern|
  {
    if pattern == [] then value == []
    else exists k | 0 <= k <= |value| :: Fits(pattern[0], value[..k]) && Matches(pattern[1..], value[k..])
  }

  lemma FirstPiece(pattern: Bytes, value: Bytes, k: nat)
    requires pattern != [] && k <= |value| && Fits(pattern[0], value[..k]) && Matches(pattern[1..], value[k..])
    ensures Matches(pattern, value)
  {
  }

  lemma {:induction false} TakeLast(pattern: Bytes, token: Byte, value: Bytes) returns (k: nat)
    requires Matches(pattern + [token], value)
    ensures k <= |value| && Matches(pattern, value[..k]) && Fits(token, value[k..])
    decreases |pattern|
  {
    var longer := pattern + [token];
    var j :| 0 <= j <= |value| && Fits(longer[0], value[..j]) && Matches(longer[1..], value[j..]);
    if pattern == [] {
      assert longer[1..] == [] && value[..j] == value[0..];
      k := 0;
    } else {
      assert longer[1..] == pattern[1..] + [token];
      var rest := TakeLast(pattern[1..], token, value[j..]);
      k := j + rest;
      SplitTwice(value, j, rest);
      FirstPiece(pattern, value[..k], j);
    }
  }

  lemma {:induction false} PutLast(pattern: Bytes, token: Byte, value: Bytes, k: nat)
    requires k <= |value| && Matches(pattern, value[..k]) && Fits(token, value[k..])
    ensures Matches(pattern + [token], value)
    decreases |pattern|
  {
    var longer, front := pattern + [token], value[..k];
    if pattern == [] {
      assert longer[1..] == [] && value[|value|..] == [] && value[..|value|] == value[k..];
      FirstPiece(longer, value, |value|);
    } else {
      var j :| 0 <= j <= |front| && Fits(pattern[0], front[..j]) && Matches(pattern[1..], front[j..]);
      SplitTwice(value, j, k - j);
      PutLast(pattern[1..], token, value[j..], k - j);
      assert longer[1..] == pattern[1..] + [token];
      FirstPiece(longer, value, j);
    }
  }

  /** The last piece may be taken off as well as the first. */
  lemma MatchesSnoc(pattern: Bytes, token: Byte, value: Bytes)
    ensures Matches(pattern + [token], value) <==>
            exists k | 0 <= k <= |value| :: Matches(pattern, value[..k]) && Fits(token, value[k..])
  {
    if Matches(pattern + [token], value) {
      var k := TakeLast(pattern, token, value);
    }
    if k :| 0 <= k <= |value| && Matches(pattern, value[..k]) && Fits(token, value[k..]) {
      PutLast(pattern, token, value, k);
    }
  }

  lemma SplitTwice(value: Bytes, j: nat, k: nat)
    requires j + k <= |value|
    ensures value[..j + k][..j] == value[..j]
    ensures value[..j + k][j..] == value[j..][..k]
    ensures value[j..][k..] == value[j + k..]
  {
  }

  /** What one more token does to a row: the entry for the first `i` bytes. */
  lemma RowEntry(pattern: Bytes, token: Byte, value: Bytes, i: nat)
    requires i <= |value|
    ensures Matches(pattern + [token], value[..i]) <==>
            if token == STAR then Matches(pattern, value[..i]) || (i > 0 && Matches(pattern + [token], value[..i - 1]))
            else i > 0 && Matches(pattern, value[..i - 1]) && (token == QUERY || token == value[i - 1])
  {
    var v := value[..i];
    MatchesSnoc(pattern, token, v);
    forall k | 0 <= k <= i ensures v[..k] == value[..k] && |v[k..]| == i - k {}
    if i > 0 {
      assert v[i - 1..] == [value[i - 1]];
      var w := value[..i - 1];
      MatchesSnoc(pattern, token, w);
      forall k | 0 <= k < i ensures w[..k] == value[..k] {}
      if token == STAR {
        if k :| 0 <= k <= i - 1 && Matches(pattern, w[..k]) && Fits(token, w[k..]) {
          assert Matches(pattern, v[..k]) && Fits(token, v[k..]);
        }
        if k :| 0 <= k <= i && Matches(pattern, v[..k]) && Fits(token, v[k..]) {
          if k < i { assert Matches(pattern, w[..k]) && Fits(token, w[k..]); }
        }
      }
      assert Matches(pattern, v[..i - 1]) <==> Matches(pattern, value[..i - 1]);
    }
    assert v[..i] == v && Fits(STAR, v[i..]);
  }

  /** The row-by-row program: it answers true exactly when the value matches the pattern. */
  method WildcardMatches(pattern: Bytes, value: Bytes) returns (matched: bool)
    ensures matched <==> Matches(pattern, value)
  {
    var n := |value|;
    var previous := new bool[n + 1](i => i == 0);
    forall i | 0 <= i <= n ensures previous[i] <==> Matches([], value[..i]) {}
    assert pattern[..0] == [];
    for j := 0 to |pattern|
      invariant previous.Length == n + 1
      invariant forall i | 0 <= i <= n :: previous[i] <==> Matches(pattern[..j], value[..i])
    {
      var token := pattern[j];
      ghost var longer := pattern[..j] + [token];
      var next := new bool[n + 1](i => false);
      RowEntry(pattern[..j], token, value, 0);
      if token == STAR {
        next[0] := previous[0];
      }
      for index := 1 to n + 1
        invariant forall i | 0 <= i < index :: next[i] <==> Matches(longer, value[..i])
        invariant forall i | 0 <= i <= n :: previous[i] <==> Matches(pattern[..j], value[..i])
      {
        RowEntry(pattern[..j], token, value, index);
        next[index] := if token == STAR then previous[index] || next[index - 1]
                       else if token == QUERY then previous[index - 1]
                       else previous[index - 1] && token == value[index - 1];
      }
      assert pattern[..j + 1] == longer;
      previous := next;
    }
    assert pattern[..|pattern|] == pattern && value[..n] == value;
    return previous[n];
  }

  /** The recursive reading: a star stands for nothing, or takes one byte and stays. */
  lemma StarUnfolds(pattern: Bytes, value: Bytes)
    requires pattern != [] && pattern[0] == STAR
    ensures Matches(pattern, value) <==> Matches(pattern[1..], value) || (value != [] && Matches(pattern, value[1..]))
  {
    var rest := pattern[1..];
    assert value[0..] == value;
    if Matches(pattern, value) {
      var k :| 0 <= k <= |value| && Fits(pattern[0], value[..k]) && Matches(rest, value[k..]);
      if k > 0 {
        assert value[1..][k - 1..] == value[k..];
        assert Fits(pattern[0], value[1..][..k - 1]) && Matches(rest, value[1..][k - 1..]);
      }
    }
    if Matches(rest, value) {
      assert Fits(pattern[0], value[..0]) && Matches(rest, value[0..]);
    }
    if value != [] && Matches(pattern, value[1..]) {
      var k :| 0 <= k <= |value| - 1 && Fits(pattern[0], value[1..][..k]) && Matches(rest, value[1..][k..]);
      assert value[1..][k..] == value[k + 1..];
      assert Fits(pattern[0], value[..k + 1]) && Matches(rest, value[k + 1..]);
    }
  }
}
