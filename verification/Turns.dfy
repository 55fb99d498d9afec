/** Atomic turns: the streaming checker used while hashing a transcript and the slicing checker
    used after a replay, and the one property both of them decide. */
module Turns {
  import opened Records

  /** One complete turn: every event names the turn, its size and its own position. */
  ghost predicate IsTurn(turn: seq<Event>) {
    && turn != []
    && forall i | 0 <= i < |turn| ::
         turn[i].turnId == turn[0].turnId && turn[i].turnSize == |turn| && turn[i].turnIndex == i
  }

  ghost function Flatten(turns: seq<seq<Event>>): seq<Event> {
    if turns == [] then [] else turns[0] + Flatten(turns[1..])
  }

  ghost predicate AllTurns(turns: seq<seq<Event>>) {
    forall i | 0 <= i < |turns| :: IsTurn(turns[i])
  }

  /** The list is cut greedily into complete turns. */
  ghost predicate WholeTurns(events: seq<Event>) {
    events == []
    || (&& 0 < events[0].turnSize <= |events|
        && IsTurn(events[..events[0].turnSize])
        && WholeTurns(events[events[0].turnSize..]))
  }

  /** The reference reading: the list is a concatenation of complete turns. */
  ghost predicate Concatenation(events: seq<Event>) {
    exists turns :: AllTurns(turns) && Flatten(turns) == events
  }

  lemma {:induction false} FlattenIsWhole(turns: seq<seq<Event>>)
    requires AllTurns(turns)
    ensures WholeTurns(Flatten(turns))
  {
    if turns != [] {
      var es := Flatten(turns);
      FlattenIsWhole(turns[1..]);
      assert IsTurn(turns[0]);
      assert es[0] == turns[0][0];
      assert es[..|turns[0]|] == turns[0] && es[|turns[0]|..] == Flatten(turns[1..]);
    }
  }

  lemma {:induction false} WholeIsFlatten(events: seq<Event>) returns (turns: seq<seq<Event>>)
    requires WholeTurns(events)
    ensures AllTurns(turns) && Flatten(turns) == events
  {
    if events == [] {
      turns := [];
    } else {
      var n := events[0].turnSize;
      var rest := WholeIsFlatten(events[n..]);
      turns := [events[..n]] + rest;
      assert turns[1..] == rest;
      assert events == events[..n] + events[n..];
    }
  }

  /** Greedy cutting accepts exactly the concatenations of complete turns. */
  lemma WholeTurnsAreConcatenations(events: seq<Event>)
    ensures WholeTurns(events) <==> Concatenation(events)
  {
    if WholeTurns(events) {
      var turns := WholeIsFlatten(events);
    }
    if Concatenation(events) {
      var turns :| AllTurns(turns) && Flatten(turns) == events;
      FlattenIsWhole(turns);
    }
  }

  lemma {:induction false} WholeAppend(left: seq<Event>, right: seq<Event>)
    requires WholeTurns(left) && WholeTurns(right)
    ensures WholeTurns(left + right)
    decreases |left|
  {
    if left == [] {
      assert left + right == right;
    } else {
      var n := left[0].turnSize;
      WholeAppend(left[n..], right);
      var all := left + right;
      assert all[..n] == left[..n];
      assert all[n..] == left[n..] + right;
    }
  }

  /** Dropping whole turns from the front leaves whole turns. */
  lemma {:induction false} WholeSuffix(events: seq<Event>, k: nat)
    requires k <= |events| && WholeTurns(events) && WholeTurns(events[..k])
    ensures WholeTurns(events[k..])
    decreases |events|
  {
    if k > 0 {
      var n := events[0].turnSize;
      assert events[..k][0] == events[0];
      assert events[..k][n..] == events[n..][..k - n];
      WholeSuffix(events[n..], k - n);
      assert events[n..][k - n..] == events[k..];
    } else {
      assert events[k..] == events;
    }
  }

  /** A position that opens or closes a turn is a cut between whole turns. */
  lemma {:induction false} WholeCut(events: seq<Event>, k: nat)
    requires WholeTurns(events)
    requires k < |events|
    ensures events[k].turnIndex == 0 ==> WholeTurns(events[..k])
    ensures events[k].turnIndex + 1 == events[k].turnSize ==> WholeTurns(events[..k + 1])
    decreases |events|
  {
    var n := events[0].turnSize;
    var first := events[..n];
    assert IsTurn(first);
    if k < n {
      assert events[k] == first[k];
      if k == 0 { assert events[..0] == []; }
      if k + 1 == n {
        assert events[..n][..n] == first && first[n..] == [];
        assert first[0] == events[0];
      }
    } else {
      var rest := events[n..];
      assert rest[k - n] == events[k];
      WholeCut(rest, k - n);
      assert WholeTurns(first) by { assert first[0] == events[0] && first[..n] == first && first[n..] == []; }
      if rest[k - n].turnIndex == 0 {
        WholeAppend(first, rest[..k - n]);
        assert first + rest[..k - n] == events[..k];
      }
      if rest[k - n].turnIndex + 1 == rest[k - n].turnSize {
        WholeAppend(first, rest[..k + 1 - n]);
        assert first + rest[..k + 1 - n] == events[..k + 1];
      }
    }
  }

  lemma WholeOpens(events: seq<Event>)
    ensures WholeTurns(events) && events != [] ==> events[0].turnIndex == 0 && events[0].turnSize > 0
  {
    if WholeTurns(events) && events != [] {
      assert events[..events[0].turnSize][0] == events[0];
    }
  }

  /** Taking a one-event turn out of a list of whole turns leaves whole turns. */
  lemma WholeRemoveSingle(events: seq<Event>, k: nat)
    requires WholeTurns(events)
    requires k < |events| && events[k].turnIndex == 0 && events[k].turnSize == 1
    ensures WholeTurns(events[..k] + events[k + 1..])
  {
    WholeCut(events, k);
    WholeSuffix(events, k + 1);
    WholeAppend(events[..k], events[k + 1..]);
  }

  lemma SingleIsWhole(event: Event)
    requires event.turnIndex == 0 && event.turnSize == 1
    ensures WholeTurns([event])
  {
    assert [event][..1] == [event] && [event][1..] == [];
  }

  lemma TurnIsWhole(turn: seq<Event>)
    requires IsTurn(turn)
    ensures WholeTurns(turn)
  {
    assert turn[..|turn|] == turn && turn[|turn|..] == [];
  }

  /** The slicing checker that runs over a replay.  Its caller has decoded every row, so sizes are
      not negative. */
  method ValidateReplayTurns(events: seq<Event>) returns (ok: bool)
    requires forall e | e in events :: 0 <= e.turnSize
    ensures ok <==> WholeTurns(events)
  {
    var start := 0;
    while start < |events|
      invariant 0 <= start <= |events|
      invariant WholeTurns(events) <==> WholeTurns(events[start..])
    {
      var first := events[start];
      assert first in events && events[start..][0] == first;
      if first.turnIndex != 0 || first.turnSize == 0 {
        WholeOpens(events[start..]);
        return false;
      }
      var end := start + first.turnSize;
      if end > |events| {
        return false;
      }
      var turn := events[start..end];
      assert events[start..][..first.turnSize] == turn;
      for index := 0 to |turn|
        invariant forall i | 0 <= i < index ::
          turn[i].turnId == first.turnId && turn[i].turnSize == first.turnSize && turn[i].turnIndex == i
      {
        var event := turn[index];
        if event.turnId != first.turnId || event.turnSize != first.turnSize || event.turnIndex != index {
          assert !IsTurn(turn);
          return false;
        }
      }
      assert events[start..][first.turnSize..] == events[end..];
      start := end;
    }
    return true;
  }

  /** What the streaming checker remembers between two events. */
  datatype Open = Open(id: Option<Id>, size: int, nextIndex: int)

  const CLOSED := Open(None, 0, 0)

  /** The streaming checker's transition; `None` is its corruption error. */
  function Advance(state: Open, event: Event): (next: Option<Open>) {
    if event.turnIndex == 0 && state.id.Some? then None
    else
      var s := if event.turnIndex == 0 then Open(Some(event.turnId), event.turnSize, 0) else state;
      if event.turnSize <= 0 || event.turnIndex != s.nextIndex || s.id != Some(event.turnId)
         || event.turnSize != s.size
      then None
      else if s.nextIndex + 1 == s.size then Some(CLOSED)
      else Some(s.(nextIndex := s.nextIndex + 1))
  }

  function AdvanceAll(state: Open, events: seq<Event>): (next: Option<Open>)
    decreases |events|
  {
    if events == [] then Some(state)
    else
      match Advance(state, events[0])
      case None => None
      case Some(next) => AdvanceAll(next, events[1..])
  }

  /** A state that is partway through a turn. */
  ghost predicate Inside(state: Open) {
    state.id.Some? && 0 < state.nextIndex < state.size
  }

  /** The events that would finish the turn `state` is partway through. */
  ghost predicate Completes(state: Open, rest: seq<Event>)
    requires Inside(state)
  {
    && |rest| == state.size - state.nextIndex
    && forall i | 0 <= i < |rest| ::
         && rest[i].turnId == state.id.value
         && rest[i].turnSize == state.size
         && rest[i].turnIndex == state.nextIndex + i
  }

  /** From inside a turn, reaching the closed state means finishing the turn and then whole turns. */
  lemma {:induction false} AdvanceInside(state: Open, events: seq<Event>)
    requires Inside(state)
    ensures AdvanceAll(state, events) == Some(CLOSED) <==>
            (&& state.size - state.nextIndex <= |events|
             && Completes(state, events[..state.size - state.nextIndex])
             && WholeTurns(events[state.size - state.nextIndex..]))
    decreases |events|
  {
    var need := state.size - state.nextIndex;
    if events != [] {
      var step := Advance(state, events[0]);
      var tail := events[1..];
      if step == Some(CLOSED) {
        assert need == 1;
        AdvanceClosed(tail);
        assert events[..1] == [events[0]];
      } else if step.Some? {
        assert Inside(step.value);
        AdvanceInside(step.value, tail);
        if need <= |events| {
          ShiftCut(events, need);
          var rest := events[..need];
          assert rest[0] == events[0];
          assert Completes(state, rest) ==> Completes(step.value, rest[1..]);
          if Completes(step.value, rest[1..]) {
            forall i | 0 <= i < |rest|
              ensures rest[i].turnId == state.id.value && rest[i].turnSize == state.size
              ensures rest[i].turnIndex == state.nextIndex + i
            {
              if i > 0 { assert rest[i] == rest[1..][i - 1]; }
            }
          }
        }
      } else if need <= |events| {
        assert events[..need][0] == events[0];
      }
    }
  }

  lemma {:induction false} AdvanceClosed(events: seq<Event>)
    ensures AdvanceAll(CLOSED, events) == Some(CLOSED) <==> WholeTurns(events)
    decreases |events|
  {
    if events != [] {
      var step := Advance(CLOSED, events[0]);
      var tail := events[1..];
      var n := events[0].turnSize;
      if 0 < n <= |events| {
        assert events[..n][0] == events[0];
      }
      if step == Some(CLOSED) {
        AdvanceClosed(tail);
        assert events[..1] == [events[0]];
      } else if step.Some? {
        assert Inside(step.value);
        AdvanceInside(step.value, tail);
        if 0 < n <= |events| {
          ShiftCut(events, n);
          var turn := events[..n];
          assert IsTurn(turn) ==> Completes(step.value, turn[1..]);
          if Completes(step.value, turn[1..]) {
            forall i | 0 <= i < |turn|
              ensures turn[i].turnId == turn[0].turnId && turn[i].turnSize == n && turn[i].turnIndex == i
            {
              if i > 0 { assert turn[i] == turn[1..][i - 1]; }
            }
          }
        }
      }
    }
  }

  /** The two checkers agree on every list: the streaming one ends with no open turn exactly when
      the list is a concatenation of complete turns, which is what the slicing one accepts. */
  lemma CheckersAgree(events: seq<Event>)
    ensures AdvanceAll(CLOSED, events) == Some(CLOSED) <==> Concatenation(events)
    ensures WholeTurns(events) <==> Concatenation(events)
  {
    AdvanceClosed(events);
    WholeTurnsAreConcatenations(events);
  }

  lemma {:induction false} AdvanceSnoc(state: Open, events: seq<Event>, last: Event)
    ensures AdvanceAll(state, events + [last]) ==
            match AdvanceAll(state, events) case None => None case Some(s) => Advance(s, last)
    decreases |events|
  {
    var all := events + [last];
    if events == [] {
      assert all == [last];
    } else {
      assert all[1..] == events[1..] + [last];
      match Advance(state, events[0])
      case None =>
      case Some(next) => AdvanceSnoc(next, events[1..], last);
    }
  }

  /** The streaming checker as the object the hashing loop mutates. */
  class ProvenanceTurn {
    var id: Option<Id>
    var size: int
    var nextIndex: int

    function State(): Open
      reads this
    {
      Open(id, size, nextIndex)
    }

    constructor ()
      ensures State() == CLOSED
    {
      id, size, nextIndex := None, 0, 0;
    }

    method Validate(event: Event) returns (ok: bool)
      modifies this
      ensures ok <==> Advance(old(State()), event).Some?
      ensures ok ==> Some(State()) == Advance(old(State()), event)
    {
      if event.turnIndex == 0 {
        if id.Some? {
          return false;
        }
        id, size, nextIndex := Some(event.turnId), event.turnSize, 0;
      }
      if event.turnSize <= 0 || event.turnIndex != nextIndex || id != Some(event.turnId) || event.turnSize != size {
        return false;
      }
      nextIndex := nextIndex + 1;
      if nextIndex == size {
        id, size, nextIndex := None, 0, 0;
      }
      return true;
    }
  }
}
