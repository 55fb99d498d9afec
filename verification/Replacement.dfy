/** Replacing a file by swapping a finished sibling into place, and rolling back when the entry that
    came out is not the one that was opened. */
module Replacement {
  import opened Records

  type Name = string

  /** What a directory entry names: an inode and its content. */
  datatype File = File(identity: nat, content: Bytes)

  type Entries = map<Name, File>

  const TEMP_ATTEMPTS := 32

  /** The name of the n-th sibling temporary file. */
  const TempName: nat -> Name

  /** What others do to the target while a replacement is prepared: nothing, or any change at all. */
  datatype Race = Quiet | Changed(to: Option<File>)

  function Raced(entries: Entries, target: Name, race: Race): Entries {
    match race
    case Quiet => entries
    case Changed(None) => entries - {target}
    case Changed(Some(file)) => entries[target := file]
  }

  datatype Created = Opened(identity: nat) | Exists | Denied

  /** One directory.  Whether a system call succeeds, and how much a failing write leaves behind, is an
      arbitrary sequence; `trace` records the entries after each call. */
  class Directory {
    var entries: Entries
    var nextIdentity: nat
    var nextTemp: nat
    const succeeds: nat -> bool
    const written: nat -> nat
    var calls: nat
    ghost var trace: seq<Entries>

    ghost predicate Valid()
      reads this
    {
      forall name | name in entries :: entries[name].identity < nextIdentity
    }

    constructor (entries: Entries, nextIdentity: nat, succeeds: nat -> bool, written: nat -> nat)
      requires forall name | name in entries :: entries[name].identity < nextIdentity
      ensures Valid() && this.entries == entries && this.nextIdentity == nextIdentity && trace == []
    {
      this.entries, this.nextIdentity, this.succeeds, this.written := entries, nextIdentity, succeeds, written;
      nextTemp, calls, trace := 0, 0, [];
    }

    /** Some system call since the `from`-th has failed. */
    ghost predicate Failed(from: nat)
      reads this`calls
    {
      exists n | from <= n < calls :: !succeeds(n)
    }

    /** Whether the next system call goes through. */
    method Attempt() returns (ok: bool)
      modifies this`calls
      ensures ok == succeeds(old(calls)) && calls == old(calls) + 1
    {
      ok := succeeds(calls);
      calls := calls + 1;
    }

    /** A call that changes no entry: a flush, a permission change, a duplicated descriptor. */
    method Touch() returns (ok: bool)
      modifies this`calls, this`trace
      ensures trace == old(trace) + [entries]
      ensures calls == old(calls) + 1 && ok == succeeds(old(calls))
    {
      ok := Attempt();
      trace := trace + [entries];
    }

    /** Create a file that must not exist. */
    method CreateExclusive(name: Name) returns (r: Created)
      requires Valid()
      modifies this
      ensures Valid() && trace == old(trace) + [entries] && old(nextIdentity) <= nextIdentity
      ensures calls == old(calls) + 1 && nextTemp == old(nextTemp)
      ensures r.Exists? <==> name in old(entries)
      ensures r.Denied? ==> !succeeds(old(calls))
      ensures !r.Opened? ==> entries == old(entries)
      ensures r.Opened? ==>
                && name !in old(entries) && r.identity == old(nextIdentity) < nextIdentity
                && entries == old(entries)[name := File(r.identity, [])]
    {
      var ok := Attempt();
      if name in entries {
        r := Exists;
      } else if !ok {
        r := Denied;
      } else {
        r := Opened(nextIdentity);
        entries := entries[name := File(nextIdentity, [])];
        nextIdentity := nextIdentity + 1;
      }
      trace := trace + [entries];
    }

    /** Write and flush the whole content; a failure may leave any part of it. */
    method WriteAll(name: Name, content: Bytes) returns (ok: bool)
      requires Valid() && name in entries
      modifies this`entries, this`calls, this`trace
      ensures Valid() && trace == old(trace) + [entries]
      ensures calls == old(calls) + 1 && ok == succeeds(old(calls))
      ensures exists part ::
                entries == old(entries)[name := old(entries)[name].(content := part)] && (ok ==> part == content)
    {
      var left := written(calls) % (|content| + 1);
      ok := Attempt();
      var part := if ok then content else content[..left];
      entries := entries[name := entries[name].(content := part)];
      trace := trace + [entries];
    }

    /** Exchange two entries; both must exist. */
    method Swap(a: Name, b: Name) returns (ok: bool)
      requires Valid()
      modifies this`entries, this`calls, this`trace
      ensures Valid() && trace == old(trace) + [entries]
      ensures calls == old(calls) + 1 && ok == (succeeds(old(calls)) && a in old(entries) && b in old(entries))
      ensures ok ==> a in old(entries) && b in old(entries)
                     && entries == old(entries)[a := old(entries)[b]][b := old(entries)[a]]
      ensures !ok ==> entries == old(entries)
    {
      ok := Attempt();
      ok := ok && a in entries && b in entries;
      if ok {
        entries := entries[a := entries[b]][b := entries[a]];
      }
      trace := trace + [entries];
    }

    /** Move an entry to a name that must not exist. */
    method RenameExclusive(from: Name, to: Name) returns (ok: bool)
      requires Valid()
      modifies this`entries, this`calls, this`trace
      ensures Valid() && trace == old(trace) + [entries]
      ensures calls == old(calls) + 1 && ok == (succeeds(old(calls)) && from in old(entries) && to !in old(entries))
      ensures ok ==> from in old(entries) && to !in old(entries)
                     && entries == (old(entries) - {from})[to := old(entries)[from]]
      ensures !ok ==> entries == old(entries)
    {
      ok := Attempt();
      ok := ok && from in entries && to !in entries;
      if ok {
        entries := (entries - {from})[to := entries[from]];
      }
      trace := trace + [entries];
    }

    method Unlink(name: Name) returns (ok: bool)
      requires Valid()
      modifies this`entries, this`calls, this`trace
      ensures Valid() && trace == old(trace) + [entries]
      ensures entries == if ok then old(entries) - {name} else old(entries)
      ensures calls == old(calls) + 1 && ok == (succeeds(old(calls)) && name in old(entries))
    {
      ok := Attempt();
      ok := ok && name in entries;
      if ok {
        entries := entries - {name};
      }
      trace := trace + [entries];
    }

    /** Somebody else changes an entry. */
    method Interfere(name: Name, race: Race)
      requires Valid()
      modifies this`entries, this`nextIdentity, this`trace
      ensures Valid() && trace == old(trace) + [entries]
      ensures entries == Raced(old(entries), name, race)
    {
      entries := Raced(entries, name, race);
      if race.Changed? && race.to.Some? && race.to.value.identity >= nextIdentity {
        nextIdentity := race.to.value.identity + 1;
      }
      trace := trace + [entries];
    }

    /** The identity an entry names, without following links. */
    method IdentityAt(name: Name) returns (identity: Option<nat>)
      modifies this`calls, this`trace
      ensures trace == old(trace) + [entries]
      ensures calls == old(calls) + 1 && (identity.Some? <==> succeeds(old(calls)) && name in entries)
      ensures identity.Some? ==> identity.value == entries[name].identity
    {
      var ok := Attempt();
      trace := trace + [entries];
      identity := if ok && name in entries then Some(entries[name].identity) else None;
    }
  }

  /** A sibling temporary file that is removed unless it was disarmed. */
  class PendingTemp {
    var name: Option<Name>

    constructor (name: Name)
      ensures this.name == Some(name)
    {
      this.name := Some(name);
    }

    method Disarm()
      modifies this
      ensures name == None
    {
      name := None;
    }

    method Drop(directory: Directory)
      requires directory.Valid()
      modifies directory`entries, directory`calls, directory`trace
      ensures directory.Valid()
      ensures name.None? ==> directory.entries == old(directory.entries) && directory.trace == old(directory.trace)
      ensures old(directory.calls) <= directory.calls
      ensures name.Some? ==> directory.trace == old(directory.trace) + [directory.entries]
      ensures name.Some? ==>
                directory.entries in {old(directory.entries), old(directory.entries) - {name.value}}
    {
      if name.Some? {
        var removed := directory.Unlink(name.value);
      }
    }
  }

  // ----- what every state keeps

  ghost predicate Names(entries: Entries, name: Name, file: File) {
    name in entries && entries[name] == file
  }

  ghost predicate SameAt(entries: Entries, before: Entries, name: Name) {
    if name in before then Names(entries, name, before[name]) else name !in entries
  }

  /** The target names its old file or the complete new one; a file at the target that is not the opened
      one is still there or under the temporary name; and nothing else changed. */
  ghost predicate Safe(entries: Entries, before: Entries, target: Name, temp: Name, expected: Option<nat>,
                       content: Bytes)
  {
    && (SameAt(entries, before, target) || (target in entries && entries[target].content == content))
    && (target in before && Some(before[target].identity) != expected ==>
          Names(entries, target, before[target]) || Names(entries, temp, before[target]))
    && (forall name | name != target && name != temp :: SameAt(entries, before, name))
  }

  /** The target is as it was, and the temporary name is free or holds our own file. */
  ghost predicate Staged(entries: Entries, before: Entries, target: Name, temp: Name) {
    temp != target && temp !in before && forall name | name != temp :: SameAt(entries, before, name)
  }

  ghost predicate AllSafe(trace: seq<Entries>, from: nat, before: Entries, target: Name, temp: Name,
                          expected: Option<nat>, content: Bytes)
  {
    forall k | from <= k < |trace| :: Safe(trace[k], before, target, temp, expected, content)
  }

  lemma StagedIsSafe(entries: Entries, before: Entries, target: Name, temp: Name, expected: Option<nat>, content: Bytes)
    requires Staged(entries, before, target, temp)
    ensures Safe(entries, before, target, temp, expected, content)
    ensures Safe(entries - {temp}, before, target, temp, expected, content)
  {
    assert SameAt(entries, before, target);
    forall name | name != temp ensures SameAt(entries - {temp}, before, name) {
      assert SameAt(entries, before, name);
    }
    assert SameAt(entries - {temp}, before, target);
  }

  /** The finished temporary file and the target exchanged. */
  ghost predicate Swapped(entries: Entries, staged: Entries, target: Name, temp: Name) {
    temp in staged && target in staged && entries == staged[temp := staged[target]][target := staged[temp]]
  }

  lemma SwappedIsSafe(entries: Entries, staged: Entries, before: Entries, target: Name, temp: Name,
                      expected: Option<nat>, content: Bytes)
    requires Staged(staged, before, target, temp) && Swapped(entries, staged, target, temp)
             && staged[temp].content == content
    ensures Safe(entries, before, target, temp, expected, content)
    ensures Some(staged[target].identity) == expected ==>
            Safe(entries - {temp}, before, target, temp, expected, content)
  {
    assert SameAt(staged, before, target);
    forall name | name != temp && name != target
      ensures SameAt(entries, before, name) && SameAt(entries - {temp}, before, name)
    {
      assert SameAt(staged, before, name);
    }
  }

  lemma SwapBack(staged: Entries, target: Name, temp: Name)
    requires temp in staged && target in staged && temp != target
    ensures var was := staged[temp := staged[target]][target := staged[temp]];
            was[temp := was[target]][target := was[temp]] == staged
  {
  }

  /** Swap back; a rollback that fails keeps whatever the temporary name holds. */
  method RollbackOrPreserve(directory: Directory, pending: PendingTemp, target: Name, temp: Name) returns (ok: bool)
    requires directory.Valid() && pending.name == Some(temp) && temp in directory.entries && target in directory.entries
    modifies directory`entries, directory`calls, directory`trace, pending
    ensures directory.Valid() && old(directory.trace) <= directory.trace && old(directory.calls) <= directory.calls
    ensures var (was, now) := (old(directory.entries), directory.entries);
            var back := was[temp := was[target]][target := was[temp]];
            && (now == back || now == was)
            && (if ok then now == back && pending.name == Some(temp) else pending.name.None?)
            && forall k | |old(directory.trace)| <= k < |directory.trace| ::
                 directory.trace[k] == back || directory.trace[k] == was
  {
    ok := directory.Swap(temp, target);
    if ok {
      ok := directory.Touch();
    }
    if !ok {
      pending.Disarm();
    }
  }

  /** Swap the finished file in, check what came out, and remove it only if it is the opened one. */
  method ReplaceExistingWithSwap(directory: Directory, pending: PendingTemp, target: Name, temp: Name, expected: nat,
                                 ghost before: Entries, ghost content: Bytes) returns (ok: bool)
    requires directory.Valid() && pending.name == Some(temp)
    requires Staged(directory.entries, before, target, temp) && temp in directory.entries
    requires directory.entries[temp].content == content
    modifies directory`entries, directory`calls, directory`trace, pending
    ensures directory.Valid() && old(directory.trace) <= directory.trace
    ensures AllSafe(directory.trace, |old(directory.trace)|, before, target, temp, Some(expected), content)
    ensures Safe(directory.entries, before, target, temp, Some(expected), content)
    ensures pending.name.Some? ==>
              && pending.name == Some(temp)
              && Safe(directory.entries - {temp}, before, target, temp, Some(expected), content)
    ensures old(directory.calls) <= directory.calls
    ensures !ok ==>
              directory.Failed(old(directory.calls)) || !(target in before && before[target].identity == expected)
    ensures ok ==>
              && target in before && before[target].identity == expected
              && Names(directory.entries, target, old(directory.entries[temp])) && temp !in directory.entries
  {
    ghost var staged := directory.entries;
    StagedIsSafe(staged, before, target, temp, Some(expected), content);
    assert SameAt(staged, before, target);
    ok := directory.Swap(temp, target);
    if !ok {
      return;
    }
    ghost var swapped := directory.entries;
    SwappedIsSafe(swapped, staged, before, target, temp, Some(expected), content);
    SwapBack(staged, target, temp);
    var known := directory.Touch();
    if !known {
      ok := RollbackOrPreserve(directory, pending, target, temp);
      return false;
    }
    var identity := directory.IdentityAt(temp);
    if identity.None? || identity.value != expected {
      ok := RollbackOrPreserve(directory, pending, target, temp);
      return false;
    }
    ok := directory.Unlink(temp);
    assert swapped - {temp} - {temp} == swapped - {temp};
  }

  /** None of the names to be tried for a temporary file is free. */
  ghost predicate AllTaken(entries: Entries, from: nat) {
    forall n | from <= n < from + TEMP_ATTEMPTS :: TempName(n) in entries
  }

  lemma CreatedIsStaged(before: Entries, target: Name, temp: Name, identity: nat)
    requires temp != target && temp !in before
    ensures Staged(before[temp := File(identity, [])], before, target, temp)
  {
  }

  lemma RemovedIsStaged(staged: Entries, before: Entries, target: Name, temp: Name)
    requires Staged(staged, before, target, temp)
    ensures Staged(staged - {temp}, before, target, temp)
  {
    forall name | name != temp ensures SameAt(staged - {temp}, before, name) { assert SameAt(staged, before, name); }
  }

  /** Set up a file just created, or remove it again. */
  method ArmTemp(directory: Directory, temp: Name, ghost before: Entries, ghost target: Name)
    returns (pending: Option<PendingTemp>)
    requires directory.Valid() && temp in directory.entries && Staged(directory.entries, before, target, temp)
    modifies directory`entries, directory`calls, directory`trace
    ensures directory.Valid() && old(directory.trace) <= directory.trace && old(directory.calls) <= directory.calls
    ensures Staged(directory.entries, before, target, temp)
    ensures forall k | |old(directory.trace)| <= k < |directory.trace| ::
              Staged(directory.trace[k], before, target, temp)
    ensures pending.None? ==> directory.Failed(old(directory.calls))
    ensures pending.Some? ==>
              fresh(pending.value) && pending.value.name == Some(temp) && directory.entries == old(directory.entries)
  {
    var ready := directory.Touch();
    if ready {
      ready := directory.Touch();
    }
    if !ready {
      RemovedIsStaged(directory.entries, before, target, temp);
      var removed := directory.Unlink(temp);
      return None;
    }
    var armed := new PendingTemp(temp);
    return Some(armed);
  }

  /** Create the sibling temporary file under the first free name. */
  method CreateSiblingTemp(directory: Directory, ghost target: Name)
    returns (pending: Option<PendingTemp>, ghost temp: Name)
    requires directory.Valid() && forall n :: TempName(n) != target
    modifies directory
    ensures directory.Valid() && old(directory.trace) <= directory.trace
    ensures old(directory.calls) <= directory.calls
    ensures pending.None? ==>
              directory.Failed(old(directory.calls)) || AllTaken(old(directory.entries), old(directory.nextTemp))
    ensures temp != target && (temp !in old(directory.entries) || directory.entries == old(directory.entries))
    ensures forall k | |old(directory.trace)| <= k < |directory.trace| ::
              || directory.trace[k] == old(directory.entries)
              || Staged(directory.trace[k], old(directory.entries), target, temp)
    ensures pending.None? ==>
              || directory.entries == old(directory.entries)
              || Staged(directory.entries, old(directory.entries), target, temp)
    ensures pending.Some? ==>
              && fresh(pending.value) && pending.value.name == Some(temp) && temp in directory.entries
              && Staged(directory.entries, old(directory.entries), target, temp)
  {
    ghost var before := directory.entries;
    temp := TempName(0);
    for attempt := 0 to TEMP_ATTEMPTS
      invariant directory.Valid() && directory.entries == before && temp != target
      invariant old(directory.trace) <= directory.trace
      invariant old(directory.calls) <= directory.calls && directory.nextTemp == old(directory.nextTemp) + attempt
      invariant forall n | old(directory.nextTemp) <= n < directory.nextTemp :: TempName(n) in before
      invariant forall k | |old(directory.trace)| <= k < |directory.trace| :: directory.trace[k] == before
    {
      var name := TempName(directory.nextTemp);
      directory.nextTemp := directory.nextTemp + 1;
      var created := directory.CreateExclusive(name);
      if created.Denied? {
        return None, temp;
      }
      if created.Opened? {
        temp := name;
        CreatedIsStaged(before, target, temp, created.identity);
        pending := ArmTemp(directory, name, before, target);
        return;
      }
    }
    return None, temp;
  }

  lemma UnchangedIsSafe(entries: Entries, target: Name, temp: Name, expected: Option<nat>, content: Bytes)
    ensures Safe(entries, entries, target, temp, expected, content)
  {
  }

  lemma InstalledIsSafe(staged: Entries, before: Entries, target: Name, temp: Name, expected: Option<nat>,
                        content: Bytes)
    requires Staged(staged, before, target, temp) && temp in staged && staged[temp].content == content
             && target !in staged
    ensures Safe((staged - {temp})[target := staged[temp]], before, target, temp, expected, content)
  {
    var installed := (staged - {temp})[target := staged[temp]];
    assert SameAt(staged, before, target);
    forall name | name != target && name != temp ensures SameAt(installed, before, name) {
      assert SameAt(staged, before, name);
    }
  }

  /** The temporary file still stands alone, whatever was written to it. */
  lemma WrittenIsStaged(staged: Entries, before: Entries, target: Name, temp: Name, part: Bytes)
    requires Staged(staged, before, target, temp) && temp in staged
    ensures Staged(staged[temp := staged[temp].(content := part)], before, target, temp)
  {
    var written := staged[temp := staged[temp].(content := part)];
    forall name | name != temp ensures SameAt(written, before, name) {
      assert SameAt(staged, before, name);
    }
  }

  /** The target is as the caller knew it: the opened file, or no file. */
  ghost predicate Matches(entries: Entries, target: Name, expected: Option<nat>) {
    if expected.Some? then target in entries && entries[target].identity == expected.value else target !in entries
  }

  /** Put a finished file in the target's place. */
  method Install(directory: Directory, pending: PendingTemp, target: Name, temp: Name, expected: Option<nat>,
                 ghost before: Entries, ghost content: Bytes) returns (ok: bool)
    requires directory.Valid() && pending.name == Some(temp)
    requires Staged(directory.entries, before, target, temp) && temp in directory.entries
    requires directory.entries[temp].content == content
    modifies directory`entries, directory`calls, directory`trace, pending
    ensures directory.Valid() && old(directory.trace) <= directory.trace
    ensures AllSafe(directory.trace, |old(directory.trace)|, before, target, temp, expected, content)
    ensures Safe(directory.entries, before, target, temp, expected, content)
    ensures old(directory.calls) <= directory.calls
    ensures !ok ==> directory.Failed(old(directory.calls)) || !Matches(before, target, expected)
    ensures ok ==>
              && Matches(before, target, expected)
              && Names(directory.entries, target, old(directory.entries[temp])) && temp !in directory.entries
  {
    if expected.Some? {
      ok := ReplaceExistingWithSwap(directory, pending, target, temp, expected.value, before, content);
    } else {
      ghost var staged := directory.entries;
      assert SameAt(staged, before, target);
      StagedIsSafe(staged, before, target, temp, expected, content);
      ok := directory.RenameExclusive(temp, target);
      if ok { InstalledIsSafe(staged, before, target, temp, expected, content); }
    }
    if ok {
      pending.Disarm();
    } else {
      pending.Drop(directory);
    }
  }

  /** Write the new content to a sibling temporary file; the target is not touched. */
  method StageFile(directory: Directory, target: Name, expected: Option<nat>, content: Bytes)
    returns (staged: Option<PendingTemp>, ghost temp: Name)
    requires directory.Valid() && forall n :: TempName(n) != target
    modifies directory
    ensures directory.Valid() && old(directory.trace) <= directory.trace
    ensures AllSafe(directory.trace, |old(directory.trace)|, old(directory.entries), target, temp, expected, content)
    ensures Safe(directory.entries, old(directory.entries), target, temp, expected, content)
    ensures old(directory.calls) <= directory.calls
    ensures staged.None? ==>
              directory.Failed(old(directory.calls)) || AllTaken(old(directory.entries), old(directory.nextTemp))
    ensures staged.Some? ==>
              && fresh(staged.value) && staged.value.name == Some(temp)
              && Staged(directory.entries, old(directory.entries), target, temp)
              && temp in directory.entries && directory.entries[temp].content == content
  {
    ghost var before := directory.entries;
    temp := TempName(0);
    UnchangedIsSafe(before, target, temp, expected, content);
    if expected.Some? {
      var known := directory.Touch();
      if !known { return None, temp; }
    }
    staged, temp := CreateSiblingTemp(directory, target);
    TraceIsSafe(directory.trace, |old(directory.trace)|, before, target, temp, expected, content);
    if staged.None? {
      return;
    }
    var pending := staged.value;
    ghost var created := directory.entries;
    var ok := directory.WriteAll(pending.name.value, content);
    WrittenIsStaged(created, before, target, temp, directory.entries[temp].content);
    StagedIsSafe(directory.entries, before, target, temp, expected, content);
    if !ok {
      pending.Drop(directory);
      return None, temp;
    }
  }

  /** Replace the file at `target`, or install a new one where none was, as one atomic change.  Others may
      change the target while the new file is prepared: `found` is the directory as the exchange meets it.
      At every step, and whatever fails, the target names the file found there or the complete new one,
      and a file found there that is not the opened one is not lost.  Success means that the opened file,
      and no other, was replaced; failure, that a system call failed, the target found was not the one
      expected, or every name tried for the temporary file was taken. */
  method AtomicReplace(directory: Directory, target: Name, expected: Option<nat>, content: Bytes, race: Race)
    returns (ok: bool, ghost temp: Name, ghost since: nat, ghost found: Entries)
    requires directory.Valid() && forall n :: TempName(n) != target
    modifies directory
    ensures directory.Valid() && old(directory.trace) <= directory.trace
    ensures |old(directory.trace)| <= since <= |directory.trace|
    ensures found == old(directory.entries) || found == Raced(old(directory.entries), target, race)
    ensures AllSafe(directory.trace[..since], |old(directory.trace)|, old(directory.entries), target, temp, expected,
                    content)
    ensures AllSafe(directory.trace, since, found, target, temp, expected, content)
    ensures Safe(directory.entries, found, target, temp, expected, content)
    ensures !ok ==>
              || directory.Failed(old(directory.calls)) || !Matches(found, target, expected)
              || AllTaken(old(directory.entries), old(directory.nextTemp))
    ensures ok ==>
              && found == Raced(old(directory.entries), target, race)
              && Matches(found, target, expected)
              && target in directory.entries && directory.entries[target].content == content
              && forall name | name != target :: SameAt(directory.entries, found, name)
  {
    found := directory.entries;
    var staged;
    staged, temp := StageFile(directory, target, expected, content);
    since := |directory.trace|;
    assert directory.trace[..since] == directory.trace;
    if staged.None? {
      return false, temp, since, found;
    }
    ghost var finished := directory.entries;
    directory.Interfere(target, race);
    RacedIsStaged(finished, found, target, temp, race);
    found := Raced(found, target, race);
    StagedIsSafe(directory.entries, found, target, temp, expected, content);
    ok := Install(directory, staged.value, target, staged.value.name.value, expected, found, content);
    if ok {
      ok := directory.Touch();
    }
  }

  /** The prepared file stands beside whatever others put at the target. */
  lemma RacedIsStaged(staged: Entries, before: Entries, target: Name, temp: Name, race: Race)
    requires Staged(staged, before, target, temp)
    ensures Staged(Raced(staged, target, race), Raced(before, target, race), target, temp)
    ensures temp in staged ==> Names(Raced(staged, target, race), temp, staged[temp])
  {
    var now, found := Raced(staged, target, race), Raced(before, target, race);
    forall name | name != temp ensures SameAt(now, found, name) {
      assert SameAt(staged, before, name);
    }
  }

  lemma TraceIsSafe(trace: seq<Entries>, from: nat, before: Entries, target: Name, temp: Name, expected: Option<nat>,
                    content: Bytes)
    requires from <= |trace|
    requires forall k | from <= k < |trace| :: trace[k] == before || Staged(trace[k], before, target, temp)
    ensures AllSafe(trace, from, before, target, temp, expected, content)
  {
    UnchangedIsSafe(before, target, temp, expected, content);
    forall k | from <= k < |trace| ensures Safe(trace[k], before, target, temp, expected, content) {
      if trace[k] != before { StagedIsSafe(trace[k], before, target, temp, expected, content); }
    }
  }
}
