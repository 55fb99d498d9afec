/** Removing a fixed set of tensors from a sharded checkpoint. */
module Stripping {
  import opened Records
  import opened Tensors

  ghost function Names(tensors: seq<Tensor>): set<string> {
    set t | t in tensors :: t.name
  }

  ghost function DataBytes(tensors: seq<Tensor>): nat {
    if tensors == [] then 0 else DataBytes(tensors[..|tensors| - 1]) + |tensors[|tensors| - 1].data|
  }

  /** The tensors that stay, in order. */
  ghost function Kept(tensors: seq<Tensor>, expected: set<string>): seq<Tensor> {
    if tensors == [] then []
    else
      var front, last := tensors[..|tensors| - 1], tensors[|tensors| - 1];
      Kept(front, expected) + (if last.name in expected then [] else [last])
  }

  /** The tensors that go, in order. */
  ghost function Gone(tensors: seq<Tensor>, expected: set<string>): seq<Tensor> {
    if tensors == [] then []
    else
      var front, last := tensors[..|tensors| - 1], tensors[|tensors| - 1];
      Gone(front, expected) + (if last.name in expected then [last] else [])
  }

  /** A dictionary of sizes in insertion order. */
  datatype Size = Size(name: string, bytes: nat)

  function Sum(sizes: seq<Size>): nat {
    if sizes == [] then 0 else Sum(sizes[..|sizes| - 1]) + sizes[|sizes| - 1].bytes
  }

  function Keys(sizes: seq<Size>): set<string> {
    set size | size in sizes :: size.name
  }

  /** `dict[name] = bytes`. */
  function Put(sizes: seq<Size>, name: string, bytes: nat): seq<Size> {
    if sizes == [] then [Size(name, bytes)]
    else
      var n := |sizes| - 1;
      if sizes[n].name == name then sizes[..n] + [Size(name, bytes)]
      else Put(sizes[..n], name, bytes) + [sizes[n]]
  }

  lemma {:induction false} PutNew(sizes: seq<Size>, name: string, bytes: nat)
    requires name !in Keys(sizes)
    ensures Sum(Put(sizes, name, bytes)) == Sum(sizes) + bytes
    ensures Keys(Put(sizes, name, bytes)) == Keys(sizes) + {name}
    decreases |sizes|
  {
    if sizes != [] {
      var n := |sizes| - 1;
      assert sizes[n] in sizes && sizes == sizes[..n] + [sizes[n]];
      assert Keys(sizes) == Keys(sizes[..n]) + {sizes[n].name};
      PutNew(sizes[..n], name, bytes);
      var put := Put(sizes[..n], name, bytes);
      assert (put + [sizes[n]])[..|put|] == put;
      assert Keys(put + [sizes[n]]) == Keys(put) + {sizes[n].name};
    } else {
      assert [Size(name, bytes)][..0] == [];
      assert Keys([Size(name, bytes)]) == {name};
    }
  }

  lemma KeptSnoc(tensors: seq<Tensor>, t: Tensor, expected: set<string>)
    ensures t.name in expected ==>
              && Kept(tensors + [t], expected) == Kept(tensors, expected)
              && Gone(tensors + [t], expected) == Gone(tensors, expected) + [t]
    ensures t.name !in expected ==>
              && Kept(tensors + [t], expected) == Kept(tensors, expected) + [t]
              && Gone(tensors + [t], expected) == Gone(tensors, expected)
  {
    assert (tensors + [t])[..|tensors|] == tensors;
  }

  /** Bytes are neither lost nor made. */
  lemma {:induction false} BytesConserved(tensors: seq<Tensor>, expected: set<string>)
    ensures DataBytes(tensors) == DataBytes(Kept(tensors, expected)) + DataBytes(Gone(tensors, expected))
    decreases |tensors|
  {
    if tensors != [] {
      var n := |tensors| - 1;
      BytesConserved(tensors[..n], expected);
      BytesSnoc(Kept(tensors[..n], expected), tensors[n]);
      BytesSnoc(Gone(tensors[..n], expected), tensors[n]);
    }
  }

  lemma BytesSnoc(tensors: seq<Tensor>, t: Tensor)
    ensures DataBytes(tensors + [t]) == DataBytes(tensors) + |t.data|
    ensures DataBytes(tensors + []) == DataBytes(tensors)
  {
    assert (tensors + [t])[..|tensors|] == tensors && tensors + [] == tensors;
  }

  lemma {:induction false} KeptNames(tensors: seq<Tensor>, expected: set<string>)
    ensures Names(Kept(tensors, expected)) == Names(tensors) - expected
    decreases |tensors|
  {
    if tensors != [] {
      var n := |tensors| - 1;
      var front, last := tensors[..n], tensors[n];
      KeptNames(front, expected);
      NamesSnoc(front, last);
      NamesSnoc(Kept(front, expected), last);
      assert tensors == front + [last];
    }
  }

  lemma NamesSnoc(tensors: seq<Tensor>, t: Tensor)
    ensures Names(tensors + [t]) == Names(tensors) + {t.name}
    ensures Names(tensors + []) == Names(tensors)
  {
    assert tensors + [] == tensors;
  }

  lemma {:induction false} KeptFrom(tensors: seq<Tensor>, expected: set<string>)
    ensures forall t | t in Kept(tensors, expected) :: t in tensors
    ensures DistinctNames(tensors) ==> DistinctNames(Kept(tensors, expected))
    decreases |tensors|
  {
    if tensors != [] {
      var n := |tensors| - 1;
      var front, last := tensors[..n], tensors[n];
      KeptFrom(front, expected);
      assert tensors == front + [last];
      if DistinctNames(tensors) {
        var kept := Kept(front, expected);
        forall i | 0 <= i < |kept| ensures kept[i].name != last.name {
          assert kept[i] in kept && kept[i] in front;
          var k :| 0 <= k < n && tensors[k] == kept[i];
        }
      }
    }
  }

  /** A shard as the owner of some tensors. */
  ghost function OwnedBy(names: set<string>, shard: nat): map<string, nat> {
    map name | name in names :: shard
  }

  /** Record that a shard owns its tensors, unless another shard owns one of them. */
  method ClaimUniqueOwnership(owners: map<string, nat>, shard: nat, tensors: seq<Tensor>)
    returns (r: Option<map<string, nat>>)
    ensures r.Some? <==> owners.Keys !! Names(tensors)
    ensures r.Some? ==> r.value.Keys == owners.Keys + Names(tensors)
    ensures r.Some? ==> r.value == owners + OwnedBy(Names(tensors), shard)
  {
    if t :| t in tensors && t.name in owners {
      assert t.name in Names(tensors);
      return None;
    }
    forall t | t in tensors ensures t.name !in owners {}
    return Some(owners + map t | t in tensors :: t.name := shard);
  }

  /** The tensors read so far have been told apart. */
  ghost predicate Filtered(tensors: seq<Tensor>, expected: set<string>, before: seq<Size>, kept: seq<Tensor>,
                           removed: seq<Size>)
  {
    && kept == Kept(tensors, expected)
    && Keys(removed) == Keys(before) + Names(tensors) * expected
    && Sum(removed) == Sum(before) + DataBytes(Gone(tensors, expected))
  }

  lemma FilterOne(tensors: seq<Tensor>, t: Tensor, expected: set<string>, before: seq<Size>, kept: seq<Tensor>,
                  removed: seq<Size>)
    requires Filtered(tensors, expected, before, kept, removed) && t.name !in Keys(before) + Names(tensors)
    ensures t.name in expected ==> Filtered(tensors + [t], expected, before, kept, Put(removed, t.name, |t.data|))
    ensures t.name !in expected ==> Filtered(tensors + [t], expected, before, kept + [t], removed)
  {
    KeptSnoc(tensors, t, expected);
    NamesSnoc(tensors, t);
    MeetSnoc(Names(tensors), t.name, expected);
    if t.name in expected {
      BytesSnoc(Gone(tensors, expected), t);
      PutNew(removed, t.name, |t.data|);
    }
  }

  lemma MeetSnoc(names: set<string>, name: string, expected: set<string>)
    ensures (names + {name}) * expected == if name in expected then names * expected + {name} else names * expected
  {
  }

  lemma FreshName(tensors: seq<Tensor>, i: nat, removed: seq<Size>)
    requires DistinctNames(tensors) && i < |tensors| && Keys(removed) !! Names(tensors)
    ensures tensors[i].name !in Keys(removed) + Names(tensors[..i])
    ensures tensors[..i + 1] == tensors[..i] + [tensors[i]]
  {
    assert tensors[i].name in Names(tensors) by { assert tensors[i] in tensors; }
  }

  /** Split the tensors of one shard, recording the size of each one that goes. */
  method Filter(tensors: seq<Tensor>, expected: set<string>, removed: seq<Size>)
    returns (kept: seq<Tensor>, removed': seq<Size>)
    requires DistinctNames(tensors) && Keys(removed) !! Names(tensors)
    ensures kept == Kept(tensors, expected)
    ensures Keys(removed') == Keys(removed) + Names(tensors) * expected
    ensures Sum(removed') == Sum(removed) + DataBytes(Gone(tensors, expected))
  {
    kept, removed' := [], removed;
    for i := 0 to |tensors|
      invariant Filtered(tensors[..i], expected, removed, kept, removed')
    {
      var t := tensors[i];
      FreshName(tensors, i, removed);
      FilterOne(tensors[..i], t, expected, removed, kept, removed');
      if t.name in expected {
        removed' := Put(removed', t.name, |t.data|);
      } else {
        kept := kept + [t];
      }
    }
    assert tensors[..|tensors|] == tensors;
  }

  // ----- whole checkpoints

  ghost function TensorsIn(blob: Bytes): seq<Tensor> {
    if Load(blob).Some? then Load(blob).value.tensors else []
  }

  ghost function AllNames(shards: seq<Bytes>): set<string> {
    if shards == [] then {} else AllNames(shards[..|shards| - 1]) + Names(TensorsIn(shards[|shards| - 1]))
  }

  ghost function AllBytes(shards: seq<Bytes>): nat {
    if shards == [] then 0 else AllBytes(shards[..|shards| - 1]) + DataBytes(TensorsIn(shards[|shards| - 1]))
  }

  /** Which shard owns each tensor. */
  ghost function OwnersOf(shards: seq<Bytes>): map<string, nat> {
    if shards == [] then map[]
    else
      var n := |shards| - 1;
      OwnersOf(shards[..n]) + OwnedBy(Names(TensorsIn(shards[n])), n)
  }

  /** The contents of a shard without the tensors that go. */
  ghost function Stripped(blob: Bytes, expected: set<string>): Contents
    requires Load(blob).Some?
  {
    Contents(Load(blob).value.metadata, Kept(Load(blob).value.tensors, expected))
  }

  /** Every shard is accepted, and no tensor has two owners. */
  ghost predicate Owned(shards: seq<Bytes>) {
    forall i | 0 <= i < |shards| :: OwnedAt(shards, i)
  }

  ghost predicate OwnedAt(shards: seq<Bytes>, i: nat)
    requires i < |shards|
  {
    Load(shards[i]).Some? && Names(TensorsIn(shards[i])) !! AllNames(shards[..i])
  }

  /** The header that a stripped shard gets is within the limit. */
  ghost predicate HeaderFits(blob: Bytes, expected: set<string>) {
    Load(blob).Some? && |EncodeJson(HeaderOf(Stripped(blob, expected)))| <= MAX_HEADER_BYTES
  }

  lemma AllSnoc(shards: seq<Bytes>, blob: Bytes)
    ensures AllNames(shards + [blob]) == AllNames(shards) + Names(TensorsIn(blob))
    ensures AllBytes(shards + [blob]) == AllBytes(shards) + DataBytes(TensorsIn(blob))
    ensures OwnersOf(shards + [blob]) == OwnersOf(shards) + OwnedBy(Names(TensorsIn(blob)), |shards|)
  {
    assert (shards + [blob])[..|shards|] == shards;
  }

  /** Rewriting the tensors that stay and reading them again gives them back. */
  lemma RewriteRestores(blob: Bytes, expected: set<string>)
    requires JsonCodec() && Load(blob).Some? && |EncodeJson(HeaderOf(Stripped(blob, expected)))| < LENGTH_SPAN
    ensures Load(FileOf(Stripped(blob, expected))) ==
            if HeaderFits(blob, expected) then Some(Stripped(blob, expected)) else None
  {
    AcceptedFile(blob, 0);
    var contents := Load(blob).value;
    KeptFrom(contents.tensors, expected);
    WriteThenRead(Stripped(blob, expected));
  }

  /** The first pass: every shard is accepted and owns its tensors alone. */
  method ClaimAll(shards: seq<Bytes>) returns (owners: Option<map<string, nat>>, total: nat)
    ensures owners.Some? <==> Owned(shards)
    ensures owners.Some? ==> owners.value == OwnersOf(shards) && total == AllBytes(shards)
  {
    var claims: map<string, nat> := map[];
    total := 0;
    for i := 0 to |shards|
      invariant Owned(shards[..i]) && claims == OwnersOf(shards[..i]) && total == AllBytes(shards[..i])
    {
      PrefixSnoc(shards, i);
      AllSnoc(shards[..i], shards[i]);
      OwnersKeys(shards[..i]);
      assert shards[..i + 1][i] == shards[i];
      var contents := ReadSafetensors(shards[i]);
      if contents.None? {
        assert !OwnedAt(shards, i);
        return None, total;
      }
      var claimed := ClaimUniqueOwnership(claims, i, contents.value.tensors);
      if claimed.None? {
        assert !OwnedAt(shards, i);
        return None, total;
      }
      claims := claimed.value;
      var bytes := SumData(contents.value.tensors);
      total := total + bytes;
      OwnedOne(shards, i);
    }
    assert shards[..|shards|] == shards;
    return Some(claims), total;
  }

  /** The data bytes of some tensors, added up. */
  method SumData(tensors: seq<Tensor>) returns (total: nat)
    ensures total == DataBytes(tensors)
  {
    total := 0;
    for i := 0 to |tensors|
      invariant total == DataBytes(tensors[..i])
    {
      PrefixSnoc(tensors, i);
      BytesSnoc(tensors[..i], tensors[i]);
      total := total + |tensors[i].data|;
    }
    assert tensors[..|tensors|] == tensors;
  }

  lemma {:induction false} OwnersKeys(shards: seq<Bytes>)
    ensures OwnersOf(shards).Keys == AllNames(shards)
    decreases |shards|
  {
    if shards != [] { OwnersKeys(shards[..|shards| - 1]); }
  }

  lemma OwnedPrefix(shards: seq<Bytes>, n: nat, i: nat)
    requires i < n <= |shards|
    ensures OwnedAt(shards[..n], i) <==> OwnedAt(shards, i)
  {
    assert shards[..n][..i] == shards[..i];
  }

  lemma OwnedOne(shards: seq<Bytes>, n: nat)
    requires n < |shards| && Owned(shards[..n]) && OwnedAt(shards, n)
    ensures Owned(shards[..n + 1])
  {
    var longer := shards[..n + 1];
    forall i | 0 <= i < |longer| ensures OwnedAt(longer, i) {
      OwnedPrefix(shards, n + 1, i);
      if i < n { OwnedPrefix(shards, n, i); }
    }
  }

  /** A rewritten shard reads back as the surviving tensors of the one it came from. */
  ghost predicate Restores(blob: Bytes, blob': Bytes, expected: set<string>) {
    Load(blob).Some? && Load(blob') == Some(Stripped(blob, expected))
  }

  ghost predicate AllRestored(shards: seq<Bytes>, out: seq<Bytes>, expected: set<string>) {
    |out| == |shards| && forall i | 0 <= i < |shards| :: Restores(shards[i], out[i], expected)
  }

  lemma RestoredSnoc(shards: seq<Bytes>, blob: Bytes, out: seq<Bytes>, blob': Bytes, expected: set<string>)
    requires AllRestored(shards, out, expected) && Restores(blob, blob', expected)
    ensures AllRestored(shards + [blob], out + [blob'], expected)
  {
  }

  /** The first shards have been rewritten; `removed` and the output account for all of their bytes. */
  ghost predicate Rewritten(shards: seq<Bytes>, out: seq<Bytes>, expected: set<string>, removed: seq<Size>) {
    && AllRestored(shards, out, expected)
    && Keys(removed) == AllNames(shards) * expected && AllNames(out) == AllNames(shards) - expected
    && AllBytes(shards) == AllBytes(out) + Sum(removed)
  }

  lemma RewriteNames(shards: seq<Bytes>, blob: Bytes, out: seq<Bytes>, blob': Bytes, expected: set<string>,
                     before: set<string>)
    requires Load(blob).Some? && Load(blob') == Some(Stripped(blob, expected))
    requires before == AllNames(shards) * expected && AllNames(out) == AllNames(shards) - expected
    ensures before + Names(TensorsIn(blob)) * expected == AllNames(shards + [blob]) * expected
    ensures AllNames(out + [blob']) == AllNames(shards + [blob]) - expected
  {
    AllSnoc(shards, blob);
    AllSnoc(out, blob');
    KeptNames(TensorsIn(blob), expected);
  }

  lemma RewriteBytes(shards: seq<Bytes>, blob: Bytes, out: seq<Bytes>, blob': Bytes, expected: set<string>, before: nat)
    requires Load(blob).Some? && Load(blob') == Some(Stripped(blob, expected))
    requires AllBytes(shards) == AllBytes(out) + before
    ensures AllBytes(shards + [blob]) == AllBytes(out + [blob']) + (before + DataBytes(Gone(TensorsIn(blob), expected)))
  {
    AllSnoc(shards, blob);
    AllSnoc(out, blob');
    BytesConserved(TensorsIn(blob), expected);
  }

  lemma RewriteOne(shards: seq<Bytes>, blob: Bytes, out: seq<Bytes>, blob': Bytes, expected: set<string>,
                   removed: seq<Size>, removed': seq<Size>)
    requires Rewritten(shards, out, expected, removed) && Load(blob).Some?
             && Load(blob') == Some(Stripped(blob, expected))
    requires Keys(removed') == Keys(removed) + Names(TensorsIn(blob)) * expected
    requires Sum(removed') == Sum(removed) + DataBytes(Gone(TensorsIn(blob), expected))
    ensures Rewritten(shards + [blob], out + [blob'], expected, removed')
  {
    RestoredSnoc(shards, blob, out, blob', expected);
    RewriteNames(shards, blob, out, blob', expected, Keys(removed));
    RewriteBytes(shards, blob, out, blob', expected, Sum(removed));
  }

  /** Rewrite one shard and read it again; only a header over the limit stops it. */
  method StripShard(blob: Bytes, shard: nat, expected: set<string>, removed: seq<Size>, owners: map<string, nat>)
    returns (r: Option<Bytes>, removed': seq<Size>, owners': map<string, nat>)
    requires JsonCodec() && Load(blob).Some? && DistinctNames(TensorsIn(blob))
    requires Keys(removed) !! Names(TensorsIn(blob)) && owners.Keys !! Names(TensorsIn(blob))
    ensures r.Some? <==> HeaderFits(blob, expected)
    ensures r.Some? ==>
              && Load(r.value) == Some(Stripped(blob, expected))
              && owners' == owners + OwnedBy(Names(TensorsIn(r.value)), shard)
    ensures r.Some? ==> Keys(removed') == Keys(removed) + Names(TensorsIn(blob)) * expected
    ensures r.Some? ==> Sum(removed') == Sum(removed) + DataBytes(Gone(TensorsIn(blob), expected))
  {
    owners' := owners;
    var contents := ReadSafetensors(blob);
    var kept;
    kept, removed' := Filter(contents.value.tensors, expected, removed);
    KeptNames(contents.value.tensors, expected);
    var rewritten := WriteSafetensors(Contents(contents.value.metadata, kept));
    if rewritten.None? {
      return None, removed', owners;
    }
    RewriteRestores(blob, expected);
    var reread := ReadSafetensors(rewritten.value);
    if reread.None? {
      return None, removed', owners;
    }
    var claimed := ClaimUniqueOwnership(owners, shard, reread.value.tensors);
    if claimed.None? || reread.value.tensors != kept {
      assert false;
      return None, removed', owners;
    }
    return rewritten, removed', claimed.value;
  }

  lemma RewriteStep(shards: seq<Bytes>, i: nat, out: seq<Bytes>, blob: Bytes, expected: set<string>,
                    removed: seq<Size>, removed': seq<Size>)
    requires i < |shards| && Rewritten(shards[..i], out, expected, removed)
    requires Load(shards[i]).Some? && Load(blob) == Some(Stripped(shards[i], expected))
    requires Keys(removed') == Keys(removed) + Names(TensorsIn(shards[i])) * expected
    requires Sum(removed') == Sum(removed) + DataBytes(Gone(TensorsIn(shards[i]), expected))
    ensures Rewritten(shards[..i + 1], out + [blob], expected, removed')
    ensures OwnersOf(out + [blob]) == OwnersOf(out) + OwnedBy(Names(TensorsIn(blob)), |out|)
  {
    PrefixSnoc(shards, i);
    AllSnoc(out, blob);
    RewriteOne(shards[..i], shards[i], out, blob, expected, removed, removed');
  }

  /** The names claimed so far do not clash with the next shard. */
  lemma NextIsFree(shards: seq<Bytes>, i: nat, out: seq<Bytes>, expected: set<string>, removed: seq<Size>)
    requires JsonCodec() && Owned(shards) && i < |shards| && Rewritten(shards[..i], out, expected, removed)
    ensures Load(shards[i]).Some? && DistinctNames(TensorsIn(shards[i]))
    ensures Keys(removed) !! Names(TensorsIn(shards[i])) && OwnersOf(out).Keys !! Names(TensorsIn(shards[i]))
  {
    AcceptedIn(shards, i);
    OwnersKeys(out);
  }

  ghost predicate AllFit(shards: seq<Bytes>, n: nat, expected: set<string>)
    requires n <= |shards|
  {
    forall k | 0 <= k < n :: HeaderFits(shards[k], expected)
  }

  lemma OneMoreFits(shards: seq<Bytes>, n: nat, expected: set<string>)
    requires n < |shards| && AllFit(shards, n, expected) && HeaderFits(shards[n], expected)
    ensures AllFit(shards, n + 1, expected)
  {
  }

  lemma RewriteNone(shards: seq<Bytes>, expected: set<string>)
    ensures Rewritten(shards[..0], [], expected, [])
  {
    assert shards[..0] == [];
    assert Keys([]) == {};
  }

  lemma WholePrefix(shards: seq<Bytes>)
    ensures shards[..|shards|] == shards
  {
  }

  /** The second pass: rewrite shard after shard. */
  method RewriteAll(shards: seq<Bytes>, expected: set<string>)
    returns (r: Option<seq<Bytes>>, removed: seq<Size>, owners: map<string, nat>)
    requires JsonCodec() && Owned(shards)
    ensures r.Some? <==> AllFit(shards, |shards|, expected)
    ensures r.Some? ==> Rewritten(shards, r.value, expected, removed) && owners == OwnersOf(r.value)
  {
    removed, owners := [], map[];
    var out: seq<Bytes> := [];
    RewriteNone(shards, expected);
    for i := 0 to |shards|
      invariant Rewritten(shards[..i], out, expected, removed)
      invariant owners == OwnersOf(out)
      invariant AllFit(shards, i, expected)
    {
      NextIsFree(shards, i, out, expected, removed);
      var blob, removed';
      blob, removed', owners := StripShard(shards[i], i, expected, removed, owners);
      if blob.None? {
        return None, removed, owners;
      }
      RewriteStep(shards, i, out, blob.value, expected, removed, removed');
      OneMoreFits(shards, i, expected);
      removed, out := removed', out + [blob.value];
    }
    WholePrefix(shards);
    return Some(out), removed, owners;
  }

  // ----- the index of a sharded checkpoint

  datatype TotalSize = Total(bytes: int) | NotAnInteger

  datatype IndexMetadata = NoMetadata | Fields(totalSize: Option<TotalSize>) | NotAnObject

  /** The index file: which shard holds each tensor, if it says so, and its metadata. */
  datatype Index = Index(weightMap: Option<map<string, nat>>, metadata: IndexMetadata)

  /** An index says exactly where the tensors are and, if it says so, how many bytes they have; only a
      single shard may do without one. */
  ghost predicate Describes(index: Option<Index>, shards: seq<Bytes>) {
    Indexes(index, OwnersOf(shards), AllBytes(shards), |shards|)
  }

  ghost predicate Indexes(index: Option<Index>, owners: map<string, nat>, total: nat, count: nat) {
    match index
    case None => count <= 1
    case Some(i) =>
      && i.weightMap == Some(owners) && !i.metadata.NotAnObject?
      && (i.metadata.Fields? && i.metadata.totalSize.Some? ==> i.metadata.totalSize.value == Total(total))
  }

  method CheckIndex(index: Option<Index>, owners: map<string, nat>, total: nat, count: nat) returns (ok: bool)
    ensures ok <==> Indexes(index, owners, total, count)
  {
    if index.None? {
      return count <= 1;
    }
    if index.value.weightMap != Some(owners) || index.value.metadata.NotAnObject? {
      return false;
    }
    if index.value.metadata.Fields? && index.value.metadata.totalSize.Some? {
      return index.value.metadata.totalSize.value == Total(total);
    }
    return true;
  }

  /** Surviving tensors stay in their shards. */
  lemma {:induction false} OwnersStripped(shards: seq<Bytes>, out: seq<Bytes>, expected: set<string>)
    requires AllRestored(shards, out, expected)
    ensures OwnersOf(out) == OwnersOf(shards) - expected
    decreases |shards|
  {
    if shards != [] {
      var n := |shards| - 1;
      RestoredFront(shards, out, expected);
      OwnersStripped(shards[..n], out[..n], expected);
      RestoredNames(shards[n], out[n], expected);
      DropOwners(OwnersOf(shards[..n]), Names(TensorsIn(shards[n])), n, expected);
    }
  }

  lemma RestoredNames(blob: Bytes, blob': Bytes, expected: set<string>)
    requires Restores(blob, blob', expected)
    ensures Names(TensorsIn(blob')) == Names(TensorsIn(blob)) - expected
  {
    KeptNames(TensorsIn(blob), expected);
  }

  lemma DropOwners(owners: map<string, nat>, names: set<string>, shard: nat, expected: set<string>)
    ensures (owners + OwnedBy(names, shard)) - expected == (owners - expected) + OwnedBy(names - expected, shard)
  {
  }

  lemma RestoredFront(shards: seq<Bytes>, out: seq<Bytes>, expected: set<string>)
    requires AllRestored(shards, out, expected) && shards != []
    ensures AllRestored(shards[..|shards| - 1], out[..|shards| - 1], expected)
    ensures Restores(shards[|shards| - 1], out[|shards| - 1], expected)
  {
  }

  /** Drop the removed tensors from the index; the new index must name exactly the output's owners. */
  method RewriteIndex(index: Option<Index>, expected: set<string>, owners: map<string, nat>, total: nat, removed: nat,
                      ghost before: map<string, nat>, ghost count: nat) returns (r: Option<Option<Index>>)
    requires Indexes(index, before, total, count) && owners == before - expected && removed <= total
    ensures r.Some? && Indexes(r.value, owners, total - removed, count)
    ensures index.Some? <==> r.value.Some?
    ensures index.Some? ==>
              (r.value.value.metadata.Fields? <==> index.value.metadata.Fields?)
              && (index.value.metadata.Fields? ==>
                    (r.value.value.metadata.totalSize.Some? <==> index.value.metadata.totalSize.Some?))
  {
    if index.None? {
      return Some(None);
    }
    var weightMap := index.value.weightMap.value - expected;
    if weightMap != owners {
      assert false;
      return None;
    }
    var metadata := index.value.metadata;
    if metadata.Fields? && metadata.totalSize.Some? {
      metadata := Fields(Some(Total(total - removed)));
    }
    return Some(Some(Index(Some(weightMap), metadata)));
  }

  lemma OutputFacts(shards: seq<Bytes>, out: seq<Bytes>, expected: set<string>, removed: seq<Size>)
    requires Rewritten(shards, out, expected, removed)
    ensures OwnersOf(out) == OwnersOf(shards) - expected && |out| == |shards|
    ensures AllBytes(out) == AllBytes(shards) - Sum(removed)
    ensures expected <= AllNames(shards) <==> Keys(removed) == expected
  {
    OwnersStripped(shards, out, expected);
    MeetAll(AllNames(shards), expected);
  }

  lemma MeetAll(names: set<string>, expected: set<string>)
    ensures expected <= names <==> names * expected == expected
  {
    if names * expected == expected {
      forall name | name in expected ensures name in names { assert name in names * expected; }
    }
  }

  datatype Checkpoint = Checkpoint(shards: seq<Bytes>, index: Option<Index>)

  /** Strip a checkpoint.  It succeeds exactly when there are shards, every one is accepted, no tensor has
      two owners, the index describes them, the rewritten headers fit, and every tensor to remove is
      present; then each shard keeps all of its other tensors, in order and unchanged, the bytes removed
      are the bytes missing, and the new index describes the new shards. */
  method Strip(source: Checkpoint, expected: set<string>) returns (r: Option<Checkpoint>, removed: seq<Size>)
    requires JsonCodec()
    ensures r.Some? <==>
              && source.shards != [] && Owned(source.shards) && Describes(source.index, source.shards)
              && AllFit(source.shards, |source.shards|, expected) && expected <= AllNames(source.shards)
    ensures r.Some? ==>
              && Rewritten(source.shards, r.value.shards, expected, removed) && Keys(removed) == expected
              && Describes(r.value.index, r.value.shards) && (source.index.Some? <==> r.value.index.Some?)
  {
    removed := [];
    if source.shards == [] {
      return None, removed;
    }
    var claimed, total := ClaimAll(source.shards);
    if claimed.None? {
      return None, removed;
    }
    var described := CheckIndex(source.index, claimed.value, total, |source.shards|);
    if !described {
      return None, removed;
    }
    r, removed := Rebuild(source, expected, claimed.value, total);
  }

  /** The index of the rewritten shards. */
  method Reindex(source: Checkpoint, ghost out: seq<Bytes>, expected: set<string>, ghost before: map<string, nat>,
                 owners: map<string, nat>, total: nat, removed: seq<Size>) returns (index: Option<Index>)
    requires Describes(source.index, source.shards) && |out| == |source.shards|
    requires before == OwnersOf(source.shards) && owners == OwnersOf(out) == before - expected
    requires total == AllBytes(source.shards) == AllBytes(out) + Sum(removed)
    ensures Describes(index, out) && (source.index.Some? <==> index.Some?)
  {
    var rewritten := RewriteIndex(source.index, expected, owners, total, Sum(removed), before, |source.shards|);
    index := rewritten.value;
  }

  /** The second half of stripping, for a checkpoint that has passed its checks. */
  method Rebuild(source: Checkpoint, expected: set<string>, before: map<string, nat>, total: nat)
    returns (r: Option<Checkpoint>, removed: seq<Size>)
    requires JsonCodec() && Owned(source.shards) && Describes(source.index, source.shards)
    requires before == OwnersOf(source.shards) && total == AllBytes(source.shards)
    ensures r.Some? <==> AllFit(source.shards, |source.shards|, expected) && expected <= AllNames(source.shards)
    ensures r.Some? ==>
              && Rewritten(source.shards, r.value.shards, expected, removed) && Keys(removed) == expected
              && Describes(r.value.index, r.value.shards) && (source.index.Some? <==> r.value.index.Some?)
  {
    var out, owners;
    out, removed, owners := RewriteAll(source.shards, expected);
    if out.None? {
      return None, removed;
    }
    OutputFacts(source.shards, out.value, expected, removed);
    if Keys(removed) != expected {
      return None, removed;
    }
    var index := Reindex(source, out.value, expected, before, owners, total, removed);
    return Some(Checkpoint(out.value, index)), removed;
  }

  lemma AcceptedIn(shards: seq<Bytes>, i: nat)
    requires JsonCodec() && Owned(shards) && i < |shards|
    ensures Load(shards[i]).Some? && Names(TensorsIn(shards[i])) !! AllNames(shards[..i])
    ensures DistinctNames(TensorsIn(shards[i]))
  {
    assert OwnedAt(shards, i);
    AcceptedFile(shards[i], 0);
  }
}
