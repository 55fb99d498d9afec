/** Giving migrated knowledge rows distinct identities: all but one row of each clash move to device 0,
    at an inode found by probing from a digest of the row's own identity. */
module Migration {
  import opened Records

  /** The values a probed inode takes: 1 up to the largest 64-bit number. */
  const INODES: nat := 0xffff_ffff_ffff_ffff

  /** The first eight digest bytes of a row's identity. */
  const DigestWord: Id -> nat

  datatype Row = Row(device: nat, inode: nat, key: string, updatedAt: Time, legacy: bool, content: Bytes)

  datatype Identity = Identity(device: nat, inode: nat, key: string)

  function IdentityOf(row: Row): Identity {
    Identity(row.device, row.inode, row.key)
  }

  /** The unique constraint of the new table. */
  ghost predicate AllDistinct(rows: map<Id, Row>) {
    forall a, b | a in rows && b in rows && a != b :: IdentityOf(rows[a]) != IdentityOf(rows[b])
  }

  predicate Newer(rows: map<Id, Row>, a: Id, b: Id)
    requires a in rows && b in rows
  {
    rows[a].updatedAt > rows[b].updatedAt || (rows[a].updatedAt == rows[b].updatedAt && a > b)
  }

  /** Another row of the clash group comes first by `updated_at DESC, id DESC`. */
  predicate IsDuplicate(rows: map<Id, Row>, id: Id) {
    id in rows && exists other | other in rows ::
      other != id && IdentityOf(rows[other]) == IdentityOf(rows[id]) && Newer(rows, other, id)
  }

  predicate Collides(rows: map<Id, Row>, id: Id, inode: nat, key: string) {
    exists other | other in rows :: other != id && IdentityOf(rows[other]) == Identity(0, inode, key)
  }

  function FirstInode(id: Id): (inode: nat)
    ensures 1 <= inode <= INODES
  {
    var word := DigestWord(id) % (INODES + 1);
    if word < 1 then 1 else word
  }

  /** Add one; after the largest number comes 1 again. */
  function NextInode(inode: nat): nat {
    if inode + 1 > INODES then 1 else inode + 1
  }

  /** The inode of the k-th probe. */
  ghost function Probe(start: nat, k: nat): (inode: nat)
    requires 1 <= start <= INODES
    ensures 1 <= inode <= INODES
  {
    if k == 0 then start else NextInode(Probe(start, k - 1))
  }

  /** Within one round the probes are the numbers from the start on, wrapped once. */
  lemma {:induction false} ProbeValue(start: nat, k: nat)
    requires 1 <= start <= INODES && k < INODES
    ensures Probe(start, k) == if start + k <= INODES then start + k else start + k - INODES
  {
    if k > 0 { ProbeValue(start, k - 1); }
  }

  ghost function Probes(start: nat, n: nat): set<nat>
    requires 1 <= start <= INODES
  {
    if n == 0 then {} else Probes(start, n - 1) + {Probe(start, n - 1)}
  }

  ghost predicate Probed(start: nat, n: nat, inode: nat)
    requires 1 <= start <= INODES
  {
    exists k | 0 <= k < n :: inode == Probe(start, k)
  }

  lemma {:induction false} ProbesDistinct(start: nat, n: nat)
    requires 1 <= start <= INODES && n <= INODES
    ensures |Probes(start, n)| == n
    ensures forall inode | inode in Probes(start, n) :: Probed(start, n, inode)
  {
    if n > 0 {
      ProbesDistinct(start, n - 1);
      if Probe(start, n - 1) in Probes(start, n - 1) {
        assert Probed(start, n - 1, Probe(start, n - 1));
        var k :| 0 <= k < n - 1 && Probe(start, n - 1) == Probe(start, k);
        ProbeValue(start, k);
        ProbeValue(start, n - 1);
      }
      forall inode | inode in Probes(start, n) ensures Probed(start, n, inode) {
        var k := n - 1;
        if inode in Probes(start, n - 1) {
          assert Probed(start, n - 1, inode);
          k :| 0 <= k < n - 1 && inode == Probe(start, k);
        }
        assert inode == Probe(start, k);
      }
    }
  }

  /** The inodes that other rows occupy on device 0 under a key. */
  ghost function Taken(rows: map<Id, Row>, ids: set<Id>, key: string): set<nat>
    requires ids <= rows.Keys
  {
    set id | id in ids && rows[id].device == 0 && rows[id].key == key :: rows[id].inode
  }

  lemma {:induction false} TakenSize(rows: map<Id, Row>, ids: set<Id>, key: string)
    requires ids <= rows.Keys
    ensures |Taken(rows, ids, key)| <= |ids|
    decreases |ids|
  {
    if ids != {} {
      var id :| id in ids;
      var rest := ids - {id};
      TakenSize(rows, rest, key);
      assert Taken(rows, ids, key) <= Taken(rows, rest, key) + {rows[id].inode};
      SubsetSize(Taken(rows, ids, key), Taken(rows, rest, key) + {rows[id].inode});
    }
  }

  /** As many collisions in a row as there are rows is one too many. */
  lemma CollisionsBounded(rows: map<Id, Row>, id: Id, start: nat, key: string, n: nat)
    requires 1 <= start <= INODES && n <= INODES && id in rows
    requires forall k | 0 <= k < n :: Collides(rows, id, Probe(start, k), key)
    ensures n < |rows|
  {
    var others := rows.Keys - {id};
    ProbesDistinct(start, n);
    forall inode | inode in Probes(start, n) ensures inode in Taken(rows, others, key) {
      assert Probed(start, n, inode);
      var k :| 0 <= k < n && inode == Probe(start, k);
      var other :| other in rows && other != id && IdentityOf(rows[other]) == Identity(0, Probe(start, k), key);
      assert other in others;
    }
    SubsetSize(Probes(start, n), Taken(rows, others, key));
    TakenSize(rows, others, key);
  }

  /** Find a free inode for a row; the wrapping probe ends because there are fewer rows than inodes. */
  method FindInode(rows: map<Id, Row>, id: Id, key: string) returns (inode: nat)
    requires id in rows && |rows| <= INODES
    ensures 1 <= inode <= INODES && !Collides(rows, id, inode, key)
  {
    var start := FirstInode(id);
    inode := start;
    ghost var k := 0;
    while Collides(rows, id, inode, key)
      invariant k < |rows| && inode == Probe(start, k)
      invariant forall i | 0 <= i < k :: Collides(rows, id, Probe(start, i), key)
      decreases |rows| - k
    {
      CollisionsBounded(rows, id, start, key, k + 1);
      inode := NextInode(inode);
      k := k + 1;
    }
  }

  /** What a row becomes when it moves. */
  ghost predicate Moved(row: Row, row': Row) {
    row' == row.(device := 0, inode := row'.inode, legacy := true) && 1 <= row'.inode <= INODES
  }

  class KnowledgeTable {
    var rows: map<Id, Row>

    /** Every row is kept and ends with an identity of its own; the first row of each clash group keeps
        the one it had. */
    method Disambiguate()
      requires |rows| <= INODES
      modifies this
      ensures rows.Keys == old(rows).Keys && AllDistinct(rows)
      ensures forall id | id in rows && !IsDuplicate(old(rows), id) :: rows[id] == old(rows)[id]
      ensures forall id | id in rows && IsDuplicate(old(rows), id) :: Moved(old(rows)[id], rows[id])
    {
      var duplicates := set id | id in rows && IsDuplicate(rows, id);
      ProgressStart(rows, duplicates);
      while duplicates != {}
        invariant Progress(old(rows), rows, duplicates)
        decreases |duplicates|
      {
        ghost var least := Smallest(duplicates);
        var id :| id in duplicates && forall other | other in duplicates :: id <= other;
        SameSize(rows, old(rows));
        var inode := FindInode(rows, id, rows[id].key);
        MoveOne(old(rows), rows, duplicates, id, inode);
        rows := rows[id := rows[id].(device := 0, inode := inode, legacy := true)];
        duplicates := duplicates - {id};
      }
      ProgressEnd(old(rows), rows);
    }
  }

  /** Between two moves: the rows still to move are as they were, the others are settled and distinct. */
  ghost predicate Progress(before: map<Id, Row>, rows: map<Id, Row>, duplicates: set<Id>) {
    && rows.Keys == before.Keys && duplicates <= rows.Keys
    && (forall id | id in duplicates :: IsDuplicate(before, id) && rows[id] == before[id])
    && (forall id | id in rows && id !in duplicates ::
          if IsDuplicate(before, id) then Moved(before[id], rows[id]) else rows[id] == before[id])
    && (forall a, b | a in rows && b in rows && a !in duplicates && b !in duplicates && a != b ::
          IdentityOf(rows[a]) != IdentityOf(rows[b]))
  }

  lemma ProgressStart(rows: map<Id, Row>, duplicates: set<Id>)
    requires duplicates == set id | id in rows && IsDuplicate(rows, id)
    ensures Progress(rows, rows, duplicates)
  {
    forall a, b | a in rows && b in rows && a !in duplicates && b !in duplicates && a != b
      ensures IdentityOf(rows[a]) != IdentityOf(rows[b])
    {
      assert !IsDuplicate(rows, a) && !IsDuplicate(rows, b);
      assert Newer(rows, a, b) || Newer(rows, b, a);
    }
  }

  lemma ProgressEnd(before: map<Id, Row>, rows: map<Id, Row>)
    requires Progress(before, rows, {})
    ensures rows.Keys == before.Keys && AllDistinct(rows)
    ensures forall id | id in rows && !IsDuplicate(before, id) :: rows[id] == before[id]
    ensures forall id | id in rows && IsDuplicate(before, id) :: Moved(before[id], rows[id])
  {
  }

  lemma MoveOne(before: map<Id, Row>, rows: map<Id, Row>, duplicates: set<Id>, id: Id, inode: nat)
    requires Progress(before, rows, duplicates) && id in duplicates
    requires 1 <= inode <= INODES && !Collides(rows, id, inode, rows[id].key)
    ensures Progress(before, rows[id := rows[id].(device := 0, inode := inode, legacy := true)], duplicates - {id})
  {
    var row := rows[id].(device := 0, inode := inode, legacy := true);
    forall other | other in rows && other != id ensures IdentityOf(rows[other]) != IdentityOf(row) {}
  }

  lemma SameSize(a: map<Id, Row>, b: map<Id, Row>)
    requires a.Keys == b.Keys
    ensures |a| == |b|
  {
    assert |a| == |a.Keys| && |b| == |b.Keys|;
  }

  lemma {:induction false} Smallest(ids: set<Id>) returns (least: Id)
    requires ids != {}
    ensures least in ids && forall other | other in ids :: least <= other
    decreases |ids|
  {
    least :| least in ids;
    if ids != {least} {
      var rest := Smallest(ids - {least});
      forall other | other in ids && other != least ensures rest <= other { assert other in ids - {least}; }
      if rest < least { least := rest; }
    }
  }

  /** Each clash group has exactly one row that keeps its identity. */
  lemma {:induction false} LeaderExists(rows: map<Id, Row>, id: Id, group: set<Id>) returns (leader: Id)
    requires id in group && id in rows
    requires forall a | a in group :: a in rows && IdentityOf(rows[a]) == IdentityOf(rows[id])
    ensures leader in group && forall a | a in group && a != leader :: a in rows && Newer(rows, leader, a)
    decreases |group|
  {
    leader := id;
    if other :| other in group && other != id {
      var rest := LeaderExists(rows, other, group - {id});
      forall a | a in group && a != id && a != rest ensures a in rows && Newer(rows, rest, a) {
        assert a in group - {id};
      }
      if Newer(rows, rest, id) { leader := rest; }
    }
  }

  /** The row that keeps its identity is the one updated last, the greatest identifier among several. */
  lemma OneLeader(rows: map<Id, Row>, id: Id) returns (leader: Id)
    requires id in rows
    ensures leader in rows && IdentityOf(rows[leader]) == IdentityOf(rows[id]) && !IsDuplicate(rows, leader)
    ensures forall a | a in rows && IdentityOf(rows[a]) == IdentityOf(rows[id]) && a != leader ::
              && IsDuplicate(rows, a)
              && (|| rows[a].updatedAt < rows[leader].updatedAt
                  || (rows[a].updatedAt == rows[leader].updatedAt && a < leader))
  {
    var group := set a | a in rows && IdentityOf(rows[a]) == IdentityOf(rows[id]);
    leader := LeaderExists(rows, id, group);
    forall a | a in rows && IdentityOf(rows[a]) == IdentityOf(rows[id]) && a != leader
      ensures Newer(rows, leader, a) && IsDuplicate(rows, a)
    {
      assert a in group;
    }
  }
}
