/** The one-way import of the original archive: record validation, and the merge of all producers' records. */
module Legacy {
  import opened Common

  datatype Kind = EventRecord | Tombstone

  /** Injective stand-ins for the three digests of a record; payloads are canonical JSON. */
  datatype RecordId = RecordId(scope: string, source: string, sourceRecord: string)
  datatype ContentHash = ContentHash(payload: string)
  datatype RevisionHash = RevisionHash(
    scope: string,
    source: string,
    sourceRecord: string,
    kind: Kind,
    id: RecordId,
    revision: int,
    content: ContentHash)

  datatype Record = Record(
    kind: Kind,
    id: RecordId,
    revision: int,
    hash: RevisionHash,
    content: ContentHash,
    producer: string,
    scope: string,
    source: string,
    sourceRecord: string,
    payload: string)

  /** validate_record: the declared digests are those of the declared values. */
  predicate Validated(r: Record) {
    && r.revision >= 0
    && r.id == RecordId(r.scope, r.source, r.sourceRecord)
    && r.content == ContentHash(r.payload)
    && r.hash == RevisionHash(r.scope, r.source, r.sourceRecord, r.kind, r.id, r.revision, r.content)
  }

  /** A row of the merge table. */
  datatype Row = Row(revision: int, hash: RevisionHash, kind: Kind, source: string, payload: string)

  function RowOf(r: Record): Row {
    Row(r.revision, r.hash, r.kind, r.source, r.payload)
  }

  type Version = (RecordId, int)

  datatype Merged = Merged(latest: map<RecordId, Row>, producers: set<(RecordId, int, string)>, superseded: nat)

  // ---- the order-free meaning ----

  predicate Same(a: Record, b: Record) {
    a.id == b.id && a.revision == b.revision
  }

  predicate Clash(a: Record, b: Record) {
    Same(a, b) && a.hash != b.hash
  }

  function Clashes(records: seq<Record>): set<Version> {
    set a, b | a in records && b in records && Clash(a, b) :: (a.id, a.revision)
  }

  function Ids(records: seq<Record>): set<RecordId> {
    set r | r in records :: r.id
  }

  function Versions(records: seq<Record>): set<Version> {
    set r | r in records :: (r.id, r.revision)
  }

  function Producers(records: seq<Record>): set<(RecordId, int, string)> {
    set r | r in records :: (r.id, r.revision, r.producer)
  }

  predicate Superseded(records: seq<Record>, id: RecordId, revision: int) {
    exists r :: r in records && r.id == id && r.revision > revision
  }

  /** Every record is valid, and no revision has two hashes unless that is allowed and a later revision replaces it. */
  predicate Accepted(records: seq<Record>, allowSuperseded: bool) {
    && (forall r :: r in records ==> Validated(r))
    && forall v :: v in Clashes(records) ==> allowSuperseded && Superseded(records, v.0, v.1)
  }

  /** The row of the record's highest revision. */
  predicate IsNewest(records: seq<Record>, id: RecordId, row: Row) {
    && (exists r :: r in records && r.id == id && RowOf(r) == row)
    && (forall r :: r in records && r.id == id ==> r.revision <= row.revision)
  }

  predicate IsMerge(records: seq<Record>, allowSuperseded: bool, m: Result<Merged>) {
    && (m.Ok? <==> Accepted(records, allowSuperseded))
    && (m.Ok? ==>
         && m.value.latest.Keys == Ids(records)
         && (forall id :: id in m.value.latest ==> IsNewest(records, id, m.value.latest[id]))
         && m.value.producers == Producers(records)
         && m.value.superseded == |Clashes(records)|)
  }

  /** A declared digest is that of the declared values, for all three digests. */
  predicate Declares(r: Record) {
    && 0 <= r.revision
    && r.id.scope == r.scope && r.id.source == r.source && r.id.sourceRecord == r.sourceRecord
    && r.content.payload == r.payload
    && r.hash.scope == r.scope && r.hash.source == r.source && r.hash.sourceRecord == r.sourceRecord
    && r.hash.kind == r.kind && r.hash.id == r.id && r.hash.revision == r.revision && r.hash.content == r.content
  }

  /** The row is that of a record of this identity, and none of a later revision exists. */
  predicate KeptFrom(records: seq<Record>, id: RecordId, row: Row) {
    exists r :: r in records && r.id == id
      && row.revision == r.revision && row.hash == r.hash && row.kind == r.kind && row.source == r.source
      && row.payload == r.payload
      && forall x :: x in records && x.id == id ==> x.revision <= r.revision
  }

  /** Two records give one revision two hashes. */
  predicate Disagree(a: Record, b: Record) {
    a.id == b.id && a.revision == b.revision && a.hash != b.hash
  }

  /**
   The merge, told of the records: it is accepted if all declare their own digests and every disagreement is allowed and
   about a revision that a later one replaces; it then keeps the latest record's row of every identity, every
   producer of every revision, and how many revisions are disagreed about.
   */
  ghost predicate MergeTold(records: seq<Record>, allowSuperseded: bool, m: Result<Merged>) {
    && (m.Ok? <==>
          && (forall r :: r in records ==> Declares(r))
          && (forall a, b :: a in records && b in records && Disagree(a, b) ==>
                allowSuperseded && exists c :: c in records && c.id == a.id && c.revision > a.revision))
    && (m.Ok? ==>
          && (forall r :: r in records ==> r.id in m.value.latest)
          && (forall id :: id in m.value.latest ==> KeptFrom(records, id, m.value.latest[id]))
          && m.value.producers == (set r | r in records :: (r.id, r.revision, r.producer))
          && m.value.superseded == |set a, b | a in records && b in records && Disagree(a, b) :: (a.id, a.revision)|)
  }

  lemma MergeTells(records: seq<Record>, allowSuperseded: bool, m: Result<Merged>)
    requires IsMerge(records, allowSuperseded, m)
    ensures MergeTold(records, allowSuperseded, m)
  {
    assert forall r :: Validated(r) <==> Declares(r);
    assert forall a, b :: Clash(a, b) <==> Disagree(a, b);
    assert Clashes(records) == set a, b | a in records && b in records && Disagree(a, b) :: (a.id, a.revision);
    AcceptedTells(records, allowSuperseded);
    if m.Ok? {
      forall id | id in m.value.latest ensures KeptFrom(records, id, m.value.latest[id]) {
        assert IsNewest(records, id, m.value.latest[id]);
      }
      forall r | r in records ensures r.id in m.value.latest {
        assert r.id in Ids(records);
      }
    }
  }

  lemma AcceptedTells(records: seq<Record>, allowSuperseded: bool)
    ensures Accepted(records, allowSuperseded) <==>
              && (forall r :: r in records ==> Declares(r))
              && (forall a, b :: a in records && b in records && Disagree(a, b) ==>
                    allowSuperseded && exists c :: c in records && c.id == a.id && c.revision > a.revision)
  {
    assert forall r :: Validated(r) <==> Declares(r);
    if Accepted(records, allowSuperseded) {
      forall a, b | a in records && b in records && Disagree(a, b)
        ensures allowSuperseded && exists c :: c in records && c.id == a.id && c.revision > a.revision
      {
        assert Clash(a, b) && (a.id, a.revision) in Clashes(records);
      }
    } else if forall r :: r in records ==> Declares(r) {
      var v :| v in Clashes(records) && !(allowSuperseded && Superseded(records, v.0, v.1));
      var a, b :| a in records && b in records && Clash(a, b) && v == (a.id, a.revision);
      assert Disagree(a, b);
    }
  }

  /** Equal revision hashes of valid records mean equal contents, so a row does not depend on which copy was kept. */
  lemma HashFixesRow(a: Record, b: Record)
    requires Validated(a) && Validated(b) && a.hash == b.hash
    ensures RowOf(a) == RowOf(b) && a.id == b.id
  {
  }

  lemma NewestUnique(records: seq<Record>, allowSuperseded: bool, id: RecordId, a: Row, b: Row)
    requires Accepted(records, allowSuperseded) && IsNewest(records, id, a) && IsNewest(records, id, b)
    ensures a == b
  {
    var x :| x in records && x.id == id && RowOf(x) == a;
    var y :| y in records && y.id == id && RowOf(y) == b;
    assert Clash(x, y) ==> (x.id, x.revision) in Clashes(records);
    HashFixesRow(x, y);
  }

  /**
   The merge does not depend on the order in which producers' records arrive: archives with the same records are
   accepted or rejected alike, keep the same rows and producers, and report the same number of superseded conflicts.
   */
  lemma OrderIndependent(records: seq<Record>, others: seq<Record>, allowSuperseded: bool, a: Result<Merged>,
                         b: Result<Merged>)
    requires forall r :: r in records <==> r in others
    requires IsMerge(records, allowSuperseded, a) && IsMerge(others, allowSuperseded, b)
    ensures a == b
  {
    SameSets(records, others);
    SameVerdict(records, others, allowSuperseded);
    hide Clashes, Ids, Producers, Superseded;
    if a.Ok? {
      forall id | id in a.value.latest ensures a.value.latest[id] == b.value.latest[id] {
        NewestSame(records, others, id, b.value.latest[id]);
        NewestUnique(records, allowSuperseded, id, a.value.latest[id], b.value.latest[id]);
      }
      assert a.value.latest == b.value.latest;
    }
  }

  lemma SameSets(records: seq<Record>, others: seq<Record>)
    requires forall r :: r in records <==> r in others
    ensures Clashes(records) == Clashes(others) && Ids(records) == Ids(others)
            && Producers(records) == Producers(others)
  {
  }

  lemma NewestSame(records: seq<Record>, others: seq<Record>, id: RecordId, row: Row)
    requires (forall r :: r in records <==> r in others) && IsNewest(others, id, row)
    ensures IsNewest(records, id, row)
  {
  }

  lemma SameVerdict(records: seq<Record>, others: seq<Record>, allowSuperseded: bool)
    requires forall r :: r in records <==> r in others
    ensures Accepted(records, allowSuperseded) <==> Accepted(others, allowSuperseded)
  {
    SameSets(records, others);
    hide Clashes;
    assert forall id, revision :: Superseded(records, id, revision) <==> Superseded(others, id, revision);
  }

  // ---- the merge loop ----

  /** The four spool tables. */
  datatype Spool = Spool(
    latest: map<RecordId, Row>,
    producers: set<(RecordId, int, string)>,
    hashes: map<Version, RevisionHash>,
    conflicts: set<Version>)

  predicate Spooled(records: seq<Record>, s: Spool) {
    && s.latest.Keys == Ids(records)
    && (forall id :: id in s.latest ==> IsNewest(records, id, s.latest[id]))
    && s.producers == Producers(records)
    && s.hashes.Keys == Versions(records)
    && (forall v :: v in s.hashes ==> HasHash(records, v, s.hashes[v]))
    && s.conflicts == Clashes(records)
  }

  /** One record: note a conflict, keep the first hash of a revision, and replace the row of an older revision. */
  function Upsert(s: Spool, r: Record): Spool {
    var v := (r.id, r.revision);
    Spool(
      if r.id in s.latest && r.revision <= s.latest[r.id].revision then s.latest else s.latest[r.id := RowOf(r)],
      s.producers + {(r.id, r.revision, r.producer)},
      if v in s.hashes then s.hashes else s.hashes[v := r.hash],
      if v in s.hashes && s.hashes[v] != r.hash then s.conflicts + {v} else s.conflicts)
  }

  /** Appending a record adds a clash exactly when its revision was first recorded under another hash. */
  lemma ClashesStep(records: seq<Record>, s: Spool, r: Record)
    requires Spooled(records, s)
    ensures Clashes(records + [r]) == Upsert(s, r).conflicts
  {
    hide Spooled, IsNewest, Ids, Producers;
    var v := (r.id, r.revision);
    ClashesAppend(records, r);
    FirstHash(records, s, v);
    if v in s.hashes {
      var first :| first in records && (first.id, first.revision) == v && first.hash == s.hashes[v];
      ClashesFirst(records, first, r);
    }
  }

  lemma FirstHash(records: seq<Record>, s: Spool, v: Version)
    requires Spooled(records, s)
    ensures s.conflicts == Clashes(records)
    ensures v in s.hashes ==> HasHash(records, v, s.hashes[v])
    ensures v !in s.hashes ==> forall x :: x in records ==> (x.id, x.revision) != v
  {
    forall x | x in records ensures (x.id, x.revision) in s.hashes {
      assert (x.id, x.revision) in Versions(records);
    }
  }

  /** The appended record clashes, or it adds nothing. */
  lemma ClashesAppend(records: seq<Record>, r: Record)
    ensures Clashes(records + [r]) ==
            Clashes(records) + if exists x :: x in records && Clash(x, r) then {(r.id, r.revision)} else {}
  {
    var all := records + [r];
    assert forall x :: x in all <==> x in records || x == r;
    forall w | w in Clashes(all) && w !in Clashes(records)
      ensures w == (r.id, r.revision) && exists x :: x in records && Clash(x, r)
    {
      var x, y :| x in all && y in all && Clash(x, y) && w == (x.id, x.revision);
      assert Clash(y, x);
    }
  }

  /** Comparing with the first hash of the revision decides whether anything new clashes. */
  lemma ClashesFirst(records: seq<Record>, first: Record, r: Record)
    requires first in records && Same(first, r)
    ensures first.hash != r.hash ==> Clash(first, r)
    ensures first.hash == r.hash ==> forall x :: x in records && Clash(x, r) ==> (r.id, r.revision) in Clashes(records)
  {
    forall x | x in records && Clash(x, r) && first.hash == r.hash ensures (r.id, r.revision) in Clashes(records) {
      assert Clash(x, first);
    }
  }

  lemma NewestStep(records: seq<Record>, s: Spool, r: Record)
    requires Spooled(records, s)
    ensures var t := Upsert(s, r);
            && t.latest.Keys == s.latest.Keys + {r.id}
            && forall id :: id in t.latest ==> IsNewest(records + [r], id, t.latest[id])
  {
    var t, all := Upsert(s, r), records + [r];
    assert forall x :: x in all <==> x in records || x == r;
    forall id | id in t.latest ensures IsNewest(all, id, t.latest[id]) {
      if id in s.latest && t.latest[id] == s.latest[id] {
        var x :| x in records && x.id == id && RowOf(x) == s.latest[id];
        assert x in all;
      } else {
        assert r in all;
      }
    }
  }

  lemma UpsertSpools(records: seq<Record>, s: Spool, r: Record)
    requires Spooled(records, s)
    ensures Spooled(records + [r], Upsert(s, r))
  {
    hide Clashes, Ids, Versions, Producers, IsNewest;
    ClashesStep(records, s, r);
    NewestStep(records, s, r);
    AppendSets(records, r);
    HashesStep(records, s, r);
  }

  lemma AppendSets(records: seq<Record>, r: Record)
    ensures Ids(records + [r]) == Ids(records) + {r.id}
    ensures Versions(records + [r]) == Versions(records) + {(r.id, r.revision)}
    ensures Producers(records + [r]) == Producers(records) + {(r.id, r.revision, r.producer)}
  {
    assert forall x :: x in records + [r] <==> x in records || x == r;
  }

  predicate HasHash(records: seq<Record>, v: Version, hash: RevisionHash) {
    exists r :: r in records && (r.id, r.revision) == v && r.hash == hash
  }

  lemma HashesStep(records: seq<Record>, s: Spool, r: Record)
    requires forall v :: v in s.hashes ==> HasHash(records, v, s.hashes[v])
    ensures forall v :: v in Upsert(s, r).hashes ==> HasHash(records + [r], v, Upsert(s, r).hashes[v])
  {
    var t, all := Upsert(s, r), records + [r];
    forall v | v in t.hashes ensures HasHash(all, v, t.hashes[v]) {
      if v in s.hashes {
        var x :| x in records && (x.id, x.revision) == v && x.hash == s.hashes[v];
        assert x in all;
      } else {
        assert r in all;
      }
    }
  }

  /** A conflict on a current revision is one that no later revision replaces. */
  lemma CurrentConflict(records: seq<Record>, s: Spool, v: Version)
    requires Spooled(records, s) && v in s.conflicts
    ensures v.0 in s.latest && (s.latest[v.0].revision == v.1 <==> !Superseded(records, v.0, v.1))
  {
    var a, b :| a in records && b in records && Clash(a, b) && v == (a.id, a.revision);
    assert v.0 in s.latest && IsNewest(records, v.0, s.latest[v.0]);
  }

  /** The merge of import_archive. */
  method MergeArchive(records: seq<Record>, allowSuperseded: bool) returns (m: Result<Merged>)
    ensures IsMerge(records, allowSuperseded, m)
    ensures MergeTold(records, allowSuperseded, m)
  {
    m := MergeRecords(records, allowSuperseded);
    MergeTells(records, allowSuperseded, m);
  }

  /** The records one after the other, then the check that no current revision is in conflict. */
  method MergeRecords(records: seq<Record>, allowSuperseded: bool) returns (m: Result<Merged>)
    ensures IsMerge(records, allowSuperseded, m)
  {
    hide IsNewest, Ids, Versions, Producers, HasHash, Superseded;
    var s := Spool(map[], {}, map[], {});
    NothingSpooled();
    assert records[..0] == [];
    for i := 0 to |records|
      invariant Spooled(records[..i], s) && (forall r :: r in records[..i] ==> Validated(r))
      invariant !allowSuperseded ==> s.conflicts == {}
    {
      var r := records[i];
      assert r in records && records[..i + 1] == records[..i] + [r];
      if !Validated(r) {
        return Err;
      }
      UpsertSpools(records[..i], s, r);
      s := Upsert(s, r);
      if !allowSuperseded && s.conflicts != {} {
        ClashesPart(records, i + 1);
        var v :| v in s.conflicts;
        assert v in Clashes(records);
        return Err;
      }
    }
    assert records[..|records|] == records;
    if exists v :: v in s.conflicts && v.0 in s.latest && s.latest[v.0].revision == v.1 {
      var v :| v in s.conflicts && v.0 in s.latest && s.latest[v.0].revision == v.1;
      CurrentConflict(records, s, v);
      return Err;
    }
    forall v | v in s.conflicts ensures Superseded(records, v.0, v.1) {
      CurrentConflict(records, s, v);
    }
    return Ok(Merged(s.latest, s.producers, |s.conflicts|));
  }

  lemma NothingSpooled()
    ensures Spooled([], Spool(map[], {}, map[], {}))
  {
  }

  lemma ClashesPart(records: seq<Record>, n: nat)
    requires n <= |records|
    ensures Clashes(records[..n]) <= Clashes(records)
  {
  }
}
