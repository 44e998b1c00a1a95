/**
 The disposable segment cache for exact vector search. Segments are named by the digest of their content and the
 catalog anchors the digest of the whole manifest, so the files on disk may be missing, stale or damaged at any time.
 */
module VectorCache {
  import opened Common

  const SEGMENT_ROWS: nat := 4096

  type Vec = seq<real>

  datatype Row = Row(identity: string, vector: Vec)

  /** One numbered vector. */
  type Numbered = (nat, Vec)

  /**
   A manifest entry. `ids` and `vectors` stand for the two file names, which are digests of exactly that content.
   */
  datatype Segment = Segment(rows: nat, first: nat, last: nat, ids: seq<nat>, vectors: seq<Vec>)

  datatype Manifest = Manifest(
    publication: string,
    identity: string,
    dimensions: nat,
    epoch: nat,
    watermark: nat,
    segments: seq<Segment>)

  /**
   The catalog's side. `rows[i]` is the row with rowid i + 1, or None where it was deleted; the highest rowid is
   |rows|, and the next insert takes the one after it. `anchors` holds, per identity, the anchored manifest digest.
   */
  datatype Db = Db(rows: seq<Option<Row>>, epoch: nat, anchors: map<string, Manifest>, publication: string)

  /** The cache directory: a readable manifest if any, and the intact segment files by content. */
  datatype Disk = Disk(manifest: Option<Manifest>, idFiles: set<seq<nat>>, vectorFiles: set<seq<Vec>>)

  // ---- the authoritative table ----

  /** Rows of one identity with lo < rowid <= hi, ascending: the cursor of a range query. */
  function Between(rows: seq<Option<Row>>, identity: string, lo: nat, hi: nat): seq<Numbered>
    requires hi <= |rows|
  {
    if hi <= lo then []
    else
      Between(rows, identity, lo, hi - 1)
      + match rows[hi - 1]
        case Some(row) => if row.identity == identity then [(hi, row.vector)] else []
        case None => []
  }

  lemma {:induction false} BetweenSplit(rows: seq<Option<Row>>, identity: string, lo: nat, mid: nat, hi: nat)
    requires lo <= mid <= hi <= |rows|
    ensures Between(rows, identity, lo, hi) == Between(rows, identity, lo, mid) + Between(rows, identity, mid, hi)
  {
    if mid < hi {
      BetweenSplit(rows, identity, lo, mid, hi - 1);
    }
  }

  lemma {:induction false} BetweenSame(rows: seq<Option<Row>>, more: seq<Option<Row>>, identity: string, lo: nat,
                                       hi: nat)
    requires hi <= |rows| && hi <= |more| && rows[..hi] == more[..hi]
    ensures Between(rows, identity, lo, hi) == Between(more, identity, lo, hi)
  {
    if lo < hi {
      assert rows[..hi][hi - 1] == more[..hi][hi - 1];
      assert rows[..hi - 1] == rows[..hi][..hi - 1] && more[..hi - 1] == more[..hi][..hi - 1];
      BetweenSame(rows, more, identity, lo, hi - 1);
    }
  }

  lemma {:induction false} BetweenCount(rows: seq<Option<Row>>, identity: string, lo: nat, hi: nat)
    requires lo <= hi <= |rows|
    ensures |Between(rows, identity, lo, hi)| <= hi - lo
  {
    if lo < hi {
      BetweenCount(rows, identity, lo, hi - 1);
    }
  }

  predicate Ascending(items: seq<Numbered>, lo: nat, hi: nat) {
    && (forall i :: 0 <= i < |items| ==> lo < items[i].0 <= hi)
    && (forall i, j :: 0 <= i < j < |items| ==> items[i].0 < items[j].0)
  }

  lemma {:induction false} BetweenAscends(rows: seq<Option<Row>>, identity: string, lo: nat, hi: nat)
    requires hi <= |rows|
    ensures Ascending(Between(rows, identity, lo, hi), lo, hi)
  {
    if lo < hi {
      BetweenAscends(rows, identity, lo, hi - 1);
    }
  }

  /** Every vector of an identity in this snapshot, ascending by rowid, with its score. */
  function Score(items: seq<Numbered>, score: Vec -> real): seq<(nat, real)> {
    if items == [] then []
    else
      var last := items[|items| - 1];
      Score(items[..|items| - 1], score) + [(last.0, score(last.1))]
  }

  function AllScores(rows: seq<Option<Row>>, identity: string, score: Vec -> real): seq<(nat, real)> {
    Score(Between(rows, identity, 0, |rows|), score)
  }

  lemma {:induction false} ScoreConcat(a: seq<Numbered>, b: seq<Numbered>, score: Vec -> real)
    ensures Score(a + b, score) == Score(a, score) + Score(b, score)
    decreases |b|
  {
    if b == [] {
      assert a + b == a;
    } else {
      assert (a + b)[..|a + b| - 1] == a + b[..|b| - 1];
      ScoreConcat(a, b[..|b| - 1], score);
    }
  }

  // ---- what the anchor promises ----

  function Zip(ids: seq<nat>, vectors: seq<Vec>): seq<Numbered>
    requires |ids| == |vectors|
  {
    seq(|ids|, i requires 0 <= i < |ids| => (ids[i], vectors[i]))
  }

  /** The vectors a manifest's segments hold. */
  function Content(segments: seq<Segment>): seq<Numbered> {
    if segments == [] then []
    else
      var e := segments[|segments| - 1];
      Content(segments[..|segments| - 1]) + if |e.ids| == |e.vectors| then Zip(e.ids, e.vectors) else []
  }

  /** Up to the table's next update or delete, the manifest holds exactly the rows up to its watermark. */
  predicate Good(m: Manifest, db: Db) {
    && m.epoch <= db.epoch
    && (m.epoch == db.epoch ==>
        m.watermark <= |db.rows| && Content(m.segments) == Between(db.rows, m.identity, 0, m.watermark))
  }

  predicate Anchored(db: Db) {
    forall identity :: identity in db.anchors ==>
           db.anchors[identity].identity == identity && Good(db.anchors[identity], db)
  }

  // ---- reading ----

  predicate Compatible(m: Manifest, db: Db, identity: string, dimensions: nat) {
    m.publication == db.publication && m.identity == identity && m.dimensions == dimensions && m.epoch == db.epoch
  }

  predicate IsAnchored(m: Manifest, db: Db, identity: string) {
    identity in db.anchors && db.anchors[identity] == m
  }

  predicate Shaped(vectors: seq<Vec>, dimensions: nat) {
    forall i :: 0 <= i < |vectors| ==> |vectors[i]| == dimensions
  }

  predicate Increasing(ids: seq<nat>) {
    forall i :: 0 < i < |ids| ==> ids[i - 1] < ids[i]
  }

  /** The checks of iter_segments on one entry: intact files of the stated sizes, ordered within the watermark. */
  predicate Usable(e: Segment, disk: Disk, last: nat, watermark: nat, dimensions: nat) {
    && 1 <= e.rows <= SEGMENT_ROWS
    && e.ids in disk.idFiles && |e.ids| == e.rows
    && e.vectors in disk.vectorFiles && |e.vectors| == e.rows && Shaped(e.vectors, dimensions)
    && last < e.ids[0] && Increasing(e.ids) && e.ids[e.rows - 1] <= watermark
    && e.first == e.ids[0] && e.last == e.ids[e.rows - 1]
  }

  /** The last rowid of the entries read so far. */
  function LastRow(segments: seq<Segment>): nat {
    if segments == [] then 0 else segments[|segments| - 1].last
  }

  predicate AllUsable(segments: seq<Segment>, disk: Disk, watermark: nat, dimensions: nat) {
    segments == [] ||
    var front := segments[..|segments| - 1];
    AllUsable(front, disk, watermark, dimensions)
    && Usable(segments[|segments| - 1], disk, LastRow(front), watermark, dimensions)
  }

  lemma {:induction false} UsablePrefix(segments: seq<Segment>, n: nat, disk: Disk, watermark: nat, dimensions: nat)
    requires n <= |segments| && AllUsable(segments, disk, watermark, dimensions)
    ensures AllUsable(segments[..n], disk, watermark, dimensions)
    decreases |segments|
  {
    if n == |segments| {
      assert segments[..n] == segments;
    } else {
      var front := segments[..|segments| - 1];
      UsablePrefix(front, n, disk, watermark, dimensions);
      assert front[..n] == segments[..n];
    }
  }

  method IterSegments(disk: Disk, m: Manifest, dimensions: nat) returns (r: Option<seq<Numbered>>)
    ensures r == if AllUsable(m.segments, disk, m.watermark, dimensions) then Some(Content(m.segments)) else None
  {
    hide AllUsable, Usable, Content, LastRow, Zip;
    var last := 0;
    var items: seq<Numbered> := [];
    NoSegments(disk, m.watermark, dimensions);
    assert m.segments[..0] == [];
    for i := 0 to |m.segments|
      invariant AllUsable(m.segments[..i], disk, m.watermark, dimensions)
      invariant items == Content(m.segments[..i]) && last == LastRow(m.segments[..i])
    {
      var e := m.segments[i];
      NextSegment(m.segments, i, disk, m.watermark, dimensions);
      if !Usable(e, disk, last, m.watermark, dimensions) {
        if AllUsable(m.segments, disk, m.watermark, dimensions) {
          UsablePrefix(m.segments, i + 1, disk, m.watermark, dimensions);
        }
        return None;
      }
      items := items + Zip(e.ids, e.vectors);
      last := e.last;
    }
    assert m.segments[..|m.segments|] == m.segments;
    return Some(items);
  }

  lemma NoSegments(disk: Disk, watermark: nat, dimensions: nat)
    ensures AllUsable([], disk, watermark, dimensions) && Content([]) == [] && LastRow([]) == 0
  {
  }

  lemma NextSegment(segments: seq<Segment>, i: nat, disk: Disk, watermark: nat, dimensions: nat)
    requires i < |segments| && AllUsable(segments[..i], disk, watermark, dimensions)
    ensures var e := segments[i];
            && (AllUsable(segments[..i + 1], disk, watermark, dimensions) <==>
                Usable(e, disk, LastRow(segments[..i]), watermark, dimensions))
            && LastRow(segments[..i + 1]) == e.last
            && (Usable(e, disk, LastRow(segments[..i]), watermark, dimensions) ==>
                 |e.ids| == |e.vectors| && Content(segments[..i + 1]) == Content(segments[..i]) + Zip(e.ids, e.vectors))
  {
    assert segments[..i + 1][..i] == segments[..i];
  }

  function Ids(items: seq<Numbered>): seq<nat> {
    seq(|items|, i requires 0 <= i < |items| => items[i].0)
  }

  function Vectors(items: seq<Numbered>): seq<Vec> {
    seq(|items|, i requires 0 <= i < |items| => items[i].1)
  }

  // ---- what a search gets, told of the table and the directory ----

  predicate IsRow(rows: seq<Option<Row>>, n: nat, identity: string, v: Vec) {
    1 <= n <= |rows| && rows[n - 1] == Some(Row(identity, v))
  }

  ghost predicate ScoredAs(rows: seq<Option<Row>>, identity: string, score: Vec -> real, entry: (nat, real)) {
    exists v :: IsRow(rows, entry.0, identity, v) && entry.1 == score(v)
  }

  /** The row ids of the identity's vectors in ascending order, each with the score of its vector, and no others. */
  ghost predicate ScoresOf(rows: seq<Option<Row>>, identity: string, score: Vec -> real, r: seq<(nat, real)>) {
    && (forall i, j :: 0 <= i < j < |r| ==> r[i].0 < r[j].0)
    && (forall i :: 0 <= i < |r| ==> ScoredAs(rows, identity, score, r[i]))
    && (forall n: nat, v :: IsRow(rows, n, identity, v) ==> (n, score(v)) in r)
  }

  lemma {:induction false} BetweenTold(rows: seq<Option<Row>>, identity: string, lo: nat, hi: nat)
    requires hi <= |rows|
    ensures var items := Between(rows, identity, lo, hi);
            && (forall i :: 0 <= i < |items| ==>
                  lo < items[i].0 <= hi && IsRow(rows, items[i].0, identity, items[i].1))
            && (forall n: nat, v :: IsRow(rows, n, identity, v) && lo < n <= hi ==> (n, v) in items)
  {
    if lo < hi {
      BetweenTold(rows, identity, lo, hi - 1);
      var front, all := Between(rows, identity, lo, hi - 1), Between(rows, identity, lo, hi);
      assert all == front + if rows[hi - 1].Some? && rows[hi - 1].value.identity == identity
                            then [(hi, rows[hi - 1].value.vector)] else [];
      forall n: nat, v | IsRow(rows, n, identity, v) && lo < n <= hi ensures (n, v) in all {
        if n == hi {
          assert all[|front|] == (n, v);
        } else {
          assert (n, v) in front;
        }
      }
    }
  }

  lemma {:induction false} ScoreAt(items: seq<Numbered>, score: Vec -> real)
    ensures |Score(items, score)| == |items|
    ensures forall i :: 0 <= i < |items| ==> Score(items, score)[i] == (items[i].0, score(items[i].1))
  {
    if items != [] {
      ScoreAt(items[..|items| - 1], score);
    }
  }

  lemma ScoredRow(rows: seq<Option<Row>>, identity: string, score: Vec -> real, i: nat)
    requires i < |AllScores(rows, identity, score)|
    ensures var items := Between(rows, identity, 0, |rows|);
            && |items| == |AllScores(rows, identity, score)|
            && AllScores(rows, identity, score)[i] == (items[i].0, score(items[i].1))
            && IsRow(rows, items[i].0, identity, items[i].1)
  {
    hide Between, Score, IsRow;
    BetweenTold(rows, identity, 0, |rows|);
    ScoreAt(Between(rows, identity, 0, |rows|), score);
  }

  lemma RowScored(rows: seq<Option<Row>>, identity: string, score: Vec -> real, n: nat, v: Vec)
    requires IsRow(rows, n, identity, v)
    ensures (n, score(v)) in AllScores(rows, identity, score)
  {
    var items := Between(rows, identity, 0, |rows|);
    BetweenTold(rows, identity, 0, |rows|);
    ScoreAt(items, score);
    hide Between, Score, IsRow;
    var i :| 0 <= i < |items| && items[i] == (n, v);
    assert AllScores(rows, identity, score)[i] == (n, score(v));
  }

  lemma ScoresAscend(rows: seq<Option<Row>>, identity: string, score: Vec -> real, i: nat, j: nat)
    requires i < j < |AllScores(rows, identity, score)|
    ensures AllScores(rows, identity, score)[i].0 < AllScores(rows, identity, score)[j].0
  {
    ScoredRow(rows, identity, score, i);
    ScoredRow(rows, identity, score, j);
    BetweenAscends(rows, identity, 0, |rows|);
  }

  lemma AllScoresTold(rows: seq<Option<Row>>, identity: string, score: Vec -> real)
    ensures ScoresOf(rows, identity, score, AllScores(rows, identity, score))
  {
    hide AllScores, IsRow, ScoredAs;
    var r := AllScores(rows, identity, score);
    forall i | 0 <= i < |r| ensures ScoredAs(rows, identity, score, r[i]) {
      EntryScored(rows, identity, score, i);
    }
    forall n: nat, v | IsRow(rows, n, identity, v) ensures (n, score(v)) in r {
      RowScored(rows, identity, score, n, v);
    }
    forall i, j | 0 <= i < j < |r| ensures r[i].0 < r[j].0 {
      ScoresAscend(rows, identity, score, i, j);
    }
  }

  lemma EntryScored(rows: seq<Option<Row>>, identity: string, score: Vec -> real, i: nat)
    requires i < |AllScores(rows, identity, score)|
    ensures ScoredAs(rows, identity, score, AllScores(rows, identity, score)[i])
  {
    ScoredRow(rows, identity, score, i);
    hide AllScores, IsRow;
    assert IsRow(rows, AllScores(rows, identity, score)[i].0, identity, Between(rows, identity, 0, |rows|)[i].1);
  }

  lemma RowsInRange(rows: seq<Option<Row>>, n: nat, identity: string, v: Vec)
    requires IsRow(rows, n, identity, v)
    ensures 1 <= n <= |rows|
  {
  }

  /** An entry whose two files are intact, whose rows are as stated, ascending, after `low` and up to the watermark. */
  predicate IntactEntry(e: Segment, disk: Disk, low: nat, watermark: nat, dimensions: nat) {
    && 1 <= e.rows <= 4096 && |e.ids| == e.rows && |e.vectors| == e.rows
    && e.ids in disk.idFiles && e.vectors in disk.vectorFiles
    && (forall i :: 0 <= i < e.rows ==> |e.vectors[i]| == dimensions)
    && (forall i, j :: 0 <= i < j < e.rows ==> e.ids[i] < e.ids[j])
    && low < e.ids[0] == e.first && e.last == e.ids[e.rows - 1] <= watermark
  }

  predicate IntactEntries(segments: seq<Segment>, disk: Disk, watermark: nat, dimensions: nat) {
    forall k :: 0 <= k < |segments| ==>
      IntactEntry(segments[k], disk, Low(segments, k), watermark, dimensions)
  }

  /** Where entry k must start after. */
  function Low(segments: seq<Segment>, k: nat): nat
    requires k < |segments|
  {
    if k == 0 then 0 else segments[k - 1].last
  }

  lemma {:induction false} UsableTold(segments: seq<Segment>, disk: Disk, watermark: nat, dimensions: nat)
    ensures AllUsable(segments, disk, watermark, dimensions) <==> IntactEntries(segments, disk, watermark, dimensions)
  {
    hide IntactEntry, Usable;
    if segments != [] {
      var n := |segments| - 1;
      var front := segments[..n];
      UsableTold(front, disk, watermark, dimensions);
      OneUsable(segments[n], disk, LastRow(front), watermark, dimensions);
      assert LastRow(front) == if n == 0 then 0 else segments[n - 1].last;
      assert forall k :: 0 <= k < n ==> front[k] == segments[k];
      if IntactEntries(segments, disk, watermark, dimensions) {
        forall k: nat | k < n
          ensures IntactEntry(front[k], disk, Low(front, k), watermark, dimensions)
        {
          assert IntactEntry(segments[k], disk, Low(segments, k), watermark, dimensions);
        }
      } else if IntactEntries(front, disk, watermark, dimensions) {
        var k: nat :| k <= n && !IntactEntry(segments[k], disk, Low(segments, k), watermark, dimensions);
        assert k < n ==> IntactEntry(front[k], disk, Low(front, k), watermark, dimensions);
      }
    }
  }

  lemma {:induction false} IncreasingTold(ids: seq<nat>)
    ensures Increasing(ids) <==> forall i, j :: 0 <= i < j < |ids| ==> ids[i] < ids[j]
  {
    if ids != [] {
      var n := |ids| - 1;
      IncreasingTold(ids[..n]);
      assert forall i :: 0 <= i < n ==> ids[..n][i] == ids[i];
      if Increasing(ids) {
        assert n > 0 ==> ids[n - 1] < ids[n];
      }
    }
  }

  lemma OneUsable(e: Segment, disk: Disk, low: nat, watermark: nat, dimensions: nat)
    ensures Usable(e, disk, low, watermark, dimensions) <==> IntactEntry(e, disk, low, watermark, dimensions)
  {
    hide Increasing;
    IncreasingTold(e.ids);
  }

  /**
   When a search is answered from the cache: the manifest is of this publication, identity, dimensions and epoch, it is
   the one the catalog anchored for the identity, all its entries are intact, and the rows after it are well shaped.
   */
  ghost predicate Served(db: Db, disk: Disk, identity: string, dimensions: nat) {
    disk.manifest.Some? && var m := disk.manifest.value;
    && m.publication == db.publication && m.identity == identity && m.dimensions == dimensions && m.epoch == db.epoch
    && identity in db.anchors && db.anchors[identity] == m
    && IntactEntries(m.segments, disk, m.watermark, dimensions)
    && forall n: nat, v :: IsRow(db.rows, n, identity, v) && n > m.watermark ==> |v| == dimensions
  }

  lemma TailTold(rows: seq<Option<Row>>, identity: string, lo: nat, dimensions: nat)
    ensures Shaped(Vectors(Between(rows, identity, lo, |rows|)), dimensions) <==>
              forall n: nat, v :: IsRow(rows, n, identity, v) && n > lo ==> |v| == dimensions
  {
    hide Between, IsRow;
    var items := Between(rows, identity, lo, |rows|);
    BetweenTold(rows, identity, lo, |rows|);
    assert forall i :: 0 <= i < |items| ==> Vectors(items)[i] == items[i].1;
    if Shaped(Vectors(items), dimensions) {
      forall n: nat, v | IsRow(rows, n, identity, v) && n > lo ensures |v| == dimensions {
        RowsInRange(rows, n, identity, v);
        var i :| 0 <= i < |items| && items[i] == (n, v);
        assert |Vectors(items)[i]| == dimensions;
      }
    } else {
      var i :| 0 <= i < |items| && |Vectors(items)[i]| != dimensions;
      assert IsRow(rows, items[i].0, identity, items[i].1);
    }
  }

  /** scores: the cached segments, then the rows inserted after the watermark. None sends the caller to the table. */
  method Scores(db: Db, disk: Disk, identity: string, dimensions: nat, score: Vec -> real)
    returns (r: Option<seq<(nat, real)>>)
    requires Anchored(db)
    ensures r.Some? ==> r.value == AllScores(db.rows, identity, score)
    ensures r.Some? <==>
              && disk.manifest.Some? && Compatible(disk.manifest.value, db, identity, dimensions)
              && IsAnchored(disk.manifest.value, db, identity)
              && AllUsable(disk.manifest.value.segments, disk, disk.manifest.value.watermark, dimensions)
              && Shaped(Vectors(Between(db.rows, identity, disk.manifest.value.watermark, |db.rows|)), dimensions)
    ensures r.Some? <==> Served(db, disk, identity, dimensions)
    ensures r.Some? ==> ScoresOf(db.rows, identity, score, r.value)
  {
    hide ScoresOf, IntactEntries, AllUsable, Between, Shaped;
    AllScoresTold(db.rows, identity, score);
    if disk.manifest.Some? {
      UsableTold(disk.manifest.value.segments, disk, disk.manifest.value.watermark, dimensions);
      TailTold(db.rows, identity, disk.manifest.value.watermark, dimensions);
    }
    if disk.manifest.None? {
      return None;
    }
    var m := disk.manifest.value;
    if !Compatible(m, db, identity, dimensions) || !IsAnchored(m, db, identity) {
      return None;
    }
    var cached := IterSegments(disk, m, dimensions);
    if cached.None? {
      return None;
    }
    var tail := ScoreRows(Between(db.rows, identity, m.watermark, |db.rows|), dimensions, score);
    if tail.None? {
      return None;
    }
    BetweenSplit(db.rows, identity, 0, m.watermark, |db.rows|);
    ScoreConcat(cached.value, Between(db.rows, identity, m.watermark, |db.rows|), score);
    return Some(Score(cached.value, score) + tail.value);
  }

  /** The cursor loop of scores, a batch at a time. */
  method ScoreRows(cursor: seq<Numbered>, dimensions: nat, score: Vec -> real) returns (r: Option<seq<(nat, real)>>)
    ensures r == if Shaped(Vectors(cursor), dimensions) then Some(Score(cursor, score)) else None
  {
    var out: seq<(nat, real)> := [];
    var at := 0;
    while at < |cursor|
      invariant at <= |cursor|
      invariant out == Score(cursor[..at], score)
      invariant Shaped(Vectors(cursor[..at]), dimensions)
    {
      var next := Min(at + SEGMENT_ROWS, |cursor|);
      ShapedSplit(cursor, at, next, dimensions);
      if !Shaped(Vectors(cursor[at..next]), dimensions) {
        return None;
      }
      assert cursor[..next] == cursor[..at] + cursor[at..next];
      ScoreConcat(cursor[..at], cursor[at..next], score);
      out := out + Score(cursor[at..next], score);
      at := next;
    }
    assert cursor[..at] == cursor;
    return Some(out);
  }

  lemma ShapedSplit(items: seq<Numbered>, lo: nat, hi: nat, dimensions: nat)
    requires lo <= hi <= |items|
    ensures Shaped(Vectors(items[..hi]), dimensions) <==>
              Shaped(Vectors(items[..lo]), dimensions) && Shaped(Vectors(items[lo..hi]), dimensions)
    ensures Shaped(Vectors(items), dimensions) ==> Shaped(Vectors(items[lo..hi]), dimensions)
  {
    forall i | 0 <= i < |items| ensures Vectors(items)[i] == items[i].1 {
    }
    if Shaped(Vectors(items[..lo]), dimensions) && Shaped(Vectors(items[lo..hi]), dimensions) {
      forall i | 0 <= i < hi ensures |items[i].1| == dimensions {
        assert i < lo ==> Vectors(items[..lo])[i] == items[i].1;
        assert i >= lo ==> Vectors(items[lo..hi])[i - lo] == items[i].1;
      }
    }
    if Shaped(Vectors(items[..hi]), dimensions) {
      forall i | 0 <= i < hi ensures |items[i].1| == dimensions {
        assert Vectors(items[..hi])[i] == items[i].1;
      }
    }
    if Shaped(Vectors(items), dimensions) {
      forall i | lo <= i < hi ensures |items[i].1| == dimensions {
        assert Vectors(items)[i] == items[i].1;
      }
    }
  }

  // ---- building ----

  datatype Built = Unchanged | Deferred | Raised | Fresh(manifest: Manifest)

  /** Segment files are only added before a manifest is published. */
  predicate Grows(disk: Disk, more: Disk) {
    more.manifest == disk.manifest && disk.idFiles <= more.idFiles && disk.vectorFiles <= more.vectorFiles
  }

  lemma {:induction false} UsableGrows(segments: seq<Segment>, disk: Disk, more: Disk, low: nat, high: nat,
                                       dimensions: nat)
    requires AllUsable(segments, disk, low, dimensions) && low <= high
    requires disk.idFiles <= more.idFiles && disk.vectorFiles <= more.vectorFiles
    ensures AllUsable(segments, more, high, dimensions) && LastRow(segments) <= low
    decreases |segments|
  {
    if segments != [] {
      UsableGrows(segments[..|segments| - 1], disk, more, low, high, dimensions);
    }
  }

  function Entry(batch: seq<Numbered>): Segment
    requires batch != []
  {
    Segment(|batch|, batch[0].0, batch[|batch| - 1].0, Ids(batch), Vectors(batch))
  }

  function WithFiles(disk: Disk, e: Segment): Disk {
    disk.(idFiles := disk.idFiles + {e.ids}, vectorFiles := disk.vectorFiles + {e.vectors})
  }

  /** One more batch: the new entry is usable, and the manifest's content grows by exactly the batch. */
  lemma AppendEntry(segments: seq<Segment>, batch: seq<Numbered>, disk: Disk, low: nat, high: nat, dimensions: nat)
    requires AllUsable(segments, disk, high, dimensions) && LastRow(segments) <= low
    requires 0 < |batch| <= SEGMENT_ROWS && Ascending(batch, low, high) && Shaped(Vectors(batch), dimensions)
    ensures var e := Entry(batch);
            && AllUsable(segments + [e], WithFiles(disk, e), high, dimensions)
            && LastRow(segments + [e]) == batch[|batch| - 1].0
            && Content(segments + [e]) == Content(segments) + batch
  {
    var e := Entry(batch);
    assert (segments + [e])[..|segments|] == segments;
    UsableGrows(segments, disk, WithFiles(disk, e), high, high, dimensions);
    assert Zip(e.ids, e.vectors) == batch;
  }

  /** A stored manifest is extended only if it is compatible, anchored, and every segment is intact. */
  method Reusable(db: Db, disk: Disk, identity: string, dimensions: nat) returns (valid: bool)
    ensures valid <==>
              && disk.manifest.Some? && Compatible(disk.manifest.value, db, identity, dimensions)
              && IsAnchored(disk.manifest.value, db, identity)
              && AllUsable(disk.manifest.value.segments, disk, disk.manifest.value.watermark, dimensions)
  {
    if disk.manifest.None? {
      return false;
    }
    var m := disk.manifest.value;
    if !Compatible(m, db, identity, dimensions) || !IsAnchored(m, db, identity) {
      return false;
    }
    var items := IterSegments(disk, m, dimensions);
    return items.Some?;
  }

  /**
   The read half of build: append the rows after the reusable watermark, or all rows. `room` is how many batches fit
   before free space runs out. The manifest is not published yet.
   */
  method Build(db: Db, disk: Disk, identity: string, dimensions: nat, room: nat) returns (r: Built, files: Disk)
    requires Anchored(db)
    ensures Grows(disk, files)
    ensures r.Fresh? ==>
              && r.manifest == Manifest(db.publication, identity, dimensions, db.epoch, |db.rows|, r.manifest.segments)
              && IntactEntries(r.manifest.segments, files, |db.rows|, dimensions)
              && Good(r.manifest, db) && Compatible(r.manifest, db, identity, dimensions)
              && r.manifest.watermark == |db.rows|
              && AllUsable(r.manifest.segments, files, |db.rows|, dimensions)
    ensures r.Unchanged? ==>
              && disk.manifest.Some? && Compatible(disk.manifest.value, db, identity, dimensions)
              && Good(disk.manifest.value, db) && disk.manifest.value.watermark == |db.rows|
    ensures room > |db.rows| && Shaped(Vectors(Between(db.rows, identity, 0, |db.rows|)), dimensions) ==>
              r.Fresh? || r.Unchanged?
  {
    files := disk;
    var valid := Reusable(db, disk, identity, dimensions);
    var low := if valid then disk.manifest.value.watermark else 0;
    var high := |db.rows|;
    if valid && high == low {
      return Unchanged, files;
    }
    if room == 0 {
      return Deferred, files;
    }
    var segments := if valid then disk.manifest.value.segments else [];
    if valid {
      UsableGrows(segments, disk, files, low, high, dimensions);
    }
    BetweenCount(db.rows, identity, low, high);
    BetweenSplit(db.rows, identity, 0, low, high);
    var whole := Between(db.rows, identity, 0, high);
    ShapedSplit(whole, |Between(db.rows, identity, 0, low)|, |whole|, dimensions);
    assert whole[|Between(db.rows, identity, 0, low)|..|whole|] == Between(db.rows, identity, low, high);
    var rest: Option<seq<Segment>>;
    rest, files := WriteSegments(db, files, identity, dimensions, low, segments, room);
    match rest {
      case None =>
        var shaped := Shaped(Vectors(Between(db.rows, identity, low, high)), dimensions);
        return if shaped then Deferred else Raised, files;
      case Some(all) =>
        UsableTold(all, files, high, dimensions);
        return Fresh(Manifest(db.publication, identity, dimensions, db.epoch, high, all)), files;
    }
  }

  /** The segments and files cover what the cache held before and the first `at` rows of the cursor. */
  predicate Covers(segments: seq<Segment>, files: Disk, start: seq<Segment>, cursor: seq<Numbered>, at: nat,
                   low: nat, high: nat, dimensions: nat)
  {
    && at <= |cursor| && AllUsable(segments, files, high, dimensions)
    && LastRow(segments) <= (if at == 0 then low else cursor[at - 1].0)
    && Content(segments) == Content(start) + cursor[..at]
  }

  lemma BatchAscends(cursor: seq<Numbered>, at: nat, next: nat, low: nat, high: nat)
    requires at < next <= |cursor| && Ascending(cursor, low, high)
    ensures Ascending(cursor[at..next], if at == 0 then low else cursor[at - 1].0, high)
  {
    forall i | 0 <= i < next - at ensures cursor[at..next][i] == cursor[at + i] {
    }
  }

  lemma CoversMore(segments: seq<Segment>, files: Disk, start: seq<Segment>, cursor: seq<Numbered>, at: nat, next: nat,
                   low: nat, high: nat, dimensions: nat)
    requires Covers(segments, files, start, cursor, at, low, high, dimensions)
    requires at < next <= |cursor| && next <= at + SEGMENT_ROWS
    requires Ascending(cursor, low, high) && Shaped(Vectors(cursor[at..next]), dimensions)
    ensures var e := Entry(cursor[at..next]);
            Covers(segments + [e], WithFiles(files, e), start, cursor, next, low, high, dimensions)
  {
    hide AllUsable, LastRow, Content, Shaped, Vectors, Ascending, Entry, WithFiles;
    var batch := cursor[at..next];
    BatchAscends(cursor, at, next, low, high);
    AppendEntry(segments, batch, files, if at == 0 then low else cursor[at - 1].0, high, dimensions);
    assert batch[|batch| - 1] == cursor[next - 1];
    Glue(Content(start), cursor, at, next);
  }

  lemma Glue<T>(held: seq<T>, cursor: seq<T>, at: nat, next: nat)
    requires at <= next <= |cursor|
    ensures held + cursor[..next] == (held + cursor[..at]) + cursor[at..next]
  {
  }

  /** The cursor loop of build. None when space runs out or a stored vector has the wrong shape. */
  method WriteSegments(db: Db, disk: Disk, identity: string, dimensions: nat, low: nat, start: seq<Segment>, room: nat)
    returns (r: Option<seq<Segment>>, files: Disk)
    requires low <= |db.rows| && AllUsable(start, disk, |db.rows|, dimensions) && LastRow(start) <= low
    requires Content(start) == Between(db.rows, identity, 0, low)
    ensures Grows(disk, files)
    ensures r.Some? ==> AllUsable(r.value, files, |db.rows|, dimensions)
                        && Content(r.value) == Between(db.rows, identity, 0, |db.rows|)
    ensures r.None? && room > |Between(db.rows, identity, low, |db.rows|)| ==>
              !Shaped(Vectors(Between(db.rows, identity, low, |db.rows|)), dimensions)
  {
    files := disk;
    var segments := start;
    var cursor := Between(db.rows, identity, low, |db.rows|);
    BetweenAscends(db.rows, identity, low, |db.rows|);
    var at, written := 0, 0;
    while at < |cursor|
      invariant Grows(disk, files) && written <= at
      invariant Covers(segments, files, start, cursor, at, low, |db.rows|, dimensions)
    {
      var next := Min(at + SEGMENT_ROWS, |cursor|);
      ShapedSplit(cursor, at, next, dimensions);
      if written == room || !Shaped(Vectors(cursor[at..next]), dimensions) {
        return None, files;
      }
      CoversMore(segments, files, start, cursor, at, next, low, |db.rows|, dimensions);
      var e := Entry(cursor[at..next]);
      segments, files := segments + [e], WithFiles(files, e);
      at, written := next, written + 1;
    }
    assert cursor[..at] == cursor;
    BetweenSplit(db.rows, identity, 0, low, |db.rows|);
    return Some(segments), files;
  }

  // ---- the table's own steps ----

  /** INSERT: the new rowid is one more than the highest. */
  function Insert(db: Db, row: Row): Db {
    db.(rows := db.rows + [Some(row)])
  }

  /** UPDATE fires the trigger that advances the epoch. */
  function Update(db: Db, i: nat, row: Row): Db
    requires i < |db.rows|
  {
    db.(rows := db.rows[i := Some(row)], epoch := db.epoch + 1)
  }

  function Trim(rows: seq<Option<Row>>): seq<Option<Row>> {
    if rows == [] || rows[|rows| - 1].Some? then rows else Trim(rows[..|rows| - 1])
  }

  /** DELETE fires the trigger too; deleting the highest rows frees their rowids for reuse. */
  function Delete(db: Db, i: nat): Db
    requires i < |db.rows|
  {
    db.(rows := Trim(db.rows[i := None]), epoch := db.epoch + 1)
  }

  lemma InsertKeeps(db: Db, row: Row, m: Manifest)
    requires Good(m, db)
    ensures Good(m, Insert(db, row))
  {
    if m.epoch == db.epoch {
      assert db.rows[..m.watermark] == Insert(db, row).rows[..m.watermark];
      BetweenSame(db.rows, Insert(db, row).rows, m.identity, 0, m.watermark);
    }
  }

  // ---- runs ----

  datatype Op =
    | InsertOp(row: Row)
    | UpdateOp(index: nat, row: Row)
    | DeleteOp(index: nat)
    | BuildOp(identity: string, dimensions: nat, room: nat)      // read rows and write segment files
    | PublishOp(identity: string)                                // replace the manifest file
    | AnchorOp(identity: string)                                 // commit its digest, then remove unreferenced files
    | CrashOp(identity: string)                                  // the builder dies between any two of those
    | DiskOp(identity: string, disk: Disk)                       // anything happens to an identity's directory
    | ReadOp(snapshot: nat, identity: string, dimensions: nat)   // a search on any database snapshot so far

  function IdNames(segments: seq<Segment>): set<seq<nat>> {
    set i | 0 <= i < |segments| :: segments[i].ids
  }

  function VectorNames(segments: seq<Segment>): set<seq<Vec>> {
    set i | 0 <= i < |segments| :: segments[i].vectors
  }

  /** Unlink every segment file the new manifest does not name. */
  function Referenced(disk: Disk, m: Manifest): Disk {
    disk.(idFiles := disk.idFiles * IdNames(m.segments), vectorFiles := disk.vectorFiles * VectorNames(m.segments))
  }

  lemma {:induction false} ReferencedUsable(m: Manifest, disk: Disk, watermark: nat, dimensions: nat, n: nat)
    requires n <= |m.segments| && AllUsable(m.segments[..n], disk, watermark, dimensions)
    ensures AllUsable(m.segments[..n], Referenced(disk, m), watermark, dimensions)
  {
    if n > 0 {
      assert m.segments[..n][..n - 1] == m.segments[..n - 1];
      ReferencedUsable(m, disk, watermark, dimensions, n - 1);
      assert m.segments[n - 1].ids in IdNames(m.segments) && m.segments[n - 1].vectors in VectorNames(m.segments);
    }
  }

  /** How far an identity's builder in flight has come. */
  datatype Stage = NoBuild | Written(manifest: Manifest) | Published(manifest: Manifest)

  /**
   The state a run passes through: the live database and, for every identity, its directory and the build in flight
   under its lock. Builds of different identities overlap freely.
   */
  datatype State = State(db: Db, disks: map<string, Disk>, stages: map<string, Stage>)

  function DiskOf(s: State, identity: string): Disk {
    if identity in s.disks then s.disks[identity] else Disk(None, {}, {})
  }

  function StageOf(s: State, identity: string): Stage {
    if identity in s.stages then s.stages[identity] else NoBuild
  }

  /** The state with an identity's directory and build replaced. */
  function With(s: State, identity: string, disk: Disk, stage: Stage): State {
    s.(disks := s.disks[identity := disk], stages := s.stages[identity := stage])
  }

  /** A manifest about to be anchored under an identity. */
  predicate Fit(stage: Stage, identity: string, db: Db) {
    !stage.NoBuild? ==> stage.manifest.identity == identity && Good(stage.manifest, db)
  }

  predicate Sound(s: State) {
    Anchored(s.db) && forall identity :: identity in s.stages ==> Fit(s.stages[identity], identity, s.db)
  }

  lemma InsertSound(s: State, row: Row)
    requires Sound(s)
    ensures Sound(s.(db := Insert(s.db, row)))
  {
    var db := Insert(s.db, row);
    forall identity | identity in s.stages ensures Fit(s.stages[identity], identity, db) {
      if !s.stages[identity].NoBuild? {
        InsertKeeps(s.db, row, s.stages[identity].manifest);
      }
    }
    forall identity | identity in s.db.anchors ensures Good(s.db.anchors[identity], db) {
      InsertKeeps(s.db, row, s.db.anchors[identity]);
    }
  }

  /** A change of the table that raises the epoch leaves nothing to keep. */
  lemma EpochSound(s: State, db: Db)
    requires Sound(s) && db.epoch > s.db.epoch && db.anchors == s.db.anchors
    ensures Sound(s.(db := db))
  {
    forall identity | identity in s.stages ensures Fit(s.stages[identity], identity, db) {
    }
  }

  /** Replacing one identity's directory and build touches no other identity's. */
  lemma WithSound(s: State, identity: string, disk: Disk, stage: Stage)
    requires Sound(s) && Fit(stage, identity, s.db)
    ensures Sound(With(s, identity, disk, stage))
    ensures forall other :: other != identity ==>
              DiskOf(With(s, identity, disk, stage), other) == DiskOf(s, other)
              && StageOf(With(s, identity, disk, stage), other) == StageOf(s, other)
  {
  }

  lemma AnchorSound(s: State, m: Manifest)
    requires Sound(s) && Good(m, s.db)
    ensures Sound(s.(db := Publish(s.db, m)))
  {
    AnchorKeeps(s.db, m);
    forall identity | identity in s.stages ensures Fit(s.stages[identity], identity, Publish(s.db, m)) {
    }
  }

  /** What a step does to the table of vectors, whatever the cache does. */
  function Effect(rows: seq<Option<Row>>, op: Op): seq<Option<Row>> {
    match op
    case InsertOp(row) => rows + [Some(row)]
    case UpdateOp(i, row) => if i < |rows| then rows[i := Some(row)] else rows
    case DeleteOp(i) => if i < |rows| then Trim(rows[i := None]) else rows
    case _ => rows
  }

  function TableAfter(rows: seq<Option<Row>>, ops: seq<Op>): seq<Option<Row>> {
    if ops == [] then rows else Effect(TableAfter(rows, ops[..|ops| - 1]), ops[|ops| - 1])
  }

  /**
   One step. A build ends by committing the digest of what it wrote; each step of it changes only its own identity's
   directory, build and anchor.
   */
  method Advance(s: State, op: Op) returns (t: State)
    requires Sound(s)
    ensures Sound(t) && t.db.rows == Effect(s.db.rows, op)
    ensures op.AnchorOp? && StageOf(s, op.identity).Published? ==>
              var m := StageOf(s, op.identity).manifest;
              t == With(s, op.identity, Referenced(DiskOf(s, op.identity), m), NoBuild).(db := Publish(s.db, m))
    ensures op.PublishOp? && StageOf(s, op.identity).Written? ==>
              var m := StageOf(s, op.identity).manifest;
              t == With(s, op.identity, DiskOf(s, op.identity).(manifest := Some(m)), Published(m))
    ensures !op.AnchorOp? ==> t.db.anchors == s.db.anchors
    ensures op.UpdateOp? || op.DeleteOp? ==> t.db.epoch == s.db.epoch + (if op.index < |s.db.rows| then 1 else 0)
    ensures op.InsertOp? || op.UpdateOp? || op.DeleteOp? || op.ReadOp? ==> t.disks == s.disks && t.stages == s.stages
    ensures op.BuildOp? || op.PublishOp? || op.AnchorOp? || op.CrashOp? || op.DiskOp? ==>
              forall other :: other != op.identity ==> DiskOf(t, other) == DiskOf(s, other)
                                                       && StageOf(t, other) == StageOf(s, other)
  {
    hide Good, Anchored, Fit, Sound, Referenced, Between, AllUsable, Compatible, Shaped;
    t := s;
    match op {
      case InsertOp(row) =>
        InsertSound(t, row);
        t := t.(db := Insert(t.db, row));
      case UpdateOp(i, row) =>
        if i < |s.db.rows| {
          EpochSound(t, Update(t.db, i, row));
          t := t.(db := Update(t.db, i, row));
        }
      case DeleteOp(i) =>
        if i < |s.db.rows| {
          EpochSound(t, Delete(t.db, i));
          t := t.(db := Delete(t.db, i));
        }
      case BuildOp(identity, dimensions, room) =>
        if StageOf(s, identity).NoBuild? {                    // one builder at a time holds an identity's lock
          t := BuildStep(t, identity, dimensions, room);
        }
      case PublishOp(identity) =>
        var stage := StageOf(s, identity);
        if stage.Written? {
          StageFits(s, identity);
          FitMoves(stage.manifest, identity, s.db);
          WithSound(s, identity, DiskOf(s, identity).(manifest := Some(stage.manifest)), Published(stage.manifest));
          t := With(s, identity, DiskOf(s, identity).(manifest := Some(stage.manifest)), Published(stage.manifest));
        }
      case AnchorOp(identity) =>
        var stage := StageOf(s, identity);
        if stage.Published? {
          var m := stage.manifest;
          StageFits(s, identity);
          FitMoves(m, identity, s.db);
          WithSound(s, identity, Referenced(DiskOf(s, identity), m), NoBuild);
          t := With(s, identity, Referenced(DiskOf(s, identity), m), NoBuild);
          AnchorSound(t, m);
          t := t.(db := Publish(t.db, m));
        }
      case CrashOp(identity) =>
        FitNone(identity, s.db);
        WithSound(s, identity, DiskOf(s, identity), NoBuild);
        t := With(s, identity, DiskOf(s, identity), NoBuild);
      case DiskOp(identity, disk) =>
        StageFits(s, identity);
        WithSound(s, identity, disk, StageOf(s, identity));
        t := With(s, identity, disk, StageOf(s, identity));
      case ReadOp(_, _, _) =>
    }
  }

  lemma StageFits(s: State, identity: string)
    requires Sound(s)
    ensures Fit(StageOf(s, identity), identity, s.db)
    ensures !StageOf(s, identity).NoBuild? ==> Good(StageOf(s, identity).manifest, s.db)
  {
  }

  lemma FitNone(identity: string, db: Db)
    ensures Fit(NoBuild, identity, db)
  {
  }

  lemma FitMoves(m: Manifest, identity: string, db: Db)
    requires Fit(Written(m), identity, db) || Fit(Published(m), identity, db)
    ensures Fit(Published(m), identity, db) && Fit(NoBuild, identity, db)
  {
  }

  /** The read half of a build, under the identity's lock. */
  method BuildStep(s: State, identity: string, dimensions: nat, room: nat) returns (t: State)
    requires Sound(s)
    ensures Sound(t) && t.db == s.db
    ensures forall other :: other != identity ==> DiskOf(t, other) == DiskOf(s, other)
                                                  && StageOf(t, other) == StageOf(s, other)
  {
    hide Good, Between, AllUsable, Shaped;
    var built, files := Build(s.db, DiskOf(s, identity), identity, dimensions, room);
    var stage := if built.Fresh? then Written(built.manifest) else NoBuild;
    WithSound(s, identity, files, stage);
    return With(s, identity, files, stage);
  }

  /** A search may hold a database snapshot as old as the start of the run: which one it reads. */
  function SnapshotOf(op: Op, now: nat): nat
    requires op.ReadOp?
    ensures SnapshotOf(op, now) <= now
  {
    Min(op.snapshot, now)
  }

  /** Search i got nothing or exactly the scores of the table its snapshot holds. */
  predicate Exact(rows: seq<Option<Row>>, ops: seq<Op>, i: nat, answer: Option<seq<(nat, real)>>, score: Vec -> real)
    requires i < |ops|
  {
    ops[i].ReadOp? && answer.Some? ==>
      var table := TableAfter(rows, ops[..SnapshotOf(ops[i], i)]);
      answer.value == AllScores(table, ops[i].identity, score)
  }

  /**
   Over every run of inserts, updates, deletes, interrupted, overlapping and complete builds of any identities and
   damage to their directories, every search on every snapshot gets nothing or exactly the scores of that snapshot's
   table.
   */
  method RunOps(db: Db, disks: map<string, Disk>, ops: seq<Op>, score: Vec -> real)
    returns (answers: seq<Option<seq<(nat, real)>>>)
    requires db.anchors == map[]
    ensures |answers| == |ops| && forall i :: 0 <= i < |ops| ==> Exact(db.rows, ops, i, answers[i], score)
  {
    hide Effect, TableAfter, AllScores, Compatible, IsAnchored, AllUsable, Shaped, Between, Good;
    answers := [];
    var s := State(db, disks, map[]);
    var snapshots := [db];
    HistoryStart(db, ops);
    for i := 0 to |ops|
      invariant Sound(s) && History(db.rows, ops, snapshots, i) && snapshots[i] == s.db
      invariant |answers| == i && forall j :: 0 <= j < i ==> Exact(db.rows, ops, j, answers[j], score)
    {
      var answer: Option<seq<(nat, real)>> := None;
      if ops[i].ReadOp? {
        answer := Scores(snapshots[SnapshotOf(ops[i], i)], DiskOf(s, ops[i].identity), ops[i].identity,
                         ops[i].dimensions, score);
      }
      answers := answers + [answer];
      s := Advance(s, ops[i]);
      HistoryGrows(db.rows, ops, snapshots, i, s.db);
      snapshots := snapshots + [s.db];
    }
  }

  /** Snapshot j is the database after j steps. */
  predicate History(rows: seq<Option<Row>>, ops: seq<Op>, snapshots: seq<Db>, n: nat) {
    && n <= |ops| && |snapshots| == n + 1
    && forall j :: 0 <= j <= n ==> Anchored(snapshots[j]) && snapshots[j].rows == TableAfter(rows, ops[..j])
  }

  lemma HistoryStart(db: Db, ops: seq<Op>)
    requires Anchored(db)
    ensures History(db.rows, ops, [db], 0)
  {
  }

  lemma HistoryGrows(rows: seq<Option<Row>>, ops: seq<Op>, snapshots: seq<Db>, n: nat, db: Db)
    requires n < |ops| && History(rows, ops, snapshots, n)
    requires Anchored(db) && db.rows == Effect(snapshots[n].rows, ops[n])
    ensures History(rows, ops, snapshots + [db], n + 1)
  {
    assert ops[..n + 1][..n] == ops[..n];
  }

  /**
   The cache is not always refused: right after an undisturbed build, publication and anchoring, a search is answered
   from it, and it still is after any further inserts of well-shaped vectors.
   */
  method BuildThenRead(db: Db, disk: Disk, identity: string, dimensions: nat, room: nat, later: seq<Row>,
                       score: Vec -> real)
    returns (built: Built, answer: Option<seq<(nat, real)>>)
    requires Anchored(db) && forall i :: 0 <= i < |later| ==> |later[i].vector| == dimensions
    ensures built.Fresh? ==>
              answer == Some(AllScores(db.rows + Somes(later), identity, score))
  {
    var files: Disk;
    built, files := Build(db, disk, identity, dimensions, room);
    if !built.Fresh? {
      return built, None;
    }
    var m := built.manifest;
    var published := Referenced(files.(manifest := Some(m)), m);
    var now := Publish(db, m).(rows := db.rows + Somes(later));
    PublishedServes(db, files, m, later, dimensions);
    answer := Scores(now, published, identity, dimensions, score);
  }

  function Publish(db: Db, m: Manifest): Db {
    db.(anchors := db.anchors[m.identity := m])
  }

  lemma PublishedServes(db: Db, files: Disk, m: Manifest, later: seq<Row>, dimensions: nat)
    requires Anchored(db) && Good(m, db) && m.watermark == |db.rows|
    requires AllUsable(m.segments, files, |db.rows|, dimensions)
    requires forall i :: 0 <= i < |later| ==> |later[i].vector| == dimensions
    ensures Anchored(Publish(db, m).(rows := db.rows + Somes(later)))
    ensures AllUsable(m.segments, Referenced(files.(manifest := Some(m)), m), |db.rows|, dimensions)
    ensures var rows := db.rows + Somes(later);
            Shaped(Vectors(Between(rows, m.identity, |db.rows|, |rows|)), dimensions)
  {
    assert m.segments[..|m.segments|] == m.segments;
    UsableGrows(m.segments, files, files.(manifest := Some(m)), |db.rows|, |db.rows|, dimensions);
    ReferencedUsable(m, files.(manifest := Some(m)), |db.rows|, dimensions, |m.segments|);
    AnchorKeeps(db, m);
    InsertsKeep(Publish(db, m), later);
    TailShaped(db.rows, later, m.identity, dimensions);
  }

  lemma AnchorKeeps(db: Db, m: Manifest)
    requires Anchored(db) && Good(m, db)
    ensures Anchored(Publish(db, m))
  {
  }

  lemma TailShaped(rows: seq<Option<Row>>, later: seq<Row>, identity: string, dimensions: nat)
    requires forall i :: 0 <= i < |later| ==> |later[i].vector| == dimensions
    ensures Shaped(Vectors(Between(rows + Somes(later), identity, |rows|, |rows + Somes(later)|)), dimensions)
  {
    SomesAre(later);
    LaterShaped(rows + Somes(later), identity, |rows|, |rows + Somes(later)|, dimensions);
  }

  lemma {:induction false} InsertsKeep(db: Db, later: seq<Row>)
    requires Anchored(db)
    ensures Anchored(db.(rows := db.rows + Somes(later)))
    decreases |later|
  {
    if later == [] {
      assert db.rows + [] == db.rows;
    } else {
      var front, last := later[..|later| - 1], later[|later| - 1];
      InsertsKeep(db, front);
      var before := db.(rows := db.rows + Somes(front));
      InsertSound(State(before, map[], map[]), last);
      assert db.rows + Somes(later) == (db.rows + Somes(front)) + [Some(last)];
    }
  }

  lemma {:induction false} LaterShaped(rows: seq<Option<Row>>, identity: string, lo: nat, hi: nat, dimensions: nat)
    requires hi <= |rows|
    requires forall i :: lo <= i < hi && rows[i].Some? ==> |rows[i].value.vector| == dimensions
    ensures Shaped(Vectors(Between(rows, identity, lo, hi)), dimensions)
  {
    if lo < hi {
      LaterShaped(rows, identity, lo, hi - 1, dimensions);
      var front, all := Between(rows, identity, lo, hi - 1), Between(rows, identity, lo, hi);
      forall i | 0 <= i < |all| ensures |Vectors(all)[i]| == dimensions {
        assert i < |front| ==> Vectors(all)[i] == Vectors(front)[i];
      }
    }
  }

  lemma {:induction false} SomesAre(rows: seq<Row>)
    ensures |Somes(rows)| == |rows| && forall i :: 0 <= i < |rows| ==> Somes(rows)[i] == Some(rows[i])
  {
    if rows != [] {
      SomesAre(rows[..|rows| - 1]);
    }
  }

  function Somes(rows: seq<Row>): seq<Option<Row>> {
    if rows == [] then [] else Somes(rows[..|rows| - 1]) + [Some(rows[|rows| - 1])]
  }
}
