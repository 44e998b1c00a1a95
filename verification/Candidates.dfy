/**
 Exact bounded-memory selection of the 200 best events: the candidate loop of hybrid search, and the score-ordered
 batches that let it stop early. Scores are reals.
 */
module Candidates {
  import opened Common

  const CANDIDATES: nat := 200

  /** One chunk of one event with its score. */
  datatype Hit = Hit(row: nat, score: real, start: nat)

  datatype Best = Best(score: real, start: nat)

  type Table = map<nat, Best>

  /** What the batch source yields: rows, or no rows and a bound on every later score (None is minus infinity). */
  datatype Batch = Rows(hits: seq<Hit>) | Frontier(bound: Option<real>)

  // ---- the exhaustive answer ----

  /** A candidate replaces the event's best on a higher score, or on the same score with an earlier chunk. */
  function Add(best: Table, h: Hit): Table {
    if h.row in best && !(h.score > best[h.row].score || (h.score == best[h.row].score && h.start < best[h.row].start))
    then best
    else best[h.row := Best(h.score, h.start)]
  }

  function Adds(best: Table, hits: seq<Hit>): Table {
    if hits == [] then best else Add(Adds(best, hits[..|hits| - 1]), hits[|hits| - 1])
  }

  /** Every chunk scored and nothing dropped. */
  function BestOf(hits: seq<Hit>): Table {
    Adds(map[], hits)
  }

  /** `b` is the highest score of the row's chunks, and the earliest chunk with that score. */
  predicate IsBest(hits: seq<Hit>, row: nat, b: Best) {
    && Hit(row, b.score, b.start) in hits
    && forall h :: h in hits && h.row == row ==> h.score < b.score || (h.score == b.score && b.start <= h.start)
  }

  predicate Scored(hits: seq<Hit>, row: nat) {
    exists i :: 0 <= i < |hits| && hits[i].row == row
  }

  lemma {:induction false} BestOfIsBest(hits: seq<Hit>)
    ensures forall row :: row in BestOf(hits) <==> Scored(hits, row)
    ensures forall row :: row in BestOf(hits) ==> IsBest(hits, row, BestOf(hits)[row])
  {
    if hits != [] {
      var front, last := hits[..|hits| - 1], hits[|hits| - 1];
      BestOfIsBest(front);
      assert hits == front + [last];
      AddIsBest(front, BestOf(front), last);
    }
  }

  lemma AddIsBest(hits: seq<Hit>, best: Table, last: Hit)
    requires forall row :: row in best <==> Scored(hits, row)
    requires forall row :: row in best ==> IsBest(hits, row, best[row])
    ensures forall row :: row in Add(best, last) <==> Scored(hits + [last], row)
    ensures forall row :: row in Add(best, last) ==> IsBest(hits + [last], row, Add(best, last)[row])
  {
    hide Scored, IsBest;
    var all := hits + [last];
    forall row ensures row in Add(best, last) <==> Scored(all, row) {
      ScoredMore(hits, last, row);
    }
    forall row | row in Add(best, last) ensures IsBest(all, row, Add(best, last)[row]) {
      ScoredMore(hits, last, row);
      AddIsBestAt(hits, best, last, row);
    }
  }

  lemma ScoredMore(hits: seq<Hit>, last: Hit, row: nat)
    ensures Scored(hits + [last], row) <==> Scored(hits, row) || row == last.row
  {
    var all := hits + [last];
    assert all[|hits|] == last;
    if Scored(hits, row) {
      var i :| 0 <= i < |hits| && hits[i].row == row;
      assert all[i].row == row;
    }
  }

  lemma AddIsBestAt(hits: seq<Hit>, best: Table, last: Hit, row: nat)
    requires row in best ==> IsBest(hits, row, best[row])
    requires row in best <==> Scored(hits, row)
    requires row in Add(best, last)
    ensures IsBest(hits + [last], row, Add(best, last)[row])
  {
    assert forall h :: h in hits + [last] <==> h in hits || h == last;
    forall h | h in hits && h.row == row ensures Scored(hits, row) {
      var i :| 0 <= i < |hits| && hits[i] == h;
    }
  }

  /** Only which chunks are scored matters, never the order or the batches they come in. */
  lemma OrderIrrelevant(hits: seq<Hit>, others: seq<Hit>)
    requires forall h :: h in hits <==> h in others
    ensures BestOf(hits) == BestOf(others)
  {
    BestOfIsBest(hits);
    BestOfIsBest(others);
    var a, b := BestOf(hits), BestOf(others);
    forall row | row in a ensures row in b && a[row] == b[row] {
      assert Hit(row, a[row].score, a[row].start) in others;
      assert Hit(row, b[row].score, b[row].start) in hits;
    }
    forall row | row in b ensures row in a {
      assert Hit(row, b[row].score, b[row].start) in hits;
    }
  }

  // ---- ranking ----

  /** Higher scores first, equal scores by event row. */
  predicate Ahead(row: nat, score: real, other: nat, otherScore: real) {
    score > otherScore || (score == otherScore && row < other)
  }

  predicate Listed(ranked: seq<Hit>, row: nat) {
    exists i :: 0 <= i < |ranked| && ranked[i].row == row
  }

  predicate Sorted(ranked: seq<Hit>) {
    forall i, j :: 0 <= i < j < |ranked| ==> Ahead(ranked[i].row, ranked[i].score, ranked[j].row, ranked[j].score)
  }

  predicate Leads(ranked: seq<Hit>, row: nat, score: real) {
    forall i :: 0 <= i < |ranked| ==> Ahead(ranked[i].row, ranked[i].score, row, score)
  }

  /** Each entry of the list is a row with its own best chunk. */
  predicate FromTable(ranked: seq<Hit>, best: Table) {
    forall i :: 0 <= i < |ranked| ==>
      ranked[i].row in best && best[ranked[i].row] == Best(ranked[i].score, ranked[i].start)
  }

  /** The first k entries of the table, in order. */
  predicate IsTop(ranked: seq<Hit>, best: Table, k: nat) {
    && |ranked| == Min(k, |best|) && Sorted(ranked) && FromTable(ranked, best)
    && (forall row :: row in best && !Listed(ranked, row) ==> Leads(ranked, row, best[row].score))
  }

  function ListedRows(ranked: seq<Hit>): set<nat> {
    set i | 0 <= i < |ranked| :: ranked[i].row
  }

  lemma {:induction false} ListedCount(ranked: seq<Hit>, best: Table)
    requires Sorted(ranked) && FromTable(ranked, best)
    ensures |ListedRows(ranked)| == |ranked|
  {
    if ranked != [] {
      var front, last := ranked[..|ranked| - 1], ranked[|ranked| - 1];
      ListedCount(front, best);
      assert last.row !in ListedRows(front);
      forall row | row in ListedRows(ranked) ensures row in ListedRows(front) + {last.row} {
        var i :| 0 <= i < |ranked| && ranked[i].row == row;
        assert i < |front| ==> front[i].row == row;
      }
      forall row | row in ListedRows(front) ensures row in ListedRows(ranked) {
        var i :| 0 <= i < |front| && front[i].row == row;
        assert ranked[i].row == row;
      }
      assert ListedRows(ranked) == ListedRows(front) + {last.row};
    }
  }

  /** There is only one such list. */
  lemma TopUnique(a: seq<Hit>, b: seq<Hit>, best: Table, k: nat)
    requires IsTop(a, best, k) && IsTop(b, best, k)
    ensures a == b
  {
    TopPrefix(a, b, best, k, |a|);
    assert a[..|a|] == a && b[..|a|] == b;
  }

  lemma {:induction false} TopPrefix(a: seq<Hit>, b: seq<Hit>, best: Table, k: nat, n: nat)
    requires IsTop(a, best, k) && IsTop(b, best, k) && n <= |a| == |b|
    ensures a[..n] == b[..n]
  {
    hide IsTop;
    if n > 0 {
      TopPrefix(a, b, best, k, n - 1);
      SamePlace(a, b, best, k, n - 1);
      assert a[..n] == a[..n - 1] + [a[n - 1]] && b[..n] == b[..n - 1] + [b[n - 1]];
    }
  }

  lemma SamePlace(a: seq<Hit>, b: seq<Hit>, best: Table, k: nat, n: nat)
    requires IsTop(a, best, k) && IsTop(b, best, k) && n < |a| == |b| && a[..n] == b[..n]
    ensures a[n] == b[n]
  {
    hide Leads, Listed, Sorted;
    NotBehind(a, b, best, k, n);
    NotBehind(b, a, best, k, n);
  }

  lemma NotBehind(a: seq<Hit>, b: seq<Hit>, best: Table, k: nat, n: nat)
    requires IsTop(a, best, k) && IsTop(b, best, k) && n < |a| && a[..n] == b[..n]
    ensures !Ahead(a[n].row, a[n].score, b[n].row, b[n].score)
  {
    if Listed(b, a[n].row) {
      forall j | 0 <= j < n ensures a[j] == b[j] {
        assert a[..n][j] == b[..n][j];
      }
      var i :| 0 <= i < |b| && b[i].row == a[n].row;
      assert best[b[i].row] == best[a[n].row];
    }
  }

  /** The entry that leads every other one: max over the table under the ordering key. */
  method First(best: Table, rows: set<nat>) returns (row: nat)
    requires rows != {} && rows <= best.Keys
    ensures row in rows && forall other :: other in rows && other != row ==>
              Ahead(row, best[row].score, other, best[other].score)
  {
    row :| row in rows;
    var rest := rows - {row};
    while rest != {}
      invariant rest < rows && row in rows - rest
      invariant forall other :: other in rows - rest && other != row ==>
                  Ahead(row, best[row].score, other, best[other].score)
      decreases rest
    {
      var next :| next in rest;
      if Ahead(next, best[next].score, row, best[row].score) {
        row := next;
      }
      rest := rest - {next};
    }
  }

  /** nlargest, and sorted followed by a slice. */
  method SelectTop(best: Table, k: nat) returns (ranked: seq<Hit>)
    ensures IsTop(ranked, best, k)
  {
    ranked := [];
    var rest := best.Keys;
    while rest != {} && |ranked| < k
      invariant rest <= best.Keys && |ranked| + |rest| == |best| && |ranked| <= k
      invariant Selected(ranked, best, rest)
    {
      var row := First(best, rest);
      var entry := Hit(row, best[row].score, best[row].start);
      SelectedMore(ranked, best, rest, row);
      ranked, rest := ranked + [entry], rest - {row};
    }
  }

  predicate Selected(ranked: seq<Hit>, best: Table, rest: set<nat>) {
    && rest <= best.Keys && Sorted(ranked) && FromTable(ranked, best)
    && (forall row :: row in best && row !in rest ==> Listed(ranked, row))
    && (forall row :: row in rest ==> Leads(ranked, row, best[row].score))
  }

  lemma SelectedMore(ranked: seq<Hit>, best: Table, rest: set<nat>, row: nat)
    requires Selected(ranked, best, rest) && row in rest
    requires forall other :: other in rest && other != row ==> Ahead(row, best[row].score, other, best[other].score)
    ensures Selected(ranked + [Hit(row, best[row].score, best[row].start)], best, rest - {row})
  {
    var more := ranked + [Hit(row, best[row].score, best[row].start)];
    forall other | other in best && other !in rest - {row} ensures Listed(more, other) {
      if other == row {
        assert more[|ranked|].row == row;
      } else {
        var i :| 0 <= i < |ranked| && ranked[i].row == other;
        assert more[i].row == other;
      }
    }
    forall other | other in rest - {row} ensures Leads(more, other, best[other].score) {
      assert Leads(ranked, other, best[other].score);
    }
  }

  // ---- what pruning keeps ----

  /** Everything, or only the entries not behind one entry. */
  datatype Cut = Everything | UpTo(row: nat, score: real)

  predicate Inside(cut: Cut, row: nat, score: real) {
    cut.Everything? || !Ahead(cut.row, cut.score, row, score)
  }

  function InsideRows(best: Table, cut: Cut): set<nat> {
    set row | row in best && Inside(cut, row, best[row].score)
  }

  /** The kept table agrees with the exhaustive one inside the cut, and the cut leaves at least 200 entries. */
  predicate Keeps(best: Table, all: Table, cut: Cut) {
    && best.Keys <= all.Keys
    && (forall row :: row in best && Inside(cut, row, best[row].score) ==> all[row] == best[row])
    && (forall row :: row in all && Inside(cut, row, all[row].score) ==> row in best && best[row] == all[row])
    && (cut.UpTo? ==> |InsideRows(best, cut)| >= CANDIDATES)
  }

  lemma KeepsAdd(best: Table, all: Table, cut: Cut, h: Hit)
    requires Keeps(best, all, cut)
    ensures Keeps(Add(best, h), Add(all, h), cut)
  {
    if cut.UpTo? {
      SubsetCount(InsideRows(best, cut), InsideRows(Add(best, h), cut));
    }
  }

  lemma {:induction false} KeepsAdds(best: Table, all: Table, cut: Cut, hits: seq<Hit>)
    requires Keeps(best, all, cut)
    ensures Keeps(Adds(best, hits), Adds(all, hits), cut)
  {
    if hits != [] {
      KeepsAdds(best, all, cut, hits[..|hits| - 1]);
      KeepsAdd(Adds(best, hits[..|hits| - 1]), Adds(all, hits[..|hits| - 1]), cut, hits[|hits| - 1]);
    }
  }

  /** Pruning to the first 200 tightens the cut to the 200th entry, and every answer inside it survives. */
  lemma PruneKeeps(best: Table, all: Table, cut: Cut, ranked: seq<Hit>)
    requires Keeps(best, all, cut) && |best| >= CANDIDATES && IsTop(ranked, best, CANDIDATES)
    ensures var last := ranked[CANDIDATES - 1];
            Keeps(Kept(best, ranked), all, UpTo(last.row, last.score)) && Keeps(best, all, UpTo(last.row, last.score))
  {
    var last := ranked[CANDIDATES - 1];
    var tight := UpTo(last.row, last.score);
    ListedCount(ranked, best);
    forall row | row in best ensures Inside(tight, row, best[row].score) <==> row in ListedRows(ranked) {
      if row in ListedRows(ranked) {
        var i :| 0 <= i < |ranked| && ranked[i].row == row;
        assert best[row].score == ranked[i].score;
      } else {
        assert !Listed(ranked, row);
        assert Leads(ranked, row, best[row].score);
      }
    }
    assert InsideRows(best, tight) == ListedRows(ranked);
    assert InsideRows(Kept(best, ranked), tight) == ListedRows(ranked);
    LastInside(best, cut, ranked);
  }

  lemma LastInside(best: Table, cut: Cut, ranked: seq<Hit>)
    requires cut.UpTo? ==> |InsideRows(best, cut)| >= CANDIDATES
    requires |best| >= CANDIDATES && IsTop(ranked, best, CANDIDATES)
    ensures Inside(cut, ranked[CANDIDATES - 1].row, ranked[CANDIDATES - 1].score)
  {
    var last := ranked[CANDIDATES - 1];
    ListedCount(ranked, best);
    if cut.UpTo? {
      var others := ListedRows(ranked) - {last.row};
      Pigeonhole(InsideRows(best, cut), others);
      var row :| row in InsideRows(best, cut) && row !in others;
      if row != last.row {
        assert !Listed(ranked, row);
        assert Leads(ranked, row, best[row].score);
      }
    }
  }

  lemma Pigeonhole<T>(a: set<T>, b: set<T>)
    requires |a| > |b|
    ensures exists x :: x in a && x !in b
  {
    if a <= b {
      SubsetCount(a, b);
    }
  }

  function Kept(best: Table, ranked: seq<Hit>): Table {
    map row | row in best && row in ListedRows(ranked) :: best[row]
  }

  /** The first 200 of the kept table are the first 200 of the exhaustive one. */
  lemma KeptTop(best: Table, all: Table, cut: Cut, ranked: seq<Hit>)
    requires Keeps(best, all, cut) && IsTop(ranked, best, CANDIDATES)
    ensures IsTop(ranked, all, CANDIDATES)
  {
    SubsetCount(best.Keys, all.Keys);
    assert |best| == |best.Keys| && |all| == |all.Keys|;
    if cut.UpTo? {
      SubsetCount(InsideRows(best, cut), best.Keys);
      PruneKeeps(best, all, cut, ranked);
      KeptLeads(best, all, ranked);
    } else {
      assert best == all;
    }
  }

  lemma KeptLeads(best: Table, all: Table, ranked: seq<Hit>)
    requires |ranked| == CANDIDATES && Sorted(ranked) && FromTable(ranked, best)
    requires forall row :: row in best && !Listed(ranked, row) ==> Leads(ranked, row, best[row].score)
    requires Keeps(best, all, UpTo(ranked[CANDIDATES - 1].row, ranked[CANDIDATES - 1].score))
    ensures FromTable(ranked, all)
    ensures forall row :: row in all && !Listed(ranked, row) ==> Leads(ranked, row, all[row].score)
  {
    hide Listed;
    var last := ranked[CANDIDATES - 1];
    forall i | 0 <= i < |ranked| ensures Inside(UpTo(last.row, last.score), ranked[i].row, ranked[i].score) {
    }
    forall row | row in all && !Listed(ranked, row) ensures Leads(ranked, row, all[row].score) {
      if !Inside(UpTo(last.row, last.score), row, all[row].score) {
        assert Ahead(last.row, last.score, row, all[row].score);
      }
    }
  }

  // ---- the candidate loop ----

  function HitsOf(b: Batch): seq<Hit> {
    if b.Rows? then b.hits else []
  }

  function AllHits(batches: seq<Batch>): seq<Hit> {
    if batches == [] then [] else AllHits(batches[..|batches| - 1]) + HitsOf(batches[|batches| - 1])
  }

  lemma NextHits(batches: seq<Batch>, i: nat)
    requires i < |batches|
    ensures AllHits(batches[..i + 1]) == AllHits(batches[..i]) + HitsOf(batches[i])
  {
    assert batches[..i + 1][..i] == batches[..i];
  }

  predicate Below(bound: Option<real>, hits: seq<Hit>) {
    forall h :: h in hits ==> bound.Some? && h.score <= bound.value
  }

  /** A frontier bounds every hit that comes after it. */
  predicate Bounded(batches: seq<Batch>) {
    forall i, j :: 0 <= i < j < |batches| && batches[i].Frontier? ==> Below(batches[i].bound, HitsOf(batches[j]))
  }

  lemma {:induction false} AddsConcat(best: Table, a: seq<Hit>, b: seq<Hit>)
    ensures Adds(best, a + b) == Adds(Adds(best, a), b)
  {
    if b == [] {
      assert a + b == a;
    } else {
      assert (a + b)[..|a + b| - 1] == a + b[..|b| - 1];
      AddsConcat(best, a, b[..|b| - 1]);
    }
  }

  lemma {:induction false} RestBelow(batches: seq<Batch>, i: nat, n: nat) returns (rest: seq<Hit>)
    requires i < n <= |batches| && Bounded(batches) && batches[i].Frontier?
    ensures AllHits(batches[..n]) == AllHits(batches[..i]) + rest && Below(batches[i].bound, rest)
  {
    hide AllHits;
    NextHits(batches, n - 1);
    if n == i + 1 {
      rest := [];
      assert AllHits(batches[..i]) + [] == AllHits(batches[..i]);
    } else {
      var before := RestBelow(batches, i, n - 1);
      rest := before + HitsOf(batches[n - 1]);
    }
  }

  /** Hits strictly below the cut change nothing inside it. */
  lemma {:induction false} KeepsWithout(best: Table, all: Table, cut: Cut, rest: seq<Hit>)
    requires Keeps(best, all, cut) && cut.UpTo? && forall h :: h in rest ==> h.score < cut.score
    ensures Keeps(best, Adds(all, rest), cut) && all.Keys <= Adds(all, rest).Keys
  {
    if rest != [] {
      assert rest[|rest| - 1] in rest;
      KeepsWithout(best, all, cut, rest[..|rest| - 1]);
    }
  }

  /** Stopping early is safe: every remaining hit is strictly below the 200th score. */
  lemma StopKeeps(best: Table, batches: seq<Batch>, i: nat, cut: Cut, ranked: seq<Hit>)
    requires i < |batches| && Bounded(batches) && batches[i].Frontier?
    requires Keeps(best, BestOf(AllHits(batches[..i])), cut)
    requires |best| >= CANDIDATES && IsTop(ranked, best, CANDIDATES)
    requires batches[i].bound.None? || batches[i].bound.value < ranked[CANDIDATES - 1].score
    ensures var last := ranked[CANDIDATES - 1];
            Keeps(best, BestOf(AllHits(batches)), UpTo(last.row, last.score))
    ensures |BestOf(AllHits(batches[..i]))| <= |BestOf(AllHits(batches))|
  {
    var last := ranked[CANDIDATES - 1];
    var all := BestOf(AllHits(batches[..i]));
    PruneKeeps(best, all, cut, ranked);
    var rest := RestBelow(batches, i, |batches|);
    assert batches[..|batches|] == batches;
    AddsConcat(map[], AllHits(batches[..i]), rest);
    KeepsWithout(best, all, UpTo(last.row, last.score), rest);
    SubsetCount(all.Keys, BestOf(AllHits(batches)).Keys);
  }

  /** The state of the loop agrees with the exhaustive table so far. */
  ghost predicate Agrees(best: Table, overflow: bool, hits: seq<Hit>, cut: Cut) {
    && Keeps(best, BestOf(hits), cut)
    && (overflow <==> |BestOf(hits)| > CANDIDATES)
    && (!overflow ==> cut.Everything?)
  }

  lemma NothingSeen()
    ensures Agrees(map[], false, AllHits([]), Everything)
  {
  }

  /** One batch of rows: update the best chunks, note an overflow, prune beyond twice the candidates. */
  method TakeRows(best: Table, overflow: bool, rows: seq<Hit>, ghost hits: seq<Hit>, ghost all: seq<Hit>,
                  ghost cut: Cut)
    returns (kept: Table, more: bool, ghost tight: Cut)
    requires Agrees(best, overflow, hits, cut) && all == hits + rows
    ensures Agrees(kept, more, all, tight) && |kept| <= 2 * CANDIDATES
  {
    kept := best;
    for i := 0 to |rows|
      invariant kept == Adds(best, rows[..i])
    {
      assert rows[..i + 1][..i] == rows[..i];
      kept := Add(kept, rows[i]);
    }
    assert rows[..|rows|] == rows;
    AddsConcat(map[], hits, rows);
    KeepsAdds(best, BestOf(hits), cut, rows);
    OverflowAdds(best, overflow, hits, cut, rows);
    more := overflow || |kept| > CANDIDATES;
    tight := cut;
    if |kept| > 2 * CANDIDATES {
      kept, tight := Prune(kept, BestOf(hits + rows), cut);
    }
  }

  method Prune(best: Table, ghost all: Table, ghost cut: Cut) returns (kept: Table, ghost tight: Cut)
    requires Keeps(best, all, cut) && |best| >= CANDIDATES
    ensures Keeps(kept, all, tight) && |kept| == CANDIDATES
  {
    var ranked := SelectTop(best, CANDIDATES);
    PruneKeeps(best, all, cut, ranked);
    kept := Kept(best, ranked);
    ListedCount(ranked, best);
    assert kept.Keys == ListedRows(ranked);
    assert |kept| == |kept.Keys|;
    tight := UpTo(ranked[CANDIDATES - 1].row, ranked[CANDIDATES - 1].score);
  }

  lemma OverflowAdds(best: Table, overflow: bool, hits: seq<Hit>, cut: Cut, rows: seq<Hit>)
    requires Agrees(best, overflow, hits, cut)
    ensures overflow || |Adds(best, rows)| > CANDIDATES <==> |BestOf(hits + rows)| > CANDIDATES
  {
    AddsConcat(map[], hits, rows);
    if overflow {
      AddsGrow(BestOf(hits), rows);
      SubsetCount(BestOf(hits).Keys, BestOf(hits + rows).Keys);
    } else {
      assert best == BestOf(hits);
    }
  }

  lemma {:induction false} AddsGrow(best: Table, rows: seq<Hit>)
    ensures best.Keys <= Adds(best, rows).Keys
  {
    if rows != [] {
      AddsGrow(best, rows[..|rows| - 1]);
    }
  }

  /** Stop at a frontier strictly below the 200th score, once more than 200 events have matched. */
  method Stops(best: Table, overflow: bool, batches: seq<Batch>, i: nat, ghost cut: Cut)
    returns (stop: bool, ghost tight: Cut)
    requires i < |batches| && Bounded(batches) && batches[i].Frontier?
    requires Agrees(best, overflow, AllHits(batches[..i]), cut)
    ensures Agrees(best, overflow, AllHits(if stop then batches else batches[..i + 1]), tight)
    ensures stop ==> overflow && |best| >= CANDIDATES
    ensures overflow && |best| >= CANDIDATES && batches[i].bound.None? ==> stop
  {
    stop, tight := false, cut;
    NextHits(batches, i);
    assert AllHits(batches[..i]) + [] == AllHits(batches[..i]);
    if overflow && |best| >= CANDIDATES {
      var ranked := SelectTop(best, CANDIDATES);
      var last := ranked[CANDIDATES - 1];
      stop := batches[i].bound.None? || batches[i].bound.value < last.score;
      if stop {
        StopKeeps(best, batches, i, cut, ranked);
        tight := UpTo(last.row, last.score);
      }
    }
  }

  /** sorted(best)[:200] is the exhaustive answer too. */
  method Finish(best: Table, overflow: bool, ghost hits: seq<Hit>, ghost cut: Cut) returns (ranked: seq<Hit>)
    requires Agrees(best, overflow, hits, cut)
    ensures IsTop(ranked, BestOf(hits), CANDIDATES) && (overflow <==> |BestOf(hits)| > CANDIDATES)
  {
    ranked := SelectTop(best, CANDIDATES);
    KeptTop(best, BestOf(hits), cut, ranked);
  }

  /**
   The candidate loop. Pruning and stopping early never change the answer: it is the first 200 events, with the best
   score and earliest chunk of each, of the table that scores every chunk; the overflow flag says whether more than
   200 events matched.
   */
  method TopEvents(batches: seq<Batch>) returns (ranked: seq<Hit>, overflow: bool)
    requires Bounded(batches)
    ensures IsTop(ranked, BestOf(AllHits(batches)), CANDIDATES)
    ensures overflow <==> |BestOf(AllHits(batches))| > CANDIDATES
    ensures BestHits(ProducedBy(batches), ranked, overflow)
  {
    hide Agrees, Bounded, AllHits, IsTop, BestOf, BestHits, Produced;
    var best: Table := map[];
    ghost var cut := Everything;
    overflow := false;
    var i := 0;
    ghost var seen: seq<Hit> := AllHits([]);
    NothingSeen();
    assert batches[..0] == [];
    while i < |batches|
      invariant i <= |batches| && seen == AllHits(batches[..i])
      invariant Agrees(best, overflow, seen, cut)
    {
      var stop := false;
      ghost var next := AllHits(batches[..i + 1]);
      NextHits(batches, i);
      match batches[i] {
        case Rows(rows) =>
          best, overflow, cut := TakeRows(best, overflow, rows, seen, next, cut);
        case Frontier(bound) =>
          stop, cut := Stops(best, overflow, batches, i, cut);
      }
      if stop {
        seen := AllHits(batches);
        break;
      }
      seen, i := next, i + 1;
    }
    assert i == |batches| ==> batches[..i] == batches;
    ranked := Finish(best, overflow, seen, cut);
    TopIsBest(AllHits(batches), ranked, overflow);
    ProducedHits(batches);
  }

  // ---- the answer, told of the hits ----

  /**
   At most 200 hits: each is its event's highest-scored chunk, the earliest of those; they are in descending order
   of score and, for equal scores, in the order of the events; an event is left out only behind 200 others; and the
   flag says that more than 200 events have a hit.
   */
  ghost predicate BestHits(hits: iset<Hit>, ranked: seq<Hit>, overflow: bool) {
    && (forall i :: 0 <= i < |ranked| ==> ranked[i] in hits)
    && (forall i, h :: 0 <= i < |ranked| && h in hits && h.row == ranked[i].row ==>
          h.score < ranked[i].score || (h.score == ranked[i].score && h.start >= ranked[i].start))
    && (forall i, j :: 0 <= i < j < |ranked| ==>
          ranked[i].score > ranked[j].score || (ranked[i].score == ranked[j].score && ranked[i].row < ranked[j].row))
    && |ranked| <= 200
    && (forall h :: h in hits ==> (exists i :: 0 <= i < |ranked| && ranked[i].row == h.row) || LeftOut(ranked, h))
    && forall rows: set<nat> :: RowsOf(hits, rows) ==> (overflow <==> |rows| > 200)
  }

  predicate LeftOut(ranked: seq<Hit>, h: Hit) {
    && |ranked| == 200
    && forall i :: 0 <= i < |ranked| ==>
         ranked[i].score > h.score || (ranked[i].score == h.score && ranked[i].row < h.row)
  }

  ghost predicate RowsOf(hits: iset<Hit>, rows: set<nat>) {
    forall row :: row in rows <==> exists h :: h in hits && h.row == row
  }

  ghost function Each(hits: seq<Hit>): iset<Hit> {
    iset h | h in hits
  }

  lemma TopIsBest(hits: seq<Hit>, ranked: seq<Hit>, overflow: bool)
    requires IsTop(ranked, BestOf(hits), CANDIDATES) && (overflow <==> |BestOf(hits)| > CANDIDATES)
    ensures BestHits(Each(hits), ranked, overflow)
  {
    hide BestOf, Listed, Leads, IsBest, Scored;
    var best, all := BestOf(hits), Each(hits);
    BestOfIsBest(hits);
    forall i | 0 <= i < |ranked|
      ensures ranked[i] in all
      ensures forall h :: h in all && h.row == ranked[i].row ==>
                h.score < ranked[i].score || (h.score == ranked[i].score && h.start >= ranked[i].start)
    {
      BestAt(hits, ranked[i]);
    }
    forall h | h in all ensures (exists i :: 0 <= i < |ranked| && ranked[i].row == h.row) || LeftOut(ranked, h) {
      HitHasBest(hits, h);
      if !Listed(ranked, h.row) {
        Unlisted(ranked, best, h);
      } else {
        ListedAt(ranked, h.row);
      }
    }
    forall rows: set<nat> | RowsOf(all, rows) ensures rows == best.Keys {
      forall row ensures row in rows <==> row in best {
        RowHasHit(hits, row);
      }
    }
  }

  lemma BestAt(hits: seq<Hit>, h: Hit)
    requires h.row in BestOf(hits) && BestOf(hits)[h.row] == Best(h.score, h.start)
    ensures h in hits && IsBest(hits, h.row, Best(h.score, h.start))
    ensures forall o :: o in hits && o.row == h.row ==> o.score < h.score || (o.score == h.score && o.start >= h.start)
  {
    BestOfIsBest(hits);
  }

  lemma HitHasBest(hits: seq<Hit>, h: Hit)
    requires h in hits
    ensures h.row in BestOf(hits) && h.score <= BestOf(hits)[h.row].score
  {
    BestOfIsBest(hits);
    var i :| 0 <= i < |hits| && hits[i] == h;
    assert Scored(hits, h.row);
  }

  lemma RowHasHit(hits: seq<Hit>, row: nat)
    ensures row in BestOf(hits) <==> exists h :: h in Each(hits) && h.row == row
  {
    BestOfIsBest(hits);
    if row in BestOf(hits) {
      var b := BestOf(hits)[row];
      assert Hit(row, b.score, b.start) in hits;
    }
    if h :| h in Each(hits) && h.row == row {
      HitHasBest(hits, h);
    }
  }

  lemma ListedAt(ranked: seq<Hit>, row: nat)
    requires Listed(ranked, row)
    ensures exists i :: 0 <= i < |ranked| && ranked[i].row == row
  {
  }

  /** An entry that is not listed is behind 200 that are. */
  lemma Unlisted(ranked: seq<Hit>, best: Table, h: Hit)
    requires IsTop(ranked, best, CANDIDATES) && h.row in best && h.score <= best[h.row].score
    requires !Listed(ranked, h.row)
    ensures LeftOut(ranked, h)
  {
    if |ranked| < CANDIDATES {
      ListedCount(ranked, best);
      assert ListedRows(ranked) <= best.Keys;
      SubsetCount(ListedRows(ranked), best.Keys);
    }
    assert Leads(ranked, h.row, best[h.row].score);
  }

  /** A batch of rows holds the hit. */
  predicate Produced(batches: seq<Batch>, h: Hit) {
    exists i :: 0 <= i < |batches| && batches[i].Rows? && h in batches[i].hits
  }

  ghost function ProducedBy(batches: seq<Batch>): iset<Hit> {
    iset h | Produced(batches, h)
  }

  lemma {:induction false} AllHitsProduced(batches: seq<Batch>, h: Hit)
    ensures h in AllHits(batches) <==> Produced(batches, h)
  {
    if batches != [] {
      var front, last := batches[..|batches| - 1], batches[|batches| - 1];
      AllHitsProduced(front, h);
      if Produced(front, h) {
        var i :| 0 <= i < |front| && front[i].Rows? && h in front[i].hits;
        assert batches[i].Rows? && h in batches[i].hits;
      }
      if last.Rows? && h in last.hits {
        assert batches[|batches| - 1] == last;
      }
    }
  }

  lemma ProducedHits(batches: seq<Batch>)
    ensures Each(AllHits(batches)) == ProducedBy(batches)
  {
    forall h ensures h in AllHits(batches) <==> Produced(batches, h) {
      AllHitsProduced(batches, h);
    }
  }

  // ---- score-ordered batches ----

  const WINDOW: nat := 512
  const FETCH: nat := 256

  /** Which events a stored vector's text occurs in, and where: (event row, chunk start). Filters are applied here. */
  type Join = nat -> seq<(nat, nat)>

  function HitsFor(item: (nat, real), join: Join): seq<Hit> {
    var found := join(item.0);
    seq(|found|, i requires 0 <= i < |found| => Hit(found[i].0, item.1, found[i].1))
  }

  function HitsAlong(items: seq<(nat, real)>, join: Join): seq<Hit> {
    if items == [] then [] else HitsAlong(items[..|items| - 1], join) + HitsFor(items[|items| - 1], join)
  }

  lemma {:induction false} HitsAlongConcat(a: seq<(nat, real)>, b: seq<(nat, real)>, join: Join)
    ensures HitsAlong(a + b, join) == HitsAlong(a, join) + HitsAlong(b, join)
  {
    if b == [] {
      assert a + b == a;
    } else {
      assert (a + b)[..|a + b| - 1] == a + b[..|b| - 1];
      HitsAlongConcat(a, b[..|b| - 1], join);
    }
  }

  lemma {:induction false} HitsAlongMembers(items: seq<(nat, real)>, join: Join, h: Hit)
    ensures h in HitsAlong(items, join) <==> exists i :: 0 <= i < |items| && h in HitsFor(items[i], join)
  {
    if items != [] {
      var front, last := items[..|items| - 1], items[|items| - 1];
      HitsAlongMembers(front, join, h);
      if h in HitsAlong(front, join) {
        var i :| 0 <= i < |front| && h in HitsFor(front[i], join);
        assert h in HitsFor(items[i], join);
      }
      if exists i :: 0 <= i < |items| && h in HitsFor(items[i], join) {
        var i :| 0 <= i < |items| && h in HitsFor(items[i], join);
        assert i < |front| ==> h in HitsFor(front[i], join);
      }
    }
  }

  /** The cached scores in visiting order: a rearrangement with scores never rising. */
  predicate Descending(items: seq<(nat, real)>) {
    forall i, j :: 0 <= i < j < |items| ==> items[i].1 >= items[j].1
  }

  lemma HeadBounds(items: seq<(nat, real)>, n: nat, join: Join)
    requires Descending(items) && n < |items|
    ensures Below(Some(items[n].1), HitsAlong(items[n..], join))
  {
    forall h | h in HitsAlong(items[n..], join) ensures h.score <= items[n].1 {
      HitsAlongMembers(items[n..], join, h);
      var i :| 0 <= i < |items[n..]| && h in HitsFor(items[n..][i], join);
      assert items[n..][i] == items[n + i];
    }
  }

  /** Every frontier already yielded bounds what is still to come. */
  predicate Covers(batches: seq<Batch>, rest: seq<Hit>) {
    forall i :: 0 <= i < |batches| && batches[i].Frontier? ==> Below(batches[i].bound, rest)
  }

  /** `more` continues `batches` with non-empty fetches only. */
  predicate Fetched(batches: seq<Batch>, more: seq<Batch>) {
    batches <= more && forall i :: |batches| <= i < |more| ==> more[i].Rows? && 0 < |more[i].hits| <= FETCH
  }

  lemma BelowPart(bound: Option<real>, rows: seq<Hit>, at: nat, next: nat)
    requires at <= next <= |rows| && Below(bound, rows)
    ensures Below(bound, rows[at..next])
  {
    assert forall h :: h in rows[at..next] ==> h in rows;
  }

  lemma BoundedAppend(batches: seq<Batch>, b: Batch)
    requires Bounded(batches) && Covers(batches, HitsOf(b))
    ensures Bounded(batches + [b]) && AllHits(batches + [b]) == AllHits(batches) + HitsOf(b)
  {
    assert (batches + [b])[..|batches|] == batches;
  }

  lemma FetchOne(batches: seq<Batch>, more: seq<Batch>, rows: seq<Hit>, at: nat, next: nat)
    requires at < next <= |rows| && next <= at + FETCH
    requires Covers(batches, rows) && Fetched(batches, more) && Bounded(more)
             && AllHits(more) == AllHits(batches) + rows[..at]
    ensures var all := more + [Rows(rows[at..next])];
            Fetched(batches, all) && Bounded(all) && AllHits(all) == AllHits(batches) + rows[..next]
  {
    hide Below, Bounded, AllHits, Covers, Fetched;
    assert rows[..next] == rows[..at] + rows[at..next];
    FetchedCovers(batches, more, rows, at, next);
    FetchedMore(batches, more, rows[at..next]);
    BoundedAppend(more, Rows(rows[at..next]));
  }

  lemma FetchedMore(batches: seq<Batch>, more: seq<Batch>, rows: seq<Hit>)
    requires Fetched(batches, more) && 0 < |rows| <= FETCH
    ensures Fetched(batches, more + [Rows(rows)])
  {
  }

  lemma FetchedCovers(batches: seq<Batch>, more: seq<Batch>, rows: seq<Hit>, at: nat, next: nat)
    requires at <= next <= |rows| && Covers(batches, rows) && Fetched(batches, more)
    ensures Covers(more, rows[at..next])
  {
    hide Below;
    forall i | 0 <= i < |more| && more[i].Frontier? ensures Below(more[i].bound, rows[at..next]) {
      assert more[i] == batches[i];
      BelowPart(more[i].bound, rows, at, next);
    }
  }

  method FetchMany(batches: seq<Batch>, rows: seq<Hit>) returns (more: seq<Batch>)
    requires Bounded(batches) && Covers(batches, rows)
    ensures Bounded(more) && AllHits(more) == AllHits(batches) + rows && Fetched(batches, more)
  {
    more := batches;
    var at := 0;
    while at < |rows|
      invariant at <= |rows| && Bounded(more) && AllHits(more) == AllHits(batches) + rows[..at]
                && Fetched(batches, more)
    {
      var next := Min(at + FETCH, |rows|);
      FetchOne(batches, more, rows, at, next);
      more := more + [Rows(rows[at..next])];
      at := next;
    }
    assert rows[..at] == rows;
  }

  /**
   ranked_batches over scores already in descending order: every match of every stored vector is yielded exactly once,
   in that order, and each frontier bounds everything after it.
   */
  method RankedBatches(items: seq<(nat, real)>, join: Join) returns (batches: seq<Batch>)
    requires Descending(items)
    ensures Bounded(batches) && AllHits(batches) == HitsAlong(items, join)
  {
    batches := [];
    var start := 0;
    while start < |items|
      invariant Yielded(batches, items, start, join)
    {
      var end := Min(start + WINDOW, |items|);
      SplitWindow(items, start, end, join);
      var more := FetchMany(batches, HitsAlong(items[start..end], join));
      NextWindow(batches, more, items, start, end, join);
      batches := more + [After(items, end)];
      start := end;
    }
    assert items[..start] == items;
  }

  function After(items: seq<(nat, real)>, end: nat): Batch {
    Frontier(if end < |items| then Some(items[end].1) else None)
  }

  predicate Yielded(batches: seq<Batch>, items: seq<(nat, real)>, start: nat, join: Join) {
    && start <= |items| && Bounded(batches)
    && AllHits(batches) == HitsAlong(items[..start], join)
    && Covers(batches, HitsAlong(items[start..], join))
  }

  lemma NextWindow(batches: seq<Batch>, more: seq<Batch>, items: seq<(nat, real)>, start: nat, end: nat, join: Join)
    requires Descending(items) && start < end <= |items| && Yielded(batches, items, start, join)
    requires Bounded(more) && Fetched(batches, more)
    requires AllHits(more) == AllHits(batches) + HitsAlong(items[start..end], join)
    ensures Yielded(more + [After(items, end)], items, end, join)
  {
    hide Below, AllHits, Bounded, HitsAlong, Covers, Fetched, Descending;
    SplitWindow(items, start, end, join);
    CoversNothing(more);
    BoundedAppend(more, After(items, end));
    assert AllHits(more) + [] == AllHits(more);
    RestCovered(batches, more, HitsAlong(items[start..end], join), HitsAlong(items[end..], join));
    AfterCovers(items, end, join);
    CoversAppend(more, After(items, end), HitsAlong(items[end..], join));
  }

  lemma CoversNothing(batches: seq<Batch>)
    ensures Covers(batches, [])
  {
  }

  lemma CoversAppend(batches: seq<Batch>, b: Batch, rest: seq<Hit>)
    requires Covers(batches, rest) && b.Frontier? && Below(b.bound, rest)
    ensures Covers(batches + [b], rest)
  {
  }

  /** What covered the window and everything after it covers everything after it. */
  lemma RestCovered(batches: seq<Batch>, more: seq<Batch>, rows: seq<Hit>, rest: seq<Hit>)
    requires Covers(batches, rows + rest) && Fetched(batches, more)
    ensures Covers(more, rest)
  {
    hide Below;
    forall i | 0 <= i < |more| && more[i].Frontier? ensures Below(more[i].bound, rest) {
      assert more[i] == batches[i];
      BelowPart(more[i].bound, rows + rest, |rows|, |rows + rest|);
      assert (rows + rest)[|rows|..|rows + rest|] == rest;
    }
  }

  lemma AfterCovers(items: seq<(nat, real)>, end: nat, join: Join)
    requires Descending(items) && end <= |items|
    ensures Below(After(items, end).bound, HitsAlong(items[end..], join))
  {
    if end < |items| {
      HeadBounds(items, end, join);
    }
  }

  lemma SplitWindow(items: seq<(nat, real)>, start: nat, end: nat, join: Join)
    requires start <= end <= |items|
    ensures HitsAlong(items[..end], join) == HitsAlong(items[..start], join) + HitsAlong(items[start..end], join)
    ensures HitsAlong(items[start..], join) == HitsAlong(items[start..end], join) + HitsAlong(items[end..], join)
  {
    assert items[..end] == items[..start] + items[start..end];
    assert items[start..] == items[start..end] + items[end..];
    HitsAlongConcat(items[..start], items[start..end], join);
    HitsAlongConcat(items[start..end], items[end..], join);
  }

  /**
   Retrieval with the score-ordered batches is exact: whatever order of the cached scores argsort chose among ties, the
   answer is the exhaustive one over the scores in table order.
   */
  method RankedTop(cached: seq<(nat, real)>, items: seq<(nat, real)>, join: Join)
    returns (ranked: seq<Hit>, overflow: bool)
    requires Descending(items) && forall item :: item in items <==> item in cached
    ensures IsTop(ranked, BestOf(HitsAlong(cached, join)), CANDIDATES)
    ensures overflow <==> |BestOf(HitsAlong(cached, join))| > CANDIDATES
    ensures BestHits(MatchedBy(cached, join), ranked, overflow)
  {
    hide BestHits, Matches;
    var batches := RankedBatches(items, join);
    ranked, overflow := TopEvents(batches);
    SameMatches(cached, items, join);
    OrderIrrelevant(HitsAlong(cached, join), HitsAlong(items, join));
    TopIsBest(HitsAlong(cached, join), ranked, overflow);
    HitsMatch(cached, join);
  }

  /** A chunk of an event, as the join finds it, with a cached score of its vector. */
  predicate Matches(cached: seq<(nat, real)>, join: Join, h: Hit) {
    exists i, j :: 0 <= i < |cached| && 0 <= j < |join(cached[i].0)| && join(cached[i].0)[j] == (h.row, h.start)
                   && h.score == cached[i].1
  }

  ghost function MatchedBy(cached: seq<(nat, real)>, join: Join): iset<Hit> {
    iset h | Matches(cached, join, h)
  }

  lemma HitsMatch(cached: seq<(nat, real)>, join: Join)
    ensures Each(HitsAlong(cached, join)) == MatchedBy(cached, join)
  {
    forall h ensures h in HitsAlong(cached, join) <==> Matches(cached, join, h) {
      HitsAlongMembers(cached, join, h);
      if Matches(cached, join, h) {
        var i, j :| 0 <= i < |cached| && 0 <= j < |join(cached[i].0)| && join(cached[i].0)[j] == (h.row, h.start)
                    && h.score == cached[i].1;
        assert HitsFor(cached[i], join)[j] == h;
      }
    }
  }

  lemma SameMatches(cached: seq<(nat, real)>, items: seq<(nat, real)>, join: Join)
    requires forall item :: item in items <==> item in cached
    ensures forall h :: h in HitsAlong(cached, join) <==> h in HitsAlong(items, join)
  {
    forall h ensures h in HitsAlong(cached, join) <==> h in HitsAlong(items, join) {
      HitsAlongMembers(cached, join, h);
      HitsAlongMembers(items, join, h);
      if h in HitsAlong(cached, join) {
        var i :| 0 <= i < |cached| && h in HitsFor(cached[i], join);
        assert cached[i] in items;
      }
      if h in HitsAlong(items, join) {
        var i :| 0 <= i < |items| && h in HitsFor(items[i], join);
        assert items[i] in cached;
      }
    }
  }
}
