/**
 The catalog: transactional ingest of immutable revisions, the per-session search head, the full-text row set, and
 exact retrieval of any stored revision. A transaction either commits all of its table changes or none.
 */
module Catalog {
  import opened Common
  import opened Revisions

  /** One evidence row. The unique content hash covers the session identity and the whole event, so it is the row. */
  datatype Evidence = Evidence(sessionId: string, event: Event)

  /** A row of the revisions table; `eventMap` lists evidence row ids in event order. */
  datatype Stored = Stored(
    source: string,
    project: string,
    title: string,
    parent: Option<string>,
    isSubagent: bool,
    parserVersion: string,
    eventMap: seq<nat>)

  datatype Receipt = Receipt(revision: RevisionId, duplicate: bool)

  type Request = (string, string)    // (producer, request id)

  // ---- what an ingest records ----

  /** The part of the catalog that the write protocol depends on. */
  datatype Ledger = Ledger(
    heads: map<string, RevisionId>,
    known: set<RevisionId>,
    receipts: map<Request, RevisionId>,
    epoch: nat)

  /** A fresh request advances the head unless the revision is already known; it always leaves a receipt. */
  function Record(l: Ledger, session: SessionRevision, request: Request): Ledger {
    if request in l.receipts then l
    else
      var r := RevisionId(session);
      Ledger(if r in l.known then l.heads else l.heads[session.sessionId := r],
             l.known + {r}, l.receipts[request := r], l.epoch + 1)
  }

  function Answer(l: Ledger, session: SessionRevision, request: Request): Result<Receipt> {
    var r := RevisionId(session);
    if request.0 == "" || request.1 == "" then Err
    else if request in l.receipts then
      if l.receipts[request] == r then Ok(Receipt(r, true)) else Err
    else Ok(Receipt(r, r in l.known))
  }

  /** Receipts and known revisions are kept for ever, and each receipt advanced the epoch exactly once. */
  predicate Follows(before: Ledger, after: Ledger) {
    && before.known <= after.known
    && before.receipts.Keys <= after.receipts.Keys
    && (forall q :: q in before.receipts ==> after.receipts[q] == before.receipts[q])
    && after.epoch - |after.receipts| == before.epoch - |before.receipts|
  }

  lemma RecordFollows(l: Ledger, session: SessionRevision, request: Request)
    ensures Follows(l, Record(l, session, request))
    ensures Follows(l, l)
  {
  }

  lemma FollowsOn(a: Ledger, b: Ledger, c: Ledger)
    requires Follows(a, b) && Follows(b, c)
    ensures Follows(a, c)
  {
  }

  // ---- evidence rows ----

  predicate UniqueRows(evidence: seq<Evidence>) {
    forall i, j :: 0 <= i < j < |evidence| ==> evidence[i] != evidence[j]
  }

  /** SELECT row_id WHERE content_hash: row ids count from 1. Zero when there is no such row. */
  function RowOf(evidence: seq<Evidence>, content: Evidence): (row: nat)
    ensures row <= |evidence| && (row > 0 <==> content in evidence) && (row > 0 ==> evidence[row - 1] == content)
  {
    if evidence == [] then 0
    else if evidence[|evidence| - 1] == content then |evidence|
    else RowOf(evidence[..|evidence| - 1], content)
  }

  predicate IsRow(evidence: seq<Evidence>, row: nat) {
    0 < row <= |evidence|
  }

  /** The event map names, in order, rows holding exactly these events of this session. */
  predicate MapsTo(evidence: seq<Evidence>, eventMap: seq<nat>, sessionId: string, events: seq<Event>) {
    && |eventMap| == |events|
    && forall i :: 0 <= i < |events| ==>
         IsRow(evidence, eventMap[i]) && evidence[eventMap[i] - 1] == Evidence(sessionId, events[i])
  }

  lemma MapsToGrows(evidence: seq<Evidence>, more: seq<Evidence>, eventMap: seq<nat>, sessionId: string,
                    events: seq<Event>)
    requires MapsTo(evidence, eventMap, sessionId, events) && evidence <= more
    ensures MapsTo(more, eventMap, sessionId, events)
  {
  }

  lemma MapDistinct(evidence: seq<Evidence>, eventMap: seq<nat>, sessionId: string, events: seq<Event>)
    requires MapsTo(evidence, eventMap, sessionId, events) && UniqueIds(events)
    ensures forall i, j :: 0 <= i < j < |eventMap| ==> eventMap[i] != eventMap[j]
  {
    forall i, j | 0 <= i < j < |eventMap| ensures eventMap[i] != eventMap[j] {
      assert events[i].id != events[j].id;
    }
  }

  // ---- agreement of the tables ----

  predicate StoredWell(evidence: seq<Evidence>, r: RevisionId, row: Stored) {
    && row == Stored(r.of.source, r.of.project, r.of.title, r.of.parent, r.of.isSubagent, r.of.parserVersion,
                     row.eventMap)
    && MapsTo(evidence, row.eventMap, r.of.sessionId, r.of.events)
    && Valid(r.of)
  }

  predicate RevisionsAgree(evidence: seq<Evidence>, revisions: map<RevisionId, Stored>) {
    forall r :: r in revisions ==> StoredWell(evidence, r, revisions[r])
  }

  /**
   Every session with a revision has exactly one head, a stored revision, and its active events are that head's map.
   */
  predicate HeadsAgree(revisions: map<RevisionId, Stored>, heads: map<string, RevisionId>,
                       active: map<string, seq<nat>>) {
    && (forall r :: r in revisions ==> r.of.sessionId in heads)
    && (forall s :: s in heads ==> heads[s] in revisions && heads[s].of.sessionId == s)
    && active.Keys == heads.Keys
    && (forall s :: s in heads ==> active[s] == revisions[heads[s]].eventMap)
  }

  predicate IsActive(evidence: seq<Evidence>, active: map<string, seq<nat>>, row: nat) {
    IsRow(evidence, row) && evidence[row - 1].sessionId in active && row in active[evidence[row - 1].sessionId]
  }

  /** The full-text table holds exactly the active rows of all sessions, none twice. */
  ghost predicate TextAgrees(evidence: seq<Evidence>, active: map<string, seq<nat>>, fts: multiset<nat>) {
    forall row: nat :: fts[row] == if IsActive(evidence, active, row) then 1 else 0
  }

  // ---- ingest ----

  /** The loop over events, as values: rows interned so far and the full-text rows after adding the new ones. */
  ghost predicate Indexing(before: seq<Evidence>, after: seq<Evidence>, fts: multiset<nat>, more: multiset<nat>,
                           ids: seq<nat>,
                     previous: set<nat>, session: SessionRevision, n: nat)
  {
    && n <= |session.events| && before <= after && UniqueRows(after)
    && MapsTo(after, ids, session.sessionId, session.events[..n])
    && forall row: nat :: more[row] == fts[row] + if row in ids && row !in previous then 1 else 0
  }

  lemma IndexingStep(before: seq<Evidence>, after: seq<Evidence>, fts: multiset<nat>, more: multiset<nat>,
                     ids: seq<nat>,
                     previous: set<nat>, session: SessionRevision, n: nat, grown: seq<Evidence>, row: nat)
    requires Indexing(before, after, fts, more, ids, previous, session, n) && UniqueIds(session.events)
    requires n < |session.events|
    requires var content := Evidence(session.sessionId, session.events[n]);
             && grown == (if content in after then after else after + [content])
             && row == RowOf(grown, content)
    ensures Indexing(before, grown, fts, if row in previous then more else more + multiset{row}, ids + [row],
                     previous, session, n + 1)
    ensures row > 0
  {
    var content := Evidence(session.sessionId, session.events[n]);
    assert content in grown;
    MapsToGrows(after, grown, ids, session.sessionId, session.events[..n]);
    MapsToMore(grown, ids, session.sessionId, session.events, n, row);
  }

  lemma MapsToMore(evidence: seq<Evidence>, ids: seq<nat>, sessionId: string, events: seq<Event>, n: nat, row: nat)
    requires n < |events| && MapsTo(evidence, ids, sessionId, events[..n]) && UniqueIds(events)
    requires IsRow(evidence, row) && evidence[row - 1] == Evidence(sessionId, events[n])
    ensures MapsTo(evidence, ids + [row], sessionId, events[..n + 1]) && row !in ids
  {
    assert events[..n + 1] == events[..n] + [events[n]];
    forall i | 0 <= i < n ensures ids[i] != row {
      assert events[..n][i].id != events[n].id;
    }
  }

  /** After the loop and the removal of rows only the previous head had, the full-text table is exact again. */
  lemma TextStaysExact(before: seq<Evidence>, after: seq<Evidence>, active: map<string, seq<nat>>, fts: multiset<nat>,
                       more: multiset<nat>, final: multiset<nat>, ids: seq<nat>, previous: set<nat>,
                       session: SessionRevision)
    requires TextAgrees(before, active, fts)
             && Indexing(before, after, fts, more, ids, previous, session, |session.events|)
    requires forall s :: s in active ==> OwnRows(before, active[s], s)
    requires previous == if session.sessionId in active then Rows(active[session.sessionId]) else {}
    requires forall row: nat :: final[row] == if row in previous && row !in ids then 0 else more[row]
    ensures TextAgrees(after, active[session.sessionId := ids], final)
  {
    assert session.events[..|session.events|] == session.events;
    var now := active[session.sessionId := ids];
    forall row: nat ensures final[row] == if IsActive(after, now, row) then 1 else 0 {
      TextRow(before, after, active, fts, more, final, ids, previous, session, row);
    }
  }

  function Rows(eventMap: seq<nat>): set<nat> {
    set i | 0 <= i < |eventMap| :: eventMap[i]
  }

  predicate OwnRows(evidence: seq<Evidence>, eventMap: seq<nat>, sessionId: string) {
    forall i :: 0 <= i < |eventMap| ==> IsRow(evidence, eventMap[i]) && evidence[eventMap[i] - 1].sessionId == sessionId
  }

  lemma TextRow(before: seq<Evidence>, after: seq<Evidence>, active: map<string, seq<nat>>, fts: multiset<nat>,
                more: multiset<nat>, final: multiset<nat>, ids: seq<nat>, previous: set<nat>, session: SessionRevision,
                row: nat)
    requires fts[row] == if IsActive(before, active, row) then 1 else 0
    requires before <= after && MapsTo(after, ids, session.sessionId, session.events)
    requires forall s :: s in active ==> OwnRows(before, active[s], s)
    requires previous == if session.sessionId in active then Rows(active[session.sessionId]) else {}
    requires more[row] == fts[row] + if row in ids && row !in previous then 1 else 0
    requires final[row] == if row in previous && row !in ids then 0 else more[row]
    ensures final[row] == if IsActive(after, active[session.sessionId := ids], row) then 1 else 0
  {
    if row in previous {
      assert IsActive(before, active, row);
    }
    if IsActive(before, active, row) && SessionOfRow(before, row) == session.sessionId {
      assert row in previous;
    }
  }

  function SessionOfRow(evidence: seq<Evidence>, row: nat): string
    requires IsRow(evidence, row)
  {
    evidence[row - 1].sessionId
  }

  lemma RevisionsGrow(before: seq<Evidence>, after: seq<Evidence>, revisions: map<RevisionId, Stored>, r: RevisionId,
                      row: Stored)
    requires RevisionsAgree(before, revisions) && before <= after && StoredWell(after, r, row)
    ensures RevisionsAgree(after, revisions[r := row])
  {
    forall known | known in revisions ensures StoredWell(after, known, revisions[known]) {
      MapsToGrows(before, after, revisions[known].eventMap, known.of.sessionId, known.of.events);
    }
  }

  lemma HeadsAdvance(revisions: map<RevisionId, Stored>, heads: map<string, RevisionId>, active: map<string, seq<nat>>,
                     r: RevisionId, row: Stored)
    requires HeadsAgree(revisions, heads, active) && r !in revisions
    ensures HeadsAgree(revisions[r := row], heads[r.of.sessionId := r], active[r.of.sessionId := row.eventMap])
  {
  }

  lemma ActiveOwn(evidence: seq<Evidence>, revisions: map<RevisionId, Stored>, heads: map<string, RevisionId>,
                  active: map<string, seq<nat>>)
    requires RevisionsAgree(evidence, revisions) && HeadsAgree(revisions, heads, active)
    ensures forall s :: s in active ==> OwnRows(evidence, active[s], s)
  {
    forall s | s in active ensures OwnRows(evidence, active[s], s) {
      assert StoredWell(evidence, heads[s], revisions[heads[s]]);
    }
  }

  /** All tables agree. */
  ghost predicate Coherent(evidence: seq<Evidence>, revisions: map<RevisionId, Stored>, heads: map<string, RevisionId>,
                           active: map<string, seq<nat>>, fts: multiset<nat>)
  {
    && UniqueRows(evidence) && RevisionsAgree(evidence, revisions)
    && HeadsAgree(revisions, heads, active) && TextAgrees(evidence, active, fts)
  }

  /** No stored revision is changed or removed. */
  predicate Retained(before: map<RevisionId, Stored>, after: map<RevisionId, Stored>) {
    forall r :: r in before ==> r in after && after[r] == before[r]
  }

  /** Every acknowledged request names a stored revision. */
  predicate Backed(receipts: map<Request, RevisionId>, revisions: map<RevisionId, Stored>) {
    forall q :: q in receipts ==> receipts[q] in revisions
  }

  function RowFor(session: SessionRevision, ids: seq<nat>): Stored {
    Stored(session.source, session.project, session.title, session.parent, session.isSubagent, session.parserVersion,
           ids)
  }

  lemma CoherentRows(evidence: seq<Evidence>, revisions: map<RevisionId, Stored>, heads: map<string, RevisionId>,
                     active: map<string, seq<nat>>, fts: multiset<nat>)
    requires Coherent(evidence, revisions, heads, active, fts)
    ensures UniqueRows(evidence)
  {
  }

  function PreviousRows(active: map<string, seq<nat>>, sessionId: string): set<nat> {
    if sessionId in active then Rows(active[sessionId]) else {}
  }

  /** Inserting a revision keeps all tables in agreement. */
  lemma InsertCoherent(before: seq<Evidence>, after: seq<Evidence>, revisions: map<RevisionId, Stored>,
                       heads: map<string, RevisionId>, active: map<string, seq<nat>>, fts: multiset<nat>,
                       more: multiset<nat>, final: multiset<nat>, ids: seq<nat>, session: SessionRevision)
    requires Coherent(before, revisions, heads, active, fts) && Revisions.Valid(session)
    requires RevisionId(session) !in revisions
    requires Indexing(before, after, fts, more, ids, PreviousRows(active, session.sessionId), session, |session.events|)
    requires forall row: nat ::
               final[row] == if row in PreviousRows(active, session.sessionId) - Rows(ids) then 0 else more[row]
    ensures var r, s := RevisionId(session), session.sessionId;
            Coherent(after, revisions[r := RowFor(session, ids)], heads[s := r], active[s := ids], final)
  {
    var r := RevisionId(session);
    assert session.events[..|session.events|] == session.events;
    ActiveOwn(before, revisions, heads, active);
    TextStaysExact(before, after, active, fts, more, final, ids, PreviousRows(active, session.sessionId), session);
    RevisionsGrow(before, after, revisions, r, RowFor(session, ids));
    HeadsAdvance(revisions, heads, active, r, RowFor(session, ids));
  }

  // ---- retrieval ----

  const ROWS_PER_READ: nat := 500
  const CONTEXT_CHARS: nat := 4096
  const CONTEXT_LEAD: nat := 256

  predicate NoRepeats(ids: seq<nat>) {
    forall i, j :: 0 <= i < j < |ids| ==> ids[i] != ids[j]
  }

  predicate AllRows(evidence: seq<Evidence>, ids: seq<nat>) {
    forall i :: 0 <= i < |ids| ==> IsRow(evidence, ids[i])
  }

  lemma {:induction false} RowsCount(ids: seq<nat>)
    ensures |Rows(ids)| <= |ids| && (|Rows(ids)| == |ids| <==> NoRepeats(ids))
  {
    if ids != [] {
      var front, last := ids[..|ids| - 1], ids[|ids| - 1];
      RowsCount(front);
      forall row ensures row in Rows(ids) <==> row in Rows(front) || row == last {
        if row in Rows(front) {
          var i :| 0 <= i < |front| && front[i] == row;
          assert ids[i] == row;
        }
      }
      assert Rows(ids) == Rows(front) + {last};
      if last in Rows(front) {
        var i :| 0 <= i < |front| && front[i] == last;
        assert ids[i] == ids[|ids| - 1];
      } else {
        assert forall i :: 0 <= i < |front| ==> front[i] in Rows(front);
      }
      assert NoRepeats(ids) ==> NoRepeats(front);
      assert last !in Rows(front) && NoRepeats(front) ==> NoRepeats(ids);
    }
  }

  lemma RowsConcat(a: seq<nat>, b: seq<nat>)
    ensures Rows(a + b) == Rows(a) + Rows(b)
  {
    forall row | row in Rows(a) + Rows(b) ensures row in Rows(a + b) {
      if row in Rows(a) {
        var i :| 0 <= i < |a| && a[i] == row;
        assert (a + b)[i] == row;
      } else {
        var i :| 0 <= i < |b| && b[i] == row;
        assert (a + b)[|a| + i] == row;
      }
    }
  }

  lemma ReadCount(evidence: seq<Evidence>, ids: seq<nat>, found: set<nat>)
    requires forall row :: row in found <==> row in Rows(ids) && IsRow(evidence, row)
    ensures |found| == |ids| <==> AllRows(evidence, ids) && NoRepeats(ids)
    ensures |found| == |ids| ==> forall i :: 0 <= i < |ids| ==> ids[i] in found
  {
    RowsCount(ids);
    assert Rows(ids) == found + (Rows(ids) - found);
    assert forall i :: 0 <= i < |ids| ==> ids[i] in Rows(ids);
    if AllRows(evidence, ids) {
      assert Rows(ids) == found;
    }
  }

  /** A citation names one event of one revision and a position in its text. */
  datatype Citation = Citation(sessionId: string, revision: RevisionId, eventId: string, offset: nat)

  /** An event as context shows it; `window` is where a shortened text starts. */
  datatype Passage = Passage(event: Event, window: Option<nat>)

  datatype Quoted = Unavailable | Quoted(passages: seq<Passage>)

  predicate CitedAt(events: seq<Event>, eventId: string, i: nat) {
    i < |events| && events[i].id == eventId
  }

  /** A long cited text is cut to 4096 characters starting at most 256 before the offset. */
  function Shown(event: Event, eventId: string, offset: nat): (p: Passage)
  {
    if event.id != eventId || |event.text| <= CONTEXT_CHARS then Passage(event, None)
    else
      var start := Min(Max(0, offset - CONTEXT_LEAD), |event.text|);
      Passage(event.(text := event.text[start..Min(start + CONTEXT_CHARS, |event.text|)]), Some(start))
  }

  function ShowEach(events: seq<Event>, eventId: string, offset: nat): seq<Passage> {
    seq(|events|, k requires 0 <= k < |events| => Shown(events[k], eventId, offset))
  }

  /** The answer for event i of a revision, from the revision's content alone. */
  function Quote(events: seq<Event>, i: nat, offset: nat, neighbors: nat): Result<Quoted>
    requires i < |events|
  {
    var lo, hi := Max(0, i - neighbors), Min(i + neighbors + 1, |events|);
    if offset > |events[i].text| then Err
    else Ok(Quoted(ShowEach(events[lo..hi], events[i].id, offset)))
  }

  /** What a citation into this revision is answered with, at any time. */
  ghost predicate Cites(s: SessionRevision, eventId: string, offset: nat, neighbors: nat, r: Result<Quoted>) {
    if exists i :: CitedAt(s.events, eventId, i)
    then exists i :: CitedAt(s.events, eventId, i) && r == Quote(s.events, i, offset, neighbors)
    else r == Ok(Unavailable)
  }

  /** There is only one such answer, because event identities are unique within a revision. */
  lemma CitesOnce(s: SessionRevision, eventId: string, offset: nat, neighbors: nat, r: Result<Quoted>,
                  t: Result<Quoted>)
    requires UniqueIds(s.events) && Cites(s, eventId, offset, neighbors, r) && Cites(s, eventId, offset, neighbors, t)
    ensures r == t
  {
    forall i, j | CitedAt(s.events, eventId, i) && CitedAt(s.events, eventId, j) ensures i == j {
    }
  }

  /** The text shown for the cited event is a window of its text, at most 4096 long, that covers the cited offset. */
  lemma ShownCovers(event: Event, offset: nat)
    requires offset <= |event.text|
    ensures var p := Shown(event, event.id, offset);
            var start := if p.window.Some? then p.window.value else 0;
            && p.event.(text := "") == event.(text := "")
            && start <= offset <= start + |p.event.text| <= |event.text| && |p.event.text| <= CONTEXT_CHARS
            && p.event.text == event.text[start..start + |p.event.text|]
            && (offset < |event.text| ==> offset < start + |p.event.text|)
            && offset - start <= if p.window.Some? then CONTEXT_LEAD else CONTEXT_CHARS
  {
    assert event.text[0..|event.text|] == event.text;
  }

  /** The quotation holds the cited event and its nearest neighbours, in order, and the neighbours are whole. */
  lemma QuoteNeighbors(s: SessionRevision, i: nat, offset: nat, neighbors: nat, quoted: Quoted)
    requires UniqueIds(s.events) && i < |s.events| && Quote(s.events, i, offset, neighbors) == Ok(quoted)
    ensures var lo := Max(0, i - neighbors);
            && |quoted.passages| == Min(i + neighbors + 1, |s.events|) - lo && lo <= i < lo + |quoted.passages|
            && quoted.passages[i - lo] == Shown(s.events[i], s.events[i].id, offset) && offset <= |s.events[i].text|
            && (forall k :: 0 <= k < |quoted.passages| && lo + k != i ==>
                  quoted.passages[k] == Passage(s.events[lo + k], None))
  {
    var lo := Max(0, i - neighbors);
    forall k | 0 <= k < |quoted.passages| && lo + k != i ensures quoted.passages[k] == Passage(s.events[lo + k], None) {
      assert quoted.passages[k] == Shown(s.events[lo..][k], s.events[i].id, offset);
      assert s.events[lo + k].id != s.events[i].id;
    }
  }

  /**
   The answer for the event at position i, in terms of the revision's events alone: an exception for an offset past
   its text; else up to `neighbors` events on each side, whole and in order, around the cited one, whose text is
   whole up to 4096 characters and otherwise the 4096 from 256 before the offset on, or fewer at either end.
   */
  predicate Answers(events: seq<Event>, i: nat, offset: nat, neighbors: nat, r: Result<Quoted>)
    requires i < |events|
  {
    var cited, lo := events[i], Max(0, i - neighbors);
    if |cited.text| < offset then r == Err
    else
      && r.Ok? && r.value.Quoted?
      && var passages := r.value.passages;
      && |passages| == Min(i + neighbors + 1, |events|) - lo
      && (forall k :: lo <= k < i ==> passages[k - lo] == Passage(events[k], None))
      && (forall k :: i < k < lo + |passages| ==> passages[k - lo] == Passage(events[k], None))
      && passages[i - lo] ==
           if |cited.text| <= 4096 then Passage(cited, None)
           else
             var start := if offset <= 256 then 0 else offset - 256;
             var end := if start + 4096 <= |cited.text| then start + 4096 else |cited.text|;
             Passage(cited.(text := cited.text[start..end]), Some(start))
  }

  lemma QuoteAnswers(s: SessionRevision, i: nat, offset: nat, neighbors: nat)
    requires UniqueIds(s.events) && i < |s.events|
    ensures Answers(s.events, i, offset, neighbors, Quote(s.events, i, offset, neighbors))
  {
    var r := Quote(s.events, i, offset, neighbors);
    if offset <= |s.events[i].text| {
      QuoteNeighbors(s, i, offset, neighbors, r.value);
    }
  }

  /** Every way of answering a citation is that one. */
  lemma CitesAnswers(s: SessionRevision, eventId: string, offset: nat, neighbors: nat, r: Result<Quoted>)
    requires UniqueIds(s.events) && Cites(s, eventId, offset, neighbors, r)
    ensures r == Ok(Unavailable) <==> forall i :: 0 <= i < |s.events| ==> s.events[i].id != eventId
    ensures forall i :: 0 <= i < |s.events| && s.events[i].id == eventId ==> Answers(s.events, i, offset, neighbors, r)
  {
    hide Quote, Answers;
    if exists i: nat :: CitedAt(s.events, eventId, i) {
      var i: nat :| CitedAt(s.events, eventId, i) && r == Quote(s.events, i, offset, neighbors);
      QuoteAnswers(s, i, offset, neighbors);
      Answered(s.events, i, offset, neighbors);
    } else {
      forall i | 0 <= i < |s.events| ensures s.events[i].id != eventId {
        assert !CitedAt(s.events, eventId, i);
      }
    }
  }

  lemma Answered(events: seq<Event>, i: nat, offset: nat, neighbors: nat)
    requires i < |events|
    ensures Quote(events, i, offset, neighbors) != Ok(Unavailable)
  {
  }

  /** The loop of context over the events read around the cited one. */
  method ShowAll(events: seq<Event>, ghost all: seq<Event>, ghost i: nat, lo: nat, offset: nat, eventId: string)
    returns (r: Result<Quoted>)
    requires UniqueIds(all) && lo <= i < lo + |events| && lo + |events| <= |all| && events == all[lo..lo + |events|]
    requires eventId == all[i].id
    ensures r == if offset > |all[i].text| then Err else Ok(Quoted(ShowEach(events, eventId, offset)))
  {
    var passages: seq<Passage> := [];
    for k := 0 to |events|
      invariant |passages| == k && forall j :: 0 <= j < k ==> passages[j] == Shown(events[j], eventId, offset)
      invariant k > i - lo ==> offset <= |all[i].text|
    {
      var event := events[k];
      assert event == all[lo + k];
      if event.id == eventId && offset > |event.text| {
        assert lo + k == i;
        return Err;
      }
      passages := passages + [Shown(event, eventId, offset)];
    }
    assert passages == ShowEach(events, eventId, offset);
    return Ok(Quoted(passages));
  }

  /** A committed object reference sent with a revision: the raw source file it was parsed from. */
  datatype Raw = Raw(digest: Sha256, size: nat)

  class Catalog {
    const readonly: bool
    const objects: set<Bytes>                       // verified objects in the object store
    var evidence: seq<Evidence>
    var revisions: map<RevisionId, Stored>
    var heads: map<string, RevisionId>
    var active: map<string, seq<nat>>               // active_events, rows by ordinal
    var fts: multiset<nat>
    var producers: set<(RevisionId, string)>
    var receipts: map<Request, RevisionId>
    var rawSources: set<(RevisionId, Sha256)>
    var epoch: nat

    ghost predicate Indexed()
      reads this`evidence, this`revisions, this`heads, this`active, this`fts
    {
      Coherent(evidence, revisions, heads, active, fts)
    }

    ghost predicate Valid()
      reads this
    {
      Indexed() && Backed(receipts, revisions)
    }

    function Recorded(): Ledger
      reads this
    {
      Ledger(heads, revisions.Keys, receipts, epoch)
    }

    constructor (readonly: bool, objects: set<Bytes>)
      ensures Valid() && Recorded() == Ledger(map[], {}, map[], 0)
      ensures this.readonly == readonly && this.objects == objects
    {
      this.readonly, this.objects := readonly, objects;
      evidence, revisions, heads, active := [], map[], map[], map[];
      fts, producers, receipts, rawSources, epoch := multiset{}, {}, map[], {}, 0;
    }

    /** The loop over the events of a new revision. */
    method IndexEvents(session: SessionRevision, previous: set<nat>) returns (ids: seq<nat>)
      requires UniqueRows(evidence) && UniqueIds(session.events)
      modifies this`evidence, this`fts
      ensures Indexing(old(evidence), evidence, old(fts), fts, ids, previous, session, |session.events|)
      ensures old(evidence) <= evidence
    {
      ids := [];
      for n := 0 to |session.events|
        invariant Indexing(old(evidence), evidence, old(fts), fts, ids, previous, session, n)
      {
        var content := Evidence(session.sessionId, session.events[n]);
        ghost var after, more := evidence, fts;
        if content !in evidence {
          evidence := evidence + [content];
        }
        var row := RowOf(evidence, content);
        IndexingStep(old(evidence), after, old(fts), more, ids, previous, session, n, evidence, row);
        ids := ids + [row];
        if row !in previous {
          fts := fts + multiset{row};
        }
      }
    }

    /** executemany DELETE over the rows that only the previous head had. */
    method DropRows(rows: set<nat>)
      modifies this`fts
      ensures forall row: nat :: fts[row] == if row in rows then 0 else old(fts)[row]
    {
      var left := rows;
      while left != {}
        invariant left <= rows
        invariant forall row: nat :: fts[row] == if row in rows - left then 0 else old(fts)[row]
        decreases left
      {
        var row :| row in left;
        fts := fts[row := 0];
        left := left - {row};
      }
    }
  
    /** The insertion of a revision that is not stored yet: it becomes the session's head. */
    method Insert(session: SessionRevision) returns (ids: seq<nat>)
      requires Indexed() && Revisions.Valid(session) && RevisionId(session) !in revisions
      modifies this`evidence, this`revisions, this`heads, this`active, this`fts
      ensures Indexed() && old(evidence) <= evidence
      ensures heads == old(heads)[session.sessionId := RevisionId(session)]
      ensures revisions == old(revisions)[RevisionId(session) := RowFor(session, ids)]
    {
      hide Coherent, Indexing;
      var r, s := RevisionId(session), session.sessionId;
      var previous := PreviousRows(active, s);
      CoherentRows(evidence, revisions, heads, active, fts);
      ids := IndexEvents(session, previous);
      ghost var more := fts;
      DropRows(previous - Rows(ids));
      InsertCoherent(old(evidence), evidence, revisions, heads, active, old(fts), more, fts, ids, session);
      active := active[s := ids];
      revisions := revisions[r := RowFor(session, ids)];
      heads := heads[s := r];
    }

    /** The raw file named by a request must be verified before the request is acknowledged. */
    predicate RawOk(raw: Option<Raw>) {
      raw.Some? ==> raw.value.digest.content in objects && |raw.value.digest.content| == raw.value.size
    }

    /** Store the revision unless it is already known. */
    method Store(session: SessionRevision) returns (known: bool)
      requires Indexed() && Revisions.Valid(session)
      modifies this`evidence, this`revisions, this`heads, this`active, this`fts
      ensures Indexed() && old(evidence) <= evidence && Retained(old(revisions), revisions)
      ensures known == (RevisionId(session) in old(revisions))
      ensures heads == if known then old(heads) else old(heads)[session.sessionId := RevisionId(session)]
      ensures revisions.Keys == old(revisions.Keys) + {RevisionId(session)}
      ensures known ==> unchanged(`heads, `active, `fts, `evidence, `revisions)
    {
      known := RevisionId(session) in revisions;
      if !known {
        var _ := Insert(session);
      }
    }

    /** The producer, the receipt, the raw source and the epoch of a request that had no receipt. */
    method Sign(revision: RevisionId, request: Request, raw: Option<Raw>)
      modifies this`producers, this`receipts, this`rawSources, this`epoch
      ensures receipts == old(receipts)[request := revision] && epoch == old(epoch) + 1
      ensures producers == old(producers) + {(revision, request.0)}
      ensures rawSources == old(rawSources) + (if raw.Some? then {(revision, raw.value.digest)} else {})
    {
      producers := producers + {(revision, request.0)};
      receipts := receipts[request := revision];
      rawSources := rawSources + if raw.Some? then {(revision, raw.value.digest)} else {};
      epoch := epoch + 1;
    }

    method Ingest(session: SessionRevision, request: Request, raw: Option<Raw>) returns (r: Result<Receipt>)
      requires Valid() && Revisions.Valid(session)
      modifies this`evidence, this`revisions, this`heads, this`active, this`fts, this`producers, this`receipts,
               this`rawSources, this`epoch
      ensures Valid() && old(evidence) <= evidence && Retained(old(revisions), revisions)
      ensures r == if readonly || !RawOk(raw) then Err else Answer(old(Recorded()), session, request)
      ensures Recorded() == if r.Ok? then Record(old(Recorded()), session, request) else old(Recorded())
      ensures r.Err? || request in old(receipts) ==> unchanged(this)
      ensures r.Ok? && request !in old(receipts) ==>
                && producers == old(producers) + {(RevisionId(session), request.0)}
                && rawSources == old(rawSources) + (if raw.Some? then {(RevisionId(session), raw.value.digest)} else {})
      ensures RevisionId(session) in old(revisions) ==>
                unchanged(`heads, `active, `fts, `evidence, `revisions)
      ensures r.Err? <==>
                || readonly || request.0 == "" || request.1 == ""
                || (raw.Some? && (raw.value.digest.content !in objects || |raw.value.digest.content| != raw.value.size))
                || (request in old(receipts) && old(receipts)[request] != RevisionId(session))
      ensures r.Ok? ==> r.value.revision == RevisionId(session)
                        && (r.value.duplicate <==> request in old(receipts) || RevisionId(session) in old(revisions))
      ensures r.Ok? && request !in old(receipts) ==>
                && receipts == old(receipts)[request := RevisionId(session)] && epoch == old(epoch) + 1
                && revisions.Keys == old(revisions.Keys) + {RevisionId(session)}
                && heads == if RevisionId(session) in old(revisions) then old(heads)
                            else old(heads)[session.sessionId := RevisionId(session)]
    {
      hide Coherent;
      if readonly || request.0 == "" || request.1 == "" || !RawOk(raw) {
        return Err;
      }
      var revision := RevisionId(session);
      if request in receipts {
        return if receipts[request] == revision then Ok(Receipt(revision, true)) else Err;
      }
      var known := Store(session);
      Sign(revision, request, raw);
      return Ok(Receipt(revision, known));
    }
  
    /** read_events: rows are fetched in batches; a missing or repeated row makes the total come up short. */
    method ReadEvents(ids: seq<nat>) returns (r: Result<seq<Event>>)
      ensures r.Ok? <==> AllRows(evidence, ids) && NoRepeats(ids)
      ensures r.Ok? ==> |r.value| == |ids| && forall i :: 0 <= i < |ids| ==> r.value[i] == evidence[ids[i] - 1].event
    {
      var events: map<nat, Event> := map[];
      var start := 0;
      while start < |ids|
        invariant start <= |ids|
        invariant forall row :: row in events <==> row in Rows(ids[..start]) && IsRow(evidence, row)
        invariant forall row :: row in events ==> events[row] == evidence[row - 1].event
      {
        var next := Min(start + ROWS_PER_READ, |ids|);
        var batch := ids[start..next];
        var rows := map row | row in Rows(batch) && IsRow(evidence, row) :: evidence[row - 1].event;
        assert ids[..next] == ids[..start] + batch;
        RowsConcat(ids[..start], batch);
        events := events + rows;
        start := next;
      }
      assert ids[..start] == ids;
      ReadCount(evidence, ids, events.Keys);
      if |events| != |ids| {
        return Err;
      }
      return Ok(seq(|ids|, i requires 0 <= i < |ids| => events[ids[i]]));
    }

    /** A stored revision, looked up by session and revision. */
    predicate Has(sessionId: string, r: RevisionId)
      reads this`revisions
    {
      r in revisions && r.of.sessionId == sessionId
    }

    /** revision_event_ids: an unknown revision has none. */
    function EventIds(sessionId: string, r: RevisionId): seq<nat>
      reads this`revisions
    {
      if Has(sessionId, r) then revisions[r].eventMap else []
    }

    /** export_revision rebuilds exactly the session that was ingested under this revision. */
    method Export(sessionId: string, r: RevisionId) returns (session: Result<SessionRevision>)
      requires Valid()
      ensures session == if Has(sessionId, r) then Ok(r.of) else Err
    {
      if !Has(sessionId, r) {
        return Err;
      }
      var row := revisions[r];
      var ids := EventIds(sessionId, r);
      assert StoredWell(evidence, r, row);
      MapDistinct(evidence, ids, sessionId, r.of.events);
      var events := ReadEvents(ids);
      assert events.value == r.of.events;
      return Ok(SessionRevision(sessionId, events.value, row.source, row.project, row.title, row.parent,
                                row.isSubagent, row.parserVersion));
    }

    /** Rows of the cited event: same session, same event identity, whatever the content. */
    predicate Candidate(row: nat, cite: Citation)
      reads this`evidence
    {
      IsRow(evidence, row) && evidence[row - 1].sessionId == cite.sessionId
        && evidence[row - 1].event.id == cite.eventId
    }

    method Position(ids: seq<nat>, cite: Citation) returns (i: nat)
      ensures i <= |ids| && (forall j :: 0 <= j < i ==> !Candidate(ids[j], cite))
      ensures i < |ids| ==> Candidate(ids[i], cite)
    {
      i := 0;
      while i < |ids| && !Candidate(ids[i], cite)
        invariant i <= |ids| && forall j :: 0 <= j < i ==> !Candidate(ids[j], cite)
      {
        i := i + 1;
      }
    }

    /** context for one citation: the answer depends only on the content of the cited revision. */
    method Context(cite: Citation, neighbors: nat) returns (r: Result<Quoted>)
      requires Valid()
      ensures if Has(cite.sessionId, cite.revision)
              then Cites(cite.revision.of, cite.eventId, cite.offset, neighbors, r) else r == Ok(Unavailable)
      ensures Has(cite.sessionId, cite.revision) ==>
                var events := cite.revision.of.events;
                && (r == Ok(Unavailable) <==> forall i :: 0 <= i < |events| ==> events[i].id != cite.eventId)
                && forall i :: 0 <= i < |events| && events[i].id == cite.eventId ==>
                     Answers(events, i, cite.offset, neighbors, r)
    {
      var ids := EventIds(cite.sessionId, cite.revision);
      var i := Position(ids, cite);
      ghost var all := cite.revision.of.events;
      if Has(cite.sessionId, cite.revision) {
        assert StoredWell(evidence, cite.revision, revisions[cite.revision]);
        CandidatesCite(ids, cite);
      }
      if i == |ids| {
        return Ok(Unavailable);
      }
      assert CitedAt(all, cite.eventId, i);
      r := Passages(ids, all, i, cite.eventId, cite.offset, neighbors);
      CitesAnswers(cite.revision.of, cite.eventId, cite.offset, neighbors, r);
    }

    /** In a stored revision, the candidate positions are the positions of the cited event. */
    lemma CandidatesCite(ids: seq<nat>, cite: Citation)
      requires MapsTo(evidence, ids, cite.sessionId, cite.revision.of.events)
      ensures forall j :: 0 <= j < |ids| ==>
                (Candidate(ids[j], cite) <==> CitedAt(cite.revision.of.events, cite.eventId, j))
    {
    }

    method Passages(ids: seq<nat>, ghost all: seq<Event>, i: nat, eventId: string, offset: nat, neighbors: nat)
      returns (r: Result<Quoted>)
      requires i < |all| && UniqueIds(all) && eventId == all[i].id
      requires exists sessionId :: MapsTo(evidence, ids, sessionId, all)
      ensures r == Quote(all, i, offset, neighbors)
    {
      ghost var sessionId :| MapsTo(evidence, ids, sessionId, all);
      MapDistinct(evidence, ids, sessionId, all);
      var lo, hi := Max(0, i - neighbors), Min(i + neighbors + 1, |ids|);
      var near := ids[lo..hi];
      var events := ReadEvents(near);
      assert events.Ok? && events.value == all[lo..hi];
      r := ShowAll(events.value, all, i, lo, offset, eventId);
    }

    /** Any number of requests, refused or not. */
    method IngestAll(requests: seq<(SessionRevision, Request, Option<Raw>)>)
      requires Valid() && forall q :: q in requests ==> Revisions.Valid(q.0)
      modifies this`evidence, this`revisions, this`heads, this`active, this`fts, this`producers, this`receipts,
               this`rawSources, this`epoch
      ensures Valid() && old(evidence) <= evidence && Retained(old(revisions), revisions)
      ensures Follows(old(Recorded()), Recorded())
    {
      for n := 0 to |requests|
        invariant Valid() && old(evidence) <= evidence && Retained(old(revisions), revisions)
        invariant Follows(old(Recorded()), Recorded())
      {
        ghost var now := Recorded();
        assert requests[n] in requests;
        var _ := Ingest(requests[n].0, requests[n].1, requests[n].2);
        RecordFollows(now, requests[n].0, requests[n].1);
        FollowsOn(old(Recorded()), now, Recorded());
      }
    }

    /** Evidence is immutable: whatever is ingested later, an acknowledged revision exports to what was ingested. */
    method RoundTrip(session: SessionRevision, request: Request, raw: Option<Raw>,
                     later: seq<(SessionRevision, Request, Option<Raw>)>)
      returns (receipt: Result<Receipt>, exported: Result<SessionRevision>)
      requires Valid() && Revisions.Valid(session) && forall q :: q in later ==> Revisions.Valid(q.0)
      modifies this`evidence, this`revisions, this`heads, this`active, this`fts, this`producers, this`receipts,
               this`rawSources, this`epoch
      ensures receipt.Ok? ==> exported == Ok(session)
    {
      hide Coherent;
      receipt := Ingest(session, request, raw);
      IngestAll(later);
      exported := Export(session.sessionId, RevisionId(session));
    }

    /** A citation into a stored revision is answered alike for ever. */
    method CiteAgain(cite: Citation, neighbors: nat, later: seq<(SessionRevision, Request, Option<Raw>)>)
      returns (first: Result<Quoted>, again: Result<Quoted>)
      requires Valid() && Has(cite.sessionId, cite.revision) && forall q :: q in later ==> Revisions.Valid(q.0)
      modifies this`evidence, this`revisions, this`heads, this`active, this`fts, this`producers, this`receipts,
               this`rawSources, this`epoch
      ensures first == again
    {
      first := Context(cite, neighbors);
      assert UniqueIds(cite.revision.of.events) by {
        assert StoredWell(evidence, cite.revision, revisions[cite.revision]);
      }
      IngestAll(later);
      again := Context(cite, neighbors);
      CitesOnce(cite.revision.of, cite.eventId, cite.offset, neighbors, first, again);
    }
  }
}
