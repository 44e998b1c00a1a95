/**
 One client that owns a session, its queue and the server together: captures, sends with lost requests and lost
 replies, retries, and any traffic of other clients for other sessions.
 */
module Writer {
  import opened Common
  import opened Revisions
  import opened Catalog
  import opened Server
  import opened Queue

  datatype World = World(ledger: Ledger, box: Outbox)

  datatype Step =
    | Capture(session: SessionRevision, requestId: string, raw: Option<Raw>)
    | Send(sessionId: string, delivered: bool, replied: bool, now: int)
    | Other(post: Post)

  function PostOf(me: string, item: Item): Post {
    Post(me, item.requestId, item.expected, item.session, true)
  }

  function OutcomeOf(reply: Reply): Outcome {
    match reply
    case Durable(receipt) => Receipted(receipt.revision)
    case Refused(status) => Failed(Some(status))
  }

  /** A send posts the session's oldest item if it may be sent; the request or its reply may be lost. */
  function Next(w: World, me: string, step: Step): World {
    match step
    case Capture(session, requestId, raw) => w.(box := Enqueue(w.box, session, requestId, raw))
    case Send(s, delivered, replied, now) =>
      if !Sendable(w.box, s, now) then w
      else
        var item := w.box.pending[Oldest(w.box.pending, s)];
        var (served, reply) := if delivered then Serve(w.ledger, PostOf(me, item)) else (w.ledger, Refused(0));
        World(served, Settle(w.box, s, if delivered && replied then OutcomeOf(reply) else Failed(None), now))
    case Other(post) => w.(ledger := Serve(w.ledger, post).0)
  }

  /** The owner uses each request id once, and other clients neither use its name nor write its session. */
  predicate Legal(w: World, me: string, s: string, step: Step) {
    match step
    case Capture(session, requestId, raw) =>
      requestId != "" && !Queued(w.box, requestId) && (me, requestId) !in w.ledger.receipts
    case Send(_, _, _, _) => true
    case Other(post) => post.producer != me && post.session.sessionId != s
  }

  function Start(): World {
    World(Ledger(map[], {}, map[], 0), Outbox([], map[]))
  }

  function RunFrom(w: World, me: string, steps: seq<Step>): World {
    if steps == [] then w else Next(RunFrom(w, me, steps[..|steps| - 1]), me, steps[|steps| - 1])
  }

  predicate AllLegal(w: World, me: string, s: string, steps: seq<Step>) {
    forall i :: 0 <= i < |steps| ==> Legal(RunFrom(w, me, steps[..i]), me, s, steps[i])
  }

  /** The revisions of the session, in the order they were captured. */
  function Captured(steps: seq<Step>, s: string): seq<SessionRevision> {
    if steps == [] then []
    else
      var last := steps[|steps| - 1];
      Captured(steps[..|steps| - 1], s) + if last.Capture? && last.session.sessionId == s then [last.session] else []
  }

  // ---- when a chain of revisions can be recorded ----

  /** The server's head after recording these revisions in order: the newest one that was new when recorded. */
  function Newest(revs: seq<SessionRevision>): Option<RevisionId> {
    if revs == [] then None
    else if revs[|revs| - 1] in revs[..|revs| - 1] then Newest(revs[..|revs| - 1])
    else Some(RevisionId(revs[|revs| - 1]))
  }

  function Before(revs: seq<SessionRevision>, i: nat): Option<RevisionId>
    requires i <= |revs|
  {
    if i == 0 then None else Some(RevisionId(revs[i - 1]))
  }

  /** Revision i is refused: the head is neither the revision captured before it nor revision i itself. */
  predicate Breaks(revs: seq<SessionRevision>, i: nat)
    requires i < |revs|
  {
    Newest(revs[..i]) !in {Before(revs, i), Some(RevisionId(revs[i]))}
  }

  predicate Clean(revs: seq<SessionRevision>) {
    forall i :: 0 <= i < |revs| ==> !Breaks(revs, i)
  }

  /** Captures never return to an earlier revision, except that one may repeat the revision just before it. */
  predicate NoReturn(revs: seq<SessionRevision>) {
    forall i, j :: 0 <= i < j < |revs| && revs[i] == revs[j] ==> revs[j - 1] == revs[j]
  }

  lemma {:induction false} NoReturnNewest(revs: seq<SessionRevision>, n: nat)
    requires NoReturn(revs) && n <= |revs|
    ensures Newest(revs[..n]) == Before(revs, n)
  {
    if n > 0 {
      NoReturnNewest(revs, n - 1);
      assert revs[..n][..n - 1] == revs[..n - 1];
    }
  }

  /** Without returns nothing is ever refused. */
  lemma NoReturnIsClean(revs: seq<SessionRevision>)
    requires NoReturn(revs)
    ensures Clean(revs)
  {
    forall i | 0 <= i < |revs| ensures !Breaks(revs, i) {
      NoReturnNewest(revs, i);
    }
  }

  /**
   Returning to an earlier revision leaves the server's head where it was, so the revision captured after the return
   expects a head that is not there.
   */
  lemma ReturnBreaks(a: SessionRevision, b: SessionRevision, c: SessionRevision)
    requires a != b && b != c && a != c
    ensures !Clean([a, b, a, c]) && Breaks([a, b, a, c], 3) && Clean([a, b, a])
  {
    var revs := [a, b, a, c];
    assert revs[..3] == [a, b, a] && [a, b, a][..2] == [a, b] && [a, b][..1] == [a] && [a][..0] == [];
    assert Newest([a]) == Some(RevisionId(a)) && Newest([a, b]) == Some(RevisionId(b));
    assert Newest([a, b, a]) == Some(RevisionId(b));
    assert Breaks(revs, 3);
  }

  // ---- the invariant ----

  /** The item carries captured revision j and follows the one before. */
  predicate Links(item: Item, revs: seq<SessionRevision>, j: nat)
    requires j < |revs|
  {
    item.session == revs[j] && item.expected == Before(revs, j) && item.requestId != ""
  }

  /** The client's side: the session's outstanding items are exactly the captured revisions from k on, chained. */
  predicate Chained(o: Outbox, s: string, revs: seq<SessionRevision>, k: nat) {
    var mine := Mine(o.pending, s);
    && k <= |revs| && |mine| == |revs| - k
    && (forall i :: 0 <= i < |mine| ==> Links(mine[i], revs, k + i))
    && (if k == 0 then s !in o.acknowledged else s in o.acknowledged && Some(o.acknowledged[s]) == Before(revs, k))
    && (forall i :: 0 < i < |mine| ==> mine[i].state == Pending)
    && (mine != [] ==> mine[0].state == Pending || (mine[0].state == Conflict && Breaks(revs, k)))
  }

  /** The server's side: it has recorded exactly the first m captured revisions, in capture order. */
  predicate RecordedTo(l: Ledger, s: string, revs: seq<SessionRevision>, m: nat) {
    && m <= |revs| && Head(l, s) == Newest(revs[..m])
    && (forall r :: r in revs ==> r.sessionId == s)
    && (forall r: RevisionId :: r in l.known && r.of.sessionId == s ==> r.of in revs[..m])
    && (forall r :: r in revs[..m] ==> RevisionId(r) in l.known)
    && (forall i :: 0 <= i < m ==> !Breaks(revs, i))
  }

  /** Of the outstanding items, only the oldest may have a receipt already: its reply was lost. */
  predicate Receipts(l: Ledger, me: string, mine: seq<Item>, ahead: bool) {
    forall i :: 0 <= i < |mine| ==>
      ((me, mine[i].requestId) in l.receipts <==> i == 0 && ahead)
      && (i == 0 && ahead ==> l.receipts[(me, mine[i].requestId)] == RevisionId(mine[i].session))
  }

  predicate UniqueRequests(pending: seq<Item>) {
    forall i, j :: 0 <= i < j < |pending| ==> pending[i].requestId != pending[j].requestId
  }

  predicate Tracks(w: World, me: string, s: string, revs: seq<SessionRevision>, k: nat, m: nat) {
    && me != "" && (m == k || m == k + 1)
    && Chained(w.box, s, revs, k) && RecordedTo(w.ledger, s, revs, m)
    && Receipts(w.ledger, me, Mine(w.box.pending, s), m == k + 1) && UniqueRequests(w.box.pending)
  }

  // ---- every step keeps it ----

  lemma {:induction false} MineIn(pending: seq<Item>, s: string)
    ensures forall x :: x in Mine(pending, s) <==> x in pending && x.session.sessionId == s
  {
    if pending != [] {
      MineIn(pending[..|pending| - 1], s);
      assert forall x :: x in pending <==> x in pending[..|pending| - 1] || x == pending[|pending| - 1];
    }
  }

  lemma {:induction false} MineUnique(pending: seq<Item>, s: string)
    requires UniqueRequests(pending)
    ensures UniqueRequests(Mine(pending, s))
  {
    if pending != [] {
      var front := pending[..|pending| - 1];
      MineUnique(front, s);
      MineIn(front, s);
      var mine := Mine(front, s);
      forall i | 0 <= i < |mine| ensures mine[i].requestId != pending[|pending| - 1].requestId {
        assert mine[i] in front;
      }
    }
  }

  lemma BreaksPrefix(revs: seq<SessionRevision>, more: seq<SessionRevision>, i: nat)
    requires i < |revs|
    ensures Breaks(revs + more, i) == Breaks(revs, i) && (revs + more)[..i] == revs[..i]
  {
  }

  lemma RecordedMore(l: Ledger, s: string, revs: seq<SessionRevision>, m: nat, last: SessionRevision)
    requires RecordedTo(l, s, revs, m) && last.sessionId == s
    ensures RecordedTo(l, s, revs + [last], m)
  {
    assert (revs + [last])[..m] == revs[..m];
    forall i | 0 <= i < m ensures !Breaks(revs + [last], i) {
      BreaksPrefix(revs, [last], i);
    }
  }

  lemma ChainedMore(o: Outbox, s: string, revs: seq<SessionRevision>, k: nat, item: Item)
    requires Chained(o, s, revs, k) && item.session.sessionId == s && item.expected == Following(o, s)
    requires item.state == Pending && item.requestId != ""
    ensures Chained(o.(pending := o.pending + [item]), s, revs + [item.session], k)
  {
    var mine := Mine(o.pending, s);
    assert (o.pending + [item])[..|o.pending|] == o.pending;
    assert Mine(o.pending + [item], s) == mine + [item];
    var more, all := mine + [item], revs + [item.session];
    LinksLast(o, s, revs, k, item);
    hide Mine, Breaks, Links;
    forall i | 0 <= i < |more| ensures Links(more[i], all, k + i) {
      if i < |mine| {
        LinksMore(mine[i], revs, item.session, k + i);
      }
    }
    if mine != [] {
      BreaksPrefix(revs, [item.session], k);
    }
  }

  lemma LinksMore(item: Item, revs: seq<SessionRevision>, last: SessionRevision, j: nat)
    requires j < |revs| && Links(item, revs, j)
    ensures Links(item, revs + [last], j)
  {
  }

  lemma LinksLast(o: Outbox, s: string, revs: seq<SessionRevision>, k: nat, item: Item)
    requires Chained(o, s, revs, k) && item.expected == Following(o, s) && item.requestId != ""
    ensures Links(item, revs + [item.session], |revs|)
  {
    hide Mine, Breaks;
    var mine := Mine(o.pending, s);
    assert mine != [] ==> Links(mine[|mine| - 1], revs, k + |mine| - 1);
  }

  lemma ReceiptsMore(l: Ledger, me: string, mine: seq<Item>, item: Item, ahead: bool)
    requires Receipts(l, me, mine, ahead) && (me, item.requestId) !in l.receipts && (ahead ==> mine != [])
    ensures Receipts(l, me, mine + [item], ahead)
  {
  }

  /** Queueing a revision of the session, or of another one. */
  lemma CaptureTracks(w: World, me: string, s: string, revs: seq<SessionRevision>, k: nat, m: nat,
                      session: SessionRevision, requestId: string, raw: Option<Raw>)
    requires Tracks(w, me, s, revs, k, m) && Legal(w, me, s, Capture(session, requestId, raw))
    ensures Tracks(Next(w, me, Capture(session, requestId, raw)), me, s,
                   if session.sessionId == s then revs + [session] else revs, k, m)
  {
    var item := Item(requestId, session, Following(w.box, session.sessionId), raw, 0, 0, Pending);
    assert (w.box.pending + [item])[..|w.box.pending|] == w.box.pending;
    if session.sessionId == s {
      ChainedMore(w.box, s, revs, k, item);
      RecordedMore(w.ledger, s, revs, m, session);
      ReceiptsMore(w.ledger, me, Mine(w.box.pending, s), item, m == k + 1);
    } else {
      ChainedSame(w.box, w.box.(pending := w.box.pending + [item]), s, revs, k);
    }
  }

  lemma ChainedSame(o: Outbox, after: Outbox, s: string, revs: seq<SessionRevision>, k: nat)
    requires Chained(o, s, revs, k) && Mine(after.pending, s) == Mine(o.pending, s)
    requires s in after.acknowledged <==> s in o.acknowledged
    requires s in o.acknowledged ==> after.acknowledged[s] == o.acknowledged[s]
    ensures Chained(after, s, revs, k)
  {
  }

  /** What a served request does to a ledger, as seen from a session it does not name. */
  lemma ServeElsewhere(l: Ledger, p: Post, s: string, revs: seq<SessionRevision>, m: nat)
    requires RecordedTo(l, s, revs, m) && p.session.sessionId != s
    ensures RecordedTo(Serve(l, p).0, s, revs, m)
    ensures forall q: Request :: q != (p.producer, p.requestId) ==> (q in Serve(l, p).0.receipts <==> q in l.receipts)
    ensures forall q: Request :: q != (p.producer, p.requestId) && q in l.receipts ==>
              Serve(l, p).0.receipts[q] == l.receipts[q]
  {
  }

  /** The server's answer to the session's oldest item is a conflict exactly when the chain breaks there. */
  lemma ServeOldest(l: Ledger, me: string, s: string, revs: seq<SessionRevision>, k: nat, m: nat, item: Item)
    requires RecordedTo(l, s, revs, m) && (m == k || m == k + 1) && k < |revs| && me != "" && item.requestId != ""
    requires item.session == revs[k] && item.expected == Before(revs, k)
    requires (me, item.requestId) in l.receipts <==> m == k + 1
    requires m == k + 1 ==> l.receipts[(me, item.requestId)] == RevisionId(item.session)
    ensures var (after, reply) := Serve(l, PostOf(me, item));
            if m == k && Breaks(revs, k) then after == l && reply == Refused(CONFLICT)
            else
              && RecordedTo(after, s, revs, k + 1)
              && reply.Durable? && reply.receipt.revision == RevisionId(item.session)
              && after.receipts == l.receipts[(me, item.requestId) := RevisionId(item.session)]
  {
    if m == k && !Breaks(revs, k) {
      assert revs[..k + 1] == revs[..k] + [revs[k]];
      assert revs[..k + 1][..k] == revs[..k];
      assert RevisionId(revs[k]) in l.known <==> revs[k] in revs[..k];
    }
  }

  lemma SpliceUnique(pending: seq<Item>, i: nat, item: Option<Item>)
    requires UniqueRequests(pending) && i < |pending| && (item.Some? ==> item.value.requestId == pending[i].requestId)
    ensures UniqueRequests(Splice(pending, i, item))
  {
  }

  lemma SettleUnique(o: Outbox, t: string, outcome: Outcome, now: int)
    requires UniqueRequests(o.pending)
    ensures UniqueRequests(Settle(o, t, outcome, now).pending)
  {
    var i := Oldest(o.pending, t);
    if i < |o.pending| {
      SpliceUnique(o.pending, i, None);
      SpliceUnique(o.pending, i, Some(Retried(o.pending[i], Status(outcome), now)));
    }
  }

  /** Items of different sessions have different request ids. */
  lemma OtherRequest(pending: seq<Item>, s: string, i: nat)
    requires UniqueRequests(pending) && i < |pending| && pending[i].session.sessionId != s
    ensures forall x :: x in Mine(pending, s) ==> x.requestId != pending[i].requestId
  {
    MineIn(pending, s);
    forall x | x in Mine(pending, s) ensures x.requestId != pending[i].requestId {
      var j :| 0 <= j < |pending| && pending[j] == x;
    }
  }

  /** Sending another session's item. */
  lemma SendElsewhere(w: World, me: string, s: string, revs: seq<SessionRevision>, k: nat, m: nat,
                      t: string, delivered: bool, replied: bool, now: int)
    requires Tracks(w, me, s, revs, k, m) && t != s
    ensures Tracks(Next(w, me, Send(t, delivered, replied, now)), me, s, revs, k, m)
  {
    if Sendable(w.box, t, now) {
      var i := Oldest(w.box.pending, t);
      var item := w.box.pending[i];
      var (served, reply) := if delivered then Serve(w.ledger, PostOf(me, item)) else (w.ledger, Refused(0));
      var outcome := if delivered && replied then OutcomeOf(reply) else Failed(None);
      SettleUnique(w.box, t, outcome, now);
      SettleOther(w.box, t, outcome, now, s);
      ChainedSame(w.box, Settle(w.box, t, outcome, now), s, revs, k);
      OtherRequest(w.box.pending, s, i);
      ServeElsewhere(w.ledger, PostOf(me, item), s, revs, m);
    }
  }

  /** The client's side after its oldest item is retired. */
  lemma ChainedNext(o: Outbox, after: Outbox, s: string, revs: seq<SessionRevision>, k: nat)
    requires Chained(o, s, revs, k) && Mine(o.pending, s) != []
    requires Mine(after.pending, s) == Mine(o.pending, s)[1..]
             && after.acknowledged == o.acknowledged[s := RevisionId(revs[k])]
    ensures Chained(after, s, revs, k + 1)
  {
  }

  /** The client's side after its oldest item is kept. */
  lemma ChainedRetry(o: Outbox, after: Outbox, s: string, revs: seq<SessionRevision>, k: nat, status: Option<nat>,
                     now: int)
    requires Chained(o, s, revs, k) && Mine(o.pending, s) != []
    requires Mine(after.pending, s) == [Retried(Mine(o.pending, s)[0], status, now)] + Mine(o.pending, s)[1..]
    requires after.acknowledged == o.acknowledged
    requires status == None || (status == Some(CONFLICT) && Breaks(revs, k))
    ensures Chained(after, s, revs, k)
  {
  }

  /** What sending the oldest item of the session does to the two counters. */
  function SendCounts(revs: seq<SessionRevision>, k: nat, m: nat, delivered: bool, replied: bool): (nat, nat)
    requires k < |revs|
  {
    if !delivered || Breaks(revs, k) then (k, m) else (if replied then k + 1 else k, k + 1)
  }

  /** The receipts of the remaining items once the oldest one is recorded, and of the same items when it is retried. */
  lemma ReceiptsServed(l: Ledger, after: Ledger, me: string, mine: seq<Item>, again: Item)
    requires mine != [] && UniqueRequests(mine) && (exists ahead :: Receipts(l, me, mine, ahead))
    requires after.receipts == l.receipts[(me, mine[0].requestId) := RevisionId(mine[0].session)]
    requires again.requestId == mine[0].requestId && again.session == mine[0].session
    ensures Receipts(after, me, mine[1..], false) && Receipts(after, me, [again] + mine[1..], true)
  {
  }

  /** A send of the session, spelled out on its oldest item. */
  lemma NextSend(w: World, me: string, s: string, delivered: bool, replied: bool, now: int)
    requires Sendable(w.box, s, now)
    ensures Mine(w.box.pending, s) != []
    ensures Next(w, me, Send(s, delivered, replied, now)) ==
              if !delivered then w.(box := Settle(w.box, s, Failed(None), now))
              else
                var (served, reply) := Serve(w.ledger, PostOf(me, Mine(w.box.pending, s)[0]));
                World(served, Settle(w.box, s, if replied then OutcomeOf(reply) else Failed(None), now))
  {
    MineOldest(w.box.pending, None, s);
  }

  /** The oldest item is refused exactly when the chain breaks at it and it is not recorded yet. */
  lemma ServeMine(w: World, me: string, s: string, revs: seq<SessionRevision>, k: nat, m: nat)
    requires Tracks(w, me, s, revs, k, m) && Mine(w.box.pending, s) != []
    ensures k < |revs|
    ensures m == k + 1 ==> !Breaks(revs, k)
    ensures var (after, reply) := Serve(w.ledger, PostOf(me, Mine(w.box.pending, s)[0]));
            if Breaks(revs, k) then after == w.ledger && reply == Refused(CONFLICT)
            else reply.Durable? && reply.receipt.revision == RevisionId(revs[k])
  {
    ServeOldest(w.ledger, me, s, revs, k, m, Mine(w.box.pending, s)[0]);
  }

  lemma SendOwn(w: World, me: string, s: string, revs: seq<SessionRevision>, k: nat, m: nat,
                delivered: bool, replied: bool, now: int)
    requires Tracks(w, me, s, revs, k, m) && Sendable(w.box, s, now)
    ensures k < |revs|
    ensures var c := SendCounts(revs, k, m, delivered, replied);
            Tracks(Next(w, me, Send(s, delivered, replied, now)), me, s, revs, c.0, c.1)
  {
    NextSend(w, me, s, delivered, replied, now);
    ServeMine(w, me, s, revs, k, m);
    if !delivered {
      SendKept(w, me, s, revs, k, m, Failed(None), now);
    } else if Breaks(revs, k) {
      SendKept(w, me, s, revs, k, m, if replied then Failed(Some(CONFLICT)) else Failed(None), now);
    } else {
      SendRecorded(w, me, s, revs, k, m, replied, now);
    }
  }

  /** The request was lost, or refused as a conflict. */
  lemma SendKept(w: World, me: string, s: string, revs: seq<SessionRevision>, k: nat, m: nat, outcome: Outcome,
                 now: int)
    requires Tracks(w, me, s, revs, k, m) && Mine(w.box.pending, s) != []
    requires outcome == Failed(None) || (outcome == Failed(Some(CONFLICT)) && Breaks(revs, k))
    ensures Tracks(w.(box := Settle(w.box, s, outcome, now)), me, s, revs, k, m)
  {
    SettleUnique(w.box, s, outcome, now);
    SettleOwn(w.box, s, outcome, now);
    ChainedRetry(w.box, Settle(w.box, s, outcome, now), s, revs, k, Status(outcome), now);
  }

  /** The request was recorded, now or by an earlier attempt. */
  lemma SendRecorded(w: World, me: string, s: string, revs: seq<SessionRevision>, k: nat, m: nat, replied: bool,
                     now: int)
    requires Tracks(w, me, s, revs, k, m) && Mine(w.box.pending, s) != [] && k < |revs| && !Breaks(revs, k)
    ensures var mine := Mine(w.box.pending, s);
            var (served, reply) := Serve(w.ledger, PostOf(me, mine[0]));
            var outcome := if replied then OutcomeOf(reply) else Failed(None);
            Tracks(World(served, Settle(w.box, s, outcome, now)), me, s, revs, if replied then k + 1 else k, k + 1)
  {
    var mine := Mine(w.box.pending, s);
    MineUnique(w.box.pending, s);
    ServeOldest(w.ledger, me, s, revs, k, m, mine[0]);
    var (served, reply) := Serve(w.ledger, PostOf(me, mine[0]));
    var outcome := if replied then OutcomeOf(reply) else Failed(None);
    var after := Settle(w.box, s, outcome, now);
    SettleUnique(w.box, s, outcome, now);
    SettleOwn(w.box, s, outcome, now);
    ReceiptsServed(w.ledger, served, me, mine, Retried(mine[0], None, now));
    if replied {
      ChainedNext(w.box, after, s, revs, k);
    } else {
      ChainedRetry(w.box, after, s, revs, k, None, now);
    }
  }

  // ---- over whole runs ----

  lemma StepTracks(w: World, me: string, s: string, revs: seq<SessionRevision>, k: nat, m: nat, step: Step)
    returns (more: nat, recorded: nat)
    requires Tracks(w, me, s, revs, k, m) && Legal(w, me, s, step)
    ensures Tracks(Next(w, me, step), me, s,
                   revs + (if step.Capture? && step.session.sessionId == s then [step.session] else []), more, recorded)
    ensures more >= k && recorded >= m
  {
    more, recorded := k, m;
    assert revs + [] == revs;
    match step {
      case Capture(session, requestId, raw) =>
        CaptureTracks(w, me, s, revs, k, m, session, requestId, raw);
      case Send(t, delivered, replied, now) =>
        if t != s {
          SendElsewhere(w, me, s, revs, k, m, t, delivered, replied, now);
        } else if Sendable(w.box, s, now) {
          SendOwn(w, me, s, revs, k, m, delivered, replied, now);
          var c := SendCounts(revs, k, m, delivered, replied);
          more, recorded := c.0, c.1;
        }
      case Other(post) =>
        ServeElsewhere(w.ledger, post, s, revs, m);
    }
  }

  /**
   Over every run of a client that owns the session: the outstanding items are the captured revisions from k on, each
   following the one before it, starting from the acknowledged one; the server has recorded the first m of them, in
   order, with m no more than one ahead; and only a chain that breaks at k can leave an item in conflict.
   */
  lemma {:induction false} RunTracks(me: string, s: string, steps: seq<Step>) returns (k: nat, m: nat)
    requires me != "" && AllLegal(Start(), me, s, steps)
    ensures Tracks(RunFrom(Start(), me, steps), me, s, Captured(steps, s), k, m)
  {
    k, m := 0, 0;
    if steps != [] {
      var front := steps[..|steps| - 1];
      assert forall i :: 0 <= i < |front| ==> front[..i] == steps[..i];
      k, m := RunTracks(me, s, front);
      k, m := StepTracks(RunFrom(Start(), me, front), me, s, Captured(front, s), k, m, steps[|steps| - 1]);
    }
  }

  /** The server's head is always the acknowledged revision or the oldest outstanding one. */
  lemma HeadIsNear(w: World, me: string, s: string, revs: seq<SessionRevision>, k: nat, m: nat)
    requires Tracks(w, me, s, revs, k, m) && NoReturn(revs)
    ensures var mine := Mine(w.box.pending, s);
            || Head(w.ledger, s) == (if s in w.box.acknowledged then Some(w.box.acknowledged[s]) else None)
            || (mine != [] && Head(w.ledger, s) == Some(RevisionId(mine[0].session)))
  {
    NoReturnNewest(revs, m);
  }

  /** A chain that never breaks is never refused: no item of the session is ever in conflict. */
  lemma CleanNeverRefused(w: World, me: string, s: string, revs: seq<SessionRevision>, k: nat, m: nat)
    requires Tracks(w, me, s, revs, k, m) && Clean(revs)
    ensures forall x :: x in Mine(w.box.pending, s) ==> x.state == Pending
    ensures Mine(w.box.pending, s) != [] ==> Serve(w.ledger, PostOf(me, Mine(w.box.pending, s)[0])).1.Durable?
  {
    if Mine(w.box.pending, s) != [] {
      ServeMine(w, me, s, revs, k, m);
    }
  }

  /** One attempt after another, each delivered and answered. */
  function Drain(w: World, me: string, s: string, now: int, n: nat): World
    decreases n
  {
    if n == 0 then w else Drain(Next(w, me, Send(s, true, true, now)), me, s, now, n - 1)
  }

  predicate AllDue(mine: seq<Item>, now: int) {
    forall x :: x in mine ==> x.nextAttempt <= now
  }

  /** Nothing outstanding means everything captured was recorded, so nothing broke the chain. */
  lemma EmptyIsClean(w: World, me: string, s: string, revs: seq<SessionRevision>, k: nat, m: nat)
    requires Tracks(w, me, s, revs, k, m) && Mine(w.box.pending, s) == []
    ensures Clean(revs)
  {
  }

  lemma MineCount(w: World, me: string, s: string, revs: seq<SessionRevision>, k: nat, m: nat)
    requires Tracks(w, me, s, revs, k, m)
    ensures k <= |revs| && |Mine(w.box.pending, s)| == |revs| - k
    ensures Clean(revs) ==> forall x :: x in Mine(w.box.pending, s) ==> x.state == Pending
  {
  }

  /** Attempts are legal for the owner and keep the invariant. */
  lemma {:induction false} DrainTracks(w: World, me: string, s: string, revs: seq<SessionRevision>, k: nat, m: nat,
                                       now: int, n: nat)
    returns (last: nat, recorded: nat)
    requires Tracks(w, me, s, revs, k, m)
    ensures Tracks(Drain(w, me, s, now, n), me, s, revs, last, recorded)
    decreases n
  {
    hide Next, Tracks;
    last, recorded := k, m;
    if n > 0 {
      assert revs + [] == revs;
      var send := Send(s, true, true, now);
      last, recorded := StepTracks(w, me, s, revs, k, m, send);
      last, recorded := DrainTracks(Next(w, me, send), me, s, revs, last, recorded, now, n - 1);
    }
  }

  lemma RetiresOne(w: World, me: string, s: string, revs: seq<SessionRevision>, k: nat, m: nat, now: int)
    requires Tracks(w, me, s, revs, k, m) && Clean(revs) && AllDue(Mine(w.box.pending, s), now) && k < |revs|
    ensures var after := Next(w, me, Send(s, true, true, now));
            && Mine(w.box.pending, s) != [] && Mine(after.box.pending, s) == Mine(w.box.pending, s)[1..]
            && Tracks(after, me, s, revs, k + 1, k + 1) && AllDue(Mine(after.box.pending, s), now)
  {
    var mine := Mine(w.box.pending, s);
    MineCount(w, me, s, revs, k, m);
    SendableByMine(w.box, s, now);
    NextSend(w, me, s, true, true, now);
    ServeMine(w, me, s, revs, k, m);
    SendRecorded(w, me, s, revs, k, m, true, now);
    OldestRevision(w, me, s, revs, k, m);
    SettleOwn(w.box, s, OutcomeOf(Serve(w.ledger, PostOf(me, mine[0])).1), now);
  }

  lemma OldestRevision(w: World, me: string, s: string, revs: seq<SessionRevision>, k: nat, m: nat)
    requires Tracks(w, me, s, revs, k, m) && Mine(w.box.pending, s) != []
    ensures k < |revs| && Mine(w.box.pending, s)[0].session == revs[k]
  {
  }

  /** Each attempt of a clean chain retires one item. */
  lemma {:induction false} Drains(w: World, me: string, s: string, revs: seq<SessionRevision>, k: nat, m: nat, now: int)
    requires Tracks(w, me, s, revs, k, m) && Clean(revs) && AllDue(Mine(w.box.pending, s), now)
    requires k <= |revs|
    ensures Mine(Drain(w, me, s, now, |revs| - k).box.pending, s) == []
    decreases |revs| - k
  {
    hide Next, Tracks;
    MineCount(w, me, s, revs, k, m);
    if k < |revs| {
      RetiresOne(w, me, s, revs, k, m, now);
      var after := Next(w, me, Send(s, true, true, now));
      Drains(after, me, s, revs, k + 1, k + 1, now);
    }
  }

  /**
   Exactly the clean chains get through: from any state the owner can reach, sending what is outstanding empties the
   queue of this session if and only if no captured revision breaks the chain.
   */
  lemma DrainsIffClean(w: World, me: string, s: string, revs: seq<SessionRevision>, k: nat, m: nat, now: int)
    requires Tracks(w, me, s, revs, k, m) && AllDue(Mine(w.box.pending, s), now)
    ensures k <= |revs|
    ensures Mine(Drain(w, me, s, now, |revs| - k).box.pending, s) == [] <==> Clean(revs)
  {
    hide Next, Tracks, Clean;
    MineCount(w, me, s, revs, k, m);
    if Clean(revs) {
      Drains(w, me, s, revs, k, m, now);
    } else {
      NeverDrains(w, me, s, revs, k, m, now, |revs| - k);
    }
  }

  lemma NeverDrains(w: World, me: string, s: string, revs: seq<SessionRevision>, k: nat, m: nat, now: int, n: nat)
    requires Tracks(w, me, s, revs, k, m) && !Clean(revs)
    ensures Mine(Drain(w, me, s, now, n).box.pending, s) != []
  {
    var last, recorded := DrainTracks(w, me, s, revs, k, m, now, n);
    if Mine(Drain(w, me, s, now, n).box.pending, s) == [] {
      EmptyIsClean(Drain(w, me, s, now, n), me, s, revs, last, recorded);
    }
  }
}
