/**
 The durable outbound queue of a capturing client: revisions are queued with the revision they follow, and only the
 oldest outstanding revision of a session can be sent.
 */
module Queue {
  import opened Common
  import opened Revisions
  import opened Catalog
  import opened Server

  datatype ItemState = Pending | Conflict | Rejected

  /** A row of the pending table; rows are kept in sequence order. */
  datatype Item = Item(
    requestId: string,
    session: SessionRevision,
    expected: Option<RevisionId>,
    raw: Option<Raw>,
    attempts: nat,
    nextAttempt: int,
    state: ItemState)

  datatype Outbox = Outbox(pending: seq<Item>, acknowledged: map<string, RevisionId>)

  /** What a send came to: a receipt naming a revision, or an HTTP status, None when no reply arrived. */
  datatype Outcome = Receipted(revision: RevisionId) | Failed(status: Option<nat>)

  // ---- one session's items ----

  /** The outstanding items of a session, oldest first. */
  function Mine(pending: seq<Item>, s: string): seq<Item> {
    if pending == [] then []
    else
      var last := pending[|pending| - 1];
      Mine(pending[..|pending| - 1], s) + if last.session.sessionId == s then [last] else []
  }

  /** The position of a session's oldest item; |pending| if it has none. */
  function Oldest(pending: seq<Item>, s: string): (i: nat)
    ensures i <= |pending| && (i < |pending| ==> pending[i].session.sessionId == s)
    ensures forall j :: 0 <= j < i ==> pending[j].session.sessionId != s
  {
    if pending == [] || pending[0].session.sessionId == s then 0 else Oldest(pending[1..], s) + 1
  }

  lemma {:induction false} MineConcat(a: seq<Item>, b: seq<Item>, s: string)
    ensures Mine(a + b, s) == Mine(a, s) + Mine(b, s)
  {
    if b == [] {
      assert a + b == a;
    } else {
      assert (a + b)[..|a + b| - 1] == a + b[..|b| - 1];
      MineConcat(a, b[..|b| - 1], s);
    }
  }

  lemma {:induction false} MineNone(pending: seq<Item>, s: string)
    requires forall i :: 0 <= i < |pending| ==> pending[i].session.sessionId != s
    ensures Mine(pending, s) == []
  {
    if pending != [] {
      MineNone(pending[..|pending| - 1], s);
    }
  }

  /** The queue with item i replaced, or removed. */
  function Splice(pending: seq<Item>, i: nat, item: Option<Item>): seq<Item>
    requires i < |pending|
  {
    pending[..i] + (if item.Some? then [item.value] else []) + pending[i + 1..]
  }

  lemma MineSplice(pending: seq<Item>, i: nat, item: Option<Item>, s: string)
    requires i < |pending|
    ensures Mine(Splice(pending, i, item), s) ==
              Mine(pending[..i], s) + Mine(if item.Some? then [item.value] else [], s) + Mine(pending[i + 1..], s)
  {
    var middle := if item.Some? then [item.value] else [];
    MineConcat(pending[..i] + middle, pending[i + 1..], s);
    MineConcat(pending[..i], middle, s);
  }

  lemma MineSplit(pending: seq<Item>, i: nat, s: string)
    requires i < |pending|
    ensures Mine(pending, s) == Mine(pending[..i], s) + Mine([pending[i]], s) + Mine(pending[i + 1..], s)
  {
    MineSplice(pending, i, Some(pending[i]), s);
    assert Splice(pending, i, Some(pending[i])) == pending;
  }

  /** Replacing or removing an item leaves other sessions' items alone. */
  lemma MineOther(pending: seq<Item>, i: nat, item: Option<Item>, s: string)
    requires i < |pending| && pending[i].session.sessionId != s
             && (item.Some? ==> item.value.session == pending[i].session)
    ensures Mine(Splice(pending, i, item), s) == Mine(pending, s)
  {
    MineSplice(pending, i, item, s);
    MineSplit(pending, i, s);
  }

  /** Replacing or removing a session's oldest item replaces or removes the head of its items. */
  lemma MineOldest(pending: seq<Item>, item: Option<Item>, s: string)
    requires var i := Oldest(pending, s); i < |pending| && (item.Some? ==> item.value.session == pending[i].session)
    ensures var i, mine := Oldest(pending, s), Mine(pending, s);
            && mine != [] && mine[0] == pending[i]
            && Mine(Splice(pending, i, item), s) == (if item.Some? then [item.value] else []) + mine[1..]
  {
    var i := Oldest(pending, s);
    MineNone(pending[..i], s);
    MineSplice(pending, i, item, s);
    MineSplit(pending, i, s);
  }

  // ---- queueing ----

  /** The revision a new item will follow: the newest queued one, else the last acknowledged one. */
  function Following(o: Outbox, s: string): Option<RevisionId> {
    var mine := Mine(o.pending, s);
    if mine != [] then Some(RevisionId(mine[|mine| - 1].session))
    else if s in o.acknowledged then Some(o.acknowledged[s]) else None
  }

  predicate Queued(o: Outbox, requestId: string) {
    exists i :: 0 <= i < |o.pending| && o.pending[i].requestId == requestId
  }

  predicate QueuedOther(o: Outbox, requestId: string, session: SessionRevision) {
    exists i :: 0 <= i < |o.pending| && o.pending[i].requestId == requestId && o.pending[i].session != session
  }

  /** A request id already queued is never queued again. */
  function Enqueue(o: Outbox, session: SessionRevision, requestId: string, raw: Option<Raw>): Outbox {
    if Queued(o, requestId) then o
    else o.(pending := o.pending + [Item(requestId, session, Following(o, session.sessionId), raw, 0, 0, Pending)])
  }

  // ---- sending ----

  predicate Sendable(o: Outbox, s: string, now: int) {
    var i := Oldest(o.pending, s);
    i < |o.pending| && o.pending[i].state == Pending && o.pending[i].nextAttempt <= now
  }

  function Power(n: nat): nat {
    if n == 0 then 1 else 2 * Power(n - 1)
  }

  function Backoff(attempts: nat): nat {
    Min(300, Power(Min(attempts + 1, 9)))
  }

  function StateAfter(status: Option<nat>): ItemState {
    if status == Some(409) then Conflict else if status in {Some(400), Some(413), Some(422)} then Rejected else Pending
  }

  function Retried(item: Item, status: Option<nat>, now: int): Item {
    item.(attempts := item.attempts + 1, nextAttempt := now + Backoff(item.attempts), state := StateAfter(status))
  }

  /** A receipt for another revision counts as a bad gateway. */
  function Status(outcome: Outcome): Option<nat> {
    if outcome.Failed? then outcome.status else Some(502)
  }

  /** The effect of sending a session's oldest item: acknowledged and removed, or kept for later with its new state. */
  function Settle(o: Outbox, s: string, outcome: Outcome, now: int): Outbox {
    var i := Oldest(o.pending, s);
    if i == |o.pending| then o
    else
      var item := o.pending[i];
      if outcome == Receipted(RevisionId(item.session)) then
        Outbox(Splice(o.pending, i, None), o.acknowledged[s := RevisionId(item.session)])
      else o.(pending := Splice(o.pending, i, Some(Retried(item, Status(outcome), now))))
  }

  /** Settling one session touches no other session's items or acknowledgement. */
  lemma SettleOther(o: Outbox, s: string, outcome: Outcome, now: int, t: string)
    requires t != s
    ensures var after := Settle(o, s, outcome, now);
            && Mine(after.pending, t) == Mine(o.pending, t)
            && (t in after.acknowledged <==> t in o.acknowledged)
            && (t in o.acknowledged ==> after.acknowledged[t] == o.acknowledged[t])
  {
    var i := Oldest(o.pending, s);
    if i < |o.pending| {
      MineOther(o.pending, i, None, t);
      MineOther(o.pending, i, Some(Retried(o.pending[i], Status(outcome), now)), t);
    }
  }

  /** A receipt for exactly the oldest revision retires it; anything else keeps it. */
  lemma SettleOwn(o: Outbox, s: string, outcome: Outcome, now: int)
    requires Mine(o.pending, s) != []
    ensures var mine, after := Mine(o.pending, s), Settle(o, s, outcome, now);
            if outcome == Receipted(RevisionId(mine[0].session))
            then Mine(after.pending, s) == mine[1..]
              && after.acknowledged == o.acknowledged[s := RevisionId(mine[0].session)]
            else Mine(after.pending, s) == [Retried(mine[0], Status(outcome), now)] + mine[1..]
                 && after.acknowledged == o.acknowledged
  {
    var i := Oldest(o.pending, s);
    if i == |o.pending| {
      MineNone(o.pending, s);
    } else {
      MineOldest(o.pending, None, s);
      MineOldest(o.pending, Some(Retried(o.pending[i], Status(outcome), now)), s);
    }
  }

  // ---- one flush ----

  predicate Outage(status: Option<nat>) {
    status in {None, Some(401), Some(403), Some(429), Some(500), Some(502), Some(503), Some(504)}
  }

  /** The rows a flush selects: one sendable session each, in queue order, all of them unless the limit cuts in. */
  predicate Due(o: Outbox, rows: seq<string>, now: int, limit: nat) {
    && |rows| <= limit
    && (forall i :: 0 <= i < |rows| ==> Sendable(o, rows[i], now))
    && (forall i, j :: 0 <= i < j < |rows| ==> Oldest(o.pending, rows[i]) < Oldest(o.pending, rows[j]))
    && (|rows| < limit ==> forall i :: 0 <= i < |o.pending| && Sendable(o, o.pending[i].session.sessionId, now) ==>
                                       o.pending[i].session.sessionId in rows)
  }

  function SettleAll(o: Outbox, rows: seq<string>, outcomes: seq<Outcome>, now: int): Outbox
    requires |rows| == |outcomes|
  {
    if rows == [] then o
    else
      var n := |rows| - 1;
      Settle(SettleAll(o, rows[..n], outcomes[..n], now), rows[n], outcomes[n], now)
  }

  predicate Failure(o: Outbox, s: string, outcome: Outcome) {
    var i := Oldest(o.pending, s);
    i < |o.pending| && outcome != Receipted(RevisionId(o.pending[i].session))
  }

  lemma SendableByMine(o: Outbox, s: string, now: int)
    ensures Sendable(o, s, now) <==>
              Mine(o.pending, s) != [] && Mine(o.pending, s)[0].state == Pending
                && Mine(o.pending, s)[0].nextAttempt <= now
  {
    var i := Oldest(o.pending, s);
    if i == |o.pending| {
      MineNone(o.pending, s);
    } else {
      MineOldest(o.pending, None, s);
    }
  }

  /** Selecting all rows first is safe: sending one never makes another unsendable. */
  lemma {:induction false} StillSendable(o: Outbox, rows: seq<string>, outcomes: seq<Outcome>, now: int, s: string)
    requires |rows| == |outcomes| && s !in rows && Sendable(o, s, now)
    ensures Sendable(SettleAll(o, rows, outcomes, now), s, now)
    ensures Mine(SettleAll(o, rows, outcomes, now).pending, s) == Mine(o.pending, s)
  {
    if rows != [] {
      var n := |rows| - 1;
      var before := SettleAll(o, rows[..n], outcomes[..n], now);
      StillSendable(o, rows[..n], outcomes[..n], now, s);
      assert rows[n] in rows;
      SettleOther(before, rows[n], outcomes[n], now, s);
      SendableByMine(o, s, now);
      SendableByMine(Settle(before, rows[n], outcomes[n], now), s, now);
    }
  }

  /** The first `tried` rows were settled in order, and each was sendable when its turn came. */
  predicate Tried(start: Outbox, box: Outbox, rows: seq<string>, outcomes: seq<Outcome>, tried: nat, now: int) {
    && tried <= |rows| <= |outcomes|
    && box == SettleAll(start, rows[..tried], outcomes[..tried], now)
    && forall n :: 0 <= n < tried ==> Sendable(SettleAll(start, rows[..n], outcomes[..n], now), rows[n], now)
  }

  /** A shared outage ended the round. */
  predicate StoppedBy(start: Outbox, rows: seq<string>, outcomes: seq<Outcome>, tried: nat, now: int)
    requires tried <= |rows| <= |outcomes|
  {
    && tried > 0 && Outage(Status(outcomes[tried - 1]))
    && Failure(SettleAll(start, rows[..tried - 1], outcomes[..tried - 1], now), rows[tried - 1], outcomes[tried - 1])
  }

  lemma TriedNone(start: Outbox, rows: seq<string>, outcomes: seq<Outcome>, now: int)
    requires |rows| <= |outcomes|
    ensures Tried(start, start, rows, outcomes, 0, now)
  {
  }

  lemma StoppedThere(start: Outbox, box: Outbox, rows: seq<string>, outcomes: seq<Outcome>, n: nat, now: int)
    requires Tried(start, box, rows, outcomes, n, now) && n < |rows|
    requires Failure(box, rows[n], outcomes[n]) && Outage(Status(outcomes[n]))
    ensures StoppedBy(start, rows, outcomes, n + 1, now)
  {
  }

  lemma TriedMore(start: Outbox, box: Outbox, rows: seq<string>, outcomes: seq<Outcome>, tried: nat, now: int,
                  limit: nat)
    requires Tried(start, box, rows, outcomes, tried, now) && Due(start, rows, now, limit) && tried < |rows|
    ensures Sendable(box, rows[tried], now)
    ensures Tried(start, Settle(box, rows[tried], outcomes[tried], now), rows, outcomes, tried + 1, now)
  {
    forall n | 0 <= n < tried ensures rows[..tried][n] != rows[tried] {
      assert Oldest(start.pending, rows[n]) < Oldest(start.pending, rows[tried]);
    }
    StillSendable(start, rows[..tried], outcomes[..tried], now, rows[tried]);
    assert rows[..tried + 1][..tried] == rows[..tried] && outcomes[..tried + 1][..tried] == outcomes[..tried];
  }

  // ---- what an attempt and a round come to ----

  /**
   One attempt, in terms of a session's items before and after: a receipt for the oldest retires it; anything else
   counts one more attempt and sets the next one 2, 4, 8, ... and at most 300 seconds from now; 409 blocks the
   session, 400, 413 and 422 reject the revision, and everything else leaves it to be tried again.
   */
  predicate Attempted(before: seq<Item>, after: seq<Item>, outcome: Outcome, now: int)
    requires before != []
  {
    var item := before[0];
    if outcome == Receipted(RevisionId(item.session)) then after == before[1..]
    else
      && after != [] && after[1..] == before[1..]
      && after[0] == item.(attempts := after[0].attempts, nextAttempt := after[0].nextAttempt, state := after[0].state)
      && after[0].attempts == item.attempts + 1
      && after[0].nextAttempt - now ==
           (if item.attempts < 8 then [2, 4, 8, 16, 32, 64, 128, 256][item.attempts] else 300)
      && (after[0].state == Conflict <==> outcome == Failed(Some(409)))
      && (after[0].state == Rejected <==> outcome in {Failed(Some(400)), Failed(Some(413)), Failed(Some(422))})
  }

  /** The outcome of a session's attempt speaks of the server rather than of the session: the round ends with it. */
  predicate EndsRound(before: seq<Item>, outcome: Outcome)
    requires before != []
  {
    match outcome
    case Receipted(revision) => revision != RevisionId(before[0].session)
    case Failed(None) => true
    case Failed(Some(status)) => status in {401, 403, 429, 500, 502, 503, 504}
  }

  lemma BackoffTable(attempts: nat)
    ensures Backoff(attempts) == if attempts < 8 then [2, 4, 8, 16, 32, 64, 128, 256][attempts] else 300
  {
    assert Power(3) == 8 && Power(6) == 64 && Power(9) == 512;
  }

  lemma SettleAttempted(o: Outbox, s: string, outcome: Outcome, now: int)
    requires Mine(o.pending, s) != []
    ensures var mine, after := Mine(o.pending, s), Settle(o, s, outcome, now);
            && Attempted(mine, Mine(after.pending, s), outcome, now)
            && after.acknowledged == if outcome == Receipted(RevisionId(mine[0].session))
                                     then o.acknowledged[s := RevisionId(mine[0].session)] else o.acknowledged
  {
    hide Mine, Settle, Backoff;
    SettleOwn(o, s, outcome, now);
    BackoffTable(Mine(o.pending, s)[0].attempts);
  }

  /** After a failure that is not the revision's own the session can be sent again once its time has come. */
  lemma SendableAgain(o: Outbox, s: string, outcome: Outcome, now: int, later: int)
    requires Mine(o.pending, s) != [] && outcome != Receipted(RevisionId(Mine(o.pending, s)[0].session))
    ensures var after := Settle(o, s, outcome, now);
            Sendable(after, s, later) <==>
              && outcome !in {Failed(Some(400)), Failed(Some(409)), Failed(Some(413)), Failed(Some(422))}
              && Mine(after.pending, s) != [] && Mine(after.pending, s)[0].nextAttempt <= later
  {
    hide Mine, Settle, Sendable;
    SettleAttempted(o, s, outcome, now);
    SendableByMine(Settle(o, s, outcome, now), s, later);
  }

  function Acked(o: Outbox, s: string): Option<RevisionId> {
    if s in o.acknowledged then Some(o.acknowledged[s]) else None
  }

  lemma {:induction false} SettleAllOther(o: Outbox, rows: seq<string>, outcomes: seq<Outcome>, now: int, s: string)
    requires |rows| == |outcomes| && s !in rows
    ensures Mine(SettleAll(o, rows, outcomes, now).pending, s) == Mine(o.pending, s)
    ensures Acked(SettleAll(o, rows, outcomes, now), s) == Acked(o, s)
  {
    hide Mine, Settle;
    if rows != [] {
      var n := |rows| - 1;
      SettleAllOther(o, rows[..n], outcomes[..n], now, s);
      assert rows[n] in rows;
      SettleOther(SettleAll(o, rows[..n], outcomes[..n], now), rows[n], outcomes[n], now, s);
    }
  }

  lemma {:induction false} SettleAllOwn(o: Outbox, rows: seq<string>, outcomes: seq<Outcome>, now: int, n: nat)
    requires |rows| == |outcomes| && n < |rows| && Mine(o.pending, rows[n]) != []
    requires forall i, j :: 0 <= i < j < |rows| ==> rows[i] != rows[j]
    ensures var mine, after := Mine(o.pending, rows[n]), SettleAll(o, rows, outcomes, now);
            && Attempted(mine, Mine(after.pending, rows[n]), outcomes[n], now)
            && Acked(after, rows[n]) == if outcomes[n] == Receipted(RevisionId(mine[0].session))
                                        then Some(RevisionId(mine[0].session)) else Acked(o, rows[n])
  {
    hide Mine, Settle, Attempted;
    var last := |rows| - 1;
    var before := SettleAll(o, rows[..last], outcomes[..last], now);
    if n == last {
      SettleAllOther(o, rows[..last], outcomes[..last], now, rows[n]);
      SettleAttempted(before, rows[n], outcomes[n], now);
    } else {
      SettleAllOwn(o, rows[..last], outcomes[..last], now, n);
      SettleOther(before, rows[last], outcomes[last], now, rows[n]);
    }
  }

  /**
   A round, for every session: the first `tried` selected sessions have had one attempt each, acknowledging what was
   receipted, and all others none; no attempt before the last ended the round.
   */
  ghost predicate Round(start: Outbox, end: Outbox, rows: seq<string>, outcomes: seq<Outcome>, tried: nat, now: int) {
    && tried <= |rows| <= |outcomes|
    && (forall n :: 0 <= n < |rows| ==> Mine(start.pending, rows[n]) != [])
    && (forall n :: 0 <= n < tried ==>
          var mine := Mine(start.pending, rows[n]);
          && Attempted(mine, Mine(end.pending, rows[n]), outcomes[n], now)
          && Acked(end, rows[n]) == if outcomes[n] == Receipted(RevisionId(mine[0].session))
                                    then Some(RevisionId(mine[0].session)) else Acked(start, rows[n]))
    && (forall n :: 0 <= n < tried - 1 ==> !EndsRound(Mine(start.pending, rows[n]), outcomes[n]))
    && (forall s :: s !in rows[..tried] ==>
          Mine(end.pending, s) == Mine(start.pending, s) && Acked(end, s) == Acked(start, s))
  }

  /** Attempt n was receipted for the revision sent. */
  predicate IsDelivered(start: Outbox, rows: seq<string>, outcomes: seq<Outcome>, n: nat)
    requires n < |rows| <= |outcomes|
  {
    var mine := Mine(start.pending, rows[n]);
    mine != [] && outcomes[n] == Receipted(RevisionId(mine[0].session))
  }

  /** The attempts of a round that were receipted. */
  function Delivered(start: Outbox, rows: seq<string>, outcomes: seq<Outcome>, tried: nat): set<nat>
    requires tried <= |rows| <= |outcomes|
  {
    set n: nat | n < tried && IsDelivered(start, rows, outcomes, n)
  }

  lemma TriedRound(start: Outbox, box: Outbox, rows: seq<string>, outcomes: seq<Outcome>, tried: nat, now: int,
                   limit: nat)
    requires Tried(start, box, rows, outcomes, tried, now) && Due(start, rows, now, limit)
    requires forall n :: 0 <= n < tried - 1 && Mine(start.pending, rows[n]) != [] ==>
               !EndsRound(Mine(start.pending, rows[n]), outcomes[n])
    ensures Round(start, box, rows, outcomes, tried, now)
  {
    hide Mine, SettleAll, Attempted, EndsRound, Sendable, Oldest, Acked;
    forall n | 0 <= n < |rows| ensures Mine(start.pending, rows[n]) != [] {
      SendableByMine(start, rows[n], now);
    }
    forall i, j | 0 <= i < j < tried ensures rows[..tried][i] != rows[..tried][j] {
      assert Oldest(start.pending, rows[i]) < Oldest(start.pending, rows[j]);
    }
    forall n | 0 <= n < tried
      ensures var mine := Mine(start.pending, rows[n]);
              && Attempted(mine, Mine(box.pending, rows[n]), outcomes[n], now)
              && Acked(box, rows[n]) == if outcomes[n] == Receipted(RevisionId(mine[0].session))
                                        then Some(RevisionId(mine[0].session)) else Acked(start, rows[n])
    {
      SettleAllOwn(start, rows[..tried], outcomes[..tried], now, n);
    }
    forall s | s !in rows[..tried]
      ensures Mine(box.pending, s) == Mine(start.pending, s) && Acked(box, s) == Acked(start, s)
    {
      SettleAllOther(start, rows[..tried], outcomes[..tried], now, s);
    }
  }

  /** What an attempt on a sendable session counts as. */
  lemma AttemptKind(box: Outbox, s: string, outcome: Outcome, now: int)
    requires Sendable(box, s, now)
    ensures Mine(box.pending, s) != []
    ensures Failure(box, s, outcome) <==> outcome != Receipted(RevisionId(Mine(box.pending, s)[0].session))
    ensures Failure(box, s, outcome) && Outage(Status(outcome)) <==> EndsRound(Mine(box.pending, s), outcome)
  {
    hide Mine, Oldest;
    MineOldest(box.pending, None, s);
  }

  /** The next row still has the items it had when the round began. */
  lemma RowUnchanged(start: Outbox, box: Outbox, rows: seq<string>, outcomes: seq<Outcome>, tried: nat, now: int,
                     limit: nat)
    requires Tried(start, box, rows, outcomes, tried, now) && Due(start, rows, now, limit) && tried < |rows|
    ensures Mine(box.pending, rows[tried]) == Mine(start.pending, rows[tried])
  {
    hide Mine, SettleAll, Sendable, Oldest;
    forall n | 0 <= n < tried ensures rows[..tried][n] != rows[tried] {
      assert Oldest(start.pending, rows[n]) < Oldest(start.pending, rows[tried]);
    }
    SettleAllOther(start, rows[..tried], outcomes[..tried], now, rows[tried]);
  }

  lemma NoneDelivered(start: Outbox, rows: seq<string>, outcomes: seq<Outcome>)
    requires |rows| <= |outcomes|
    ensures Delivered(start, rows, outcomes, 0) == {}
  {
  }

  lemma DeliveredMore(start: Outbox, rows: seq<string>, outcomes: seq<Outcome>, tried: nat)
    requires tried < |rows| <= |outcomes| && Mine(start.pending, rows[tried]) != []
    ensures var mine := Mine(start.pending, rows[tried]);
            |Delivered(start, rows, outcomes, tried + 1)| == |Delivered(start, rows, outcomes, tried)|
              + if outcomes[tried] == Receipted(RevisionId(mine[0].session)) then 1 else 0
  {
    var sent := IsDelivered(start, rows, outcomes, tried);
    hide IsDelivered, Mine;
    var before, after := Delivered(start, rows, outcomes, tried), Delivered(start, rows, outcomes, tried + 1);
    if sent {
      assert after == before + {tried} && tried !in before;
    } else {
      assert after == before;
    }
  }

  // ---- rebasing ----

  /** A session's head as the server reports it; `raw` is the largest raw file recorded for that revision. */
  datatype RemoteHead = RemoteHead(revision: RevisionId, source: string, parserVersion: string, raw: Option<Raw>)

  /** Hash the first `size` bytes of a stream of blocks; the second result is how many bytes were missing. */
  method PrefixDigest(blocks: seq<Bytes>, size: nat) returns (digest: Sha256, remaining: nat)
    ensures remaining == Max(0, size - |Joined(blocks)|)
    ensures digest == Sha256(Joined(blocks)[..Min(size, |Joined(blocks)|)])
  {
    var hashed: Bytes := [];
    remaining := size;
    for i := 0 to |blocks|
      invariant hashed == Joined(blocks[..i])[..Min(size, |Joined(blocks[..i])|)]
      invariant remaining == Max(0, size - |Joined(blocks[..i])|)
    {
      assert blocks[..i + 1][..i] == blocks[..i];
      var prefix := blocks[i][..Min(remaining, |blocks[i]|)];
      hashed, remaining := hashed + prefix, remaining - |prefix|;
    }
    assert blocks[..|blocks|] == blocks;
    digest := Sha256(hashed);
  }

  predicate Rebasable(item: Item) {
    item.state in {Pending, Conflict} && item.session.source == "codex"
  }

  /** The sendable sessions whose oldest item is among the first i rows, in order. */
  predicate Selected(o: Outbox, rows: seq<string>, i: nat, now: int) {
    && i <= |o.pending|
    && (forall k :: 0 <= k < |rows| ==> Sendable(o, rows[k], now) && Oldest(o.pending, rows[k]) < i)
    && (forall k, j :: 0 <= k < j < |rows| ==> Oldest(o.pending, rows[k]) < Oldest(o.pending, rows[j]))
    && (forall k :: 0 <= k < i && Sendable(o, o.pending[k].session.sessionId, now) ==>
          o.pending[k].session.sessionId in rows)
  }

  lemma SelectedMore(o: Outbox, rows: seq<string>, i: nat, now: int)
    requires Selected(o, rows, i, now) && i < |o.pending|
    ensures var s := o.pending[i].session.sessionId;
            Selected(o, if Oldest(o.pending, s) == i && Sendable(o, s, now) then rows + [s] else rows, i + 1, now)
  {
    hide Sendable, Oldest;
    var s := o.pending[i].session.sessionId;
    var more := if Oldest(o.pending, s) == i && Sendable(o, s, now) then rows + [s] else rows;
    forall k | 0 <= k < i + 1 && Sendable(o, o.pending[k].session.sessionId, now)
      ensures o.pending[k].session.sessionId in more
    {
      if k == i && Oldest(o.pending, s) < i {
        assert o.pending[Oldest(o.pending, s)].session.sessionId == s;
      }
    }
  }

  function Rebased(item: Item, expected: Option<RevisionId>): Item {
    item.(expected := expected, state := Pending, nextAttempt := 0)
  }

  /** Rebasing session s leaves every other session's items alone, and every item's request and content. */
  ghost predicate RebasedWithin(before: seq<Item>, after: seq<Item>, s: string) {
    && |after| == |before|
    && (forall k :: 0 <= k < |after| ==> after[k].requestId == before[k].requestId && after[k].raw == before[k].raw)
    && (forall k :: 0 <= k < |after| ==> after[k].session == before[k].session)
    && (forall t :: t != s ==> Mine(after, t) == Mine(before, t))
  }

  lemma RebaseKeeps(pending: seq<Item>, s: string, expected: Option<RevisionId>)
    requires Oldest(pending, s) < |pending|
    ensures var i := Oldest(pending, s);
            RebasedWithin(pending, Splice(pending, i, Some(Rebased(pending[i], expected))), s)
  {
    hide Mine, Oldest;
    var i := Oldest(pending, s);
    assert Splice(pending, i, Some(Rebased(pending[i], expected))) == pending[i := Rebased(pending[i], expected)];
    forall t | t != s ensures Mine(Splice(pending, i, Some(Rebased(pending[i], expected))), t) == Mine(pending, t) {
      MineOther(pending, i, Some(Rebased(pending[i], expected)), t);
    }
  }

  class UploadQueue {
    var pending: seq<Item>
    var acknowledged: map<string, RevisionId>

    function Box(): Outbox
      reads this
    {
      Outbox(pending, acknowledged)
    }

    constructor ()
      ensures Box() == Outbox([], map[])
    {
      pending, acknowledged := [], map[];
    }

    /** ingest: queue a captured revision behind the newest one of its session. */
    method Ingest(session: SessionRevision, requestId: string, raw: Option<Raw>) returns (duplicate: Result<bool>)
      modifies this`pending
      ensures duplicate ==
                if QueuedOther(old(Box()), requestId, session) then Err else Ok(Queued(old(Box()), requestId))
      ensures Box() == if duplicate.Ok? then Enqueue(old(Box()), session, requestId, raw) else old(Box())
      ensures duplicate.Err? <==> exists k :: 0 <= k < |old(pending)| && old(pending)[k].requestId == requestId
                                              && old(pending)[k].session != session
      ensures duplicate == Ok(true) ==> exists k :: 0 <= k < |pending| && pending[k].requestId == requestId
      ensures duplicate != Ok(false) ==> pending == old(pending)
      ensures duplicate == Ok(false) ==>
                var mine, id := Mine(old(pending), session.sessionId), session.sessionId;
                && (forall k :: 0 <= k < |old(pending)| ==> old(pending)[k].requestId != requestId)
                && |pending| == |old(pending)| + 1 && pending[..|old(pending)|] == old(pending)
                && var item := pending[|old(pending)|];
                && item.requestId == requestId && item.session == session && item.raw == raw
                && item.attempts == 0 && item.nextAttempt == 0 && item.state == Pending
                && item.expected == if mine != [] then Some(RevisionId(mine[|mine| - 1].session))
                                    else Acked(old(Box()), id)
    {
      var previous := Following(Box(), session.sessionId);
      var existing := Queued(Box(), requestId);
      if QueuedOther(Box(), requestId, session) {
        return Err;
      }
      if !existing {
        pending := pending + [Item(requestId, session, previous, raw, 0, 0, Pending)];
      }
      return Ok(existing);
    }

    /** The selection of _flush. */
    method DueRows(now: int, limit: nat) returns (rows: seq<string>)
      ensures Due(Box(), rows, now, limit) && |rows| <= limit
    {
      rows := [];
      var i := 0;
      while i < |pending| && |rows| < limit
        invariant i <= |pending| && |rows| <= limit
        invariant Selected(Box(), rows, i, now)
      {
        var s := pending[i].session.sessionId;
        SelectedMore(Box(), rows, i, now);
        if Oldest(pending, s) == i && Sendable(Box(), s, now) {
          rows := rows + [s];
        }
        i := i + 1;
      }
    }

    /**
     _flush with what each attempt comes to: only the oldest outstanding revision of a session is ever sent, and only
     while it is pending and due; each attempt settles exactly its own session; a shared outage stops the round.
     */
    method Flush(now: int, limit: nat, outcomes: seq<Outcome>)
      returns (r: Result<nat>, rows: seq<string>, tried: nat)
      requires |outcomes| >= limit
      modifies this
      ensures r.Ok? <==> 1 <= limit <= 1000
      ensures r.Err? ==> unchanged(this)
      ensures r.Ok? ==> Due(old(Box()), rows, now, limit) && Tried(old(Box()), Box(), rows, outcomes, tried, now)
      ensures r.Ok? && tried < |rows| ==> StoppedBy(old(Box()), rows, outcomes, tried, now)
      ensures r.Ok? ==> Round(old(Box()), Box(), rows, outcomes, tried, now)
      ensures r.Ok? && tried < |rows| ==>
                tried > 0 && EndsRound(Mine(old(pending), rows[tried - 1]), outcomes[tried - 1])
      ensures r.Ok? ==> r.value == |Delivered(old(Box()), rows, outcomes, tried)|
    {
      hide Due, Tried, StoppedBy, Sendable, Settle, SettleAll, Oldest, Failure, Mine, Round, EndsRound, Outage;
      rows, tried := [], 0;
      if !(1 <= limit <= 1000) {
        return Err, rows, tried;
      }
      rows := DueRows(now, limit);
      var sent := 0;
      ghost var start := Box();
      TriedNone(start, rows, outcomes, now);
      NoneDelivered(start, rows, outcomes);
      while tried < |rows|
        invariant tried <= |rows| <= |outcomes|
        invariant Tried(start, Box(), rows, outcomes, tried, now)
        invariant forall n :: 0 <= n < tried && Mine(start.pending, rows[n]) != [] ==>
                    !EndsRound(Mine(start.pending, rows[n]), outcomes[n])
        invariant sent == |Delivered(start, rows, outcomes, tried)|
      {
        var s, outcome := rows[tried], outcomes[tried];
        ghost var before := Box();
        TriedMore(start, Box(), rows, outcomes, tried, now, limit);
        RowUnchanged(start, before, rows, outcomes, tried, now, limit);
        AttemptKind(before, s, outcome, now);
        DeliveredMore(start, rows, outcomes, tried);
        var failed := Failure(Box(), s, outcome);
        SendOldest(s, outcome, now);
        tried := tried + 1;
        if failed && Outage(Status(outcome)) {
          StoppedThere(start, before, rows, outcomes, tried - 1, now);
          break;
        }
        sent := sent + if failed then 0 else 1;
      }
      TriedRound(start, Box(), rows, outcomes, tried, now, limit);
      return Ok(sent), rows, tried;
    }

    /** One attempt: the reply is committed together with the removal of the item. */
    method SendOldest(s: string, outcome: Outcome, now: int)
      requires Sendable(Box(), s, now)
      modifies this
      ensures Box() == Settle(old(Box()), s, outcome, now)
    {
      var i := Oldest(pending, s);
      var item := pending[i];
      if outcome == Receipted(RevisionId(item.session)) {
        acknowledged := acknowledged[s := RevisionId(item.session)];
        pending := Splice(pending, i, None);
      } else {
        pending := Splice(pending, i, Some(Retried(item, Status(outcome), now)));
      }
    }

    /**
     _reconcile_raw_prefixes for one session. `staged` is the staged raw file as iter_bytes yields it, or None when it
     cannot be read and verified. The server's head is adopted exactly when its raw file is a prefix of the queued one.
     */
    method ReconcileRawPrefix(s: string, head: Option<RemoteHead>, staged: Option<seq<Bytes>>)
      returns (reconciled: bool)
      requires var i := Oldest(pending, s); staged.Some? && i < |pending| && pending[i].raw.Some? ==>
                 Joined(staged.value) == pending[i].raw.value.digest.content
      modifies this`pending
      ensures reconciled ==> Oldest(old(pending), s) < |old(pending)|
      ensures reconciled <==>
                var i := Oldest(old(pending), s);
                && i < |old(pending)|
                && var item := old(pending)[i];
                && item.state != Rejected && item.session.source == "codex" && item.raw.Some?
                && (head.Some? ==>
                      && staged.Some? && head.value.source == "codex" && head.value.raw.Some?
                      && head.value.raw.value.size <= item.raw.value.size
                      && head.value.raw.value.size == |head.value.raw.value.digest.content|
                      && head.value.raw.value.digest.content <= item.raw.value.digest.content)
      ensures !reconciled ==> pending == old(pending)
      ensures reconciled ==>
                var i, revision := Oldest(old(pending), s), if head.Some? then Some(head.value.revision) else None;
                pending == old(pending)[i := old(pending)[i].(expected := revision, state := Pending, nextAttempt := 0)]
      ensures RebasedWithin(old(pending), pending, s)
    {
      var i := Oldest(pending, s);
      if i == |pending| || !Rebasable(pending[i]) || pending[i].raw.None? {
        return false;
      }
      var item := pending[i];
      if head.None? {
        RebaseKeeps(pending, s, None);
        pending := Splice(pending, i, Some(Rebased(item, None)));
        return true;
      }
      var previous := head.value.raw;
      if head.value.source != "codex" || previous.None? || item.raw.value.size < previous.value.size || staged.None? {
        return false;
      }
      var digest, remaining := PrefixDigest(staged.value, previous.value.size);
      if remaining > 0 || digest != previous.value.digest {
        return false;
      }
      RebaseKeeps(pending, s, Some(head.value.revision));
      pending := Splice(pending, i, Some(Rebased(item, Some(head.value.revision))));
      return true;
    }

    /** _bootstrap_imports for one session: the first native revision may follow an imported legacy one. */
    method BootstrapImport(s: string, head: Option<RemoteHead>) returns (updated: bool)
      modifies this`pending
      ensures updated ==> Oldest(old(pending), s) < |old(pending)|
      ensures updated <==>
                var i := Oldest(old(pending), s);
                && i < |old(pending)|
                && var item := old(pending)[i];
                && item.state != Rejected && item.session.source == "codex" && item.expected.None?
                && head.Some? && head.value.source == "codex" && head.value.parserVersion == "legacy-archive-v1"
      ensures !updated ==> pending == old(pending)
      ensures updated ==>
                var i, revision := Oldest(old(pending), s), Some(head.value.revision);
                pending == old(pending)[i := old(pending)[i].(expected := revision, state := Pending, nextAttempt := 0)]
      ensures RebasedWithin(old(pending), pending, s)
      ensures forall k :: 0 <= k < |pending| && old(pending)[k].expected.Some? ==> pending[k] == old(pending)[k]
    {
      var i := Oldest(pending, s);
      if i == |pending| || !Rebasable(pending[i]) || pending[i].expected.Some? || head.None?
         || head.value.source != "codex" || head.value.parserVersion != "legacy-archive-v1" {
        return false;
      }
      RebaseKeeps(pending, s, Some(head.value.revision));
      pending := Splice(pending, i, Some(Rebased(pending[i], Some(head.value.revision))));
      return true;
    }
  }
}
