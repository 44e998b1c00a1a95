/** The compare-and-write of the revisions endpoint, and what it guarantees over any interleaving of clients. */
module Server {
  import opened Common
  import opened Revisions
  import opened Catalog

  const CONFLICT: nat := 409
  const INVALID: nat := 400

  /** A revision envelope. `rawOk` is whether the raw object it names, if any, verifies when the request arrives. */
  datatype Post = Post(
    producer: string,
    requestId: string,
    expected: Option<RevisionId>,
    session: SessionRevision,
    rawOk: bool)

  datatype Reply = Durable(receipt: Receipt) | Refused(status: nat)

  function Head(l: Ledger, sessionId: string): Option<RevisionId> {
    if sessionId in l.heads then Some(l.heads[sessionId]) else None
  }

  /** A request with a receipt skips the comparison; any other must expect the head, or name it. */
  predicate Admitted(l: Ledger, p: Post) {
    || (p.producer, p.requestId) in l.receipts
    || Head(l, p.session.sessionId) in {p.expected, Some(RevisionId(p.session))}
  }

  function Serve(l: Ledger, p: Post): (Ledger, Reply) {
    var request := (p.producer, p.requestId);
    if !Admitted(l, p) then (l, Refused(CONFLICT))
    else if !p.rawOk then (l, Refused(INVALID))
    else match Answer(l, p.session, request)
      case Ok(receipt) => (Record(l, p.session, request), Durable(receipt))
      case Err => (l, Refused(INVALID))
  }

  /** The handler, inside one immediate transaction on the writable catalog; a standby accepts no writes. */
  method HandleRevision(catalog: Catalog, standby: bool, post: Post, raw: Option<Raw>) returns (reply: Reply)
    requires catalog.Valid() && !catalog.readonly && Revisions.Valid(post.session)
    requires post.rawOk == catalog.RawOk(raw)
    modifies catalog`evidence, catalog`revisions, catalog`heads, catalog`active, catalog`fts, catalog`producers,
             catalog`receipts, catalog`rawSources, catalog`epoch
    ensures catalog.Valid()
    ensures standby ==> reply == Refused(CONFLICT) && catalog.Recorded() == old(catalog.Recorded())
    ensures !standby ==> (catalog.Recorded(), reply) == Serve(old(catalog.Recorded()), post)
    ensures reply.Refused? ==> unchanged(catalog)
    ensures !standby ==>
              var request, s, r := (post.producer, post.requestId), post.session.sessionId, RevisionId(post.session);
              var head := if s in old(catalog.heads) then Some(old(catalog.heads)[s]) else None;
              if request !in old(catalog.receipts) && head != post.expected && head != Some(r)
              then reply == Refused(409)
              else if !post.rawOk || post.producer == "" || post.requestId == ""
                      || (request in old(catalog.receipts) && old(catalog.receipts)[request] != r)
              then reply == Refused(400)
              else
                && reply.Durable? && reply.receipt.revision == r && request in catalog.receipts
                && (r in old(catalog.revisions) || request in old(catalog.receipts) ==>
                      catalog.heads == old(catalog.heads))
                && (r !in old(catalog.revisions) && request !in old(catalog.receipts) ==>
                      catalog.heads == old(catalog.heads)[s := r])
  {
    hide Coherent;
    if standby {
      return Refused(CONFLICT);
    }
    var request, s := (post.producer, post.requestId), post.session.sessionId;
    var current := if s in catalog.heads then Some(catalog.heads[s]) else None;
    if request !in catalog.receipts && current !in {post.expected, Some(RevisionId(post.session))} {
      return Refused(CONFLICT);
    }
    var result := catalog.Ingest(post.session, request, raw);
    match result {
      case Ok(receipt) => return Durable(receipt);
      case Err => return Refused(INVALID);
    }
  }

  // ---- over any run ----

  /** Every head is a recorded revision of its own session. */
  predicate Sound(l: Ledger) {
    forall s :: s in l.heads ==> l.heads[s] in l.known && l.heads[s].of.sessionId == s
  }

  /** The ledger after the requests of any clients, in the order the server served them. */
  function Run(l: Ledger, posts: seq<Post>): Ledger {
    if posts == [] then l else Serve(Run(l, posts[..|posts| - 1]), posts[|posts| - 1]).0
  }

  /** One request moves at most one head: from exactly the expected revision to a revision never recorded before. */
  lemma ServeMoves(l: Ledger, p: Post, s: string)
    requires Sound(l)
    ensures var after := Serve(l, p).0;
            && Sound(after) && Follows(l, after) && (s in l.heads ==> s in after.heads)
            && (Head(after, s) != Head(l, s) ==>
                 && s == p.session.sessionId && Head(l, s) == p.expected
                 && Head(after, s) == Some(RevisionId(p.session))
                 && RevisionId(p.session) !in l.known && RevisionId(p.session) in after.known
                 && (p.producer, p.requestId) !in l.receipts)
  {
    if Serve(l, p).0 != l {
      RecordFollows(l, p.session, (p.producer, p.requestId));
    }
  }

  /**
   A repeated request changes nothing, whatever it now expects, and is refused unless it repeats the same revision.
   */
  lemma ReplayIsIdle(l: Ledger, p: Post)
    requires (p.producer, p.requestId) in l.receipts
    ensures Serve(l, p).0 == l
    ensures Serve(l, p).1.Durable? ==> l.receipts[(p.producer, p.requestId)] == RevisionId(p.session)
  {
  }

  /** A reply that was lost can be asked for again: the retry is durable and changes nothing. */
  lemma {:induction false} RetryIsDurable(l: Ledger, p: Post, between: seq<Post>)
    requires Sound(l) && p.rawOk && Serve(l, p).1.Durable?
    ensures var later := Run(Serve(l, p).0, between);
            Serve(later, p) == (later, Durable(Receipt(RevisionId(p.session), true)))
  {
    ServeMoves(l, p, "");
    RunFollows(Serve(l, p).0, between, 0, |between|);
    assert between[..|between|] == between && between[..0] == [];
  }

  lemma {:induction false} RunSound(l: Ledger, posts: seq<Post>)
    requires Sound(l)
    ensures Sound(Run(l, posts))
  {
    if posts != [] {
      RunSound(l, posts[..|posts| - 1]);
      ServeMoves(Run(l, posts[..|posts| - 1]), posts[|posts| - 1], "");
    }
  }

  lemma FollowsSelf(l: Ledger)
    ensures Follows(l, l)
  {
  }

  lemma {:induction false} RunFollows(l: Ledger, posts: seq<Post>, i: nat, j: nat)
    requires Sound(l) && i <= j <= |posts|
    ensures Follows(Run(l, posts[..i]), Run(l, posts[..j]))
    decreases j
  {
    hide Serve, Follows, Sound;
    FollowsSelf(Run(l, posts[..i]));
    if i < j {
      var before := Run(l, posts[..j - 1]);
      assert posts[..j][..j - 1] == posts[..j - 1];
      RunFollows(l, posts, i, j - 1);
      RunSound(l, posts[..j - 1]);
      ServeMoves(before, posts[j - 1], "");
      FollowsOn(Run(l, posts[..i]), before, Serve(before, posts[j - 1]).0);
    }
  }

  /** Request i moved the head of session s. */
  predicate Moved(l: Ledger, posts: seq<Post>, i: nat, s: string)
    requires i < |posts|
  {
    Head(Run(l, posts[..i + 1]), s) != Head(Run(l, posts[..i]), s)
  }

  /**
   No lost update, over every run of any number of clients, retries and lost replies: a head moves from h to r only by
   a request for r that expected h, and no revision becomes a head twice.
   */
  lemma NoLostUpdate(l: Ledger, posts: seq<Post>, i: nat, s: string)
    requires Sound(l) && i < |posts| && Moved(l, posts, i, s)
    ensures posts[i].session.sessionId == s && posts[i].expected == Head(Run(l, posts[..i]), s)
    ensures Head(Run(l, posts[..i + 1]), s) == Some(RevisionId(posts[i].session))
    ensures forall j, t :: 0 <= j < |posts| && j != i && Moved(l, posts, j, t) ==> posts[j].session != posts[i].session
  {
    hide Serve, Run, Sound;
    MoveAt(l, posts, i, s);
    forall j, t | 0 <= j < |posts| && j != i && Moved(l, posts, j, t) ensures posts[j].session != posts[i].session {
      MoveAt(l, posts, j, t);
      RunFollows(l, posts, Min(i, j) + 1, Max(i, j));
    }
  }

  lemma MoveAt(l: Ledger, posts: seq<Post>, i: nat, s: string)
    requires Sound(l) && i < |posts| && Moved(l, posts, i, s)
    ensures posts[i].session.sessionId == s && posts[i].expected == Head(Run(l, posts[..i]), s)
    ensures Head(Run(l, posts[..i + 1]), s) == Some(RevisionId(posts[i].session))
    ensures RevisionId(posts[i].session) !in Run(l, posts[..i]).known
    ensures RevisionId(posts[i].session) in Run(l, posts[..i + 1]).known
  {
    assert posts[..i + 1][..i] == posts[..i];
    RunSound(l, posts[..i]);
    ServeMoves(Run(l, posts[..i]), posts[i], s);
  }
}
