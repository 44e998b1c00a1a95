/**
 The client's two resume loops against the transfer service, over a link that may lose requests and replies, and with
 anything other clients and expiry do between its own requests.
 */
module Uploads {
  import opened Common
  import opened Transfers

  /** What becomes of one request on its way. */
  datatype Fate = Good | RequestLost | ReplyLost | Faulty(faults: Faults)

  /** What the server does before a request arrives, and the request's fate. */
  datatype Link = Link(before: seq<Op>, fate: Fate)

  const CLEAR := Link([], Good)

  function At(links: seq<Link>, n: nat): Link {
    if n < |links| then links[n] else CLEAR
  }

  /** Nobody else acts between the requests. */
  predicate Alone(links: seq<Link>) {
    forall i :: 0 <= i < |links| ==> links[i].before == []
  }

  /** Whoever else writes for this producer and digest sends the file's bytes; all others may send anything. */
  predicate HonestFor(link: Link, slot: Slot) {
    forall i :: 0 <= i < |link.before| && link.before[i].slot == slot ==> HonestOp(link.before[i])
  }

  predicate AllHonest(links: seq<Link>, slot: Slot) {
    forall i :: 0 <= i < |links| ==> HonestFor(links[i], slot)
  }

  lemma AtFacts(links: seq<Link>, n: nat, slot: Slot)
    requires AllHonest(links, slot)
    ensures HonestFor(At(links, n), slot)
    ensures Alone(links) ==> At(links, n).before == []
    ensures links == [] ==> At(links, n) == CLEAR
  {
  }

  lemma JoinedOne(pieces: seq<Bytes>, piece: Bytes)
    ensures Joined(pieces + [piece]) == Joined(pieces) + piece
  {
    assert (pieces + [piece])[..|pieces|] == pieces;
  }

  /** The durable offset a resumed upload starts from. */
  function Progress(s: Store, slot: Slot): nat {
    if slot.key in s.objects then |slot.key.content| else |Partial(s, slot)|
  }

  /** The server is sound for this upload: objects are true, and the partial is a prefix of the file. */
  predicate Ready(s: Store, slot: Slot) {
    TrueObjects(s) && TruePartial(s, slot)
  }

  /** Other slots are left alone, and progress does not fall. */
  ghost predicate Forward(s: Store, t: Store, slot: Slot) {
    (forall other :: other != slot ==> Partial(t, other) == Partial(s, other)) && Progress(s, slot) <= Progress(t, slot)
  }

  lemma ForwardOn(s: Store, t: Store, u: Store, slot: Slot)
    ensures Forward(s, s, slot)
    ensures Forward(s, t, slot) && Forward(t, u, slot) ==> Forward(s, u, slot)
  {
  }

  /** Every piece fits one request. */
  predicate Pieces(pieces: seq<Bytes>) {
    forall i :: 0 <= i < |pieces| ==> |pieces[i]| <= MAX_CHUNK
  }

  /** A request an uninterrupted honest client makes: at the durable offset of an unpublished file. */
  predicate Due(s: Store, slot: Slot, offset: nat, chunk: Bytes, maxSize: nat) {
    && slot.key !in s.objects && offset == |Partial(s, slot)| && |slot.key.content| <= maxSize
    && |chunk| <= MAX_CHUNK && (chunk == [] ==> offset == |slot.key.content|)
  }

  /** Its effect: the partial reaches `end`, or the file is published because that was its end. */
  predicate Reached(t: Store, r: Reply, slot: Slot, end: nat) {
    if end == |slot.key.content| then r == Complete(end) && slot.key in t.objects
    else r == Pending(end) && slot.key !in t.objects && |Partial(t, slot)| == end
  }

  lemma GoodPut(s: Store, slot: Slot, chunk: Bytes, maxSize: nat)
    requires Ready(s, slot) && Due(s, slot, |Partial(s, slot)|, chunk, maxSize)
    requires var at, file := |Partial(s, slot)|, slot.key.content;
             at + |chunk| <= |file| && chunk == file[at..at + |chunk|]
    ensures var at := |Partial(s, slot)|;
            var (t, r) := Append(s, slot, at, |slot.key.content|, chunk, maxSize, NO_FAULTS);
            Reached(t, r, slot, at + |chunk|)
  {
    HonestChunk(s, slot, chunk, |chunk|);
    assert chunk[..|chunk|] == chunk;
    assert slot.key.content[..|slot.key.content|] == slot.key.content;
  }

  /** The honest bytes at an offset. */
  predicate Cut(slot: Slot, offset: nat, chunk: Bytes) {
    offset + |chunk| <= |slot.key.content| && chunk == slot.key.content[offset..offset + |chunk|]
  }

  lemma PutKeeps(s: Store, slot: Slot, offset: nat, chunk: Bytes, maxSize: nat, f: Faults)
    requires Ready(s, slot) && Cut(slot, offset, chunk)
    ensures var (t, r) := Append(s, slot, offset, |slot.key.content|, chunk, maxSize, f);
            && Ready(t, slot) && Forward(s, t, slot) && s.objects.Keys <= t.objects.Keys
            && (r.Complete? ==> slot.key in t.objects)
  {
    var op := PutChunk(slot, offset, |slot.key.content|, chunk, f);
    ObjectsStayTrue(s, op, maxSize);
    PartialsStayTrue(s, op, maxSize, slot);
    forall other
      ensures other != slot ==>
        Partial(Append(s, slot, offset, |slot.key.content|, chunk, maxSize, f).0, other) == Partial(s, other)
    {
      AppendElsewhere(s, slot, offset, |slot.key.content|, chunk, maxSize, f, other);
    }
  }

  /** What other clients and expiry do keeps the server ready for this upload, though progress may fall. */
  method Meanwhile(server: RawTransfers, slot: Slot, link: Link)
    requires Ready(server.Files(), slot) && HonestFor(link, slot)
    modifies server
    ensures Ready(server.Files(), slot) && old(server.objects.Keys) <= server.objects.Keys
    ensures link.before == [] ==> server.Files() == old(server.Files())
  {
    RunSound(server.Files(), link.before, server.maxSize, iset{slot});
    server.Serve(link.before);
  }

  /** One PUT. None is any failure the client sees as an error: no connection, no answer, or an error status. */
  method Put(server: RawTransfers, slot: Slot, offset: nat, chunk: Bytes, link: Link) returns (reply: Option<Reply>)
    requires Ready(server.Files(), slot) && Cut(slot, offset, chunk) && HonestFor(link, slot)
    modifies server
    ensures Ready(server.Files(), slot) && old(server.objects.Keys) <= server.objects.Keys
    ensures link.before == [] ==> Forward(old(server.Files()), server.Files(), slot)
    ensures reply.Some? ==> reply.value.Complete? || reply.value.Pending?
    ensures reply.Some? && reply.value.Complete? ==> slot.key in server.objects
    ensures link == CLEAR && Due(old(server.Files()), slot, offset, chunk, server.maxSize) ==>
              reply.Some? && Reached(server.Files(), reply.value, slot, offset + |chunk|)
  {
    hide Forward, HonestFor, Append, Ready;
    Meanwhile(server, slot, link);
    ForwardOn(server.Files(), server.Files(), server.Files(), slot);
    if link.fate.RequestLost? {
      return None;
    }
    var faults := if link.fate.Faulty? then link.fate.faults else NO_FAULTS;
    PutKeeps(server.Files(), slot, offset, chunk, server.maxSize, faults);
    if Due(server.Files(), slot, offset, chunk, server.maxSize) {
      GoodPut(server.Files(), slot, chunk, server.maxSize);
    }
    var r := server.AppendChunk(slot, offset, |slot.key.content|, chunk, faults);
    if link.fate.ReplyLost? || !(r.Complete? || r.Pending?) {
      return None;
    }
    return Some(r);
  }

  /** The initial GET of an upload. */
  method Ask(server: RawTransfers, slot: Slot, link: Link) returns (reply: Option<Reply>)
    requires Ready(server.Files(), slot) && HonestFor(link, slot)
    modifies server
    ensures Ready(server.Files(), slot) && old(server.objects.Keys) <= server.objects.Keys
    ensures link.before == [] ==> Forward(old(server.Files()), server.Files(), slot)
    ensures link.before == [] ==> server.objects == old(server.objects)
    ensures link.before == [] && slot.key !in server.objects ==> server.Files() == old(server.Files())
    ensures reply.Some? ==> reply.value == (if slot.key in server.objects then Complete(|slot.key.content|)
                                            else Pending(|Partial(server.Files(), slot)|))
    ensures link.fate.Good? ==> reply.Some?
  {
    Meanwhile(server, slot, link);
    if link.fate.RequestLost? {
      return None;
    }
    var r := server.GetStatus(slot, false);
    return if link.fate.ReplyLost? || link.fate.Faulty? then None else Some(r);
  }

  // ---- _upload_object ----

  /** Where an upload is: the next byte to send, the pieces sent, whether the last answer was complete. */
  datatype Sending = Sending(offset: nat, sent: seq<Bytes>, done: bool, requests: nat)

  /** The sent pieces are the file's bytes from the start offset to the next one. */
  predicate SentFrom(u: Sending, file: Bytes, start: nat) {
    start <= u.offset <= |file| && Joined(u.sent) == file[start..u.offset] && Pieces(u.sent)
  }

  /** Nothing has gone wrong so far: the server stands where the client thinks it does. */
  predicate InStep(s: Store, slot: Slot, u: Sending) {
    if u.done then slot.key in s.objects && u.offset == |slot.key.content|
    else slot.key !in s.objects && u.offset == |Partial(s, slot)|
  }

  function Sent(u: Sending, chunk: Bytes, done: bool): Sending {
    Sending(u.offset + |chunk|, u.sent + [chunk], done, u.requests + 1)
  }

  lemma SentMore(u: Sending, slot: Slot, start: nat, chunk: Bytes, done: bool)
    requires SentFrom(u, slot.key.content, start) && Cut(slot, u.offset, chunk) && |chunk| <= MAX_CHUNK
    ensures SentFrom(Sent(u, chunk, done), slot.key.content, start)
  {
    var file := slot.key.content;
    JoinedOne(u.sent, chunk);
    assert file[start..u.offset] + chunk == file[start..u.offset + |chunk|];
  }

  /** The whole of what is missing has been sent once the end is reached. */
  lemma SentAll(u: Sending, file: Bytes, start: nat)
    requires SentFrom(u, file, start)
    ensures start <= u.offset <= |file| && Pieces(u.sent)
    ensures u.offset == |file| ==> Joined(u.sent) == file[start..]
  {
    assert file[start..|file|] == file[start..];
  }

  lemma SentNone(file: Bytes, start: nat, requests: nat)
    requires start <= |file|
    ensures SentFrom(Sending(start, [], false, requests), file, start)
  {
    assert file[start..start] == [];
  }

  /** One piece: the answer must name the expected offset. */
  method PutPiece(server: RawTransfers, slot: Slot, chunk: Bytes, u: Sending, link: Link, ghost start: nat)
    returns (v: Option<Sending>)
    requires Ready(server.Files(), slot) && SentFrom(u, slot.key.content, start) && HonestFor(link, slot)
    requires Cut(slot, u.offset, chunk) && |chunk| <= MAX_CHUNK
    modifies server
    ensures Ready(server.Files(), slot) && old(server.objects.Keys) <= server.objects.Keys
    ensures link.before == [] ==> Forward(old(server.Files()), server.Files(), slot)
    ensures v.Some? ==> SentFrom(v.value, slot.key.content, start) && v.value == Sent(u, chunk, v.value.done)
    ensures v.Some? && v.value.done ==> slot.key in server.objects
    ensures link == CLEAR && |slot.key.content| <= server.maxSize && !u.done
            && InStep(old(server.Files()), slot, u) && (chunk == [] ==> u.offset == |slot.key.content|) ==>
              && v.Some? && InStep(server.Files(), slot, v.value)
              && (v.value.done <==> v.value.offset == |slot.key.content|)
  {
    hide Ready, HonestFor, Forward, SentFrom;
    var progress := Put(server, slot, u.offset, chunk, link);
    if progress.None? || progress.value.offset != u.offset + |chunk| {
      return None;
    }
    SentMore(u, slot, start, chunk, progress.value.Complete?);
    return Some(Sent(u, chunk, progress.value.Complete?));
  }

  /** The bytes `source.read` returns next. */
  function NextChunk(file: Bytes, offset: nat): Bytes
    requires offset <= |file|
  {
    file[offset..offset + Min(MAX_CHUNK, |file| - offset)]
  }

  /**
   _upload_object: resume from the durable offset and send the rest of the file in pieces. Interrupted anywhere, and
   whatever others do in between, the server stays sound and success means published; left alone, no progress is
   lost; uninterrupted, exactly the missing bytes are sent.
   */
  method UploadObject(server: RawTransfers, slot: Slot, file: Bytes, links: seq<Link>)
    returns (ok: bool, sent: seq<Bytes>)
    requires slot.key == Sha256(file) && Ready(server.Files(), slot) && AllHonest(links, slot)
    modifies server
    ensures Ready(server.Files(), slot) && old(server.objects.Keys) <= server.objects.Keys
    ensures Alone(links) ==> Forward(old(server.Files()), server.Files(), slot)
    ensures ok ==> slot.key in server.objects
    ensures Pieces(sent)
    ensures links == [] && |file| <= server.maxSize ==>
              ok && Joined(sent) == file[Progress(old(server.Files()), slot)..]
  {
    AtFacts(links, 0, slot);
    var first := Ask(server, slot, At(links, 0));
    if first.None? {
      return false, [];
    }
    if first.value.Complete? {
      assert file[|file|..] == [];
      return first.value.offset == |file|, [];
    }
    ghost var start := first.value.offset;
    SentNone(file, start, 1);
    ok, sent := SendRest(server, slot, Sending(first.value.offset, [], false, 1), links, start, old(server.Files()));
  }

  /** The loop of _upload_object. */
  method SendRest(server: RawTransfers, slot: Slot, first: Sending, links: seq<Link>, ghost start: nat,
                  ghost was: Store)
    returns (ok: bool, sent: seq<Bytes>)
    requires Ready(server.Files(), slot) && AllHonest(links, slot)
    requires SentFrom(first, slot.key.content, start) && !first.done
    requires Alone(links) ==> Forward(was, server.Files(), slot)
    modifies server
    ensures Ready(server.Files(), slot) && old(server.objects.Keys) <= server.objects.Keys
    ensures Alone(links) ==> Forward(was, server.Files(), slot)
    ensures ok ==> slot.key in server.objects
    ensures Pieces(sent)
    ensures links == [] && |slot.key.content| <= server.maxSize && InStep(old(server.Files()), slot, first) ==>
              ok && Joined(sent) == slot.key.content[start..]
  {
    hide Ready, Forward, SentFrom, Alone, AllHonest, Pieces, Joined, HonestFor, Cut, At;
    var file, u := slot.key.content, first;
    SentAll(u, file, start);
    while true
      invariant SentFrom(u, file, start) && !u.done && u.offset <= |file|
      invariant Ready(server.Files(), slot) && old(server.objects.Keys) <= server.objects.Keys
      invariant Alone(links) ==> Forward(was, server.Files(), slot)
      invariant links == [] && |file| <= server.maxSize && InStep(old(server.Files()), slot, first) ==>
                  InStep(server.Files(), slot, u)
      decreases |file| - u.offset
    {
      var chunk := NextChunk(file, u.offset);
      ChunkCut(slot, u.offset);
      AtFacts(links, u.requests, slot);
      ghost var before := server.Files();
      var v := PutPiece(server, slot, chunk, u, At(links, u.requests), start);
      ForwardOn(was, before, server.Files(), slot);
      SentAll(u, file, start);
      if v.None? {
        return false, u.sent;
      }
      SentAll(v.value, file, start);
      if v.value.done {
        return true, v.value.sent;
      }
      if chunk == [] {
        return false, v.value.sent;
      }
      u := v.value;
    }
  }

  lemma ChunkCut(slot: Slot, offset: nat)
    requires offset <= |slot.key.content|
    ensures var chunk := NextChunk(slot.key.content, offset);
            Cut(slot, offset, chunk) && |chunk| <= MAX_CHUNK && (chunk == [] ==> offset == |slot.key.content|)
  {
  }

  // ---- upload_raw_store ----

  /** One piece of upload_raw_store: completion may be answered only at the end. */
  method SendPiece(server: RawTransfers, slot: Slot, chunk: Bytes, u: Sending, link: Link, ghost start: nat)
    returns (v: Option<Sending>)
    requires Ready(server.Files(), slot) && SentFrom(u, slot.key.content, start) && HonestFor(link, slot)
    requires Cut(slot, u.offset, chunk) && 0 < |chunk| <= MAX_CHUNK
    modifies server
    ensures Ready(server.Files(), slot) && old(server.objects.Keys) <= server.objects.Keys
    ensures link.before == [] ==> Forward(old(server.Files()), server.Files(), slot)
    ensures v.Some? ==> SentFrom(v.value, slot.key.content, start) && v.value == Sent(u, chunk, v.value.done)
    ensures v.Some? && v.value.done ==> slot.key in server.objects && v.value.offset == |slot.key.content|
    ensures link == CLEAR && |slot.key.content| <= server.maxSize && InStep(old(server.Files()), slot, u) ==>
              v.Some? && InStep(server.Files(), slot, v.value)
  {
    hide Ready, HonestFor, Forward, SentFrom;
    v := PutPiece(server, slot, chunk, u, link, start);
    if v.Some? && v.value.done && v.value.offset != |slot.key.content| {
      return None;
    }
  }

  lemma SubCut(slot: Slot, position: nat, content: Bytes, lo: nat, hi: nat)
    requires Cut(slot, position, content) && lo <= hi <= |content|
    ensures Cut(slot, position + lo, content[lo..hi])
  {
  }

  /** The inner loop of upload_raw_store over one stored block that covers file[position..position + |content|]. */
  method SendBlock(server: RawTransfers, slot: Slot, content: Bytes, position: nat, u: Sending, links: seq<Link>,
                   ghost start: nat, ghost was: Store)
    returns (v: Option<Sending>)
    requires Ready(server.Files(), slot) && SentFrom(u, slot.key.content, start) && AllHonest(links, slot)
    requires Cut(slot, position, content) && position <= u.offset
    requires u.done ==> slot.key in server.objects
    requires Alone(links) ==> Forward(was, server.Files(), slot)
    modifies server
    ensures Ready(server.Files(), slot) && old(server.objects.Keys) <= server.objects.Keys
    ensures Alone(links) ==> Forward(was, server.Files(), slot)
    ensures v.Some? ==> SentFrom(v.value, slot.key.content, start) && position + |content| <= v.value.offset
    ensures v.Some? && v.value.done ==> slot.key in server.objects
    ensures links == [] && |slot.key.content| <= server.maxSize && InStep(old(server.Files()), slot, u) ==>
              v.Some? && InStep(server.Files(), slot, v.value)
  {
    hide Ready, Forward, SentFrom, Alone, AllHonest, HonestFor, Cut, At;
    var at := Max(0, u.offset - position);
    var w := u;
    while at < |content|
      invariant 0 <= at && w.offset == position + at && SentFrom(w, slot.key.content, start)
      invariant Ready(server.Files(), slot) && old(server.objects.Keys) <= server.objects.Keys
      invariant Alone(links) ==> Forward(was, server.Files(), slot)
      invariant w.done ==> slot.key in server.objects
      invariant links == [] && |slot.key.content| <= server.maxSize && InStep(old(server.Files()), slot, u) ==>
                  InStep(server.Files(), slot, w)
      decreases |content| - at
    {
      var chunk := content[at..Min(at + MAX_CHUNK, |content|)];
      SubCut(slot, position, content, at, at + |chunk|);
      AtFacts(links, w.requests, slot);
      ghost var before := server.Files();
      var next := SendPiece(server, slot, chunk, w, At(links, w.requests), start);
      ForwardOn(was, before, server.Files(), slot);
      if next.None? {
        return None;
      }
      w, at := next.value, at + |chunk|;
    }
    return Some(w);
  }

  lemma {:induction false} JoinedPrefix(blocks: seq<Bytes>, i: nat)
    requires i < |blocks|
    ensures |Joined(blocks[..i])| + |blocks[i]| <= |Joined(blocks)|
    ensures blocks[i] == Joined(blocks)[|Joined(blocks[..i])|..|Joined(blocks[..i])| + |blocks[i]|]
    ensures |Joined(blocks[..i + 1])| == |Joined(blocks[..i])| + |blocks[i]|
    decreases |blocks|
  {
    var front := blocks[..|blocks| - 1];
    if i == |front| {
      assert blocks[..i] == front && blocks[..i + 1] == blocks;
    } else {
      JoinedPrefix(front, i);
      assert front[..i] == blocks[..i] && front[..i + 1] == blocks[..i + 1];
    }
  }

  /** The loop of upload_raw_store over the stored blocks, those the server already has included. */
  method SendBlocks(server: RawTransfers, slot: Slot, blocks: seq<Bytes>, first: Sending, links: seq<Link>,
                    ghost start: nat, ghost was: Store)
    returns (finished: bool, u: Sending)
    requires slot.key == Sha256(Joined(blocks)) && Ready(server.Files(), slot) && AllHonest(links, slot)
    requires SentFrom(first, slot.key.content, start) && !first.done
    requires Alone(links) ==> Forward(was, server.Files(), slot)
    modifies server
    ensures Ready(server.Files(), slot) && old(server.objects.Keys) <= server.objects.Keys
    ensures Alone(links) ==> Forward(was, server.Files(), slot)
    ensures SentFrom(u, slot.key.content, start) && (u.done ==> slot.key in server.objects)
    ensures finished ==> u.offset == |slot.key.content|
    ensures links == [] && |slot.key.content| <= server.maxSize && InStep(old(server.Files()), slot, first) ==>
              finished && InStep(server.Files(), slot, u)
  {
    hide Ready, SentFrom, InStep, Cut, Forward, Alone, AllHonest;
    var file := slot.key.content;
    u := first;
    var position := 0;
    SentAll(u, file, start);
    for i := 0 to |blocks|
      invariant position == |Joined(blocks[..i])| && position <= u.offset && SentFrom(u, file, start)
      invariant Ready(server.Files(), slot) && old(server.objects.Keys) <= server.objects.Keys
      invariant Alone(links) ==> Forward(was, server.Files(), slot)
      invariant u.done ==> slot.key in server.objects
      invariant links == [] && |file| <= server.maxSize && InStep(old(server.Files()), slot, first) ==>
                  InStep(server.Files(), slot, u)
    {
      JoinedPrefix(blocks, i);
      BlockCut(slot, blocks, i);
      var v := SendBlock(server, slot, blocks[i], position, u, links, start, was);
      if v.None? {
        return false, u;
      }
      u, position := v.value, position + |blocks[i]|;
    }
    assert blocks[..|blocks|] == blocks;
    SentAll(u, file, start);
    return true, u;
  }

  lemma BlockCut(slot: Slot, blocks: seq<Bytes>, i: nat)
    requires slot.key == Sha256(Joined(blocks)) && i < |blocks|
    ensures Cut(slot, |Joined(blocks[..i])|, blocks[i])
  {
    JoinedPrefix(blocks, i);
  }

  /** The last, empty request, unless the data alone completed the upload. */
  method FinishRaw(server: RawTransfers, slot: Slot, u: Sending, links: seq<Link>, ghost was: Store) returns (ok: bool)
    requires Ready(server.Files(), slot) && u.offset == |slot.key.content| && (u.done ==> slot.key in server.objects)
    requires AllHonest(links, slot) && (Alone(links) ==> Forward(was, server.Files(), slot))
    modifies server
    ensures Ready(server.Files(), slot) && old(server.objects.Keys) <= server.objects.Keys
    ensures Alone(links) ==> Forward(was, server.Files(), slot)
    ensures ok ==> slot.key in server.objects
    ensures links == [] && |slot.key.content| <= server.maxSize && InStep(old(server.Files()), slot, u) ==> ok
  {
    hide Ready, Forward, Alone, AllHonest, HonestFor, At;
    if u.done {
      return true;
    }
    AtFacts(links, u.requests, slot);
    ghost var before := server.Files();
    var last := Put(server, slot, u.offset, [], At(links, u.requests));
    ForwardOn(was, before, server.Files(), slot);
    return last.Some? && last.value.Complete? && last.value.offset == |slot.key.content|;
  }

  /**
   upload_raw_store: read every stored block, skipped ones included, and send what the server lacks in pieces;
   a last empty request asks for publication when the data alone did not complete the upload.
   */
  method UploadRawStore(server: RawTransfers, slot: Slot, blocks: seq<Bytes>, links: seq<Link>)
    returns (ok: bool, sent: seq<Bytes>)
    requires slot.key == Sha256(Joined(blocks)) && Ready(server.Files(), slot) && AllHonest(links, slot)
    modifies server
    ensures Ready(server.Files(), slot) && old(server.objects.Keys) <= server.objects.Keys
    ensures Alone(links) ==> Forward(old(server.Files()), server.Files(), slot)
    ensures ok ==> slot.key in server.objects
    ensures Pieces(sent)
    ensures links == [] && |Joined(blocks)| <= server.maxSize ==>
              ok && Joined(sent) == Joined(blocks)[Progress(old(server.Files()), slot)..]
  {
    var file := slot.key.content;
    AtFacts(links, 0, slot);
    var first := Ask(server, slot, At(links, 0));
    if first.None? {
      return false, [];
    }
    if first.value.Complete? {
      assert file[|file|..] == [];
      return first.value.offset == |file|, [];
    }
    ghost var start := first.value.offset;
    SentNone(file, start, 1);
    var finished, u := SendBlocks(server, slot, blocks, Sending(first.value.offset, [], false, 1), links, start,
                                  old(server.Files()));
    SentAll(u, file, start);
    if !finished {
      return false, u.sent;
    }
    ok := FinishRaw(server, slot, u, links, old(server.Files()));
    return ok, u.sent;
  }
}
