/**
 Resumable raw uploads. A server keeps one partial file per (producer, digest) and publishes it under its digest
 once complete; it may die at any durable step. transfer_lock (module TransferLock) lets one request at a time
 touch a partial, so each request is one step here.
 */
module Transfers {
  import opened Common

  const MAX_CHUNK: nat := 1048576

  datatype Slot = Slot(producer: string, key: Sha256)

  /** The durable files: partials under transfers/, and published objects in either layout. */
  datatype Store = Store(partials: map<Slot, Bytes>, objects: map<Sha256, Bytes>)

  datatype Reply =
    | Complete(offset: nat)
    | Pending(offset: nat)
    | OffsetConflict
    | Invalid          // ValueError
    | NoSpace          // OSError from capacity checks
    | Died

  /**
   What befalls one request: capacity may refuse it, another producer may publish the same object just before the
   link, and the process may die after `life` durable effects (three make a request whole), having written only
   `torn` bytes of the chunk when it dies during the first.
   */
  datatype Faults = Faults(deferred: bool, rival: bool, life: nat, torn: nat)

  const NO_FAULTS := Faults(false, false, 3, 0)

  function Partial(s: Store, slot: Slot): Bytes {
    if slot in s.partials then s.partials[slot] else []
  }

  function Drop(s: Store, slot: Slot): Store {
    s.(partials := s.partials - {slot})
  }

  predicate Verified(s: Store, key: Sha256) {
    key in s.objects && Sha256(s.objects[key]) == key
  }

  /**
   status: report durable progress, and retire this producer's duplicate of a published object unless it is busy.
   Without a lock file the answer is 0 unlooked; that is the partial's size, because a partial never stands without its
   lock (TransferLock.NoLockNoPartial).
   */
  function Status(s: Store, slot: Slot, busy: bool): (Store, Reply) {
    if slot.key in s.objects then
      if !Verified(s, slot.key) then (s, Invalid)
      else (if busy then s else Drop(s, slot), Complete(|s.objects[slot.key]|))
    else (s, Pending(|Partial(s, slot)|))
  }

  predicate WellFormed(offset: nat, total: nat, chunk: Bytes, maxSize: nat) {
    offset <= total <= maxSize && |chunk| <= MAX_CHUNK && offset + |chunk| <= total && (chunk == [] ==> offset == total)
  }

  /**
   What publishing and unlinking a complete partial does, given the deaths in `f`. The link makes partial and object one
   file; keeping two copies here is faithful because a published digest's partial is never written
   (SharedNeverWritten).
   */
  function Publish(s: Store, slot: Slot, total: nat, f: Faults): (Store, Reply)
    requires slot in s.partials
  {
    var data := s.partials[slot];
    var s1 := if f.rival then s.(objects := s.objects[slot.key := slot.key.content]) else s;
    if f.life == 1 then (s1, Died)
    else
      var s2 := s1.(objects := s1.objects[slot.key := data]);
      if f.life == 2 then (s2, Died) else (Drop(s2, slot), Complete(total))
  }

  /** append, as a function of the durable files. */
  function Append(s: Store, slot: Slot, offset: nat, total: nat, chunk: Bytes, maxSize: nat, f: Faults)
      : (Store, Reply) {
    if !WellFormed(offset, total, chunk, maxSize) then (s, Invalid)
    else if slot.key in s.objects then
      if !Verified(s, slot.key) || |s.objects[slot.key]| != total then (s, Invalid)
      else if f.life == 0 then (s, Died)
      else (Drop(s, slot), Complete(total))
    else if offset != |Partial(s, slot)| then (s, OffsetConflict)
    else if f.deferred then (s, NoSpace)
    else if f.life == 0 then
      (s.(partials := s.partials[slot := Partial(s, slot) + chunk[..Min(f.torn, |chunk|)]]), Died)
    else
      var data := Partial(s, slot) + chunk;
      var s1 := s.(partials := s.partials[slot := data]);
      if |data| != total then (s1, if f.life == 1 then Died else Pending(|data|))
      else if Sha256(data) != slot.key then (s1, Invalid)
      else Publish(s1, slot, total, f)
  }

  /**
   expire_transfers on one slot: published evidence is never touched. `spared` says whether the partial is too young,
   linked, locked, changed since it was listed, or of a digest the catalog still refers to.
   */
  function Expire(s: Store, slot: Slot, spared: bool): Store {
    if spared || slot.key in s.objects then s else Drop(s, slot)
  }

  /** A request that is refused for its numbers alone. */
  predicate Malformed(offset: nat, total: nat, chunk: Bytes, maxSize: nat) {
    || offset > total || total > maxSize || |chunk| > 1048576 || offset + |chunk| > total
    || (chunk == [] && offset != total)
  }

  /**
   One append, told of the files before and after. Refusals change nothing. A published digest only loses this
   producer's partial. A chunk is appended at the end of the partial and nowhere else; what was written when the
   process dies stays; a complete file whose digest is another stays unpublished; a published one has exactly the
   bytes sent, and its partial goes last.
   */
  predicate Appended(s: Store, slot: Slot, offset: nat, total: nat, chunk: Bytes, maxSize: nat, f: Faults, t: Store,
                     r: Reply) {
    var held := if slot in s.partials then s.partials[slot] else [];
    var sent := held + chunk;
    if Malformed(offset, total, chunk, maxSize) then r == Invalid && t == s
    else if slot.key in s.objects then
      if s.objects[slot.key] != slot.key.content || |s.objects[slot.key]| != total then r == Invalid && t == s
      else if f.life == 0 then r == Died && t == s
      else r == Complete(total) && t == Store(s.partials - {slot}, s.objects)
    else if offset != |held| then r == OffsetConflict && t == s
    else if f.deferred then r == NoSpace && t == s
    else if f.life == 0 then
      r == Died
      && t == Store(s.partials[slot := held + if f.torn < |chunk| then chunk[..f.torn] else chunk], s.objects)
    else if |sent| < total then
      r == (if f.life == 1 then Died else Pending(|sent|)) && t == Store(s.partials[slot := sent], s.objects)
    else if slot.key.content != sent then r == Invalid && t == Store(s.partials[slot := sent], s.objects)
    else if f.life == 1 then
      r == Died
      && t == Store(s.partials[slot := sent], if f.rival then s.objects[slot.key := sent] else s.objects)
    else if f.life == 2 then r == Died && t == Store(s.partials[slot := sent], s.objects[slot.key := sent])
    else r == Complete(total) && t == Store(s.partials - {slot}, s.objects[slot.key := sent])
  }

  lemma AppendTold(s: Store, slot: Slot, offset: nat, total: nat, chunk: Bytes, maxSize: nat, f: Faults)
    ensures var (t, r) := Append(s, slot, offset, total, chunk, maxSize, f);
            Appended(s, slot, offset, total, chunk, maxSize, f, t, r)
  {
    assert chunk[..|chunk|] == chunk;
    var sent := Partial(s, slot) + chunk;
    assert s.partials[slot := sent] - {slot} == s.partials - {slot};
    assert s.objects[slot.key := sent][slot.key := sent] == s.objects[slot.key := sent];
  }

  // ---- the service ----

  class RawTransfers {
    var partials: map<Slot, Bytes>
    var objects: map<Sha256, Bytes>
    const maxSize: nat

    function Files(): Store
      reads this
    {
      Store(partials, objects)
    }

    constructor (maxSize: nat)
      ensures Files() == Store(map[], map[]) && this.maxSize == maxSize
    {
      partials, objects := map[], map[];
      this.maxSize := maxSize;
    }

    method GetStatus(slot: Slot, busy: bool) returns (r: Reply)
      modifies this
      ensures (Files(), r) == Status(old(Files()), slot, busy)
      ensures objects == old(objects)
      ensures slot.key !in objects ==>
                r == Pending(if slot in partials then |partials[slot]| else 0) && partials == old(partials)
      ensures slot.key in objects && objects[slot.key] != slot.key.content ==> r == Invalid && partials == old(partials)
      ensures slot.key in objects && objects[slot.key] == slot.key.content ==>
                r == Complete(|slot.key.content|) && partials == if busy then old(partials) else old(partials) - {slot}
    {
      if slot.key in objects {
        if Sha256(objects[slot.key]) != slot.key {
          return Invalid;
        }
        if slot in partials && !busy {
          partials := partials - {slot};
        } else if slot !in partials {
          assert partials - {slot} == partials;
        }
        return Complete(|objects[slot.key]|);
      }
      return Pending(if slot in partials then |partials[slot]| else 0);
    }

    method AppendChunk(slot: Slot, offset: nat, total: nat, chunk: Bytes, f: Faults) returns (r: Reply)
      modifies this
      ensures (Files(), r) == Append(old(Files()), slot, offset, total, chunk, maxSize, f)
      ensures Appended(old(Files()), slot, offset, total, chunk, maxSize, f, Files(), r)
    {
      AppendTold(Files(), slot, offset, total, chunk, maxSize, f);
      hide Appended;
      if !(offset <= total <= maxSize) || |chunk| > MAX_CHUNK {
        return Invalid;
      }
      if offset + |chunk| > total || (chunk == [] && offset != total) {
        return Invalid;
      }
      if slot.key in objects {
        if Sha256(objects[slot.key]) != slot.key || |objects[slot.key]| != total {
          return Invalid;
        }
        if f.life == 0 {
          return Died;
        }
        partials := partials - {slot};
        return Complete(total);
      }
      var observed := if slot in partials then |partials[slot]| else 0;
      if offset != observed {
        return OffsetConflict;
      }
      if f.deferred {
        return NoSpace;
      }
      var before := if slot in partials then partials[slot] else [];
      if f.life == 0 {
        partials := partials[slot := before + chunk[..Min(f.torn, |chunk|)]];
        return Died;
      }
      partials := partials[slot := before + chunk];
      var current := observed + |chunk|;
      if current != total {
        return if f.life == 1 then Died else Pending(current);
      }
      if Sha256(partials[slot]) != slot.key {
        return Invalid;
      }
      r := PublishPartial(slot, total, f);
    }

    /** The link and unlink of a checksum-verified partial; an object linked by another producer must match it. */
    method PublishPartial(slot: Slot, total: nat, f: Faults) returns (r: Reply)
      requires slot in partials && Sha256(partials[slot]) == slot.key && |partials[slot]| == total
      requires slot.key !in objects
      modifies this
      ensures (Files(), r) == Publish(old(Files()), slot, total, f)
    {
      if f.rival {
        objects := objects[slot.key := slot.key.content];
      }
      if f.life == 1 {
        return Died;
      }
      if slot.key !in objects {
        objects := objects[slot.key := partials[slot]];
      } else if Sha256(objects[slot.key]) != slot.key || |objects[slot.key]| != total {
        assert false;
      } else {
        assert objects[slot.key := partials[slot]] == objects;
      }
      if f.life == 2 {
        return Died;
      }
      partials := partials - {slot};
      return Complete(total);
    }

    method ExpireSlot(slot: Slot, spared: bool)
      modifies this
      ensures Files() == Expire(old(Files()), slot, spared)
      ensures objects == old(objects)
      ensures slot in partials <==> slot in old(partials) && (spared || slot.key in old(objects))
      ensures partials.Keys <= old(partials.Keys) && forall k :: k in partials ==> partials[k] == old(partials)[k]
      ensures forall other :: other in old(partials) && other != slot ==> other in partials
    {
      if !spared && slot.key !in objects {
        partials := partials - {slot};
      }
    }

    /** Requests and expiry served in turn. */
    method Serve(ops: seq<Op>)
      modifies this
      ensures Files() == Run(old(Files()), ops, maxSize)
    {
      for i := 0 to |ops|
        invariant Files() == Run(old(Files()), ops[..i], maxSize)
      {
        assert ops[..i + 1][..i] == ops[..i];
        match ops[i] {
          case AskStatus(slot, busy) => var _ := GetStatus(slot, busy);
          case PutChunk(slot, offset, total, chunk, faults) =>
            var _ := AppendChunk(slot, offset, total, chunk, faults);
          case ExpireOp(slot, spared) => ExpireSlot(slot, spared);
        }
      }
      assert ops[..|ops|] == ops;
    }
  }

  // ---- every run ----

  datatype Op =
    | AskStatus(slot: Slot, busy: bool)
    | PutChunk(slot: Slot, offset: nat, total: nat, chunk: Bytes, faults: Faults)
    | ExpireOp(slot: Slot, spared: bool)

  function Apply(s: Store, op: Op, maxSize: nat): (Store, Reply) {
    match op
    case AskStatus(slot, busy) => Status(s, slot, busy)
    case PutChunk(slot, offset, total, chunk, faults) => Append(s, slot, offset, total, chunk, maxSize, faults)
    case ExpireOp(slot, spared) => (Expire(s, slot, spared), Pending(0))
  }

  function Run(s: Store, ops: seq<Op>, maxSize: nat): Store {
    if ops == [] then s else Apply(Run(s, ops[..|ops| - 1], maxSize), ops[|ops| - 1], maxSize).0
  }

  /** An honest producer sends, for a digest, the bytes of the file with that digest. */
  predicate HonestOp(op: Op) {
    op.PutChunk? ==>
      var file := op.slot.key.content;
      op.total == |file| && op.offset + |op.chunk| <= |file| && op.chunk == file[op.offset..op.offset + |op.chunk|]
  }

  predicate TrueObjects(s: Store) {
    forall k :: k in s.objects ==> s.objects[k] == k.content
  }

  /** The slot's partial is a prefix of the file with its digest. */
  predicate TruePartial(s: Store, slot: Slot) {
    Partial(s, slot) <= slot.key.content
  }

  /** Published objects are what their digests say, and honest partials are prefixes of their files. */
  ghost predicate Sound(s: Store, honest: iset<Slot>) {
    TrueObjects(s) && forall slot :: slot in honest ==> TruePartial(s, slot)
  }

  lemma ObjectsStayTrue(s: Store, op: Op, maxSize: nat)
    requires TrueObjects(s)
    ensures var (t, r) := Apply(s, op, maxSize);
            && TrueObjects(t)
            && s.objects.Keys <= t.objects.Keys
            && (r.Complete? ==> op.slot.key in t.objects && r.offset == |op.slot.key.content|)
  {
    if op.PutChunk? && op.slot.key !in s.objects && op.faults.life > 0 {
      var data := Partial(s, op.slot) + op.chunk;
      if Sha256(data) == op.slot.key {
        PublishTrue(s.(partials := s.partials[op.slot := data]), op.slot, op.total, op.faults);
      }
    }
  }

  lemma PublishTrue(s: Store, slot: Slot, total: nat, f: Faults)
    requires TrueObjects(s) && slot in s.partials && s.partials[slot] == slot.key.content
    ensures var (t, r) := Publish(s, slot, total, f);
            && TrueObjects(t) && s.objects.Keys <= t.objects.Keys
            && (r.Complete? ==> slot.key in t.objects && r.offset == total)
    ensures forall other :: other != slot ==> Partial(Publish(s, slot, total, f).0, other) == Partial(s, other)
    ensures TruePartial(Publish(s, slot, total, f).0, slot)
  {
  }

  /**
   An honest chunk at the durable offset extends a prefix of the file to a longer prefix, however much of it is
   written.
   */
  lemma HonestChunk(s: Store, slot: Slot, chunk: Bytes, n: nat)
    requires TruePartial(s, slot) && n <= |chunk|
    requires var at, file := |Partial(s, slot)|, slot.key.content;
             at + |chunk| <= |file| && chunk == file[at..at + |chunk|]
    ensures Partial(s, slot) + chunk[..n] == slot.key.content[..|Partial(s, slot)| + n]
  {
  }

  /** A request leaves other slots alone and keeps an honest slot's partial a prefix of its file. */
  lemma PartialsStayTrue(s: Store, op: Op, maxSize: nat, slot: Slot)
    requires TrueObjects(s) && TruePartial(s, slot) && (op.slot == slot ==> HonestOp(op))
    ensures TruePartial(Apply(s, op, maxSize).0, slot)
  {
    if op.PutChunk? {
      AppendElsewhere(s, op.slot, op.offset, op.total, op.chunk, maxSize, op.faults, slot);
      if op.slot == slot && op.offset == |Partial(s, slot)| {
        AppendHere(s, slot, op.offset, op.total, op.chunk, maxSize, op.faults);
      }
    }
  }

  lemma AppendElsewhere(s: Store, slot: Slot, offset: nat, total: nat, chunk: Bytes, maxSize: nat, f: Faults,
                        other: Slot)
    ensures other != slot ==> Partial(Append(s, slot, offset, total, chunk, maxSize, f).0, other) == Partial(s, other)
  {
  }

  lemma AppendHere(s: Store, slot: Slot, offset: nat, total: nat, chunk: Bytes, maxSize: nat, f: Faults)
    requires TruePartial(s, slot) && offset == |Partial(s, slot)| && total == |slot.key.content|
    requires offset + |chunk| <= total && chunk == slot.key.content[offset..offset + |chunk|]
    ensures TruePartial(Append(s, slot, offset, total, chunk, maxSize, f).0, slot)
  {
    HonestChunk(s, slot, chunk, Min(f.torn, |chunk|));
    HonestChunk(s, slot, chunk, |chunk|);
    assert chunk[..|chunk|] == chunk;
  }

  lemma ApplySound(s: Store, op: Op, maxSize: nat, honest: iset<Slot>)
    requires Sound(s, honest) && (op.slot in honest ==> HonestOp(op))
    ensures Sound(Apply(s, op, maxSize).0, honest)
    ensures s.objects.Keys <= Apply(s, op, maxSize).0.objects.Keys
    ensures Apply(s, op, maxSize).1.Complete? ==> op.slot.key in Apply(s, op, maxSize).0.objects
  {
    ObjectsStayTrue(s, op, maxSize);
    forall slot | slot in honest ensures TruePartial(Apply(s, op, maxSize).0, slot) {
      PartialsStayTrue(s, op, maxSize, slot);
    }
  }

  /**
   Over every run of requests by any producers, with deaths, torn writes, rivals and expiry: published objects are
   the files their keys digest, honest partials are prefixes of their files, and nothing published is ever lost.
   */
  lemma {:induction false} RunSound(s: Store, ops: seq<Op>, maxSize: nat, honest: iset<Slot>)
    requires Sound(s, honest)
    requires forall i :: 0 <= i < |ops| && ops[i].slot in honest ==> HonestOp(ops[i])
    ensures Sound(Run(s, ops, maxSize), honest)
    ensures s.objects.Keys <= Run(s, ops, maxSize).objects.Keys
  {
    if ops != [] {
      RunSound(s, ops[..|ops| - 1], maxSize, honest);
      ApplySound(Run(s, ops[..|ops| - 1], maxSize), ops[|ops| - 1], maxSize, honest);
    }
  }

  /** A request or expiry leaves the partial of a published digest as it is, or removes it. */
  lemma SharedKept(s: Store, op: Op, maxSize: nat, slot: Slot)
    requires slot.key in s.objects
    ensures var t := Apply(s, op, maxSize).0;
            slot.key in t.objects && (slot in t.partials ==> slot in s.partials && t.partials[slot] == s.partials[slot])
  {
    if op.PutChunk? {
      AppendElsewhere(s, op.slot, op.offset, op.total, op.chunk, maxSize, op.faults, slot);
    }
  }

  /**
   Once a digest is published no request, torn append or expiry of any run writes to a partial of that digest, nor
   creates one: a file that a published name shares with a partial is never written through the partial.
   */
  lemma {:induction false} SharedNeverWritten(s: Store, ops: seq<Op>, maxSize: nat, slot: Slot)
    requires slot.key in s.objects
    ensures var t := Run(s, ops, maxSize);
            slot.key in t.objects && (slot in t.partials ==> slot in s.partials && t.partials[slot] == s.partials[slot])
  {
    if ops != [] {
      SharedNeverWritten(s, ops[..|ops| - 1], maxSize, slot);
      SharedKept(Run(s, ops[..|ops| - 1], maxSize), ops[|ops| - 1], maxSize, slot);
    }
  }

  /** A "complete" answer anywhere in a run means the object is published, with the file's bytes, from then on. */
  lemma CompleteMeansPublished(s: Store, ops: seq<Op>, i: nat, maxSize: nat, honest: iset<Slot>)
    requires Sound(s, honest) && i < |ops|
    requires forall j :: 0 <= j < |ops| && ops[j].slot in honest ==> HonestOp(ops[j])
    requires Apply(Run(s, ops[..i], maxSize), ops[i], maxSize).1.Complete?
    ensures var k := ops[i].slot.key;
            k in Run(s, ops, maxSize).objects && Run(s, ops, maxSize).objects[k] == k.content
  {
    assert ops[..i + 1][..i] == ops[..i];
    RunSound(s, ops[..i], maxSize, honest);
    ApplySound(Run(s, ops[..i], maxSize), ops[i], maxSize, honest);
    RunSplit(s, ops, i + 1, maxSize);
    RunSound(s, ops[..i + 1], maxSize, honest);
    RunSound(Run(s, ops[..i + 1], maxSize), ops[i + 1..], maxSize, honest);
  }

  lemma {:induction false} RunSplit(s: Store, ops: seq<Op>, i: nat, maxSize: nat)
    requires i <= |ops|
    ensures Run(s, ops, maxSize) == Run(Run(s, ops[..i], maxSize), ops[i..], maxSize)
    decreases |ops| - i
  {
    if i == |ops| {
      assert ops[..i] == ops;
    } else {
      var front := ops[..|ops| - 1];
      RunSplit(s, front, i, maxSize);
      assert front[..i] == ops[..i] && ops[i..][..|ops| - i - 1] == front[i..];
    }
  }
}
