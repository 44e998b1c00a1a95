/**
 Files kept as lists of digests of the fixed-size pieces they share with other files, and the collector of a client's
 staging copies. A process may die, or run out of space, after any number of files published or unlinked.
 */
module Chunks {
  import opened Common

  const CHUNK_SIZE: nat := 4194304
  const MAX_SIZE: nat := 34359738368

  datatype Recipe = Recipe(digest: Sha256, size: nat, chunks: seq<(Sha256, nat)>)

  /** Finished, raised an error, or stopped part way. */
  datatype Outcome<+T> = Done(value: T) | Raised | Stopped

  // ---- the chunks of a file ----

  function Count(size: nat): nat {
    (size + CHUNK_SIZE - 1) / CHUNK_SIZE
  }

  function Piece(data: Bytes, i: nat): Bytes
    requires i < Count(|data|)
  {
    data[i * CHUNK_SIZE..Min((i + 1) * CHUNK_SIZE, |data|)]
  }

  function PieceEntry(data: Bytes, i: nat): (Sha256, nat)
    requires i < Count(|data|)
  {
    (Sha256(Piece(data, i)), |Piece(data, i)|)
  }

  function Entries(data: Bytes, n: nat): seq<(Sha256, nat)>
    requires n <= Count(|data|)
  {
    seq(n, i requires 0 <= i < n => PieceEntry(data, i))
  }

  function RecipeOf(data: Bytes): Recipe {
    Recipe(Sha256(data), |data|, Entries(data, Count(|data|)))
  }

  /** The checks of recipe(): the digest it is filed under, and sizes that tile the file. */
  predicate WellFormed(r: Recipe, key: Sha256) {
    && r.digest == key && r.size <= MAX_SIZE && |r.chunks| == Count(r.size)
    && forall i :: 0 <= i < |r.chunks| ==> r.chunks[i].1 == Min(CHUNK_SIZE, r.size - i * CHUNK_SIZE)
  }

  lemma RecipeOfWellFormed(data: Bytes)
    requires |data| <= MAX_SIZE
    ensures WellFormed(RecipeOf(data), Sha256(data))
  {
  }

  /** The chunk contents a recipe names, in order. */
  function Contents(entries: seq<(Sha256, nat)>): seq<Bytes> {
    seq(|entries|, i requires 0 <= i < |entries| => entries[i].0.content)
  }

  /** The pieces of a file spell it out. */
  lemma {:induction false} PiecesJoin(data: Bytes, n: nat)
    requires n <= Count(|data|)
    ensures Joined(Contents(Entries(data, n))) == data[..Min(n * CHUNK_SIZE, |data|)]
  {
    if n > 0 {
      PiecesJoin(data, n - 1);
      var all := Contents(Entries(data, n));
      assert all[..n - 1] == Contents(Entries(data, n - 1));
      assert all[n - 1] == Piece(data, n - 1);
    }
  }

  /**
   A recipe tells a file: its digest and size, and pieces of 4194304 bytes, but for a shorter last one, whose contents
   joined are the file.
   */
  predicate Tells(r: Recipe, data: Bytes) {
    && r.digest.content == data && Tiled(r) && r.size == |data|
    && Joined(Contents(r.chunks)) == data
    && forall i :: 0 <= i < |r.chunks| ==> r.chunks[i].1 == |r.chunks[i].0.content|
  }

  /** The stated sizes: full pieces, but for a last one that is not empty. */
  predicate Tiled(r: Recipe) {
    && (r.size == 0 <==> r.chunks == [])
    && (r.chunks != [] ==>
          && (|r.chunks| - 1) * 4194304 < r.size <= |r.chunks| * 4194304
          && r.chunks[|r.chunks| - 1].1 == r.size - (|r.chunks| - 1) * 4194304)
    && forall i :: 0 <= i < |r.chunks| - 1 ==> r.chunks[i].1 == 4194304
  }

  lemma WellFormedTold(r: Recipe, key: Sha256)
    ensures WellFormed(r, key) <==> r.digest == key && r.size <= 34359738368 && Tiled(r)
  {
    if Tiled(r) && r.chunks != [] {
      var n := |r.chunks|;
      assert r.size + 4194303 == n * 4194304 + (r.size - (n - 1) * 4194304 - 1);
      assert Count(r.size) == n;
    }
  }

  lemma RecipeTells(data: Bytes)
    requires |data| <= MAX_SIZE
    ensures Tells(RecipeOf(data), data)
  {
    RecipeOfWellFormed(data);
    WellFormedTold(RecipeOf(data), Sha256(data));
    PiecesJoin(data, Count(|data|));
    assert data[..|data|] == data;
  }

  // ---- the store ----

  function NamedChunks(entries: seq<(Sha256, nat)>): set<Sha256> {
    set i | 0 <= i < |entries| :: entries[i].0
  }

  /**
   Published chunks hold what their names say, and every recipe is the recipe of its file with all chunks in place.
   */
  predicate Intact(chunks: map<Sha256, Bytes>, recipes: map<Sha256, Recipe>) {
    && (forall d :: d in chunks ==> chunks[d] == d.content)
    && (forall key :: key in recipes ==>
         recipes[key] == RecipeOf(key.content) && |key.content| <= MAX_SIZE
           && NamedChunks(recipes[key].chunks) <= chunks.Keys)
  }

  lemma NamedIn(entries: seq<(Sha256, nat)>, names: set<Sha256>)
    ensures NamedChunks(entries) <= names <==> forall i :: 0 <= i < |entries| ==> entries[i].0 in names
  {
    if NamedChunks(entries) <= names {
      forall i | 0 <= i < |entries| ensures entries[i].0 in names {
        assert entries[i].0 in NamedChunks(entries);
      }
    }
  }

  /** The chunks the queue needs. */
  function Retained(recipes: map<Sha256, Recipe>, pending: set<Sha256>): set<Sha256> {
    set key, i | key in pending && key in recipes && 0 <= i < |recipes[key].chunks| :: recipes[key].chunks[i].0
  }

  /** Every queued raw file is staged: as a recipe, or as a plain file. */
  predicate Staged(recipes: map<Sha256, Recipe>, files: set<Sha256>, pending: set<Sha256>) {
    forall key :: key in pending ==> key in recipes || key in files
  }

  class ChunkStore {
    var chunks: map<Sha256, Bytes>
    var recipes: map<Sha256, Recipe>

    predicate Valid()
      reads this
    {
      Intact(chunks, recipes)
    }

    constructor ()
      ensures Valid() && chunks == map[] && recipes == map[]
    {
      chunks, recipes := map[], map[];
    }

    /** Publish a chunk under its digest; an existing file must already hold the same bytes. */
    method PublishChunk(content: Bytes) returns (ok: bool)
      modifies this`chunks
      ensures ok ==> chunks == old(chunks)[Sha256(content) := content] && Grown(old(chunks), chunks)
      ensures !ok ==> chunks == old(chunks) && Sha256(content) in chunks && chunks[Sha256(content)] != content
    {
      if Sha256(content) in chunks {
        return chunks[Sha256(content)] == content;
      }
      chunks := chunks[Sha256(content) := content];
      return true;
    }

    /**
     put: chunks first, the recipe last. `changed` is whether the source's size or times changed while it was read, and
     `steps` how many files are published before the process dies or space runs out.
     */
    method Put(data: Bytes, expected: Option<Sha256>, changed: bool, steps: nat) returns (r: Outcome<(Sha256, nat)>)
      modifies this
      ensures old(Valid()) ==> Valid()
      ensures forall d :: d in old(chunks) ==> d in chunks && chunks[d] == old(chunks)[d]
      ensures recipes == if r.Done? then old(recipes)[Sha256(data) := RecipeOf(data)] else old(recipes)
      ensures r.Done? ==> r.value == (Sha256(data), |data|) && !changed && |data| <= MAX_SIZE
                          && (expected.Some? ==> expected.value == Sha256(data))
                          && NamedChunks(RecipeOf(data).chunks) <= chunks.Keys
      ensures r.Done? ==> Sha256(data) in recipes && Tells(recipes[Sha256(data)], data)
      ensures r.Done? ==> forall i :: 0 <= i < |recipes[Sha256(data)].chunks| ==>
                            recipes[Sha256(data)].chunks[i].0 in chunks
      ensures |data| > 34359738368 ==> r.Raised? && unchanged(this)
      ensures r.Raised? && old(Valid()) ==>
                changed || |data| > MAX_SIZE || (expected.Some? && expected.value != Sha256(data))
    {
      hide Tells, Tiled, Contents, Joined;
      if |data| > MAX_SIZE {
        return Raised;
      }
      var entries: seq<(Sha256, nat)> := [];
      var at, left := 0, steps;
      while at < |data|
        invariant at == Min(|entries| * CHUNK_SIZE, |data|) && |entries| <= Count(|data|)
                  && entries == Entries(data, |entries|)
        invariant Grown(old(chunks), chunks) && NamedChunks(entries) <= chunks.Keys
        invariant (forall d :: d in old(chunks) ==> old(chunks)[d] == d.content) ==>
                    forall d :: d in chunks ==> chunks[d] == d.content
        invariant recipes == old(recipes)
      {
        var content := data[at..Min(at + CHUNK_SIZE, |data|)];
        if left == 0 {
          return Stopped;
        }
        var ok := PublishChunk(content);
        if !ok {
          return Raised;
        }
        assert content == Piece(data, |entries|);
        entries := entries + [(Sha256(content), |content|)];
        at, left := at + |content|, left - 1;
      }
      if changed || (expected.Some? && expected.value != Sha256(data)) {
        return Raised;
      }
      if left == 0 {
        return Stopped;
      }
      var recipe := Recipe(Sha256(data), |data|, entries);
      if recipe.digest in recipes && recipes[recipe.digest] != recipe {
        return Raised;
      }
      recipes := recipes[recipe.digest := recipe];
      RecipeTells(data);
      NamedIn(entries, chunks.Keys);
      return Done((recipe.digest, recipe.size));
    }

    /**
     iter_bytes: the blocks of a file, each checked, and their whole checked at the end. Whatever the store holds, what
     is returned is the file; an intact store returns every file that has a recipe.
     */
    method IterBytes(key: Sha256) returns (r: Result<seq<Bytes>>)
      ensures r.Ok? ==> Joined(r.value) == key.content
      ensures Valid() && key in recipes ==> r.Ok?
      ensures key !in recipes ==> r.Err?
      ensures r.Ok? <==> key in recipes && recipes[key].digest == key && recipes[key].size <= 34359738368
                         && Tiled(recipes[key]) && Joined(Contents(recipes[key].chunks)) == key.content
                         && forall i :: 0 <= i < |recipes[key].chunks| ==> HoldsPiece(recipes[key].chunks[i])
    {
      if key in recipes {
        WellFormedTold(recipes[key], key);
      }
      if key !in recipes || !WellFormed(recipes[key], key) {
        Known(key);
        return Err;
      }
      var recipe := recipes[key];
      var blocks: seq<Bytes> := [];
      for i := 0 to |recipe.chunks|
        invariant blocks == Contents(recipe.chunks[..i])
        invariant forall k :: 0 <= k < i ==> HoldsPiece(recipe.chunks[k])
      {
        var d := recipe.chunks[i].0;
        if d !in chunks || |chunks[d]| != recipe.chunks[i].1 || Sha256(chunks[d]) != d {
          InPlace(key, i);
          return Err;
        }
        blocks := blocks + [chunks[d]];
      }
      assert recipe.chunks[..|recipe.chunks|] == recipe.chunks;
      if Sha256(Joined(blocks)) != key {
        Whole(key);
        return Err;
      }
      return Ok(blocks);
    }

    /** The chunk is there, as its name and the recipe's size say. */
    predicate HoldsPiece(entry: (Sha256, nat))
      reads this
    {
      entry.0 in chunks && chunks[entry.0] == entry.0.content && |entry.0.content| == entry.1
    }

    lemma Known(key: Sha256)
      ensures Valid() && key in recipes ==> WellFormed(recipes[key], key)
    {
      if Valid() && key in recipes {
        RecipeOfWellFormed(key.content);
      }
    }

    lemma InPlace(key: Sha256, i: nat)
      requires key in recipes && i < |recipes[key].chunks|
      ensures Valid() ==>
                var (d, size) := recipes[key].chunks[i]; d in chunks && chunks[d] == d.content && |chunks[d]| == size
    {
      assert recipes[key].chunks[i].0 in NamedChunks(recipes[key].chunks);
    }

    lemma Whole(key: Sha256)
      requires key in recipes
      ensures Valid() ==> Joined(Contents(recipes[key].chunks)) == key.content
    {
      if Valid() {
        PiecesJoin(key.content, Count(|key.content|));
      }
    }

    /** Every recipe is readable before anything is removed. */
    predicate Collectable(files: set<Sha256>, pending: set<Sha256>)
      reads this
    {
      && (forall key :: key in recipes ==> WellFormed(recipes[key], key))
      && Staged(recipes, files, pending) && Retained(recipes, pending) <= chunks.Keys
    }

    lemma CollectableTold(files: set<Sha256>, pending: set<Sha256>)
      ensures Collectable(files, pending) <==>
                && (forall key :: key in recipes ==>
                      recipes[key].digest == key && recipes[key].size <= 34359738368 && Tiled(recipes[key]))
                && (forall key :: key in pending ==> key in recipes || key in files)
                && (forall key :: key in pending && key in recipes ==>
                      forall i :: 0 <= i < |recipes[key].chunks| ==> recipes[key].chunks[i].0 in chunks)
    {
      hide WellFormed, Tiled;
      forall key | key in recipes
        ensures WellFormed(recipes[key], key) <==>
                  recipes[key].digest == key && recipes[key].size <= 34359738368 && Tiled(recipes[key])
      {
        WellFormedTold(recipes[key], key);
      }
      if Retained(recipes, pending) <= chunks.Keys {
        forall key, i | key in pending && key in recipes && 0 <= i < |recipes[key].chunks|
          ensures recipes[key].chunks[i].0 in chunks
        {
          assert recipes[key].chunks[i].0 in Retained(recipes, pending);
        }
      }
    }

    /**
     _prune_chunk_staging: recipes the queue does not need go first, then the chunks no remaining recipe names. At every
     stopping point the store is intact and everything queued is still readable; a finished round leaves exactly what
     the queue needs.
     */
    method Prune(pending: set<Sha256>, files: set<Sha256>, steps: nat) returns (r: Outcome<nat>)
      modifies this
      ensures r.Raised? <==> !old(Collectable(files, pending))
      ensures r.Raised? ==> unchanged(this)
      ensures r.Raised? <==>
                old(!(&& (forall key :: key in recipes ==>
                            recipes[key].digest == key && recipes[key].size <= 34359738368 && Tiled(recipes[key]))
                      && (forall key :: key in pending ==> key in recipes || key in files)
                      && (forall key :: key in pending && key in recipes ==>
                            forall i :: 0 <= i < |recipes[key].chunks| ==> recipes[key].chunks[i].0 in chunks)))
      ensures old(Valid()) ==> Valid()
      ensures Kept(old(recipes), recipes, pending) && Kept(old(chunks), chunks, Retained(old(recipes), pending))
      ensures r.Done? ==> recipes.Keys == old(recipes.Keys) * pending && chunks.Keys == Retained(old(recipes), pending)
      ensures r.Done? ==> r.value == old(|recipes| + |chunks|) - |recipes| - |chunks|
    {
      CollectableTold(files, pending);
      hide Intact, WellFormed, Staged, Kept, Tiled;
      KeptAll(recipes, pending);
      KeptAll(chunks, Retained(recipes, pending));
      if !Collectable(files, pending) {
        return Raised;
      }
      var retained := Retained(recipes, pending);
      var n: nat, finished: bool;
      recipes, n, finished := RemoveAll(recipes, pending, steps);
      PruneIntact(old(recipes), recipes, chunks, chunks, pending);
      if !finished {
        return Stopped;
      }
      chunks, n, finished := RemoveAll(chunks, retained, n);
      PruneIntact(old(recipes), recipes, old(chunks), chunks, pending);
      if !finished {
        return Stopped;
      }
      return Done(steps - n);
    }
  }

  /** A queued raw file survives staging, collection stopped anywhere, and reads back exactly. */
  method StageCollectRead(store: ChunkStore, data: Bytes, pending: set<Sha256>, files: set<Sha256>, steps: nat,
                          collected: nat)
    returns (put: Outcome<(Sha256, nat)>, read: Result<seq<Bytes>>)
    requires store.Valid()
    modifies store
    ensures store.Valid()
    ensures (put.Done? || Sha256(data) in old(store.recipes)) && Sha256(data) in pending ==>
              read.Ok? && Joined(read.value) == data
  {
    put := store.Put(data, None, false, steps);
    var _ := store.Prune(pending, files, collected);
    read := store.IterBytes(Sha256(data));
  }

  /**
   Unlink what is not needed, one file at a time. `left` is how many more files may be unlinked before the process
   dies.
   */
  method RemoveAll<T>(files: map<Sha256, T>, needed: set<Sha256>, steps: nat)
    returns (less: map<Sha256, T>, left: nat, finished: bool)
    ensures Kept(files, less, needed) && left + |files| - |less| == steps && left <= steps
    ensures finished <==> less.Keys == files.Keys * needed
  {
    less, left := files, steps;
    var todo := files.Keys - needed;
    while todo != {}
      invariant Kept(files, less, needed) && todo == less.Keys - needed
      invariant left + |files| - |less| == steps && left <= steps
      decreases todo
    {
      var key :| key in todo;
      if left == 0 {
        assert key in less.Keys && key !in needed;
        return less, left, false;
      }
      less, left, todo := less - {key}, left - 1, todo - {key};
    }
    forall d ensures d in less.Keys <==> d in files.Keys * needed {
      assert d !in less.Keys - needed;
    }
    return less, left, true;
  }

  lemma KeptAll<T>(files: map<Sha256, T>, needed: set<Sha256>)
    ensures Kept(files, files, needed)
  {
  }

  /** Either only recipes went, or every recipe left is needed and its chunks were kept. */
  lemma PruneIntact(before: map<Sha256, Recipe>, after: map<Sha256, Recipe>, chunks: map<Sha256, Bytes>,
                    less: map<Sha256, Bytes>, pending: set<Sha256>)
    requires Kept(before, after, pending) && Kept(chunks, less, Retained(before, pending))
    requires less == chunks || after.Keys <= pending
    ensures Intact(chunks, before) ==> Intact(less, after)
  {
    if Intact(chunks, before) {
      forall key | key in after ensures NamedChunks(after[key].chunks) <= less.Keys {
        forall d | d in NamedChunks(after[key].chunks) ensures d in less {
          var i :| 0 <= i < |after[key].chunks| && after[key].chunks[i].0 == d;
          assert key in pending ==> before[key].chunks[i].0 in Retained(before, pending);
        }
      }
    }
  }

  /** Nothing is added or changed, and what is needed stays. */
  predicate Kept<T(==)>(before: map<Sha256, T>, after: map<Sha256, T>, needed: set<Sha256>) {
    && (forall d :: d in after ==> d in before && after[d] == before[d])
    && (forall d :: d in before && d in needed ==> d in after)
  }

  predicate Grown(before: map<Sha256, Bytes>, after: map<Sha256, Bytes>) {
    forall d :: d in before ==> d in after && after[d] == before[d]
  }
}
