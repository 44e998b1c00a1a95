/** Result types shared by the whole model, and the stand-in for SHA-256. */
module Common {

  datatype Option<+T> = None | Some(value: T)

  /** An exception raised by the source is Err; the message is not modelled. */
  datatype Result<+T> = Ok(value: T) | Err

  newtype byte = b: int | 0 <= b < 256

  type Bytes = seq<byte>

  /** A collision-free digest: two digests are equal exactly when the hashed bytes are. */
  datatype Sha256 = Sha256(content: Bytes)

  /** The file a stream of blocks spells out. */
  function Joined(blocks: seq<Bytes>): Bytes {
    if blocks == [] then [] else Joined(blocks[..|blocks| - 1]) + blocks[|blocks| - 1]
  }

  function Min(a: int, b: int): int {
    if a <= b then a else b
  }

  function Max(a: int, b: int): int {
    if a <= b then b else a
  }

  lemma SubsetCount<T>(a: set<T>, b: set<T>)
    requires a <= b
    ensures |a| <= |b|
    ensures |a| == |b| ==> a == b
  {
    assert b == a + (b - a);
  }
}
