/** Values shared by the models of the browser and of the server. */
module Common {
  datatype Option<+T> = None | Some(value: T)

  newtype byte = x: int | 0 <= x < 256

  /** The bytes of one MediaRecorder slice. */
  type Bytes = seq<byte>

  /** SHA-256, taken to be injective: two contents have one digest only when they are equal. */
  datatype Digest = Sha256(content: Bytes)

  /** What the server keeps on disk for a take: slices by sequence number. */
  type SliceStore = map<nat, Bytes>

  /** The first four bytes of every WebM stream. */
  const EBML_MAGIC: Bytes := [0x1a, 0x45, 0xdf, 0xa3]

  predicate HasEbmlMagic(data: Bytes) {
    EBML_MAGIC <= data
  }

  /** The integers 0, 1, ..., n - 1. */
  function Below(n: int): (r: set<nat>)
    ensures forall k: nat :: k in r <==> k < n
    decreases n
  {
    if n <= 0 then {} else Below(n - 1) + {n - 1 as nat}
  }

  lemma {:induction false} BelowSize(n: nat)
    ensures |Below(n)| == n
  {
    if n == 0 {
      assert Below(n) == {};
    } else {
      BelowSize(n - 1);
      assert Below(n) == Below(n - 1) + {n - 1};
    }
  }

  lemma SubsetOfSameSize<T>(a: set<T>, b: set<T>)
    requires a <= b && |a| == |b|
    ensures a == b
  {
    assert |b - a| == |b| - |a|;
    assert b == a + (b - a);
  }

  lemma SubsetSize<T>(a: set<T>, b: set<T>)
    requires a <= b
    ensures |a| <= |b|
  {
    assert b == a + (b - a);
  }
}
