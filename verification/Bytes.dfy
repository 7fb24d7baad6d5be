/** Little-endian byte sequences, as produced by `BitConverter.GetBytes` and read
    back by `BitConverter.ToUInt64` / `ToUInt32` / `BinaryReader`, and the in-place
    `Array.Reverse` that the tracking decoder applies on a little-endian host. */
module Bytes {

  type Byte = b: nat | b < 256

  function Pow256(n: nat): (r: nat)
    ensures r >= 1
  {
    if n == 0 then 1 else 256 * Pow256(n - 1)
  }

  /** The unsigned value of bytes stored least significant first. */
  function FromLe(bs: seq<Byte>): nat
  {
    if bs == [] then 0 else bs[0] + 256 * FromLe(bs[1..])
  }

  /** The `n` low-order bytes of `v`, least significant first. */
  function LeBytes(v: nat, n: nat): (bs: seq<Byte>)
    ensures |bs| == n
  {
    if n == 0 then [] else [v % 256] + LeBytes(v / 256, n - 1)
  }

  function Reversed<T>(s: seq<T>): (r: seq<T>)
    ensures |r| == |s|
  {
    if s == [] then [] else Reversed(s[1..]) + [s[0]]
  }

  /** Reversing the byte image of an `n`-byte value: taking its little-endian
      bytes, reversing them and reading them back, as a little-endian host
      does to bring a big-endian field into host order. */
  function ByteSwap(v: nat, n: nat): nat
  {
    FromLe(Reversed(LeBytes(v, n)))
  }

  lemma {:induction false} FromLeBound(bs: seq<Byte>)
    ensures FromLe(bs) < Pow256(|bs|)
  {
    if bs != [] {
      FromLeBound(bs[1..]);
    }
  }

  lemma {:induction false} FromLeOfLeBytes(v: nat, n: nat)
    requires v < Pow256(n)
    ensures FromLe(LeBytes(v, n)) == v
  {
    if n > 0 {
      FromLeOfLeBytes(v / 256, n - 1);
      assert LeBytes(v, n)[1..] == LeBytes(v / 256, n - 1);
    }
  }

  lemma {:induction false} LeBytesOfFromLe(bs: seq<Byte>)
    ensures LeBytes(FromLe(bs), |bs|) == bs
  {
    if bs != [] {
      var v := FromLe(bs);
      assert v % 256 == bs[0] && v / 256 == FromLe(bs[1..]);
      LeBytesOfFromLe(bs[1..]);
    }
  }

  lemma {:induction false} ReversedAt<T>(s: seq<T>, k: nat)
    requires k < |s|
    ensures Reversed(s)[k] == s[|s| - 1 - k]
  {
    if k < |s| - 1 {
      ReversedAt(s[1..], k);
    }
  }

  lemma ReversedInvolution<T>(s: seq<T>)
    ensures Reversed(Reversed(s)) == s
  {
    forall k | 0 <= k < |s|
      ensures Reversed(Reversed(s))[k] == s[k]
    {
      ReversedAt(Reversed(s), k);
      ReversedAt(s, |s| - 1 - k);
    }
  }

  /** A byte swap stays within `n` bytes. */
  lemma ByteSwapBound(v: nat, n: nat)
    ensures ByteSwap(v, n) < Pow256(n)
  {
    FromLeBound(Reversed(LeBytes(v, n)));
  }

  /** Swapping the bytes of an `n`-byte value twice gives the value back. */
  lemma ByteSwapInvolution(v: nat, n: nat)
    requires v < Pow256(n)
    ensures ByteSwap(ByteSwap(v, n), n) == v
  {
    var bs := LeBytes(v, n);
    LeBytesOfFromLe(Reversed(bs));
    ReversedInvolution(bs);
    FromLeOfLeBytes(v, n);
  }

  /** The first `m` and last `m` bytes of `s` are those of `was` mirrored; the
      bytes between are still where they were. */
  ghost predicate MirroredEnds(s: seq<Byte>, was: seq<Byte>, m: nat)
    requires |s| == |was|
  {
    (forall k :: 0 <= k < |s| && (k < m || |s| - m <= k) ==> s[k] == was[|s| - 1 - k]) &&
    (forall k :: m <= k < |s| - m ==> s[k] == was[k])
  }

  /** `Array.Reverse(bytes)`: swaps the outermost pair of bytes not yet swapped,
      working inwards from both ends until the two positions meet. */
  method ReverseInPlace(a: array<Byte>)
    modifies a
    ensures a[..] == Reversed(old(a[..]))
  {
    ghost var was := a[..];
    var lo, hi := 0, a.Length - 1;
    while lo < hi
      invariant 0 <= lo && hi == a.Length - 1 - lo && lo <= hi + 1
      invariant MirroredEnds(a[..], was, lo)
      decreases hi - lo
    {
      ghost var before := a[..];
      a[lo], a[hi] := a[hi], a[lo];
      assert a[..][lo] == before[hi] && a[..][hi] == before[lo];
      assert forall k :: 0 <= k < a.Length && k != lo && k != hi ==> a[..][k] == before[k];
      lo, hi := lo + 1, hi - 1;
    }
    forall k | 0 <= k < a.Length
      ensures a[..][k] == Reversed(was)[k]
    {
      ReversedAt(was, k);
    }
  }

  /** `BitConverter.GetBytes` of an `n`-byte unsigned value: a fresh array of its
      little-endian bytes. */
  method GetBytes(v: nat, n: nat) returns (a: array<Byte>)
    ensures fresh(a) && a[..] == LeBytes(v, n)
  {
    var bs := LeBytes(v, n);
    a := new Byte[n](i requires 0 <= i < n => bs[i]);
  }
}
