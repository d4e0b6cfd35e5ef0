/** Byte strings, big-endian integers and the slicing the wire format is built from. */
module Bytes {

  newtype byte = x: int | 0 <= x < 256

  type bytes = seq<byte>

  /** A value, or the fact that the Python code raised an exception. */
  datatype Option<+T> = None | Some(value: T) {
    predicate IsFailure() {
      None?
    }

    function PropagateFailure<U>(): Option<U>
      requires None?
    {
      None
    }

    function Extract(): T
      requires Some?
    {
      value
    }
  }

  function Min(a: int, b: int): int {
    if a < b then a else b
  }

  /** s[lo:hi] for non-negative bounds, which Python clamps to the length of s. */
  function Slice(s: bytes, lo: nat, hi: nat): bytes
    requires lo <= hi
  {
    s[Min(lo, |s|)..Min(hi, |s|)]
  }

  /** What BytesIO.read(n) returns when `s` is what is left in the buffer. */
  function Head(s: bytes, n: nat): bytes {
    s[..Min(n, |s|)]
  }

  /** What BytesIO.read(n) leaves behind. */
  function Tail(s: bytes, n: nat): bytes {
    s[Min(n, |s|)..]
  }

  lemma ReadBack(p: bytes, rest: bytes)
    ensures Head(p + rest, |p|) == p && Tail(p + rest, |p|) == rest
  {}

  // ---- big-endian unsigned integers ----

  function Pow256(w: nat): nat
    ensures Pow256(w) >= 1
  {
    if w == 0 then 1 else 256 * Pow256(w - 1)
  }

  lemma WidthBounds()
    ensures Pow256(1) == 0x100
    ensures Pow256(2) == 0x1_0000
    ensures Pow256(4) == 0x1_0000_0000
    ensures Pow256(8) == 0x1_0000_0000_0000_0000
  {
    assert Pow256(2) == 256 * Pow256(1);
    assert Pow256(3) == 256 * Pow256(2);
    assert Pow256(4) == 256 * Pow256(3);
    assert Pow256(5) == 256 * Pow256(4);
    assert Pow256(6) == 256 * Pow256(5);
    assert Pow256(7) == 256 * Pow256(6);
    assert Pow256(8) == 256 * Pow256(7);
  }

  /** The low `w` bytes of n, most significant first. */
  function BigEndian(n: nat, w: nat): (r: bytes)
    ensures |r| == w
    decreases w, n
  {
    if w == 0 then [] else BigEndian(n / 256, w - 1) + [(n % 256) as byte]
  }

  /** int.from_bytes(bs, 'big', signed=False); the empty string reads as 0. */
  function FromBigEndian(bs: bytes): nat {
    if bs == [] then 0 else 256 * FromBigEndian(bs[..|bs| - 1]) + bs[|bs| - 1] as nat
  }

  /** n.to_bytes(w, 'big', signed=False), which raises OverflowError out of range. */
  function ToBytes(n: int, w: nat): Option<bytes> {
    if 0 <= n < Pow256(w) then Some(BigEndian(n, w)) else None
  }

  lemma {:induction false} BigEndianRoundTrip(n: nat, w: nat)
    requires n < Pow256(w)
    ensures FromBigEndian(BigEndian(n, w)) == n
  {
    if w == 0 {
    } else {
      BigEndianRoundTrip(n / 256, w - 1);
      assert BigEndian(n, w)[..w - 1] == BigEndian(n / 256, w - 1);
    }
  }

  lemma {:induction false} FromBigEndianBound(bs: bytes)
    ensures FromBigEndian(bs) < Pow256(|bs|)
  {
    if bs == [] {
    } else {
      FromBigEndianBound(bs[..|bs| - 1]);
    }
  }

  // ---- concatenation ----

  function Concat(xs: seq<bytes>): bytes {
    if xs == [] then [] else xs[0] + Concat(xs[1..])
  }

  lemma {:induction false} ConcatAppend(xs: seq<bytes>, ys: seq<bytes>)
    ensures Concat(xs + ys) == Concat(xs) + Concat(ys)
  {
    hide Concat;
    ConcatHead(xs);
    if xs == [] {
      assert xs + ys == ys;
    } else {
      var rest := xs[1..];
      ConcatAppend(rest, ys);
      ConcatHead(xs + ys);
      assert (xs + ys)[0] == xs[0] && (xs + ys)[1..] == rest + ys;
      assert xs[0] + (Concat(rest) + Concat(ys)) == xs[0] + Concat(rest) + Concat(ys);
    }
  }

  lemma ConcatHead(xs: seq<bytes>)
    ensures Concat(xs) == if xs == [] then [] else xs[0] + Concat(xs[1..])
  {}

  lemma ConcatSnoc(xs: seq<bytes>, x: bytes)
    ensures Concat(xs + [x]) == Concat(xs) + x
  {
    ConcatAppend(xs, [x]);
    assert Concat([x]) == x;
  }
}
