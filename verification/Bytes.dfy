/** Little-endian integers of a fixed width. */
module Bytes {
  import opened Arith

  function Pow256(n: nat): (p: nat)
    ensures 0 < p
  {
    if n == 0 then 1 else 256 * Pow256(n - 1)
  }

  function LeBytes(n: nat, x: nat): (s: seq<u8>)
    ensures |s| == n
    decreases n, x
  {
    if n == 0 then [] else [x % 256] + LeBytes(n - 1, x / 256)
  }

  function LeNat(s: seq<u8>): (x: nat)
    ensures x < Pow256(|s|)
  {
    if s == [] then 0 else s[0] + 256 * LeNat(s[1..])
  }

  /** Whatever fits the width is read back. */
  lemma {:induction false} LeRoundTrip(n: nat, x: nat)
    requires x < Pow256(n)
    ensures LeNat(LeBytes(n, x)) == x
  {
    if n != 0 {
      LeRoundTrip(n - 1, x / 256);
      assert LeBytes(n, x)[1..] == LeBytes(n - 1, x / 256);
    }
  }

  /** And every string of bytes is the number it reads as. */
  lemma {:induction false} LeRoundTripBack(s: seq<u8>)
    ensures LeBytes(|s|, LeNat(s)) == s
  {
    if s != [] {
      LeRoundTripBack(s[1..]);
      assert LeNat(s) % 256 == s[0] && LeNat(s) / 256 == LeNat(s[1..]);
      assert s == [s[0]] + s[1..];
    }
  }

  lemma Widths()
    ensures Pow256(2) == 0x1_0000
    ensures Pow256(8) == 0x1_0000_0000_0000_0000
    ensures Pow256(32) == 0x1_00000000_00000000_00000000_00000000_00000000_00000000_00000000_00000000
  {
    assert Pow256(2) == 0x1_0000;
    assert Pow256(8) == 0x1_0000_0000_0000_0000;
    PowAdds(8, 8);
    PowAdds(16, 16);
  }

  lemma PowAdds(a: nat, b: nat)
    ensures Pow256(a + b) == Pow256(a) * Pow256(b)
  {
    if a != 0 {
      PowAdds(a - 1, b);
      assert Pow256(a + b) == 256 * Pow256(a - 1 + b);
      assert 256 * (Pow256(a - 1) * Pow256(b)) == (256 * Pow256(a - 1)) * Pow256(b);
    }
  }

  /** One byte. */
  function Byte(x: u8): (s: seq<u8>)
    ensures |s| == 1 && s[0] == x
  {
    [x]
  }

  function Zeros(n: nat): (s: seq<u8>)
    ensures |s| == n && forall i :: 0 <= i < n ==> s[i] == 0
  {
    seq(n, _ => 0)
  }

  function Le16(x: u16): (s: seq<u8>)
    ensures |s| == 2
  {
    LeBytes(2, x)
  }

  function Le64(x: u64): (s: seq<u8>)
    ensures |s| == 8 && LeNat(s) == x
  {
    Widths();
    LeRoundTrip(8, x);
    LeBytes(8, x)
  }

  /** Where the parts of a concatenation are found again. */
  lemma Parts<T>(a: seq<T>, b: seq<T>, c: seq<T>, d: seq<T>, e: seq<T>)
    ensures var s := a + b + c + d + e;
            var i, j, k := |a|, |a| + |b|, |a| + |b| + |c|;
            && s[..i] == a
            && s[i..j] == b
            && s[j..k] == c
            && s[k..k + |d|] == d
            && s[k + |d|..] == e
  {
  }
}
