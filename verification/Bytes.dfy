/** Octets, exclusive or, and the few sequence helpers the layers share. */
module Bytes {

  type byte = x: int | 0 <= x < 256

  /** Exclusive or of two naturals, bit by bit from the least significant end. */
  function XorNat(a: nat, b: nat): nat {
    if a == 0 && b == 0 then 0 else (a + b) % 2 + 2 * XorNat(a / 2, b / 2)
  }

  function Pow2(k: nat): (p: nat)
    ensures p > 0
  {
    if k == 0 then 1 else 2 * Pow2(k - 1)
  }

  lemma XorStaysInWidth(a: nat, b: nat, k: nat)
    requires a < Pow2(k) && b < Pow2(k)
    ensures XorNat(a, b) < Pow2(k)
  {
    if k > 0 && (a != 0 || b != 0) {
      XorStaysInWidth(a / 2, b / 2, k - 1);
    }
  }

  function Xor(a: byte, b: byte): byte {
    assert Pow2(4) == 16 && Pow2(8) == 256;
    XorStaysInWidth(a, b, 8);
    XorNat(a, b)
  }

  lemma LowBitAndRest(bit: nat, x: nat)
    requires bit < 2
    ensures (bit + 2 * x) % 2 == bit && (bit + 2 * x) / 2 == x
  {}

  lemma XorUnfold(a: nat, b: nat)
    ensures XorNat(a, b) % 2 == (a + b) % 2 && XorNat(a, b) / 2 == XorNat(a / 2, b / 2)
  {
    LowBitAndRest((a + b) % 2, XorNat(a / 2, b / 2));
  }

  lemma ParityAssociative(a: nat, b: nat, c: nat, p: nat, q: nat)
    requires p % 2 == (a + b) % 2 && q % 2 == (b + c) % 2
    ensures (a + q) % 2 == (p + c) % 2
  {}

  lemma EqualByHalves(l: nat, r: nat)
    requires l % 2 == r % 2 && l / 2 == r / 2
    ensures l == r
  {}

  lemma {:induction false} XorAssociative(a: nat, b: nat, c: nat)
    ensures XorNat(a, XorNat(b, c)) == XorNat(XorNat(a, b), c)
  {
    if a != 0 || b != 0 || c != 0 {
      var p, q := XorNat(a, b), XorNat(b, c);
      XorUnfold(a, b); XorUnfold(b, c); XorUnfold(a, q); XorUnfold(p, c);
      ParityAssociative(a, b, c, p, q);
      XorAssociative(a / 2, b / 2, c / 2);
      EqualByHalves(XorNat(a, q), XorNat(p, c));
    }
  }

  lemma XorSelf(a: nat)
    ensures XorNat(a, a) == 0
  {}

  lemma XorZero(a: nat)
    ensures XorNat(a, 0) == a == XorNat(0, a)
  {}

  /** Exclusive or with a fixed octet loses nothing. */
  lemma XorCancel(a: byte, b: byte, c: byte)
    ensures Xor(a, c) == Xor(b, c) <==> a == b
  {
    XorAssociative(a, c, c); XorAssociative(b, c, c);
    XorSelf(c); XorZero(a); XorZero(b);
  }

  lemma XorCancelLeft(a: byte, b: byte, c: byte)
    ensures Xor(c, a) == Xor(c, b) <==> a == b
  {
    XorAssociative(c, c, a); XorAssociative(c, c, b);
    XorSelf(c); XorZero(a); XorZero(b);
  }

  /** Two octets, most significant first. */
  function U16(hi: nat, lo: nat): nat {
    hi * 256 + lo
  }

  function Zeros(n: nat): (z: seq<byte>)
    ensures |z| == n && forall i :: 0 <= i < n ==> z[i] == 0
  {
    seq(n, i => 0)
  }

  /** n octets from offset `off`; octets past the end of the buffer read as 0. */
  function Window(s: seq<byte>, off: nat, n: nat): (w: seq<byte>)
    ensures |w| == n
    ensures forall i :: 0 <= i < n ==> w[i] == if off + i < |s| then s[off + i] else 0
    ensures off + n <= |s| ==> w == s[off..off + n]
  {
    seq(n, i requires 0 <= i < n => if off + i < |s| then s[off + i] else 0)
  }

  /** `s` with `w` copied over it at offset `off`; octets past the end are dropped. */
  function Overwrite(s: seq<byte>, off: nat, w: seq<byte>): (r: seq<byte>)
    ensures |r| == |s|
    ensures forall i :: 0 <= i < |s| ==> r[i] == if off <= i < off + |w| then w[i - off] else s[i]
  {
    seq(|s|, i requires 0 <= i < |s| => if off <= i < off + |w| then w[i - off] else s[i])
  }

  /** k pieces of n octets. Defined by repeated addition so that proofs about
      segments stay within linear arithmetic. */
  function Times(k: nat, n: nat): (p: nat)
    ensures k > 0 ==> p >= n
  {
    if k == 0 then 0 else Times(k - 1, n) + n
  }

  lemma TimesIsProduct(k: nat, n: nat)
    ensures Times(k, n) == k * n
  {}

  /** Number of n-octet pieces that cover `len` octets. */
  function Pieces(len: nat, n: nat): (k: nat)
    requires n > 0
    ensures k == 0 <==> len == 0
  {
    if len == 0 then 0 else 1 + Pieces(if len <= n then 0 else len - n, n)
  }

  lemma TimesMonotone(j: nat, k: nat, n: nat)
    requires j <= k
    ensures Times(j, n) <= Times(k, n)
  {}

  lemma {:induction false} TimesFront(k: nat, n: nat)
    requires k > 0
    ensures Times(k, n) == n + Times(k - 1, n)
  {
    if k > 1 { TimesFront(k - 1, n); }
  }

  /** Pieces rounds up: it covers, and one piece less does not. */
  lemma {:induction false} PiecesCover(len: nat, n: nat)
    requires n > 0
    ensures len <= Times(Pieces(len, n), n) < len + n
  {
    if len > n {
      PiecesCover(len - n, n);
      TimesFront(Pieces(len, n), n);
    } else if len > 0 {
      assert Pieces(len, n) == 1 && Times(0, n) == 0;
    }
  }

  lemma NextMultiple(n: nat, a: nat, b: nat)
    ensures a < b ==> n * a + n <= n * b
  {
    if a < b { assert n * (a + 1) <= n * b; }
  }

  lemma QuotientUnique(x: nat, n: nat, q: nat)
    requires n > 0 && q * n <= x < q * n + n
    ensures x / n == q
  {
    var d := x / n;
    assert x == n * d + x % n;
    NextMultiple(n, d, q);
    NextMultiple(n, q, d);
  }

  lemma PiecesIsCeiling(len: nat, n: nat)
    requires n > 0
    ensures Pieces(len, n) == (len + n - 1) / n
  {
    PiecesCover(len, n);
    TimesIsProduct(Pieces(len, n), n);
    QuotientUnique(len + n - 1, n, Pieces(len, n));
  }
}
