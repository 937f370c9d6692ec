/**
 * The Indexed Service Data Unit of the data link layer: how a request is laid
 * out, how its length and checksum octets are read back, and the in-place
 * builder that fills the 241-octet buffer of the ISDU handler.
 */
module IsduCodec {
  import opened Bytes

  const ISDU_MAX_SIZE: nat := 241
  const OD_MAX_SIZE: nat := 32

  // I-Service codes of a device's answer.
  const DEVICE_NO_SERVICE: nat := 0
  const WRITE_RESPONSE_NEG: nat := 4
  const WRITE_RESPONSE_POS: nat := 5
  const READ_RESPONSE_NEG: nat := 12
  const READ_RESPONSE_POS: nat := 13

  datatype Option<+T> = None | Some(value: T)

  datatype RawRequest = Request(read: bool, index: nat, subindex: byte, data: seq<byte>) {

    /** Bits 0..2 of the I-Service choose the addressing form, bit 3 the direction. */
    function IService(): nat {
      (if read then 8 else 0) + |Address()|
    }

    function Address(): (a: seq<byte>)
      ensures 1 <= |a| <= 3
    {
      if index > 255 then [(index / 256) % 256, index % 256, subindex]
      else if subindex == 0 then [index]
      else [index, subindex]
    }

    /** I-Service and CHKPDU around the address, without an extended length. */
    function Overhead(): nat {
      2 + |Address()|
    }

    predicate Short() {
      |data| <= 15 - Overhead()
    }

    function TotalLen(): nat {
      |data| + Overhead() + (if Short() then 0 else 1)
    }

    /** A 16-bit index, and a block that fits the buffer it is built in. */
    predicate Fits() {
      index < 65536 && TotalLen() <= ISDU_MAX_SIZE
    }
  }

  type Request = q: RawRequest | q.Fits() witness Request(true, 2, 0, [])

  function Header(q: Request): seq<byte> {
    if q.Short() then [q.IService() * 16 + q.TotalLen()]
    else [q.IService() * 16 + 1, q.TotalLen()]
  }

  function Unchecked(q: Request): (u: seq<byte>)
    ensures |u| == q.TotalLen() - 1
  {
    Header(q) + q.Address() + q.data
  }

  function XorFold(s: seq<byte>): byte {
    if |s| == 0 then 0 else Xor(XorFold(s[..|s| - 1]), s[|s| - 1])
  }

  /** The whole block, CHKPDU last. */
  function Encode(q: Request): (d: seq<byte>)
    ensures |d| == q.TotalLen()
  {
    Unchecked(q) + [XorFold(Unchecked(q))]
  }

  // ---------- reading a block back ----------

  function IServiceOf(d: seq<byte>): (r: nat)
    requires |d| >= 2
  {
    d[0] / 16
  }

  function LenNibble(d: seq<byte>): nat
    requires |d| >= 2
  {
    d[0] % 16
  }

  predicate Extended(d: seq<byte>)
    requires |d| >= 2
  {
    LenNibble(d) == 1
  }

  /** None is the failure return: no length below 2 and no length 16. */
  function TotalLenOf(d: seq<byte>): Option<nat>
    requires |d| >= 2
  {
    var len := if Extended(d) then d[1] else LenNibble(d);
    if len < 2 || len == 16 then None else Some(len)
  }

  function HeaderLen(d: seq<byte>): nat
    requires |d| >= 2
  {
    if Extended(d) then 2 else 1
  }

  predicate ValidHeader(d: seq<byte>, read: bool)
    requires |d| >= 2
  {
    var iserv := IServiceOf(d);
    if iserv == DEVICE_NO_SERVICE then LenNibble(d) <= 1
    else
      && (iserv == WRITE_RESPONSE_NEG || iserv == WRITE_RESPONSE_POS
          || iserv == READ_RESPONSE_NEG || iserv == READ_RESPONSE_POS)
      && LenNibble(d) != 0
      && (read ==> iserv != WRITE_RESPONSE_NEG && iserv != WRITE_RESPONSE_POS)
      && (!read ==> iserv != READ_RESPONSE_NEG && iserv != READ_RESPONSE_POS)
  }

  /** What a device reads out of a request block, following the length rules. */
  function Decode(d: seq<byte>): Option<RawRequest> {
    if |d| < 2 || TotalLenOf(d) != Some(|d|) || XorFold(d) != 0 then None
    else
      var off := HeaderLen(d);
      var form := IServiceOf(d) % 8;
      if form !in {1, 2, 3} || |d| < off + form + 1 then None
      else
        var index := if form == 3 then U16(d[off], d[off + 1]) else d[off];
        var sub := if form == 3 then d[off + 2] else if form == 2 then d[off + 1] else 0;
        Some(Request(IServiceOf(d) >= 8, index, sub, d[off + form..|d| - 1]))
  }

  // ---------- what the codec promises ----------

  lemma FoldSnoc(s: seq<byte>, c: byte)
    ensures XorFold(s + [c]) == Xor(XorFold(s), c)
  {
    assert (s + [c])[..|s|] == s;
  }

  lemma EncodeFoldsToZero(q: Request)
    ensures XorFold(Encode(q)) == 0
  {
    FoldSnoc(Unchecked(q), XorFold(Unchecked(q)));
    XorSelf(XorFold(Unchecked(q)));
  }

  /** The header is canonical: nibble 3..15, or nibble 1 with an extended length
      of at least 17; and reading the length back gives the block's own length. */
  lemma EncodeHeaderCanonical(q: Request)
    ensures |Encode(q)| >= 3
    ensures IServiceOf(Encode(q)) == q.IService()
    ensures if Extended(Encode(q)) then Encode(q)[1] >= 17 else 3 <= LenNibble(Encode(q)) <= 15
    ensures Extended(Encode(q)) <==> !q.Short()
    ensures TotalLenOf(Encode(q)) == Some(|Encode(q)|)
  {
    assert Encode(q)[0] == Header(q)[0];
    assert !q.Short() ==> Encode(q)[1] == Header(q)[1];
  }

  lemma EncodeAddressBytes(q: Request)
    ensures Encode(q)[|Header(q)|..|Header(q)| + |q.Address()|] == q.Address()
    ensures Encode(q)[|Header(q)| + |q.Address()|..|Encode(q)| - 1] == q.data
  {
    var h, a, rest := Header(q), q.Address(), q.data + [XorFold(Unchecked(q))];
    assert Encode(q) == h + a + rest;
    assert (h + a + rest)[|h|..|h| + |a|] == a;
    assert (h + a + rest)[|h| + |a|..] == rest;
  }

  /** Decoding a built request gives back direction, index, subindex and data. */
  lemma DecodeEncode(q: Request)
    ensures Decode(Encode(q)) == Some(q)
  {
    var d := Encode(q);
    EncodeFoldsToZero(q);
    EncodeHeaderCanonical(q);
    EncodeAddressBytes(q);
    var off, a := |Header(q)|, q.Address();
    assert HeaderLen(d) == off;
    assert d[off..off + |a|][0] == d[off];
    assert |a| >= 2 ==> d[off..off + |a|][1] == d[off + 1];
    assert |a| == 3 ==> d[off..off + |a|][2] == d[off + 2];
    AddressRecovers(q);
  }

  lemma AddressRecovers(q: Request)
    ensures q.IService() % 8 == |q.Address()| && (q.IService() >= 8 <==> q.read)
    ensures |q.Address()| == 3 ==> U16(q.Address()[0], q.Address()[1]) == q.index
  {
  }

  lemma EncodeInjective(p: Request, q: Request)
    requires Encode(p) == Encode(q)
    ensures p == q
  {
    DecodeEncode(p);
    DecodeEncode(q);
  }

  /** No block that is read back as the same request is shorter: the shortest form of
      address, and an extended length only where the nibble does not do. */
  lemma EncodeShortest(q: Request, d: seq<byte>)
    requires Decode(d) == Some(q)
    ensures |Encode(q)| <= |d|
  {
    var form := IServiceOf(d) % 8;
    assert |q.Address()| <= form;
    assert |d| == HeaderLen(d) + form + |q.data| + 1;
    if HeaderLen(d) == 1 {
      assert q.Short();
    }
  }

  /** Changing one octet always changes the fold. */
  lemma {:induction false} FoldSeesOneOctet(d: seq<byte>, i: nat, b: byte)
    requires i < |d|
    ensures XorFold(d[i := b]) == XorFold(d) <==> b == d[i]
  {
    var n := |d| - 1;
    if i == n {
      assert d[i := b][..n] == d[..n];
      XorCancelLeft(b, d[i], XorFold(d[..n]));
    } else {
      assert d[i := b][..n] == d[..n][i := b];
      FoldSeesOneOctet(d[..n], i, b);
      XorCancel(XorFold(d[..n][i := b]), XorFold(d[..n]), d[n]);
    }
  }

  // ---------- the builder as the handler runs it ----------

  lemma {:induction false} FoldOfZeros(s: seq<byte>, n: nat)
    ensures XorFold(s + Zeros(n)) == XorFold(s)
  {
    if n == 0 {
      assert s + Zeros(0) == s;
    } else {
      var t := s + Zeros(n);
      assert t[..|t| - 1] == s + Zeros(n - 1);
      FoldOfZeros(s, n - 1);
      XorZero(XorFold(s));
    }
  }

  /** Fold of the first `length` octets, as the checksum loop computes it. */
  method CalcChkpdu(data: array<byte>, length: nat) returns (chksum: byte)
    requires length <= data.Length
    ensures chksum == XorFold(data[..length])
  {
    chksum := 0;
    if length > 0 {
      chksum := data[0];
      var idx := 1;
      XorZero(data[0]);
      assert data[..1] == [] + [data[0]];
      FoldSnoc([], data[0]);
      while idx < length
        invariant 1 <= idx <= length
        invariant chksum == XorFold(data[..idx])
      {
        assert data[..idx + 1] == data[..idx] + [data[idx]];
        FoldSnoc(data[..idx], data[idx]);
        chksum := Xor(chksum, data[idx]);
        idx := idx + 1;
      }
    }
  }

  /** Header and address fields; returns the offset behind them. */
  method BuildHead(buf: array<byte>, q: Request) returns (off: nat, overhead: nat)
    requires buf.Length == ISDU_MAX_SIZE
    modifies buf
    ensures off == |Header(q)| + |q.Address()|
    ensures |q.data| + overhead == q.TotalLen()
    ensures buf[..off] == Header(q) + q.Address()
  {
    var iserv := if q.read then 8 else 0;
    if q.index < 256 {
      if q.subindex == 0 {
        iserv, overhead := iserv + 1, 3;
      } else {
        iserv, overhead := iserv + 2, 4;
      }
    } else {
      iserv, overhead := iserv + 3, 5;
    }
    var length;
    if |q.data| <= 15 - overhead {
      length := |q.data| + overhead;
      off := 1;
    } else {
      length := 1;
      overhead := overhead + 1;
      buf[1] := |q.data| + overhead;
      off := 2;
    }
    buf[0] := iserv * 16 + length;
    assert buf[..off] == Header(q);
    if q.index > 255 {
      buf[off] := (q.index / 256) % 256;
      buf[off + 1] := q.index % 256;
      buf[off + 2] := q.subindex;
      assert buf[..off + 3] == buf[..off] + q.Address();
      off := off + 3;
    } else {
      buf[off] := q.index;
      off := off + 1;
      if q.subindex > 0 {
        buf[off] := q.subindex;
        off := off + 1;
      }
      assert buf[..off] == buf[..|Header(q)|] + q.Address();
    }
  }

  /** Fills the handler's buffer with the request block followed by zeros. */
  method BuildRequest(buf: array<byte>, q: Request) returns (totalLen: nat)
    requires buf.Length == ISDU_MAX_SIZE
    modifies buf
    ensures totalLen == |Encode(q)|
    ensures buf[..] == Encode(q) + Zeros(ISDU_MAX_SIZE - totalLen)
  {
    forall i | 0 <= i < OD_MAX_SIZE { buf[i] := 0; }
    var off, overhead := BuildHead(buf, q);
    var head := buf[..off];
    forall i | 0 <= i < |q.data| { buf[off + i] := q.data[i]; }
    assert buf[..off + |q.data|] == head + q.data;
    off := off + |q.data|;
    var chk := CalcChkpdu(buf, off);
    buf[off] := chk;
    assert buf[..off + 1] == Encode(q);
    forall i | off + 1 <= i < ISDU_MAX_SIZE { buf[i] := 0; }
    assert buf[..off + 1] == Encode(q);
    totalLen := |q.data| + overhead;
  }
}
