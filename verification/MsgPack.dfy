/** The MessagePack format the frames use ("Formats" in the MessagePack specification). */
module MsgPack {
  import opened Basics

  /** `Map` lists keys and values alternately; `Ext` starts with its type byte. */
  datatype Value =
    | Nil
    | Bool(b: bool)
    | Int(i: int)
    | Float(bits: Bytes)
    | Str(text: Bytes)
    | Bin(data: Bytes)
    | Ext(payload: Bytes)
    | Arr(items: seq<Value>)
    | Map(entries: seq<Value>)

  datatype Outcome<+T> = Done(value: T, len: nat) | Incomplete | Invalid

  // ---------- Big-endian numbers ----------

  function Pow256(k: nat): (r: nat)
    ensures r >= 1
  {
    if k == 0 then 1 else 256 * Pow256(k - 1)
  }

  function FromBE(bs: Bytes): nat {
    if bs == [] then 0 else 256 * FromBE(bs[..|bs| - 1]) + bs[|bs| - 1]
  }

  function ToBE(n: nat, k: nat): (bs: Bytes)
    ensures |bs| == k
  {
    if k == 0 then [] else ToBE(n / 256, k - 1) + [n % 256]
  }

  lemma {:induction false} BERoundTrip(n: nat, k: nat)
    requires n < Pow256(k)
    ensures FromBE(ToBE(n, k)) == n
  {
    if k > 0 {
      BERoundTrip(n / 256, k - 1);
      assert ToBE(n, k)[..k - 1] == ToBE(n / 256, k - 1);
    }
  }

  /** The first byte counts most. */
  lemma {:induction false} BigEndian(a: Byte, bs: Bytes)
    ensures FromBE([a] + bs) == a * Pow256(|bs|) + FromBE(bs)
    decreases |bs|
  {
    if bs == [] {
      assert [a] + bs == [a] && [a][..0] == [];
    } else {
      var n := |bs| - 1;
      BigEndian(a, bs[..n]);
      assert ([a] + bs)[..n + 1] == [a] + bs[..n] && ([a] + bs)[n + 1] == bs[n];
      assert 256 * (a * Pow256(n)) == a * Pow256(n + 1);
    }
  }

  // ---------- Decoding ----------

  datatype RawKind = FloatRaw | StrRaw | BinRaw | ExtRaw

  /** What follows a header: nothing, `n` payload bytes, or `n` values. */
  datatype Body = Scalar(v: Value) | Raw(kind: RawKind, n: nat) | Items(isMap: bool, n: nat)

  datatype SizedKind = UIntSize | IntSize | StrSize | BinSize | ExtSize | ArrSize | MapSize

  /** What a marker byte says: a complete header, or a number of `k` bytes to read first. */
  datatype Lead = Whole(body: Body) | Sized(k: nat, what: SizedKind) | Reserved

  function LeadOf(m: Byte): Lead {
    if m < 0x80 then Whole(Scalar(Int(m)))
    else if m < 0x90 then Whole(Items(true, 2 * (m - 0x80)))
    else if m < 0xa0 then Whole(Items(false, m - 0x90))
    else if m < 0xc0 then Whole(Raw(StrRaw, m - 0xa0))
    else if m >= 0xe0 then Whole(Scalar(Int(m - 256)))
    else Lead0xC0(m)
  }

  function Lead0xC0(m: Byte): Lead
    requires 0xc0 <= m < 0xe0
  {
    match m
    case 0xc0 => Whole(Scalar(Nil))
    case 0xc1 => Reserved
    case 0xc2 => Whole(Scalar(Bool(false)))
    case 0xc3 => Whole(Scalar(Bool(true)))
    case 0xc4 => Sized(1, BinSize)
    case 0xc5 => Sized(2, BinSize)
    case 0xc6 => Sized(4, BinSize)
    case 0xc7 => Sized(1, ExtSize)
    case 0xc8 => Sized(2, ExtSize)
    case 0xc9 => Sized(4, ExtSize)
    case 0xca => Whole(Raw(FloatRaw, 4))
    case 0xcb => Whole(Raw(FloatRaw, 8))
    case 0xcc => Sized(1, UIntSize)
    case 0xcd => Sized(2, UIntSize)
    case 0xce => Sized(4, UIntSize)
    case 0xcf => Sized(8, UIntSize)
    case 0xd0 => Sized(1, IntSize)
    case 0xd1 => Sized(2, IntSize)
    case 0xd2 => Sized(4, IntSize)
    case 0xd3 => Sized(8, IntSize)
    case 0xd4 => Whole(Raw(ExtRaw, 2))
    case 0xd5 => Whole(Raw(ExtRaw, 3))
    case 0xd6 => Whole(Raw(ExtRaw, 5))
    case 0xd7 => Whole(Raw(ExtRaw, 9))
    case 0xd8 => Whole(Raw(ExtRaw, 17))
    case 0xd9 => Sized(1, StrSize)
    case 0xda => Sized(2, StrSize)
    case 0xdb => Sized(4, StrSize)
    case 0xdc => Sized(2, ArrSize)
    case 0xdd => Sized(4, ArrSize)
    case 0xde => Sized(2, MapSize)
    case _ => Sized(4, MapSize)
  }

  /** The header whose `k`-byte number is `n`. */
  function SizedBody(what: SizedKind, k: nat, n: nat): Body {
    match what
    case UIntSize => Scalar(Int(n))
    case IntSize => Scalar(Int(if 2 * n < Pow256(k) then n else n - Pow256(k)))
    case StrSize => Raw(StrRaw, n)
    case BinSize => Raw(BinRaw, n)
    case ExtSize => Raw(ExtRaw, n + 1)
    case ArrSize => Items(false, n)
    case MapSize => Items(true, 2 * n)
  }

  function DecodeHead(b: Bytes): (r: Outcome<Body>)
    ensures r.Done? ==> 1 <= r.len <= |b|
  {
    if b == [] then Incomplete
    else match LeadOf(b[0])
      case Whole(body) => Done(body, 1)
      case Reserved => Invalid
      case Sized(k, what) => if |b| < 1 + k then Incomplete else Done(SizedBody(what, k, FromBE(b[1..1 + k])), 1 + k)
  }

  function RawValue(kind: RawKind, bytes: Bytes): Value {
    match kind
    case FloatRaw => Float(bytes)
    case StrRaw => Str(bytes)
    case BinRaw => Bin(bytes)
    case ExtRaw => Ext(bytes)
  }

  /** One value from the front of `b`, and how many bytes it took. */
  function Decode(b: Bytes): (r: Outcome<Value>)
    ensures r.Done? ==> 1 <= r.len <= |b|
    decreases |b|, 0
  {
    match DecodeHead(b)
    case Incomplete => Incomplete
    case Invalid => Invalid
    case Done(Scalar(v), h) => Done(v, h)
    case Done(Raw(kind, n), h) => if |b| < h + n then Incomplete else Done(RawValue(kind, b[h..h + n]), h + n)
    case Done(Items(isMap, n), h) =>
      match DecodeSeq(b[h..], n)
      case Incomplete => Incomplete
      case Invalid => Invalid
      case Done(vs, len) => Done(if isMap then Map(vs) else Arr(vs), h + len)
  }

  function DecodeSeq(b: Bytes, n: nat): (r: Outcome<seq<Value>>)
    ensures r.Done? ==> r.len <= |b|
    decreases |b|, n + 1
  {
    if n == 0 then Done([], 0)
    else match Decode(b)
      case Incomplete => Incomplete
      case Invalid => Invalid
      case Done(v, len) =>
        match DecodeSeq(b[len..], n - 1)
        case Incomplete => Incomplete
        case Invalid => Invalid
        case Done(vs, rest) => Done([v] + vs, len + rest)
  }

  /** The marker bytes that stand for a value or a length themselves. */
  lemma WholeMarkers(m: Byte)
    ensures m <= 0x7f ==> LeadOf(m) == Whole(Scalar(Int(m)))
    ensures 0x80 <= m <= 0x8f ==> LeadOf(m) == Whole(Items(true, 2 * (m % 16)))
    ensures 0x90 <= m <= 0x9f ==> LeadOf(m) == Whole(Items(false, m % 16))
    ensures 0xa0 <= m <= 0xbf ==> LeadOf(m) == Whole(Raw(StrRaw, m % 32))
    ensures 0xe0 <= m ==> LeadOf(m) == Whole(Scalar(Int(m - 256)))
  {
  }

  /** The other marker bytes, by the tables of the specification. */
  lemma TableMarkers()
    ensures LeadOf(0xc0) == Whole(Scalar(Nil)) && LeadOf(0xc1) == Reserved
    ensures LeadOf(0xc2) == Whole(Scalar(Bool(false))) && LeadOf(0xc3) == Whole(Scalar(Bool(true)))
    ensures LeadOf(0xc4) == Sized(1, BinSize) && LeadOf(0xc5) == Sized(2, BinSize) && LeadOf(0xc6) == Sized(4, BinSize)
    ensures LeadOf(0xc7) == Sized(1, ExtSize) && LeadOf(0xc8) == Sized(2, ExtSize) && LeadOf(0xc9) == Sized(4, ExtSize)
    ensures LeadOf(0xca) == Whole(Raw(FloatRaw, 4)) && LeadOf(0xcb) == Whole(Raw(FloatRaw, 8))
    ensures LeadOf(0xcc) == Sized(1, UIntSize) && LeadOf(0xcd) == Sized(2, UIntSize)
    ensures LeadOf(0xce) == Sized(4, UIntSize) && LeadOf(0xcf) == Sized(8, UIntSize)
    ensures LeadOf(0xd0) == Sized(1, IntSize) && LeadOf(0xd1) == Sized(2, IntSize)
    ensures LeadOf(0xd2) == Sized(4, IntSize) && LeadOf(0xd3) == Sized(8, IntSize)
    ensures LeadOf(0xd4) == Whole(Raw(ExtRaw, 2)) && LeadOf(0xd5) == Whole(Raw(ExtRaw, 3))
    ensures LeadOf(0xd6) == Whole(Raw(ExtRaw, 5)) && LeadOf(0xd7) == Whole(Raw(ExtRaw, 9))
    ensures LeadOf(0xd8) == Whole(Raw(ExtRaw, 17))
    ensures LeadOf(0xd9) == Sized(1, StrSize) && LeadOf(0xda) == Sized(2, StrSize) && LeadOf(0xdb) == Sized(4, StrSize)
    ensures LeadOf(0xdc) == Sized(2, ArrSize) && LeadOf(0xdd) == Sized(4, ArrSize)
    ensures LeadOf(0xde) == Sized(2, MapSize) && LeadOf(0xdf) == Sized(4, MapSize)
  {
  }

  /** Strings and binaries: the payload is as long as the number says. */
  lemma FormatOfPayloads(b: Bytes, k: nat)
    requires |b| >= 1 + k
    ensures var n := FromBE(b[1..1 + k]);
      |b| >= 1 + k + n ==>
        && ((k == 1 && b[0] == 0xd9) || (k == 2 && b[0] == 0xda) || (k == 4 && b[0] == 0xdb) ==>
              Decode(b) == Done(Str(b[1 + k..1 + k + n]), 1 + k + n))
        && ((k == 1 && b[0] == 0xc4) || (k == 2 && b[0] == 0xc5) || (k == 4 && b[0] == 0xc6) ==>
              Decode(b) == Done(Bin(b[1 + k..1 + k + n]), 1 + k + n))
  {
    hide FromBE;
  }

  /** Extensions: a type byte, then as many bytes as the number says. */
  lemma FormatOfExtensions(b: Bytes, k: nat)
    requires |b| >= 1 + k
    ensures var n := FromBE(b[1..1 + k]);
      |b| >= 2 + k + n ==>
        ((k == 1 && b[0] == 0xc7) || (k == 2 && b[0] == 0xc8) || (k == 4 && b[0] == 0xc9) ==>
           Decode(b) == Done(Ext(b[1 + k..2 + k + n]), 2 + k + n))
  {
    hide FromBE;
  }

  /** Arrays hold as many values as the number says. */
  lemma FormatOfArrays(b: Bytes, k: nat)
    requires |b| >= 1 + k && ((k == 2 && b[0] == 0xdc) || (k == 4 && b[0] == 0xdd)) && Decode(b).Done?
    ensures var n, v := FromBE(b[1..1 + k]), Decode(b).value;
      v.Arr? && DecodeSeq(b[1 + k..], n) == Done(v.items, Decode(b).len - 1 - k) && |v.items| == n
  {
    TableMarkers();
    var n := FromBE(b[1..1 + k]);
    hide FromBE, LeadOf, DecodeSeq;
    assert DecodeHead(b) == Done(Items(false, n), 1 + k);
    SeqLength(b[1 + k..], n);
  }

  /** Maps hold twice as many values, keys and entries in turn. */
  lemma FormatOfMaps(b: Bytes, k: nat)
    requires |b| >= 1 + k && ((k == 2 && b[0] == 0xde) || (k == 4 && b[0] == 0xdf)) && Decode(b).Done?
    ensures var n, v := FromBE(b[1..1 + k]), Decode(b).value;
      v.Map? && DecodeSeq(b[1 + k..], 2 * n) == Done(v.entries, Decode(b).len - 1 - k) && |v.entries| == 2 * n
  {
    TableMarkers();
    var n := FromBE(b[1..1 + k]);
    hide FromBE, LeadOf, DecodeSeq;
    assert DecodeHead(b) == Done(Items(true, 2 * n), 1 + k);
    SeqLength(b[1 + k..], 2 * n);
  }

  lemma {:induction false} SeqLength(b: Bytes, n: nat)
    requires DecodeSeq(b, n).Done?
    ensures |DecodeSeq(b, n).value| == n
    decreases n
  {
    hide Decode;
    if n > 0 { SeqLength(b[Decode(b).len..], n - 1); }
  }

  /** Numbers of two bytes, unsigned and in two's complement. */
  lemma TwoByteNumbers(a: Byte, b: Byte, more: Bytes)
    ensures Decode([0xcd, a, b] + more) == Done(Int(256 * a + b), 3)
    ensures Decode([0xd1, a, b] + more) == Done(Int(if a < 128 then 256 * a + b else 256 * a + b - 65536), 3)
  {
    BigEndian(a, [b]);
    BigEndian(b, []);
    assert [a] + [b] == [a, b] && [b] + [] == [b];
    assert Pow256(1) == 256 && Pow256(2) == 256 * Pow256(1);
    assert FromBE([a, b]) == 256 * a + b;
    assert ([0xcd, a, b] + more)[1..3] == [a, b] && ([0xd1, a, b] + more)[1..3] == [a, b];
    hide FromBE, Pow256;
  }

  /** A finished or failed attempt does not change when more bytes arrive. */
  predicate Stable<T(==)>(before: Outcome<T>, after: Outcome<T>) {
    before.Incomplete? || before == after
  }

  lemma HeadStable(b: Bytes, more: Bytes)
    ensures Stable(DecodeHead(b), DecodeHead(b + more))
  {
    hide LeadOf;
    if b != [] && LeadOf(b[0]).Sized? {
      var k := LeadOf(b[0]).k;
      if |b| >= 1 + k { assert (b + more)[1..1 + k] == b[1..1 + k]; }
    }
  }

  lemma {:induction false} DecodeStable(b: Bytes, more: Bytes)
    ensures Stable(Decode(b), Decode(b + more))
    decreases |b|, 0
  {
    hide DecodeHead;
    HeadStable(b, more);
    match DecodeHead(b)
    case Done(Raw(_, n), h) => if |b| >= h + n { assert (b + more)[h..h + n] == b[h..h + n]; }
    case Done(Items(_, n), h) =>
      DecodeSeqStable(b[h..], n, more);
      assert (b + more)[h..] == b[h..] + more;
    case _ =>
  }

  lemma {:induction false} DecodeSeqStable(b: Bytes, n: nat, more: Bytes)
    ensures Stable(DecodeSeq(b, n), DecodeSeq(b + more, n))
    decreases |b|, n + 1
  {
    if n > 0 {
      DecodeStable(b, more);
      if Decode(b).Done? {
        var len := Decode(b).len;
        assert (b + more)[len..] == b[len..] + more;
        DecodeSeqStable(b[len..], n - 1, more);
      }
    }
  }

  /** Every strict prefix of a frame is incomplete. */
  lemma PrefixIncomplete(b: Bytes, k: nat)
    requires Decode(b).Done? && k < Decode(b).len
    ensures Decode(b[..k]).Incomplete?
  {
    DecodeStable(b[..k], b[k..]);
    assert b[..k] + b[k..] == b;
  }

  /** A value is decoded from exactly the bytes it takes. */
  lemma {:induction false} DecodeExact(b: Bytes)
    requires Decode(b).Done?
    ensures Decode(b[..Decode(b).len]) == Decode(b)
    decreases |b|, 0
  {
    hide LeadOf;
    var cut := b[..Decode(b).len];
    match DecodeHead(b)
    case Done(body, h) =>
      HeadExact(b, |cut|);
      if body.Raw? {
        assert cut[h..h + body.n] == b[h..h + body.n];
      } else if body.Items? {
        DecodeSeqExact(b[h..], body.n);
        assert cut[h..] == b[h..][..DecodeSeq(b[h..], body.n).len];
      }
    case _ =>
  }

  lemma HeadExact(b: Bytes, n: nat)
    requires DecodeHead(b).Done? && DecodeHead(b).len <= n <= |b|
    ensures DecodeHead(b[..n]) == DecodeHead(b)
  {
    hide LeadOf;
    if LeadOf(b[0]).Sized? {
      var k := LeadOf(b[0]).k;
      assert b[..n][1..1 + k] == b[1..1 + k];
    }
  }

  lemma {:induction false} DecodeSeqExact(b: Bytes, n: nat)
    requires DecodeSeq(b, n).Done?
    ensures DecodeSeq(b[..DecodeSeq(b, n).len], n) == DecodeSeq(b, n)
    decreases |b|, n + 1
  {
    hide Decode;
    if n > 0 {
      var first, all := Decode(b).len, DecodeSeq(b, n).len;
      var cut := b[..all];
      DecodeExact(b);
      DecodeStable(b[..first], b[first..all]);
      assert b[..first] + b[first..all] == cut;
      assert Decode(cut) == Decode(b);
      DecodeSeqExact(b[first..], n - 1);
      assert cut[first..] == b[first..][..all - first];
    }
  }
}
