/** The serialiser's side of the format: the smallest encoding of every value. */
module MsgPackEncode {
  import opened Basics
  import opened MsgPack

  const U8 := 0x100
  const U16 := 0x1_0000
  const U32 := 0x1_0000_0000
  const U64 := 0x1_0000_0000_0000_0000

  function Sized8(m: Byte, n: nat): Bytes { [m] + ToBE(n, 1) }
  function Sized16(m: Byte, n: nat): Bytes { [m] + ToBE(n, 2) }
  function Sized32(m: Byte, n: nat): Bytes { [m] + ToBE(n, 4) }
  function Sized64(m: Byte, n: nat): Bytes { [m] + ToBE(n, 8) }

  function EncodeInt(i: int): Bytes
    requires -U64 / 2 <= i < U64
  {
    if 0 <= i < 0x80 then [i]
    else if -32 <= i < 0 then [i + 0x100]
    else if 0 <= i then
      if i < U8 then Sized8(0xcc, i) else if i < U16 then Sized16(0xcd, i)
      else if i < U32 then Sized32(0xce, i) else Sized64(0xcf, i)
    else
      if -0x80 <= i then Sized8(0xd0, i + U8) else if -0x8000 <= i then Sized16(0xd1, i + U16)
      else if -0x8000_0000 <= i then Sized32(0xd2, i + U32) else Sized64(0xd3, i + U64)
  }

  function StrHead(n: nat): Bytes {
    if n < 32 then [0xa0 + n] else if n < U8 then Sized8(0xd9, n) else if n < U16 then Sized16(0xda, n)
      else Sized32(0xdb, n)
  }

  function BinHead(n: nat): Bytes {
    if n < U8 then Sized8(0xc4, n) else if n < U16 then Sized16(0xc5, n) else Sized32(0xc6, n)
  }

  /** `n` payload bytes after the type byte. */
  function ExtHead(n: nat): Bytes {
    if n == 1 then [0xd4] else if n == 2 then [0xd5] else if n == 4 then [0xd6] else if n == 8 then [0xd7]
    else if n == 16 then [0xd8] else if n < U8 then Sized8(0xc7, n) else if n < U16 then Sized16(0xc8, n)
      else Sized32(0xc9, n)
  }

  function ArrHead(n: nat): Bytes {
    if n < 16 then [0x90 + n] else if n < U16 then Sized16(0xdc, n) else Sized32(0xdd, n)
  }

  function MapHead(n: nat): Bytes {
    if n < 16 then [0x80 + n] else if n < U16 then Sized16(0xde, n) else Sized32(0xdf, n)
  }

  /** The values the format can carry: 64-bit integers, lengths below 2^32. */
  predicate Encodable(v: Value) {
    match v
    case Nil => true
    case Bool(_) => true
    case Int(i) => -U64 / 2 <= i < U64
    case Float(bits) => |bits| == 4 || |bits| == 8
    case Str(text) => |text| < U32
    case Bin(data) => |data| < U32
    case Ext(payload) => 1 <= |payload| <= U32
    case Arr(items) => |items| < U32 && forall x :: x in items ==> Encodable(x)
    case Map(entries) => |entries| % 2 == 0 && |entries| / 2 < U32 && forall x :: x in entries ==> Encodable(x)
  }

  function Encode(v: Value): (bytes: Bytes)
    requires Encodable(v)
    decreases v, 0
  {
    match v
    case Nil => [0xc0]
    case Bool(b) => [if b then 0xc3 else 0xc2]
    case Int(i) => EncodeInt(i)
    case Float(bits) => [if |bits| == 4 then 0xca else 0xcb] + bits
    case Str(text) => StrHead(|text|) + text
    case Bin(data) => BinHead(|data|) + data
    case Ext(payload) => ExtHead(|payload| - 1) + payload
    case Arr(items) => ArrHead(|items|) + EncodeAll(items)
    case Map(entries) => MapHead(|entries| / 2) + EncodeAll(entries)
  }

  function EncodeAll(vs: seq<Value>): Bytes
    requires forall x :: x in vs ==> Encodable(x)
    decreases vs
  {
    if vs == [] then [] else Encode(vs[0]) + EncodeAll(vs[1..])
  }

  lemma Powers()
    ensures Pow256(1) == U8 && Pow256(2) == U16 && Pow256(4) == U32 && Pow256(8) == U64
  {
    assert Pow256(2) == 256 * Pow256(1);
    assert Pow256(3) == 256 * Pow256(2);
    assert Pow256(4) == 256 * Pow256(3);
    assert Pow256(5) == 256 * Pow256(4);
    assert Pow256(6) == 256 * Pow256(5);
    assert Pow256(7) == 256 * Pow256(6);
    assert Pow256(8) == 256 * Pow256(7);
  }

  lemma SizedHeadRoundTrip(m: Byte, k: nat, what: SizedKind, n: nat, more: Bytes)
    requires LeadOf(m) == Sized(k, what) && n < Pow256(k)
    ensures DecodeHead([m] + ToBE(n, k) + more) == Done(SizedBody(what, k, n), 1 + k)
  {
    hide LeadOf;
    var b := [m] + ToBE(n, k) + more;
    assert b[1..1 + k] == ToBE(n, k);
    BERoundTrip(n, k);
  }

  lemma WholeHeadRoundTrip(m: Byte, body: Body, more: Bytes)
    requires LeadOf(m) == Whole(body)
    ensures DecodeHead([m] + more) == Done(body, 1)
  {
    hide LeadOf;
  }

  lemma IntRoundTrip(i: int, more: Bytes)
    requires -U64 / 2 <= i < U64
    ensures DecodeHead(EncodeInt(i) + more) == Done(Scalar(Int(i)), |EncodeInt(i)|)
  {
    hide DecodeHead, ToBE, FromBE;
    Powers();
    if 0 <= i < 0x80 { WholeHeadRoundTrip(i, Scalar(Int(i)), more); }
    else if -32 <= i < 0 { WholeHeadRoundTrip(i + 0x100, Scalar(Int(i)), more); }
    else if 0 <= i { UIntRoundTrip(i, more); }
    else if -0x80 <= i { SizedHeadRoundTrip(0xd0, 1, IntSize, i + U8, more); }
    else if -0x8000 <= i { SizedHeadRoundTrip(0xd1, 2, IntSize, i + U16, more); }
    else if -0x8000_0000 <= i { SizedHeadRoundTrip(0xd2, 4, IntSize, i + U32, more); }
    else { SizedHeadRoundTrip(0xd3, 8, IntSize, i + U64, more); }
  }

  lemma UIntRoundTrip(i: int, more: Bytes)
    requires 0x80 <= i < U64
    ensures DecodeHead(EncodeInt(i) + more) == Done(Scalar(Int(i)), |EncodeInt(i)|)
  {
    hide DecodeHead, ToBE, FromBE;
    Powers();
    if i < U8 { SizedHeadRoundTrip(0xcc, 1, UIntSize, i, more); }
    else if i < U16 { SizedHeadRoundTrip(0xcd, 2, UIntSize, i, more); }
    else if i < U32 { SizedHeadRoundTrip(0xce, 4, UIntSize, i, more); }
    else { SizedHeadRoundTrip(0xcf, 8, UIntSize, i, more); }
  }

  lemma StrHeadRoundTrip(n: nat, more: Bytes)
    requires n < U32
    ensures DecodeHead(StrHead(n) + more) == Done(Raw(StrRaw, n), |StrHead(n)|)
  {
    hide DecodeHead, ToBE, FromBE;
    Powers();
    if n < 32 { WholeHeadRoundTrip(0xa0 + n, Raw(StrRaw, n), more); }
    else if n < U8 { SizedHeadRoundTrip(0xd9, 1, StrSize, n, more); }
    else if n < U16 { SizedHeadRoundTrip(0xda, 2, StrSize, n, more); }
    else { SizedHeadRoundTrip(0xdb, 4, StrSize, n, more); }
  }

  lemma BinHeadRoundTrip(n: nat, more: Bytes)
    requires n < U32
    ensures DecodeHead(BinHead(n) + more) == Done(Raw(BinRaw, n), |BinHead(n)|)
  {
    hide DecodeHead, ToBE, FromBE;
    Powers();
    if n < U8 { SizedHeadRoundTrip(0xc4, 1, BinSize, n, more); }
    else if n < U16 { SizedHeadRoundTrip(0xc5, 2, BinSize, n, more); }
    else { SizedHeadRoundTrip(0xc6, 4, BinSize, n, more); }
  }

  lemma ExtHeadRoundTrip(n: nat, more: Bytes)
    requires n < U32
    ensures DecodeHead(ExtHead(n) + more) == Done(Raw(ExtRaw, n + 1), |ExtHead(n)|)
  {
    hide DecodeHead, ToBE, FromBE;
    Powers();
    if n == 1 { WholeHeadRoundTrip(0xd4, Raw(ExtRaw, 2), more); }
    else if n == 2 { WholeHeadRoundTrip(0xd5, Raw(ExtRaw, 3), more); }
    else if n == 4 { WholeHeadRoundTrip(0xd6, Raw(ExtRaw, 5), more); }
    else if n == 8 { WholeHeadRoundTrip(0xd7, Raw(ExtRaw, 9), more); }
    else if n == 16 { WholeHeadRoundTrip(0xd8, Raw(ExtRaw, 17), more); }
    else if n < U8 { SizedHeadRoundTrip(0xc7, 1, ExtSize, n, more); }
    else if n < U16 { SizedHeadRoundTrip(0xc8, 2, ExtSize, n, more); }
    else { SizedHeadRoundTrip(0xc9, 4, ExtSize, n, more); }
  }

  lemma ArrHeadRoundTrip(n: nat, more: Bytes)
    requires n < U32
    ensures DecodeHead(ArrHead(n) + more) == Done(Items(false, n), |ArrHead(n)|)
  {
    hide DecodeHead, ToBE, FromBE;
    Powers();
    if n < 16 { WholeHeadRoundTrip(0x90 + n, Items(false, n), more); }
    else if n < U16 { SizedHeadRoundTrip(0xdc, 2, ArrSize, n, more); }
    else { SizedHeadRoundTrip(0xdd, 4, ArrSize, n, more); }
  }

  lemma MapHeadRoundTrip(n: nat, more: Bytes)
    requires n < U32
    ensures DecodeHead(MapHead(n) + more) == Done(Items(true, 2 * n), |MapHead(n)|)
  {
    hide DecodeHead, ToBE, FromBE;
    Powers();
    if n < 16 { WholeHeadRoundTrip(0x80 + n, Items(true, 2 * n), more); }
    else if n < U16 { SizedHeadRoundTrip(0xde, 2, MapSize, n, more); }
    else { SizedHeadRoundTrip(0xdf, 4, MapSize, n, more); }
  }

  lemma FixedLeads()
    ensures LeadOf(0xc0) == Whole(Scalar(Nil)) && LeadOf(0xc2) == Whole(Scalar(Bool(false)))
      && LeadOf(0xc3) == Whole(Scalar(Bool(true)))
    ensures LeadOf(0xca) == Whole(Raw(FloatRaw, 4)) && LeadOf(0xcb) == Whole(Raw(FloatRaw, 8))
  {
  }

  lemma RawRoundTrip(head: Bytes, kind: RawKind, payload: Bytes, more: Bytes)
    requires DecodeHead(head + (payload + more)) == Done(Raw(kind, |payload|), |head|)
    ensures Decode(head + payload + more) == Done(RawValue(kind, payload), |head| + |payload|)
  {
    hide DecodeHead;
    var b := head + payload + more;
    assert b == head + (payload + more);
    assert b[|head|..|head| + |payload|] == payload;
  }

  lemma ItemsRoundTrip(head: Bytes, isMap: bool, vs: seq<Value>, payload: Bytes, more: Bytes)
    requires DecodeHead(head + (payload + more)) == Done(Items(isMap, |vs|), |head|)
    requires DecodeSeq(payload + more, |vs|) == Done(vs, |payload|)
    ensures Decode(head + payload + more) == Done(if isMap then Map(vs) else Arr(vs), |head| + |payload|)
  {
    hide DecodeHead, DecodeSeq;
    var b := head + payload + more;
    assert b == head + (payload + more);
    assert b[|head|..] == payload + more;
  }

  /** Self-delimiting: decoding an encoded value followed by anything gives it back and takes exactly its bytes. */
  lemma {:induction false} RoundTrip(v: Value, more: Bytes)
    requires Encodable(v)
    ensures Decode(Encode(v) + more) == Done(v, |Encode(v)|)
    decreases v, 0
  {
    FixedLeads();
    hide DecodeHead, LeadOf, EncodeInt, StrHead, BinHead, ExtHead, ArrHead, MapHead;
    match v
    case Nil => WholeHeadRoundTrip(0xc0, Scalar(Nil), more);
    case Bool(b) => WholeHeadRoundTrip(if b then 0xc3 else 0xc2, Scalar(v), more);
    case Int(i) => IntRoundTrip(i, more);
    case Float(bits) =>
      var m := if |bits| == 4 then 0xca else 0xcb;
      WholeHeadRoundTrip(m, Raw(FloatRaw, |bits|), bits + more);
      RawRoundTrip([m], FloatRaw, bits, more);
    case Str(text) => StrHeadRoundTrip(|text|, text + more); RawRoundTrip(StrHead(|text|), StrRaw, text, more);
    case Bin(data) => BinHeadRoundTrip(|data|, data + more); RawRoundTrip(BinHead(|data|), BinRaw, data, more);
    case Ext(payload) =>
      ExtHeadRoundTrip(|payload| - 1, payload + more);
      RawRoundTrip(ExtHead(|payload| - 1), ExtRaw, payload, more);
    case Arr(items) =>
      ArrHeadRoundTrip(|items|, EncodeAll(items) + more);
      RoundTripAll(items, more);
      ItemsRoundTrip(ArrHead(|items|), false, items, EncodeAll(items), more);
    case Map(entries) =>
      MapHeadRoundTrip(|entries| / 2, EncodeAll(entries) + more);
      RoundTripAll(entries, more);
      ItemsRoundTrip(MapHead(|entries| / 2), true, entries, EncodeAll(entries), more);
  }

  lemma {:induction false} RoundTripAll(vs: seq<Value>, more: Bytes)
    requires forall x :: x in vs ==> Encodable(x)
    ensures DecodeSeq(EncodeAll(vs) + more, |vs|) == Done(vs, |EncodeAll(vs)|)
    decreases vs
  {
    hide Decode, Encode, Encodable;
    if vs != [] {
      var first, rest := Encode(vs[0]), EncodeAll(vs[1..]);
      RoundTrip(vs[0], rest + more);
      RoundTripAll(vs[1..], more);
      assert EncodeAll(vs) + more == first + (rest + more);
      assert (first + (rest + more))[|first|..] == rest + more;
      assert [vs[0]] + vs[1..] == vs;
    }
  }

  // ---------- The smallest form ----------

  lemma {:induction false} NumberInRange(bs: Bytes)
    ensures FromBE(bs) < Pow256(|bs|)
  {
    if bs != [] { NumberInRange(bs[..|bs| - 1]); }
  }

  /** The serialiser's form of what a header says is no longer than the header. */
  predicate HeadCovers(body: Body, len: nat) {
    match body
    case Scalar(Int(i)) => -U64 / 2 <= i < U64 && |EncodeInt(i)| <= len
    case Scalar(v) => v.Nil? || v.Bool?
    case Raw(FloatRaw, n) => n == 4 || n == 8
    case Raw(StrRaw, n) => n < U32 && |StrHead(n)| <= len
    case Raw(BinRaw, n) => n < U32 && |BinHead(n)| <= len
    case Raw(ExtRaw, n) => 1 <= n <= U32 && |ExtHead(n - 1)| <= len
    case Items(true, n) => n % 2 == 0 && n / 2 < U32 && |MapHead(n / 2)| <= len
    case Items(false, n) => n < U32 && |ArrHead(n)| <= len
  }

  lemma SizedCovers(k: nat, what: SizedKind, n: nat)
    requires k == 1 || k == 2 || k == 4 || (k == 8 && (what.UIntSize? || what.IntSize?))
    requires k == 1 ==> !what.ArrSize? && !what.MapSize?
    requires n < Pow256(k)
    ensures HeadCovers(SizedBody(what, k, n), 1 + k)
  {
    Powers();
    hide Pow256, ToBE;
  }

  lemma HeadSmallest(b: Bytes)
    requires DecodeHead(b).Done?
    ensures HeadCovers(DecodeHead(b).value, DecodeHead(b).len)
  {
    match LeadOf(b[0])
    case Whole(body) => WholeCovers(b[0]);
    case Sized(k, what) =>
      NumberInRange(b[1..1 + k]);
      SizedKinds(b[0]);
      hide LeadOf, HeadCovers;
      SizedCovers(k, what, FromBE(b[1..1 + k]));
  }

  lemma SizedKinds(m: Byte)
    requires LeadOf(m).Sized?
    ensures var Sized(k, what) := LeadOf(m);
      && (k == 1 || k == 2 || k == 4 || (k == 8 && (what.UIntSize? || what.IntSize?)))
      && (k == 1 ==> !what.ArrSize? && !what.MapSize?)
  {
  }

  lemma WholeCovers(m: Byte)
    requires LeadOf(m).Whole?
    ensures HeadCovers(LeadOf(m).body, 1)
  {
    hide ToBE;
  }

  /**
    The serialiser writes the smallest form: whatever bytes a value was decoded from, it can be
    serialised, in no more bytes.
   */
  lemma {:induction false} Smallest(b: Bytes)
    requires Decode(b).Done?
    ensures Encodable(Decode(b).value) && |Encode(Decode(b).value)| <= Decode(b).len
    decreases |b|, 0
  {
    HeadSmallest(b);
    hide DecodeHead, EncodeInt, StrHead, BinHead, ExtHead, ArrHead, MapHead;
    match DecodeHead(b)
    case Done(Items(_, n), h) => SmallestAll(b[h..], n);
    case _ =>
  }

  lemma {:induction false} SmallestAll(b: Bytes, n: nat)
    requires DecodeSeq(b, n).Done?
    ensures var vs := DecodeSeq(b, n).value;
      |vs| == n && (forall x :: x in vs ==> Encodable(x)) && |EncodeAll(vs)| <= DecodeSeq(b, n).len
    decreases |b|, n + 1
  {
    hide Decode, Encode, Encodable;
    if n > 0 {
      Smallest(b);
      var first := Decode(b).len;
      SmallestAll(b[first..], n - 1);
      var vs := DecodeSeq(b[first..], n - 1).value;
      assert ([Decode(b).value] + vs)[1..] == vs;
    }
  }
}
