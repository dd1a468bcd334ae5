/**
  The streaming frame decoder of cli/src/msgpack_rpc.rs: frames are cut from the front of a
  buffer that grows with every read.
 */
module Codec {
  import opened Basics
  import MsgPack
  import MsgPackEncode

  type Value = MsgPack.Value

  /** The decoded object and the bytes it was decoded from. */
  datatype Frame = Frame(obj: Value, vec: Bytes)

  /** All frames in a run of bytes, what is left, and whether the rest is not MessagePack. */
  datatype Cut = Cut(frames: seq<Frame>, rest: Bytes, failed: bool)

  function CutAll(b: Bytes): Cut {
    match MsgPack.Decode(b)
    case Incomplete => Cut([], b, false)
    case Invalid => Cut([], b, true)
    case Done(v, n) =>
      Prepend(Frame(v, b[..n]), CutAll(b[n..]))
  }

  function VecsOf(frames: seq<Frame>): seq<Bytes> {
    seq(|frames|, i requires 0 <= i < |frames| => frames[i].vec)
  }

  function ObjsOf(frames: seq<Frame>): seq<Value> {
    seq(|frames|, i requires 0 <= i < |frames| => frames[i].obj)
  }

  /** A frame's bytes decode to its object, all of them. */
  predicate IsFrame(f: Frame) {
    MsgPack.Decode(f.vec) == MsgPack.Done(f.obj, |f.vec|)
  }

  lemma FirstVec(frame: Frame, frames: seq<Frame>)
    ensures Concat(VecsOf([frame] + frames)) == frame.vec + Concat(VecsOf(frames))
  {
    assert VecsOf([frame] + frames)[1..] == VecsOf(frames);
  }

  lemma PrependConserves(b: Bytes, frame: Frame, tail: Cut)
    requires |frame.vec| <= |b| && b[..|frame.vec|] == frame.vec
    requires Concat(VecsOf(tail.frames)) + tail.rest == b[|frame.vec|..]
    ensures Concat(VecsOf(Prepend(frame, tail).frames)) + tail.rest == b
  {
    FirstVec(frame, tail.frames);
    hide Concat, VecsOf;
    var rest := Concat(VecsOf(tail.frames));
    assert frame.vec + (rest + tail.rest) == (frame.vec + rest) + tail.rest;
  }

  /** No byte is lost, added or moved, and every frame's bytes are that frame. */
  lemma {:induction false} CutConserves(b: Bytes)
    ensures Concat(VecsOf(CutAll(b).frames)) + CutAll(b).rest == b
    ensures forall f :: f in CutAll(b).frames ==> IsFrame(f)
    decreases |b|
  {
    hide MsgPack.Decode;
    var d := MsgPack.Decode(b);
    if d.Done? {
      var n := d.len;
      var frame := Frame(d.value, b[..n]);
      CutConserves(b[n..]);
      MsgPack.DecodeExact(b);
      assert IsFrame(frame);
      hide Concat, VecsOf, IsFrame;
      PrependConserves(b, frame, CutAll(b[n..]));
    }
  }

  /** The cut of a longer run of bytes, from the cut of its front. */
  function Extend(now: Cut, more: Bytes): Cut {
    if now.failed then Cut(now.frames, now.rest + more, true)
    else
      var later := CutAll(now.rest + more);
      Cut(now.frames + later.frames, later.rest, later.failed)
  }

  function Prepend(frame: Frame, tail: Cut): Cut {
    Cut([frame] + tail.frames, tail.rest, tail.failed)
  }

  lemma ExtendPrepend(frame: Frame, tail: Cut, more: Bytes)
    ensures Extend(Prepend(frame, tail), more) == Prepend(frame, Extend(tail, more))
  {
    hide CutAll;
    if !tail.failed {
      var later := CutAll(tail.rest + more).frames;
      assert [frame] + (tail.frames + later) == ([frame] + tail.frames) + later;
    }
  }

  /** Bytes that arrive later do not change the frames already cut. */
  lemma {:induction false} CutAppend(b: Bytes, more: Bytes)
    ensures CutAll(b + more) == Extend(CutAll(b), more)
    decreases |b|
  {
    hide MsgPack.Decode;
    var d := MsgPack.Decode(b);
    MsgPack.DecodeStable(b, more);
    if d.Done? {
      var n := d.len;
      assert (b + more)[..n] == b[..n] && (b + more)[n..] == b[n..] + more;
      CutAppend(b[n..], more);
      hide Extend;
      ExtendPrepend(Frame(d.value, b[..n]), CutAll(b[n..]), more);
    } else if d.Incomplete? {
      assert [] + CutAll(b + more).frames == CutAll(b + more).frames;
    }
  }

  lemma CutFront(b: Bytes)
    ensures var d := MsgPack.Decode(b);
      CutAll(b) == if d.Done? then Prepend(Frame(d.value, b[..d.len]), CutAll(b[d.len..])) else Cut([], b, d.Invalid?)
  {
  }

  /** The receiving side of a connection. `unread` is what arrives after a failure stopped the loop. */
  datatype Input = Input(frames: seq<Frame>, buf: Bytes, failed: bool, unread: Bytes)

  const EMPTY := Input([], [], false, [])

  function Read(s: Input, chunk: Bytes): Input {
    if s.failed then s.(unread := s.unread + chunk)
    else
      var cut := CutAll(s.buf + chunk);
      Input(s.frames + cut.frames, cut.rest, cut.failed, s.unread)
  }

  function ReadAll(s: Input, chunks: seq<Bytes>): Input
    decreases |chunks|
  {
    if chunks == [] then s else ReadAll(Read(s, chunks[0]), chunks[1..])
  }

  /** `end` is `s` after all of `all` has been cut. */
  predicate Reads(s: Input, all: Cut, end: Input) {
    && end.frames == s.frames + all.frames && end.failed == all.failed && end.buf + end.unread == all.rest
    && (!end.failed ==> end.unread == [])
  }

  /** Reading in chunks from state `s` comes to the same as one read of all their bytes. */
  lemma {:induction false} ReadsJoin(s: Input, chunks: seq<Bytes>)
    requires !s.failed && s.unread == [] && CutAll(s.buf) == Cut([], s.buf, false)
    ensures Reads(s, CutAll(s.buf + Concat(chunks)), ReadAll(s, chunks))
    decreases |chunks|
  {
    hide CutAll;
    if chunks == [] {
      assert s.buf + [] == s.buf;
      assert s.frames + [] == s.frames;
    } else {
      var now, b, later := Read(s, chunks[0]), s.buf + chunks[0], Concat(chunks[1..]);
      CutAppend(b, later);
      assert s.buf + Concat(chunks) == b + later;
      if now.failed {
        ReadsAfterFailure(now, chunks[1..]);
        assert [] + later == later;
      } else {
        RestIsIncomplete(b);
        ReadsJoin(now, chunks[1..]);
        var more := CutAll(now.buf + later).frames;
        assert s.frames + CutAll(b).frames + more == s.frames + (CutAll(b).frames + more);
      }
    }
  }

  lemma {:induction false} RestIsIncomplete(b: Bytes)
    requires !CutAll(b).failed
    ensures CutAll(CutAll(b).rest) == Cut([], CutAll(b).rest, false)
    decreases |b|
  {
    hide MsgPack.Decode;
    if MsgPack.Decode(b).Done? { RestIsIncomplete(b[MsgPack.Decode(b).len..]); }
  }

  lemma {:induction false} ReadsAfterFailure(s: Input, chunks: seq<Bytes>)
    requires s.failed
    ensures ReadAll(s, chunks) == s.(unread := s.unread + Concat(chunks))
    decreases |chunks|
  {
    if chunks == [] {
      assert s.unread + [] == s.unread;
    } else {
      ReadsAfterFailure(Read(s, chunks[0]), chunks[1..]);
      assert s.unread + chunks[0] + Concat(chunks[1..]) == s.unread + Concat(chunks);
    }
  }

  lemma EmptyCut()
    ensures CutAll([]) == Cut([], [], false)
  {
    hide MsgPack.LeadOf;
    assert MsgPack.Decode([]).Incomplete?;
    hide MsgPack.Decode;
  }

  lemma FromEmpty(chunks: seq<Bytes>)
    ensures var end, whole := ReadAll(EMPTY, chunks), CutAll(Concat(chunks));
      && end.frames == whole.frames && end.failed == whole.failed && end.buf + end.unread == whole.rest
      && (!end.failed ==> end.unread == [])
  {
    EmptyCut();
    hide CutAll;
    ReadsJoin(EMPTY, chunks);
    assert [] + Concat(chunks) == Concat(chunks);
  }

  /**
    However a byte stream is split into reads, the same frames come out, the same failure is
    found, and frames, buffer and unread bytes are together everything that was sent.
   */
  lemma ChunkingInvariant(chunks: seq<Bytes>)
    ensures var end, whole := ReadAll(EMPTY, chunks), CutAll(Concat(chunks));
      && end.frames == whole.frames && end.failed == whole.failed
      && Concat(VecsOf(end.frames)) + (end.buf + end.unread) == Concat(chunks)
      && (!end.failed ==> end.unread == [])
  {
    hide CutAll;
    FromEmpty(chunks);
    CutConserves(Concat(chunks));
  }

  /** A peer that serialises values one after another gets each of them through, however split. */
  lemma ValuesArrive(vs: seq<Value>, chunks: seq<Bytes>)
    requires forall v :: v in vs ==> MsgPackEncode.Encodable(v)
    requires Concat(chunks) == MsgPackEncode.EncodeAll(vs)
    ensures ObjsOf(ReadAll(EMPTY, chunks).frames) == vs
    ensures ReadAll(EMPTY, chunks).buf == [] && !ReadAll(EMPTY, chunks).failed
  {
    hide CutAll, MsgPackEncode.Encodable, MsgPackEncode.EncodeAll;
    FromEmpty(chunks);
    CutOfEncoded(vs);
  }

  lemma {:induction false} CutOfEncoded(vs: seq<Value>)
    requires forall v :: v in vs ==> MsgPackEncode.Encodable(v)
    ensures var cut := CutAll(MsgPackEncode.EncodeAll(vs)); ObjsOf(cut.frames) == vs && cut.rest == [] && !cut.failed
    decreases |vs|
  {
    hide MsgPack.DecodeHead, MsgPackEncode.Encode, MsgPackEncode.Encodable;
    if vs == [] {
      assert MsgPack.DecodeHead([]).Incomplete? by { EmptyIncomplete(); }
    } else {
      var first, rest := MsgPackEncode.Encode(vs[0]), MsgPackEncode.EncodeAll(vs[1..]);
      MsgPackEncode.RoundTrip(vs[0], rest);
      CutOfEncoded(vs[1..]);
      assert MsgPackEncode.EncodeAll(vs) == first + rest;
      assert (first + rest)[|first|..] == rest;
      CutFront(first + rest);
      hide CutAll, MsgPackEncode.EncodeAll, ObjsOf, MsgPack.Decode;
      FirstObj(Frame(vs[0], (first + rest)[..|first|]), CutAll(rest).frames);
    }
  }

  lemma FirstObj(frame: Frame, frames: seq<Frame>)
    ensures ObjsOf([frame] + frames) == [frame.obj] + ObjsOf(frames)
  {
  }

  lemma EmptyIncomplete()
    ensures MsgPack.DecodeHead([]).Incomplete?
  {
  }

  /** The frame format is self-delimiting: no strict prefix of an encoded value is taken for a frame. */
  lemma SelfDelimiting(v: Value, more: Bytes, k: nat)
    requires MsgPackEncode.Encodable(v) && k < |MsgPackEncode.Encode(v)|
    ensures CutAll(MsgPackEncode.Encode(v)[..k]) == Cut([], MsgPackEncode.Encode(v)[..k], false)
    ensures var bytes := MsgPackEncode.Encode(v);
      var tail := CutAll(more);
      CutAll(bytes + more) == Cut([Frame(v, bytes)] + tail.frames, tail.rest, tail.failed)
  {
    hide MsgPackEncode.Encode, MsgPackEncode.Encodable, MsgPack.DecodeHead;
    var bytes := MsgPackEncode.Encode(v);
    MsgPackEncode.RoundTrip(v, more);
    assert (bytes + more)[..|bytes|] == bytes && (bytes + more)[|bytes|..] == more;
    MsgPackEncode.RoundTrip(v, []);
    assert bytes + [] == bytes;
    MsgPack.PrefixIncomplete(bytes, k);
  }

  /** The read arm of the transport loop, on its buffer. */
  class Receiver {
    var buf: Bytes
    var frames: seq<Frame>
    var failed: bool

    constructor ()
      ensures buf == [] && frames == [] && !failed
    {
      buf, frames, failed := [], [], false;
    }

    /** One attempt: a complete frame is consumed, anything else leaves the buffer alone. */
    method DecodeFrame() returns (frame: Option<Frame>, error: bool)
      modifies this`buf
      ensures match MsgPack.Decode(old(buf))
              case Incomplete => frame == None && !error && buf == old(buf)
              case Invalid => frame == None && error && buf == old(buf)
              case Done(v, n) => frame == Some(Frame(v, old(buf)[..n])) && !error && buf == old(buf)[n..]
    {
      match MsgPack.Decode(buf)
      case Incomplete => return None, false;
      case Invalid => return None, true;
      case Done(v, n) =>
        var vec := buf[..n];
        buf := buf[n..];
        return Some(Frame(v, vec)), false;
    }

    method Receive(chunk: Bytes)
      requires !failed
      modifies this
      ensures Input(frames, buf, failed, []) == Read(Input(old(frames), old(buf), false, []), chunk)
    {
      hide MsgPack.Decode, CutAll;
      buf := buf + chunk;
      ghost var all := CutAll(buf);
      ghost var cut: seq<Frame> := [];
      var more := true;
      while more
        invariant !failed && frames == old(frames) + cut
        invariant more ==> all == (var tail := CutAll(buf); Cut(cut + tail.frames, tail.rest, tail.failed))
        invariant !more ==> all.frames == cut && all.rest == buf
        decreases more, |buf|
      {
        CutFront(buf);
        var frame, error := DecodeFrame();
        if frame.Some? {
          frames, cut := frames + [frame.value], cut + [frame.value];
        } else {
          failed, more := error, false;
          break;
        }
      }
    }
  }
}
