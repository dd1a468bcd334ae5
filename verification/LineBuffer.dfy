/** The line buffering of process output in src/bootstrap-fork.ts (`wrapStream`). */
module LineBuffer {
  import opened Basics

  const MAX_STREAM_BUFFER_LENGTH := 1024 * 1024

  /** What is handed to the console: text up to a newline, or a whole buffer that grew too long. */
  datatype Piece = Line(text: string) | Overflow(text: string)

  /** The position of the last newline, -1 if there is none. */
  function LastIndexOf(s: string): (i: int)
    ensures -1 <= i < |s|
    ensures i >= 0 ==> s[i] == '\n'
  {
    LastBefore(s, |s|)
  }

  function LastBefore(s: string, n: nat): (i: int)
    requires n <= |s|
    ensures -1 <= i < n
    ensures i >= 0 ==> s[i] == '\n'
  {
    if n == 0 then -1 else if s[n - 1] == '\n' then n - 1 else LastBefore(s, n - 1)
  }

  lemma {:induction false} NoneBetween(s: string, n: nat)
    requires n <= |s|
    ensures forall k :: LastBefore(s, n) < k < n ==> s[k] != '\n'
  {
    if n > 0 && s[n - 1] != '\n' { NoneBetween(s, n - 1); }
  }

  /** No newline follows the last one. */
  lemma NoneAfter(s: string)
    ensures forall k :: LastIndexOf(s) < k < |s| ==> s[k] != '\n'
  {
    NoneBetween(s, |s|);
  }

  /** One write: what is emitted, and the new buffer. */
  function Push(buf: string, chunk: string): (seq<Piece>, string) {
    var b := buf + chunk;
    if |b| > MAX_STREAM_BUFFER_LENGTH then ([Overflow(b)], [])
    else
      var eol := LastIndexOf(b);
      if eol == -1 then ([], b) else ([Line(b[..eol])], b[eol + 1..])
  }

  /** The pieces emitted for `chunks` in order, and the buffer left. */
  function PushAll(buf: string, chunks: seq<string>): (seq<Piece>, string)
    decreases |chunks|
  {
    if chunks == [] then ([], buf)
    else
      var (now, b) := Push(buf, chunks[0]);
      var (later, end) := PushAll(b, chunks[1..]);
      (now + later, end)
  }

  /** The text a piece stands for: a line lost its newline. */
  function Source(p: Piece): string {
    match p
    case Line(text) => text + "\n"
    case Overflow(text) => text
  }

  function Sources(pieces: seq<Piece>): string {
    if pieces == [] then [] else Source(pieces[0]) + Sources(pieces[1..])
  }

  predicate NoNewline(s: string) {
    forall k :: 0 <= k < |s| ==> s[k] != '\n'
  }

  predicate NoOverflow(pieces: seq<Piece>) {
    forall i :: 0 <= i < |pieces| ==> pieces[i].Line?
  }

  /** Splits at every newline; one element more than there are newlines. */
  function Split(s: string): (lines: seq<string>)
    ensures |lines| >= 1
  {
    if s == [] then [[]]
    else if s[0] == '\n' then [[]] + Split(s[1..])
    else IntoFirst(s[0], Split(s[1..]))
  }

  function IntoFirst(c: char, lines: seq<string>): (r: seq<string>)
    requires lines != []
    ensures |r| == |lines|
  {
    [[c] + lines[0]] + lines[1..]
  }

  lemma IntoFirstAppend(c: char, a: seq<string>, b: seq<string>)
    requires a != []
    ensures IntoFirst(c, a + b) == IntoFirst(c, a) + b
  {
    assert (a + b)[1..] == a[1..] + b;
  }

  /** The lines a reader of the pieces sees. */
  function LinesOf(pieces: seq<Piece>): seq<string> {
    if pieces == [] then [] else Split(pieces[0].text) + LinesOf(pieces[1..])
  }

  lemma PushConserves(buf: string, chunk: string)
    ensures Sources(Push(buf, chunk).0) + Push(buf, chunk).1 == buf + chunk
    ensures NoNewline(Push(buf, chunk).1) && |Push(buf, chunk).1| <= MAX_STREAM_BUFFER_LENGTH
  {
    var b := buf + chunk;
    NoneAfter(b);
    hide LastIndexOf;
    if |b| <= MAX_STREAM_BUFFER_LENGTH && LastIndexOf(b) != -1 {
      var eol := LastIndexOf(b);
      assert b[..eol] + "\n" + b[eol + 1..] == b;
      assert Sources([Line(b[..eol])]) == b[..eol] + "\n";
    }
  }

  lemma {:induction false} SourcesAppend(a: seq<Piece>, b: seq<Piece>)
    ensures Sources(a + b) == Sources(a) + Sources(b)
  {
    if a == [] {
      assert a + b == b;
    } else {
      assert (a + b)[1..] == a[1..] + b && (a + b)[0] == a[0];
      SourcesAppend(a[1..], b);
      hide Source;
      assert Source(a[0]) + (Sources(a[1..]) + Sources(b)) == Sources(a) + Sources(b);
    }
  }

  /**
    Nothing is lost or reordered: the pieces with the newlines they stand for, then the buffer,
    are the input. The buffer never holds a newline, nor more than the limit.
   */
  lemma {:induction false} OutputConserved(buf: string, chunks: seq<string>)
    requires NoNewline(buf) && |buf| <= 0x10_0000
    ensures Sources(PushAll(buf, chunks).0) + PushAll(buf, chunks).1 == buf + Concat(chunks)
    ensures NoNewline(PushAll(buf, chunks).1) && |PushAll(buf, chunks).1| <= 0x10_0000
    decreases |chunks|
  {
    hide Push, NoNewline, Sources;
    if chunks == [] {
      NoPieces();
      assert buf + [] == buf && [] + buf == buf;
    } else {
      var (now, b) := Push(buf, chunks[0]);
      PushConserves(buf, chunks[0]);
      OutputConserved(b, chunks[1..]);
      var (later, end) := PushAll(b, chunks[1..]);
      SourcesAppend(now, later);
      assert Sources(now) + Sources(later) + end == Sources(now) + (b + Concat(chunks[1..]));
      assert Sources(now) + (b + Concat(chunks[1..])) == buf + chunks[0] + Concat(chunks[1..]);
      assert buf + chunks[0] + Concat(chunks[1..]) == buf + Concat(chunks);
    }
  }

  lemma NoPieces()
    ensures Sources([]) == []
  {
  }

  // ---------- Lines do not depend on the chunks ----------

  lemma {:induction false} SplitPlain(s: string)
    requires NoNewline(s)
    ensures Split(s) == [s]
  {
    if s != [] {
      SplitPlain(s[1..]);
      assert [s[0]] + s[1..] == s;
    }
  }

  /** Splitting at a given newline. */
  lemma {:induction false} SplitAt(a: string, b: string)
    ensures Split(a + "\n" + b) == Split(a) + Split(b)
  {
    if a == [] {
      assert a + "\n" + b == "\n" + b;
      assert ("\n" + b)[1..] == b;
    } else {
      var whole := a + "\n" + b;
      SplitAt(a[1..], b);
      assert whole[1..] == a[1..] + "\n" + b && whole[0] == a[0];
      if a[0] == '\n' {
        assert [[]] + (Split(a[1..]) + Split(b)) == [[]] + Split(a[1..]) + Split(b);
      } else {
        IntoFirstAppend(a[0], Split(a[1..]), Split(b));
      }
    }
  }

  lemma {:induction false} SplitOfPieces(pieces: seq<Piece>, buf: string)
    requires NoOverflow(pieces) && NoNewline(buf)
    ensures Split(Sources(pieces) + buf) == LinesOf(pieces) + [buf]
  {
    hide Split;
    if pieces == [] {
      assert [] + buf == buf;
      SplitPlain(buf);
    } else {
      assert NoOverflow(pieces[1..]);
      hide NoNewline;
      SplitOfPieces(pieces[1..], buf);
      var rest := Sources(pieces[1..]) + buf;
      assert Sources(pieces) + buf == pieces[0].text + "\n" + rest;
      SplitAt(pieces[0].text, rest);
    }
  }

  lemma {:induction false} SplitCount(a: string, b: string)
    ensures |Split(a + b)| == |Split(a)| + |Split(b)| - 1
  {
    if a == [] {
      assert a + b == b;
    } else {
      assert (a + b)[1..] == a[1..] + b;
      SplitCount(a[1..], b);
    }
  }

  function Overflows(pieces: seq<Piece>): nat {
    if pieces == [] then 0 else (if pieces[0].Overflow? then 1 else 0) + Overflows(pieces[1..])
  }

  lemma {:induction false} NoOverflowCount(pieces: seq<Piece>)
    ensures NoOverflow(pieces) <==> Overflows(pieces) == 0
  {
    if pieces != [] {
      NoOverflowCount(pieces[1..]);
      assert forall i :: 1 <= i < |pieces| ==> pieces[i] == pieces[1..][i - 1];
      if NoOverflow(pieces) { assert forall i :: 0 <= i < |pieces[1..]| ==> pieces[1..][i] == pieces[i + 1]; }
    }
  }

  /** Every overflow breaks one line in two. */
  lemma {:induction false} OverflowsBreakLines(pieces: seq<Piece>, buf: string)
    requires NoNewline(buf)
    ensures |LinesOf(pieces)| + 1 == |Split(Sources(pieces) + buf)| + Overflows(pieces)
  {
    hide Split, NoNewline;
    if pieces == [] {
      assert [] + buf == buf;
      SplitPlain(buf);
    } else {
      OverflowsBreakLines(pieces[1..], buf);
      var text, rest := pieces[0].text, Sources(pieces[1..]) + buf;
      if pieces[0].Line? {
        assert Sources(pieces) + buf == text + "\n" + rest;
        SplitAt(text, rest);
      } else {
        assert Sources(pieces) + buf == text + rest;
        SplitCount(text, rest);
      }
    }
  }

  // ---------- When a buffer overflows ----------

  /** The text after the last newline. */
  function Tail(s: string): string {
    s[LastIndexOf(s) + 1..]
  }

  /** How long the unfinished line is. */
  function Unfinished(s: string): nat {
    |s| - 1 - LastIndexOf(s)
  }

  /** No chunk makes the unfinished line it continues too long; `before` is the input so far. */
  predicate Fits(before: string, chunks: seq<string>)
    decreases |chunks|
  {
    chunks != [] ==>
      Unfinished(before) + |chunks[0]| <= 0x10_0000 && Fits(before + chunks[0], chunks[1..])
  }

  lemma LastIndexIs(s: string, i: int)
    requires -1 <= i < |s| && (i >= 0 ==> s[i] == '\n') && forall k :: i < k < |s| ==> s[k] != '\n'
    ensures LastIndexOf(s) == i
  {
    NoneAfter(s);
    hide LastIndexOf;
  }

  lemma TailAppend(a: string, b: string)
    ensures Tail(Tail(a) + b) == Tail(a + b)
  {
    hide LastIndexOf;
    var n := LastIndexOf(a) + 1;
    assert Tail(a) == a[n..] && (n > 0 ==> (a + b)[n - 1] == '\n');
    hide Tail;
    assert (a + b)[n..] == a[n..] + b;
    TailOfEnd(a + b, n);
  }

  /** Cutting off whole lines does not change what follows the last newline. */
  lemma TailOfEnd(s: string, n: nat)
    requires n <= |s| && (n > 0 ==> s[n - 1] == '\n')
    ensures Tail(s[n..]) == Tail(s)
  {
    hide LastIndexOf;
    var i := LastIndexOf(s[n..]);
    LastIndexOfEnd(s, n, i);
    assert s[n..][i + 1..] == s[n + i + 1..];
  }

  lemma LastIndexOfEnd(s: string, n: nat, i: int)
    requires n <= |s| && (n > 0 ==> s[n - 1] == '\n') && i == LastIndexOf(s[n..])
    ensures LastIndexOf(s) == n + i
  {
    hide LastIndexOf;
    var t := s[n..];
    NoneAfter(t);
    forall k | n + i < k < |s| ensures s[k] != '\n' {
      assert s[k] == t[k - n];
    }
    if i >= 0 { assert s[n + i] == t[i]; }
    LastIndexIs(s, n + i);
  }

  lemma PushFits(before: string, chunk: string)
    ensures Push(Tail(before), chunk).0 != [] && Push(Tail(before), chunk).0[0].Overflow?
       <==> |Tail(before)| + |chunk| > MAX_STREAM_BUFFER_LENGTH
    ensures |Push(Tail(before), chunk).0| <= 1
    ensures |Tail(before)| + |chunk| <= MAX_STREAM_BUFFER_LENGTH ==> Push(Tail(before), chunk).1 == Tail(before + chunk)
  {
    TailAppend(before, chunk);
  }

  /** Whether an overflow happens can be told from the input. */
  lemma {:induction false} NoOverflowIff(before: string, chunks: seq<string>)
    ensures NoOverflow(PushAll(Tail(before), chunks).0) <==> Fits(before, chunks)
    decreases |chunks|
  {
    if chunks != [] {
      PushFits(before, chunks[0]);
      NoOverflowIff(before + chunks[0], chunks[1..]);
      hide Push, Tail;
      var (now, b) := Push(Tail(before), chunks[0]);
      var later := PushAll(b, chunks[1..]).0;
      FirstPiece(now, later);
    }
  }

  lemma FirstPiece(now: seq<Piece>, later: seq<Piece>)
    requires |now| <= 1
    ensures NoOverflow(now + later) <==> (now == [] || now[0].Line?) && NoOverflow(later)
  {
    assert forall i :: 0 <= i < |later| ==> (now + later)[|now| + i] == later[i];
    assert now != [] ==> (now + later)[0] == now[0];
    if NoOverflow(now + later) {
      forall i | 0 <= i < |later| ensures later[i].Line? { assert (now + later)[|now| + i].Line?; }
    }
  }

  /**
    The lines emitted and then the buffer are the lines of the whole input, however it was cut
    into chunks, exactly when every chunk fits.
   */
  lemma LinesConserved(chunks: seq<string>)
    ensures Fits([], chunks) ==> LinesOf(PushAll([], chunks).0) + [PushAll([], chunks).1] == Split(Concat(chunks))
    ensures !Fits([], chunks) ==> LinesOf(PushAll([], chunks).0) + [PushAll([], chunks).1] != Split(Concat(chunks))
  {
    hide *;
    EmptyBuffer();
    OutputConserved([], chunks);
    NoOverflowIff([], chunks);
    assert [] + Concat(chunks) == Concat(chunks);
    LinesUncut(PushAll([], chunks).0, PushAll([], chunks).1);
  }

  lemma EmptyBuffer()
    ensures Tail([]) == [] && NoNewline([]) && 0 <= MAX_STREAM_BUFFER_LENGTH
  {
    hide LastIndexOf;
  }

  lemma LinesUncut(pieces: seq<Piece>, buf: string)
    requires NoNewline(buf)
    ensures LinesOf(pieces) + [buf] == Split(Sources(pieces) + buf) <==> NoOverflow(pieces)
  {
    if NoOverflow(pieces) { SplitOfPieces(pieces, buf); }
    NoOverflowCount(pieces);
    OverflowsBreakLines(pieces, buf);
  }

  lemma ChunksDoNotMatter(xs: seq<string>, ys: seq<string>)
    requires Concat(xs) == Concat(ys) && Fits([], xs) && Fits([], ys)
    ensures LinesOf(PushAll([], xs).0) + [PushAll([], xs).1] == LinesOf(PushAll([], ys).0) + [PushAll([], ys).1]
  {
    LinesConserved(xs);
    LinesConserved(ys);
    hide *;
  }

  lemma PushOnce(chunk: string)
    ensures PushAll([], [chunk]) == Push([], chunk)
  {
    hide Push;
    assert [chunk][1..] == [];
    var (now, b) := Push([], chunk);
    assert PushAll(b, []) == ([], b);
    assert now + [] == now;
  }

  lemma PushLong(line: string)
    requires |line| > 0x10_0000
    ensures Push([], line) == ([Overflow(line)], [])
  {
    hide LastIndexOf;
    assert [] + line == line;
  }

  lemma OnePiece(text: string)
    requires NoNewline(text)
    ensures LinesOf([Overflow(text)]) == [text]
  {
    SplitPlain(text);
    hide Split, NoNewline;
    assert [Overflow(text)][1..] == [];
    assert [text] + [] == [text];
  }

  lemma DoesNotFit(chunk: string)
    requires |chunk| > 0x10_0000
    ensures !Fits([], [chunk])
  {
    hide LastIndexOf;
    assert |Tail([])| + |[chunk][0]| > 0x10_0000;
  }

  lemma OneSegment(s: string)
    ensures Concat([s]) == s
  {
  }

  /** A line of more than 1 MiB characters written in one chunk comes out followed by an empty line. */
  lemma LongLineBreaks(line: string)
    requires NoNewline(line) && |line| > 0x10_0000
    ensures !Fits([], [line]) && Split(Concat([line])) == [line]
    ensures LinesOf(PushAll([], [line]).0) + [PushAll([], [line]).1] == [line, []]
  {
    hide *;
    PushOnce(line);
    PushLong(line);
    OnePiece(line);
    SplitPlain(line);
    DoesNotFit(line);
    OneSegment(line);
  }

  /** The wrapped stream. */
  class WrappedStream {
    var buf: string
    var console: seq<Piece>      // what was handed to the console
    var original: seq<string>    // what the original `write` was called with

    constructor ()
      ensures buf == [] && console == [] && original == []
    {
      buf, console, original := [], [], [];
    }

    method Write(chunk: string)
      modifies this
      ensures (console, buf) == (old(console) + Push(old(buf), chunk).0, Push(old(buf), chunk).1)
      ensures original == old(original) + [chunk]
      ensures NoNewline(buf) && |buf| <= 0x10_0000
    {
      PushConserves(buf, chunk);
      buf := buf + chunk;
      var overflow := |buf| > MAX_STREAM_BUFFER_LENGTH;
      var eol := if overflow then |buf| else LastIndexOf(buf);
      if eol != -1 {
        console := console + [if overflow then Overflow(buf[..eol]) else Line(buf[..eol])];
        assert overflow ==> buf[..eol] == buf;
        buf := if eol + 1 <= |buf| then buf[eol + 1..] else [];
      }
      assert old(console) + [] == old(console);
      original := original + [chunk];
    }
  }
}
