/** The order of outgoing frames: what a peer sees of every stream. */
module TransportOut {
  import opened Basics
  import opened Transport

  /** What the frames so far say of one stream. */
  datatype View = Unknown | Open(data: Bytes) | Closed(data: Bytes) | Bad

  /** started, then data of legal size, then at most one end, and nothing after it. */
  function ViewStep(v: View, o: Out, i: StreamId): View {
    match o
    case Started(_, _, ids) => if i !in ids then v else if v.Unknown? then Open([]) else Bad
    case Data(j, segment) =>
      if j != i then v else if v.Open? && 1 <= |segment| <= 4096 then Open(v.data + segment) else Bad
    case End(j) => if j != i then v else if v.Open? then Closed(v.data) else Bad
    case _ => v
  }

  function Watch(i: StreamId): (View, Out) -> View {
    (v: View, o: Out) => ViewStep(v, o, i)
  }

  function ViewOf(t: seq<Out>, i: StreamId): View {
    Fold(Watch(i), Unknown, t)
  }

  lemma ViewSnoc(t: seq<Out>, o: Out, i: StreamId)
    ensures ViewOf(t + [o], i) == ViewStep(ViewOf(t, i), o, i)
  {
    FoldSnoc(Watch(i), Unknown, t, o);
  }

  function Prefix(b: Bytes, n: int): Bytes {
    if 0 <= n <= |b| then b[..n] else b
  }

  /** What the state of the tasks says the peer must have been sent. */
  function Expect(s: State, i: StreamId): View {
    if i in s.readers && i in s.pipes then
      var p := s.pipes[i];
      match s.readers[i]
      case Sending(segment) => Open(Prefix(p.written, p.taken - |segment|))
      case Finished(_) => Closed(Prefix(p.written, p.taken))
      case _ => Open(Prefix(p.written, p.taken))
    else if s.main.Inserting? && i in s.main.ids then Open([])
    else Unknown
  }

  predicate ReaderOk(p: Pipe, r: Reader) {
    && p.taken <= |p.written|
    && (r.Sending? ==> 1 <= |r.segment| <= SEGMENT_LIMIT && |r.segment| <= p.taken
                       && r.segment == p.written[p.taken - |r.segment|..p.taken])
    && ((r.Finishing? || r.Finished?) && !r.error ==> p.closed && p.taken == |p.written|)
  }

  /** The ids the main task has taken but not inserted. */
  function PendingIds(s: State): seq<StreamId> {
    if s.main.Starting? || s.main.Inserting? then s.main.ids else []
  }

  predicate IdsOk(s: State) {
    && s.readers.Keys == s.pipes.Keys
    && (forall i :: i in s.readers ==> i < s.nextId && ReaderOk(s.pipes[i], s.readers[i]))
    && (forall i :: i in PendingIds(s) ==> i < s.nextId && i !in s.readers)
    && NoDuplicates(PendingIds(s))
  }

  ghost predicate ViewsOk(s: State) {
    forall i :: ViewOf(Trace(s), i) == Expect(s, i)
  }

  ghost predicate AnnouncedOk(s: State) {
    && (forall k, i {:trigger Announces(s.wire[k], i)} :: 0 <= k < |s.wire| && Announces(s.wire[k], i) ==> Told(s, i))
    && (forall k, i :: 0 <= k < |s.chan| && Announces(s.chan[k], i) ==>
         i in s.readers || (s.main.Inserting? && i in s.main.ids))
  }

  ghost predicate OutInv(s: State) {
    IdsOk(s) && ViewsOk(s) && AnnouncedOk(s)
  }

  /** Nothing the outgoing side depends on has changed. */
  predicate SameOut(s: State, s': State) {
    && s'.readers == s.readers && s'.pipes == s.pipes && s'.wire == s.wire && s'.chan == s.chan
    && s'.driver == s.driver && s'.nextId >= s.nextId && PendingIds(s') == PendingIds(s)
    && ((s.main.Inserting? && s.main.ids != []) <==> (s'.main.Inserting? && s'.main.ids != []))
  }

  lemma SameOutKeeps(s: State, s': State)
    requires OutInv(s) && SameOut(s, s')
    ensures OutInv(s')
  {
    hide ViewOf, ReaderOk;
    assert forall i :: Expect(s', i) == Expect(s, i);
  }

  lemma ResponseKeeps(s: State, s': State, c: nat, id: RequestId, code: Code)
    requires OutInv(s) && s'.readers == s.readers && s'.pipes == s.pipes && s'.wire == s.wire && s'.nextId == s.nextId
    requires s'.chan == s.chan + [Response(c, id, code)] && s'.driver == s.driver
    requires PendingIds(s') == PendingIds(s) && s'.main.Inserting? == s.main.Inserting?
    ensures OutInv(s')
  {
    hide ReaderOk;
    forall i ensures ViewOf(Trace(s'), i) == Expect(s', i) {
      ViewSnoc(Trace(s), Response(c, id, code), i);
      assert Trace(s') == Trace(s) + [Response(c, id, code)];
      assert Expect(s', i) == Expect(s, i);
    }
  }

  lemma WriteOutKeeps(s: State)
    requires OutInv(s) && MayWrite(s) && s.chan != []
    ensures OutInv(Next(s, WriteOut))
  {
    var s' := s.(wire := s.wire + [s.chan[0]], chan := s.chan[1..]);
    assert Next(s, WriteOut) == s';
    hide ViewOf, ReaderOk, Next;
    assert Trace(s') == Trace(s);
    assert forall i :: Expect(s', i) == Expect(s, i);
  }

  lemma ForeignKeeps(s: State)
    requires OutInv(s) && MayWrite(s)
    ensures OutInv(Next(s, WriteForeign))
  {
    var s' := s.(wire := s.wire + [Foreign]);
    assert Next(s, WriteForeign) == s';
    hide ReaderOk, Next;
    forall i ensures ViewOf(Trace(s'), i) == Expect(s', i) {
      FoldSkip(Watch(i), Unknown, s.wire, Foreign, s.chan);
      assert Expect(s', i) == Expect(s, i);
    }
  }

  lemma DuplexKeeps(s: State, s': State, c: nat, ids: seq<StreamId>)
    requires OutInv(s) && s.main.Dispatching? && Taken(s.nextId, ids, |ids|) && s'.driver == s.driver
    requires s'.readers == s.readers && s'.pipes == s.pipes && s'.wire == s.wire && s'.chan == s.chan
    requires s'.main == Starting(c, ids) && s'.nextId == NextAfter(s.nextId, ids)
    ensures OutInv(s')
  {
    hide ViewOf, ReaderOk;
    assert forall i :: Expect(s', i) == Expect(s, i);
  }

  lemma SendStartedKeeps(s: State, forId: RequestId)
    requires OutInv(s) && s.main.Starting?
    ensures OutInv(s.(chan := s.chan + [Started(s.main.call, forId, s.main.ids)],
      main := Inserting(s.main.call, s.main.ids)))
  {
    var o := Started(s.main.call, forId, s.main.ids);
    var s' := s.(chan := s.chan + [o], main := Inserting(s.main.call, s.main.ids));
    hide ReaderOk;
    forall i ensures ViewOf(Trace(s'), i) == Expect(s', i) {
      ViewSnoc(Trace(s), o, i);
      assert Trace(s') == Trace(s) + [o];
      assert ViewOf(Trace(s), i) == Expect(s, i);
      assert i in s.main.ids ==> i in PendingIds(s);
    }
  }

  lemma InsertKeeps(s: State, s': State)
    requires OutInv(s) && s.main.Inserting? && s.main.ids != []
    requires s'.readers == s.readers[s.main.ids[0] := Reading]
      && s'.pipes == s.pipes[s.main.ids[0] := Pipe([], 0, false)]
    requires s'.wire == s.wire && s'.chan == s.chan && s'.nextId == s.nextId
    requires s'.main == Inserting(s.main.call, s.main.ids[1..]) && s'.driver == s.driver
    ensures OutInv(s')
  {
    hide ViewOf;
    var ids := s.main.ids;
    assert ids[0] in PendingIds(s);
    forall i ensures i in ids <==> i == ids[0] || i in ids[1..] { assert ids == [ids[0]] + ids[1..]; }
    forall i ensures Expect(s', i) == Expect(s, i) { }
  }

  /** A step of one stream that sends nothing and leaves its view as it was. */
  lemma QuietKeeps(s: State, s': State, i: StreamId)
    requires OutInv(s) && i in s.readers && i in s'.readers && i in s'.pipes
    requires s' == s.(readers := s.readers[i := s'.readers[i]], pipes := s.pipes[i := s'.pipes[i]])
    requires ReaderOk(s'.pipes[i], s'.readers[i]) && Expect(s', i) == Expect(s, i)
    ensures OutInv(s')
  {
    hide ViewOf, ReaderOk;
    forall j ensures Expect(s', j) == Expect(s, j) { }
    hide Expect;
    assert Trace(s') == Trace(s);
  }

  /** A step of one stream that sends frame `o` of that stream. */
  lemma SpeakKeeps(s: State, s': State, i: StreamId, o: Out)
    requires OutInv(s) && i in s.readers && i in s'.readers
    requires s' == s.(readers := s.readers[i := s'.readers[i]], chan := s.chan + [o])
    requires (o.Data? || o.End?) && o.stream == i
    requires ReaderOk(s.pipes[i], s'.readers[i]) && Expect(s', i) == ViewStep(Expect(s, i), o, i)
    ensures OutInv(s')
  {
    hide ReaderOk;
    assert Trace(s') == Trace(s) + [o];
    forall j ensures ViewOf(Trace(s'), j) == Expect(s', j) {
      ViewSnoc(Trace(s), o, j);
      assert ViewOf(Trace(s), j) == Expect(s, j);
    }
  }

  lemma PrefixGrows(b: Bytes, more: Bytes, n: nat)
    requires n <= |b|
    ensures Prefix(b + more, n) == Prefix(b, n)
  {
  }

  lemma HandlerWriteKeeps(s: State, i: StreamId, bytes: Bytes)
    requires OutInv(s) && i in s.pipes && !s.pipes[i].closed
    ensures OutInv(s.(pipes := s.pipes[i := s.pipes[i].(written := s.pipes[i].written + bytes)]))
  {
    var p := s.pipes[i];
    var s' := s.(pipes := s.pipes[i := p.(written := p.written + bytes)]);
    assert i in s.readers;
    PrefixGrows(p.written, bytes, p.taken);
    if s.readers[i].Sending? { PrefixGrows(p.written, bytes, p.taken - |s.readers[i].segment|); }
    assert s'.readers == s.readers[i := s'.readers[i]];
    hide ViewsOk;
    QuietKeeps(s, s', i);
  }

  lemma HandlerCloseKeeps(s: State, i: StreamId)
    requires OutInv(s) && i in s.pipes
    ensures OutInv(s.(pipes := s.pipes[i := s.pipes[i].(closed := true)]))
  {
    var s' := s.(pipes := s.pipes[i := s.pipes[i].(closed := true)]);
    assert i in s.readers;
    assert s'.readers == s.readers[i := s'.readers[i]];
    hide ViewsOk;
    QuietKeeps(s, s', i);
  }

  lemma TakeKeeps(s: State, i: StreamId, n: nat)
    requires OutInv(s) && Enabled(s, ReaderTake(i, n))
    ensures OutInv(DoReaderTake(s, i, n))
  {
    hide ViewsOk;
    QuietKeeps(s, DoReaderTake(s, i, n), i);
  }

  lemma StopKeeps(s: State, i: StreamId, error: bool)
    requires OutInv(s) && Enabled(s, ReaderStop(i, error))
    ensures OutInv(s.(readers := s.readers[i := Finishing(error)]))
  {
    var s' := s.(readers := s.readers[i := Finishing(error)]);
    assert s'.pipes == s.pipes[i := s.pipes[i]];
    hide ViewsOk;
    QuietKeeps(s, s', i);
  }

  lemma ReaderSendKeeps(s: State, i: StreamId)
    requires OutInv(s) && ReaderIs(s, i) && s.readers[i].Sending?
    ensures OutInv(DoReaderSend(s, i))
  {
    var p, segment := s.pipes[i], s.readers[i].segment;
    assert ReaderOk(p, s.readers[i]);
    assert p.written[..p.taken - |segment|] + segment == p.written[..p.taken];
    hide ViewsOk;
    SpeakKeeps(s, DoReaderSend(s, i), i, Data(i, segment));
  }

  lemma ReaderEndKeeps(s: State, i: StreamId)
    requires OutInv(s) && ReaderIs(s, i) && s.readers[i].Finishing?
    ensures OutInv(DoReaderEnd(s, i))
  {
    hide ViewsOk;
    SpeakKeeps(s, DoReaderEnd(s, i), i, End(i));
  }

  lemma DispatchSame(s: State, ok: bool, ids: seq<StreamId>)
    requires s.main.Dispatching? && s.inbox != [] && !(s.inbox[0].Method? && HeadRoute(s).ToDuplex?)
    ensures SameOut(s, DoDispatch(s, ok, ids))
  {
    DispatchFrame(s, ok, ids);
    DispatchMain(s, ok, ids);
    hide DoDispatch, HeadRoute;
  }

  lemma DispatchKeeps(s: State, ok: bool, ids: seq<StreamId>)
    requires OutInv(s) && s.main.Dispatching? && s.inbox != [] && Taken(s.nextId, ids, WantedIds(s))
    ensures OutInv(DoDispatch(s, ok, ids))
  {
    hide OutInv, RouteOf;
    if s.inbox[0].Method? && HeadRoute(s).ToDuplex? {
      DuplexKeeps(s, DoDispatch(s, ok, ids), |s.calls|, ids);
    } else {
      DispatchSame(s, ok, ids);
      hide DoDispatch;
      SameOutKeeps(s, DoDispatch(s, ok, ids));
    }
  }

  /** Steps of tasks other than the readers, and of the environment. */
  lemma ElsewhereKeeps(s: State, a: Action)
    requires OutInv(s) && Enabled(s, a)
    requires a.PeerSend? || a.ReadStart? || a.ReadEnd? || a.SpawnFuture? || a.FutureDone? || a.RunRemove?
      || a.RemoveDone? || a.LoopStep? || a.AllocateElsewhere?
    ensures OutInv(Next(s, a))
  {
    ElsewhereSame(s, a);
    hide OutInv, SameOut, Next, Enabled;
    SameOutKeeps(s, Next(s, a));
  }

  lemma ElsewhereSame(s: State, a: Action)
    requires Enabled(s, a)
    requires a.PeerSend? || a.ReadStart? || a.ReadEnd? || a.SpawnFuture? || a.FutureDone? || a.RunRemove?
      || a.RemoveDone? || a.LoopStep? || a.AllocateElsewhere?
    ensures SameOut(s, Next(s, a))
  {
    hide S.Next, S.Enabled, FeedsStream, EndsStream, DoFutureDone, DoRunRemove, Resolved, SetPhase;
    match a
    case FutureDone(c, ok) => FutureFrame(s, c, ok);
    case RunRemove(c) => RemoveFrame(s, c);
    case RemoveDone(c) => ResolvedFrame(s, c, Success);
    case SpawnFuture => PhaseFrame(s, s.main.call, Running(None));
    case _ =>
  }

  lemma AnswerKeeps(s: State, a: Action)
    requires OutInv(s) && Enabled(s, a) && (a.SendReply? || a.SendResponse?)
    ensures OutInv(Next(s, a))
  {
    hide OutInv;
    var c := if a.SendReply? then s.main.call else a.call;
    ResponseKeeps(s, Next(s, a), c, s.calls[c].id.value, s.calls[c].phase.code);
  }

  lemma StepKeepsOut(s: State, a: Action)
    requires OutInv(s) && Enabled(s, a)
    ensures OutInv(Next(s, a))
  {
    hide OutInv;
    match a
    case Dispatch(ok, ids) => DispatchKeeps(s, ok, ids);
    case SendReply => AnswerKeeps(s, a);
    case SendResponse(_) => AnswerKeeps(s, a);
    case SendStarted => SendStartedKeeps(s, RequestOf(s.calls[s.main.call]));
    case InsertStream(w) => InsertKeeps(s, DoInsertStream(s, w));
    case HandlerWrite(i, bytes) => HandlerWriteKeeps(s, i, bytes);
    case HandlerClose(i) => HandlerCloseKeeps(s, i);
    case ReaderTake(i, n) => TakeKeeps(s, i, n);
    case ReaderStop(i, error) => StopKeeps(s, i, error);
    case ReaderSend(i) => ReaderSendKeeps(s, i);
    case ReaderEnd(i) => ReaderEndKeeps(s, i);
    case WriteOut => WriteOutKeeps(s);
    case WriteForeign => ForeignKeeps(s);
    case _ => ElsewhereKeeps(s, a);
  }

  lemma InitialOut(driver: Driver, methods: Methods)
    ensures OutInv(Initial(driver, methods))
  {
  }

  lemma {:induction false} RunKeepsOut(s: State, actions: seq<Action>, end: State)
    requires OutInv(s) && Run(s, actions, end)
    ensures OutInv(end)
    decreases |actions|
  {
    if actions != [] {
      StepKeepsOut(s, actions[0]);
      hide OutInv, Next, Enabled;
      RunKeepsOut(Next(s, actions[0]), actions[1..], end);
    }
  }

  lemma ReachableOut(s: State)
    requires Reachable(s)
    ensures OutInv(s)
  {
    var driver, methods, actions :| Run(Initial(driver, methods), actions, s);
    InitialOut(driver, methods);
    RunKeepsOut(Initial(driver, methods), actions, s);
  }

  lemma {:induction false} BadStaysBad(t: seq<Out>, i: StreamId)
    ensures Fold(Watch(i), Bad, t) == Bad
  {
    if t != [] { BadStaysBad(t[1..], i); }
  }

  /** Nothing may follow the end. */
  lemma {:induction false} ClosedStays(v: View, t: seq<Out>, i: StreamId)
    requires v.Closed? && Fold(Watch(i), v, t) != Bad
    ensures Fold(Watch(i), v, t) == v
    decreases |t|
  {
    if t != [] {
      if ViewStep(v, t[0], i) == Bad { BadStaysBad(t[1..], i); }
      ClosedStays(v, t[1..], i);
    }
  }

  /** The bytes a view has seen. */
  function BytesOf(v: View): Bytes {
    match v
    case Open(data) => data
    case Closed(data) => data
    case _ => []
  }

  /** Later frames only add bytes. */
  lemma {:induction false} BytesGrow(v: View, t: seq<Out>, i: StreamId)
    requires Fold(Watch(i), v, t) != Bad
    ensures v != Bad && BytesOf(v) <= BytesOf(Fold(Watch(i), v, t))
    decreases |t|
  {
    if v == Bad {
      BadStaysBad(t, i);
    } else if t != [] {
      BytesGrow(ViewStep(v, t[0], i), t[1..], i);
    }
  }

  /**
    On every stream the wire carries streams_started, then data segments of 1 to 4096 bytes, then
    at most one end and nothing after. The data is a prefix of what the handler wrote, and all
    of it when an end follows a reader that met no error.
   */
  lemma WireOrder(s: State, i: StreamId)
    requires Reachable(s)
    ensures ViewOf(s.wire, i) != Bad
    ensures BytesOf(ViewOf(s.wire, i)) <= if i in s.pipes then s.pipes[i].written else []
    ensures ViewOf(s.wire, i).Closed? ==>
      && i in s.readers && i in s.pipes && s.readers[i].Finished?
      && (!s.readers[i].error ==> BytesOf(ViewOf(s.wire, i)) == s.pipes[i].written)
  {
    ReachableOut(s);
    FoldAppend(Watch(i), Unknown, s.wire, s.chan);
    assert ViewOf(Trace(s), i) == Expect(s, i);
    BytesGrow(ViewOf(s.wire, i), s.chan, i);
    if ViewOf(s.wire, i).Closed? { ClosedStays(ViewOf(s.wire, i), s.chan, i); }
    if i in s.readers { assert ReaderOk(s.pipes[i], s.readers[i]); }
  }
}
