/** What a conforming peer sends on a stream reaches the stream. */
module TransportIn {
  import opened Basics
  import opened Transport
  import S = Streams
  import Sending = TransportOut

  /** The segments for stream `i`, in order. */
  function SegmentsFor(fed: seq<(StreamId, Bytes)>, i: StreamId): seq<Bytes>
    decreases |fed|
  {
    if fed == [] then []
    else
      var n := |fed| - 1;
      SegmentsFor(fed[..n], i) + (if fed[n].0 == i then [fed[n].1] else [])
  }

  lemma SegmentsSnoc(fed: seq<(StreamId, Bytes)>, x: (StreamId, Bytes), i: StreamId)
    ensures SegmentsFor(fed + [x], i) == SegmentsFor(fed, i) + (if x.0 == i then [x.1] else [])
  {
    assert (fed + [x])[..|fed|] == fed;
  }

  lemma {:induction false} SegmentsNone(fed: seq<(StreamId, Bytes)>, more: seq<(StreamId, Bytes)>, i: StreamId)
    requires forall k :: 0 <= k < |more| ==> more[k].0 != i
    ensures SegmentsFor(fed + more, i) == SegmentsFor(fed, i)
    decreases |more|
  {
    if more == [] {
      assert fed + more == fed;
    } else {
      var n := |more| - 1;
      SegmentsNone(fed, more[..n], i);
      SegmentsSnoc(fed + more[..n], more[n], i);
      assert fed + more[..n] + [more[n]] == fed + more;
      assert SegmentsFor(fed, i) + [] == SegmentsFor(fed, i);
    }
  }

  /** The stream data still in the inbox. */
  function DataIn(inbox: seq<Incoming>): seq<(StreamId, Bytes)>
    decreases |inbox|
  {
    if inbox == [] then []
    else
      var n := |inbox| - 1;
      DataIn(inbox[..n]) + DataOf(inbox[n])
  }

  function DataOf(f: Incoming): seq<(StreamId, Bytes)> {
    if FeedsStream(f).Some? then [FeedsStream(f).value] else []
  }

  lemma {:induction false} DataInFront(inbox: seq<Incoming>)
    requires inbox != []
    ensures DataIn(inbox) == DataOf(inbox[0]) + DataIn(inbox[1..])
    decreases |inbox|
  {
    hide DataOf;
    if |inbox| == 1 {
      assert inbox[..0] == [] && inbox[1..] == [];
    } else {
      var n := |inbox| - 1;
      DataInFront(inbox[..n]);
      assert inbox[..n][1..] == inbox[1..][..n - 1];
    }
  }

  lemma {:induction false} DataInFrom(inbox: seq<Incoming>, i: StreamId)
    requires forall k :: 0 <= k < |inbox| ==> !FeedsTo(inbox[k], i)
    ensures forall k :: 0 <= k < |DataIn(inbox)| ==> DataIn(inbox)[k].0 != i
    decreases |inbox|
  {
    if inbox != [] {
      var n := |inbox| - 1;
      assert forall k :: 0 <= k < n ==> inbox[..n][k] == inbox[k];
      DataInFrom(inbox[..n], i);
      assert !FeedsTo(inbox[n], i);
    }
  }

  predicate FeedsTo(f: Incoming, i: StreamId) {
    FeedsStream(f).Some? && FeedsStream(f).value.0 == i
  }

  predicate EndsTo(f: Incoming, i: StreamId) {
    EndsStream(f) == Some(i)
  }

  /** A stream whose `remove` has not run has a record that is not marked as ended. */
  predicate TableOk(s: State) {
    && S.Inv(s.streams)
    && s.streams.log.Keys == s.readers.Keys
    && (forall i :: i in s.readers && i !in s.removed ==> i in s.streams.table && !s.streams.table[i].ended)
  }

  predicate EndsOk(s: State) {
    && s.removed <= s.ended <= s.peerEnded
    && (forall c :: 0 <= c < |s.calls| && s.calls[c].phase.EndingStream? ==> s.calls[c].phase.stream in s.ended)
  }

  /** Data waiting to be dispatched is for an inserted stream that has not been ended before it. */
  ghost predicate InboxOk(s: State) {
    && (forall k, i {:trigger FeedsTo(s.inbox[k], i)} :: 0 <= k < |s.inbox| && FeedsTo(s.inbox[k], i) ==>
         Told(s, i) && i !in s.ended)
    && (forall j, k, i :: 0 <= j < k < |s.inbox| && FeedsTo(s.inbox[k], i) ==> !EndsTo(s.inbox[j], i))
    && (forall k, i :: 0 <= k < |s.inbox| && EndsTo(s.inbox[k], i) ==> i in s.peerEnded)
  }

  predicate FedOk(s: State) {
    && (forall i :: i in s.streams.log ==> s.streams.log[i].accepted == SegmentsFor(s.fed, i))
    && (forall k :: 0 <= k < |s.fed| ==> s.fed[k].0 in s.readers)
    && s.sent == s.fed + DataIn(s.inbox)
  }

  ghost predicate InInv(s: State) {
    TableOk(s) && EndsOk(s) && InboxOk(s) && FedOk(s)
  }

  /** Nothing the incoming side depends on has changed. */
  predicate SameIn(s: State, s': State) {
    && s'.streams == s.streams && s'.readers.Keys == s.readers.Keys && s'.inbox == s.inbox
    && s'.sent == s.sent && s'.fed == s.fed && s'.ended == s.ended && s'.removed == s.removed
       && s'.peerEnded == s.peerEnded
    && s'.driver == s.driver && (s.main.Inserting? && s.main.ids != [] ==> s'.main == s.main)
    && forall c :: 0 <= c < |s'.calls| && s'.calls[c].phase.EndingStream? ==>
         s'.calls[c].phase.stream in s.ended || (c < |s.calls| && s.calls[c].phase == s'.calls[c].phase)
  }

  lemma SameInKeeps(s: State, s': State)
    requires InInv(s) && SameIn(s, s')
    ensures InInv(s')
  {
    hide FeedsTo, EndsTo, SegmentsFor, DataIn;
  }

  /** What a conforming peer sends is for streams it knows and has not ended. */
  lemma SentFrame(s: State, f: Incoming, i: StreamId)
    requires Sending.AnnouncedOk(s) && Conforming(s, PeerSend(f)) && FeedsTo(f, i)
    ensures Told(s, i) && i !in s.peerEnded
  {
    hide FeedsStream;
  }

  lemma PeerSendInbox(s: State, f: Incoming)
    requires InboxOk(s) && s.ended <= s.peerEnded
    requires forall i :: FeedsTo(f, i) ==> Told(s, i) && i !in s.peerEnded
    ensures InboxOk(DoPeerSend(s, f))
  {
    var s' := DoPeerSend(s, f);
    var n := |s.inbox|;
    assert forall k :: 0 <= k < n ==> s'.inbox[k] == s.inbox[k];
    assert s'.inbox[n] == f && |s'.inbox| == n + 1;
    assert forall i :: EndsTo(f, i) ==> i in s'.peerEnded;
    hide FeedsTo, EndsTo, FeedsStream, EndsStream, DoPeerSend;
  }

  lemma PeerSendFed(s: State, f: Incoming)
    requires FedOk(s)
    ensures FedOk(DoPeerSend(s, f))
  {
    hide SegmentsFor, FeedsStream, EndsStream;
    var s', data := DoPeerSend(s, f), DataOf(f);
    assert s'.inbox[..|s.inbox|] == s.inbox;
    assert DataIn(s'.inbox) == DataIn(s.inbox) + data;
    hide DataIn;
    assert s'.sent == s.sent + data;
    assert s.fed + DataIn(s.inbox) + data == s.fed + (DataIn(s.inbox) + data);
  }

  lemma PeerSendKeeps(s: State, f: Incoming)
    requires InInv(s) && Sending.OutInv(s) && Conforming(s, PeerSend(f))
    ensures InInv(DoPeerSend(s, f))
  {
    hide S.Inv, SegmentsFor, DataIn, FeedsTo, EndsTo, FeedsStream, EndsStream, Conforming;
    forall i | FeedsTo(f, i) ensures Told(s, i) && i !in s.peerEnded { SentFrame(s, f, i); }
    PeerSendInbox(s, f);
    PeerSendFed(s, f);
    hide InboxOk, FedOk;
  }

  lemma LoopTable(t: S.State, a: S.Action, i: StreamId)
    requires S.Enabled(t, a) && !a.Insert? && !a.Write? && !a.Remove?
    requires i in t.table && !t.table[i].ended
    ensures i in S.Next(t, a).table && !S.Next(t, a).table[i].ended
  {
  }

  lemma LoopLog(t: S.State, a: S.Action)
    requires S.Enabled(t, a) && !a.Insert? && !a.Write? && !a.Remove?
    ensures S.Next(t, a).log == t.log
  {
  }

  lemma LoopKeeps(s: State, a: S.Action)
    requires InInv(s) && S.Enabled(s.streams, a) && !a.Insert? && !a.Write? && !a.Remove?
    ensures InInv(s.(streams := S.Next(s.streams, a)))
  {
    hide S.Inv, S.Next, S.Enabled, FeedsTo, EndsTo, SegmentsFor, DataIn;
    var s' := s.(streams := S.Next(s.streams, a));
    S.StepKeepsInv(s.streams, a);
    LoopLog(s.streams, a);
    forall i | i in s.readers && i !in s.removed ensures i in s'.streams.table && !s'.streams.table[i].ended {
      LoopTable(s.streams, a, i);
    }
    assert TableOk(s') && EndsOk(s') && FedOk(s');
  }

  lemma InsertTable(t: S.State, i: StreamId, w: S.Writer)
    ensures S.DoInsert(t, i, w).table == t.table[i := S.StreamRec(Some(w), [], false)]
    ensures S.DoInsert(t, i, w).log == t.log[i := S.History(w, [])]
  {
  }

  lemma {:induction false} NoSegments(fed: seq<(StreamId, Bytes)>, i: StreamId)
    requires forall k :: 0 <= k < |fed| ==> fed[k].0 != i
    ensures SegmentsFor(fed, i) == []
    decreases |fed|
  {
    if fed != [] { NoSegments(fed[..|fed| - 1], i); }
  }

  lemma InsertRest(s: State, s': State, i: StreamId, w: S.Writer)
    requires InInv(s) && i !in s.readers && SegmentsFor(s.fed, i) == []
    requires S.Inv(s'.streams) && s'.streams.log == s.streams.log[i := S.History(w, [])]
    requires s'.streams.table == s.streams.table[i := S.StreamRec(Some(w), [], false)]
    requires s' == s.(main := s'.main, streams := s'.streams, readers := s.readers[i := Reading], pipes := s'.pipes)
    requires s.main.Inserting? && s.main.ids != [] && i == s.main.ids[0]
    requires s'.main == Inserting(s.main.call, s.main.ids[1..])
    ensures InInv(s')
  {
    hide S.Inv, FeedsTo, EndsTo, SegmentsFor, DataIn;
    assert TableOk(s') && EndsOk(s') && FedOk(s');
  }

  lemma InsertKeeps(s: State, w: S.Writer)
    requires InInv(s) && s.main.Inserting? && s.main.ids != [] && w !in s.streams.sinks && s.main.ids[0] !in s.readers
    ensures InInv(DoInsertStream(s, w))
  {
    var i := s.main.ids[0];
    hide S.Inv;
    assert S.Inv(s.streams) && i !in s.streams.log;
    NoSegments(s.fed, i);
    hide InInv;
    S.InsertStep(s.streams, i, w);
    InsertTable(s.streams, i, w);
    hide S.DoInsert;
    InsertRest(s, DoInsertStream(s, w), i, w);
  }

  lemma RemoveTable(t: S.State, i: StreamId, j: StreamId)
    requires j != i
    ensures j in S.DoRemove(t, i).table <==> j in t.table
    ensures j in t.table ==> S.DoRemove(t, i).table[j] == t.table[j]
    ensures S.DoRemove(t, i).log == t.log
  {
  }

  lemma RemoveRest(s: State, s': State, i: StreamId)
    requires InInv(s) && i in s.ended && S.Inv(s'.streams) && s'.streams.log == s.streams.log
    requires forall j :: j != i && j in s.streams.table ==>
      j in s'.streams.table && s'.streams.table[j] == s.streams.table[j]
    requires s' == s.(streams := s'.streams, removed := s.removed + {i}, calls := s'.calls)
    requires forall c :: 0 <= c < |s'.calls| && s'.calls[c].phase.EndingStream? ==>
      c < |s.calls| && s.calls[c].phase == s'.calls[c].phase
    ensures InInv(s')
  {
    hide S.Inv, FeedsTo, EndsTo, SegmentsFor, DataIn;
    assert TableOk(s') && EndsOk(s') && FedOk(s');
  }

  lemma RemoveShape(s: State, c: nat)
    requires c < |s.calls| && s.calls[c].phase.EndingStream?
    ensures var s', i := DoRunRemove(s, c), s.calls[c].phase.stream;
      && s' == s.(streams := S.DoRemove(s.streams, i), removed := s.removed + {i}, calls := s'.calls)
      && forall d :: 0 <= d < |s'.calls| && s'.calls[d].phase.EndingStream? ==>
         d < |s.calls| && s.calls[d].phase == s'.calls[d].phase
  {
    hide S.DoRemove, S.RemoveRec;
  }

  lemma RemoveKeeps(s: State, c: nat)
    requires InInv(s) && c < |s.calls| && s.calls[c].phase.EndingStream?
    ensures InInv(DoRunRemove(s, c))
  {
    hide S.Inv, S.DoRemove, DoRunRemove;
    RemoveShape(s, c);
    var i := s.calls[c].phase.stream;
    assert S.Inv(s.streams) && i in s.ended;
    hide InInv;
    S.RemoveStep(s.streams, i);
    RemoveTable(s.streams, i, i + 1);
    forall j | j != i && j in s.streams.table
      ensures j in S.DoRemove(s.streams, i).table && S.DoRemove(s.streams, i).table[j] == s.streams.table[j]
    {
      RemoveTable(s.streams, i, j);
    }
    RemoveRest(s, DoRunRemove(s, c), i);
  }

  // ---------- Dispatching ----------

  lemma WriteTable(t: S.State, i: StreamId, bytes: Bytes)
    requires i in t.table && i in t.log
    ensures S.DoWrite(t, i, bytes).table == t.table[i := S.DoWrite(t, i, bytes).table[i]]
    ensures S.DoWrite(t, i, bytes).table[i].ended == t.table[i].ended
    ensures S.DoWrite(t, i, bytes).log == t.log[i := t.log[i].(accepted := t.log[i].accepted + [bytes])]
  {
  }

  /** The data at the head of the inbox meets a record that is open. */
  lemma HeadMeetsRecord(s: State, i: StreamId)
    requires InInv(s) && s.inbox != [] && FeedsTo(s.inbox[0], i) && (s.main.Inserting? ==> !s.driver.ownWriter)
    ensures i in s.readers && i in s.streams.table && i in s.streams.log && !s.streams.table[i].ended
  {
    hide S.Inv, SegmentsFor, DataIn, FeedsTo, EndsTo;
  }

  lemma PopInbox(s: State)
    requires InboxOk(s) && s.inbox != []
    ensures InboxOk(s.(inbox := s.inbox[1..]))
    ensures forall i :: EndsTo(s.inbox[0], i) ==>
      InboxOk(s.(inbox := s.inbox[1..], ended := s.ended + {i})) && i in s.peerEnded
  {
    hide FeedsTo, EndsTo;
    var tail := s.inbox[1..];
    assert forall k :: 0 <= k < |tail| ==> tail[k] == s.inbox[k + 1];
  }

  lemma SameInbox(s: State, s': State)
    requires InboxOk(s) && s'.inbox == s.inbox && s'.readers == s.readers && s'.ended == s.ended
    requires s'.driver == s.driver && s'.main == s.main
      && s'.peerEnded == s.peerEnded
    ensures InboxOk(s')
  {
    hide FeedsTo, EndsTo;
  }

  lemma PopData(s: State, i: StreamId, bytes: Bytes)
    requires InInv(s) && s.inbox != [] && FeedsStream(s.inbox[0]) == Some((i, bytes)) && s.main.Dispatching?
    ensures InInv(s.(inbox := s.inbox[1..], streams := S.DoWrite(s.streams, i, bytes), fed := s.fed + [(i, bytes)]))
  {
    hide S.Inv, EndsTo, FeedsStream, DataIn, SegmentsFor, S.DoWrite;
    var s' := s.(inbox := s.inbox[1..], streams := S.DoWrite(s.streams, i, bytes), fed := s.fed + [(i, bytes)]);
    assert FeedsTo(s.inbox[0], i);
    hide FeedsTo;
    HeadMeetsRecord(s, i);
    PopInbox(s);
    DataInFront(s.inbox);
    SameInbox(s.(inbox := s.inbox[1..]), s');
    hide InboxOk;
    S.WriteStep(s.streams, i, bytes);
    WriteTable(s.streams, i, bytes);
    PopDataTable(s, s', i);
    hide TableOk, EndsOk;
    PopDataFed(s, s', i, bytes);
  }

  lemma PopDataTable(s: State, s': State, i: StreamId)
    requires TableOk(s) && EndsOk(s) && i in s.streams.table && i in s'.streams.table && S.Inv(s'.streams)
    requires s'.streams.table == s.streams.table[i := s'.streams.table[i]]
    requires s'.streams.table[i].ended == s.streams.table[i].ended
    requires s'.streams.log.Keys == s.streams.log.Keys
    requires s' == s.(inbox := s'.inbox, streams := s'.streams, fed := s'.fed)
    ensures TableOk(s') && EndsOk(s')
  {
    hide S.Inv;
  }

  lemma PopDataFed(s: State, s': State, i: StreamId, bytes: Bytes)
    requires FedOk(s) && i in s.readers && i in s.streams.log && s.inbox != []
    requires DataIn(s.inbox) == [(i, bytes)] + DataIn(s.inbox[1..])
    requires s'.streams.log == s.streams.log[i := s.streams.log[i].(accepted := s.streams.log[i].accepted + [bytes])]
    requires s' == s.(inbox := s.inbox[1..], streams := s'.streams, fed := s.fed + [(i, bytes)])
    ensures FedOk(s')
  {
    hide SegmentsFor, DataIn;
    forall j | j in s'.streams.log ensures s'.streams.log[j].accepted == SegmentsFor(s'.fed, j) {
      SegmentsSnoc(s.fed, (i, bytes), j);
    }
    assert s.fed + ([(i, bytes)] + DataIn(s'.inbox)) == s'.fed + DataIn(s'.inbox);
  }

  lemma PopOther(s: State)
    requires InInv(s) && s.inbox != [] && FeedsStream(s.inbox[0]).None?
    ensures InInv(s.(inbox := s.inbox[1..]))
    ensures forall i :: EndsTo(s.inbox[0], i) ==> InInv(s.(inbox := s.inbox[1..], ended := s.ended + {i}))
  {
    hide S.Inv, FeedsTo, EndsTo, FeedsStream, DataIn, SegmentsFor;
    PopInbox(s);
    DataInFront(s.inbox);
    assert [] + DataIn(s.inbox[1..]) == DataIn(s.inbox[1..]);
    hide InboxOk;
  }

  /** A frame and the route it takes, for the two built-in methods. */
  lemma BuiltInRoutes(s: State)
    requires s.inbox != []
    ensures s.inbox[0].Reply? ==> FeedsStream(s.inbox[0]).None?
    ensures s.inbox[0].Method? ==> FeedsStream(s.inbox[0]) == if HeadRoute(s).ToData?
      then Some((HeadRoute(s).stream, HeadRoute(s).bytes)) else None
    ensures s.inbox[0].Method? && HeadRoute(s).ToEnd? ==> EndsTo(s.inbox[0], HeadRoute(s).stream)
  {
  }

  lemma DispatchRest(s: State, ok: bool, ids: seq<StreamId>)
    requires s.inbox != [] && s.main.Dispatching?
    ensures var s1 := s.(inbox := s.inbox[1..]);
      var popped := if s.inbox[0].Reply? then s1
                    else match HeadRoute(s)
                      case ToData(i, bytes) =>
                        s1.(streams := S.DoWrite(s.streams, i, bytes), fed := s.fed + [(i, bytes)])
                      case ToEnd(i) => s1.(ended := s.ended + {i})
                      case _ => s1;
      SameIn(popped, DoDispatch(s, ok, ids))
  {
    DispatchFrame(s, ok, ids);
    DispatchCalls(s, ok, ids);
    DispatchStreams(s, ok, ids);
    hide DoDispatch, HeadRoute, S.DoWrite;
  }

  lemma DispatchKeeps(s: State, ok: bool, ids: seq<StreamId>)
    requires InInv(s) && s.inbox != [] && s.main.Dispatching?
    ensures InInv(DoDispatch(s, ok, ids))
  {
    hide InInv, EndsTo, FeedsStream, HeadRoute, DoDispatch, SameIn;
    var s1 := s.(inbox := s.inbox[1..]);
    BuiltInRoutes(s);
    DispatchRest(s, ok, ids);
    if s.inbox[0].Reply? {
      PopOther(s);
      SameInKeeps(s1, DoDispatch(s, ok, ids));
    } else {
      match HeadRoute(s)
      case ToData(i, bytes) =>
        PopData(s, i, bytes);
        SameInKeeps(s1.(streams := S.DoWrite(s.streams, i, bytes), fed := s.fed + [(i, bytes)]),
          DoDispatch(s, ok, ids));
      case ToEnd(i) =>
        PopOther(s);
        SameInKeeps(s1.(ended := s.ended + {i}), DoDispatch(s, ok, ids));
      case _ =>
        PopOther(s);
        SameInKeeps(s1, DoDispatch(s, ok, ids));
    }
  }

  /** Steps of the outgoing side and of handlers. */
  lemma ElsewhereKeeps(s: State, a: Action)
    requires InInv(s) && Enabled(s, a)
    requires !a.PeerSend? && !a.Dispatch? && !a.InsertStream? && !a.RunRemove? && !a.LoopStep?
    ensures InInv(Next(s, a))
  {
    ElsewhereSame(s, a);
    hide InInv, Enabled, Next, SameIn;
    SameInKeeps(s, Next(s, a));
  }

  lemma ElsewhereSame(s: State, a: Action)
    requires Enabled(s, a)
    requires !a.PeerSend? && !a.Dispatch? && !a.InsertStream? && !a.RunRemove? && !a.LoopStep?
    ensures SameIn(s, Next(s, a))
  {
    assert OfCalls(a) || OfPipes(a);
    hide SameIn, Next, Enabled, OfCalls, OfPipes;
    if OfCalls(a) { CallsSame(s, a); } else { PipesSame(s, a); }
  }

  lemma CallsSame(s: State, a: Action)
    requires Enabled(s, a) && OfCalls(a)
    ensures SameIn(s, Next(s, a))
  {
    CallsFrame(s, a);
    CallsPhases(s, a);
    hide Next, Enabled, OfCalls;
  }

  lemma PipesSame(s: State, a: Action)
    requires Enabled(s, a) && OfPipes(a)
    ensures SameIn(s, Next(s, a))
  {
    PipesFrame(s, a);
    hide Next, Enabled;
  }

  lemma StepKeepsIn(s: State, a: Action)
    requires InInv(s) && Sending.OutInv(s) && Enabled(s, a) && Conforming(s, a)
    ensures InInv(Next(s, a))
  {
    if a.InsertStream? { InsertFresh(s); }
    hide InInv, Sending.OutInv, Conforming;
    match a
    case PeerSend(f) => PeerSendKeeps(s, f);
    case Dispatch(ok, ids) => DispatchKeeps(s, ok, ids);
    case InsertStream(w) => InsertKeeps(s, w);
    case RunRemove(c) => RemoveKeeps(s, c);
    case LoopStep(step) => LoopKeeps(s, step);
    case _ => ElsewhereKeeps(s, a);
  }

  lemma InsertFresh(s: State)
    requires Sending.OutInv(s) && s.main.Inserting? && s.main.ids != []
    ensures s.main.ids[0] !in s.readers
  {
    assert s.main.ids[0] in Sending.PendingIds(s);
  }

  lemma InitialIn(driver: Driver, methods: Methods)
    ensures InInv(Initial(driver, methods))
  {
  }

  lemma {:induction false} RunKeepsIn(s: State, actions: seq<Action>, end: State)
    requires InInv(s) && Sending.OutInv(s) && ConformingRun(s, actions, end)
    ensures InInv(end) && Sending.OutInv(end)
    decreases |actions|
  {
    if actions != [] {
      StepKeepsIn(s, actions[0]);
      Sending.StepKeepsOut(s, actions[0]);
      hide InInv, Sending.OutInv, Next, Enabled;
      RunKeepsIn(Next(s, actions[0]), actions[1..], end);
    }
  }

  lemma ReachableIn(s: State)
    requires ConformingReachable(s)
    ensures InInv(s) && Sending.OutInv(s)
  {
    var driver, methods, actions :| ConformingRun(Initial(driver, methods), actions, s);
    InitialIn(driver, methods);
    Sending.InitialOut(driver, methods);
    RunKeepsIn(Initial(driver, methods), actions, s);
  }

  /**
    A stream is in the table before the peer is told of it, and stays there until its `remove`.
    With a task of its own for writing that is so as soon as its streams have been inserted.
   */
  lemma AnnouncedInTable(s: State, i: StreamId)
    requires ConformingReachable(s) && Announced(s, i) && (s.main.Inserting? ==> !s.driver.ownWriter)
    ensures i in s.streams.log
    ensures i !in s.removed ==> i in s.streams.table && !s.streams.table[i].ended
  {
    ReachableIn(s);
    hide S.Inv, FeedsTo, EndsTo, SegmentsFor, DataIn;
  }

  /** No data of a conforming peer meets a missing record: dispatching it queues it for the stream. */
  lemma DataMeetsRecord(s: State, i: StreamId, bytes: Bytes)
    requires ConformingReachable(s) && s.inbox != [] && FeedsStream(s.inbox[0]) == Some((i, bytes))
    requires s.main.Inserting? ==> !s.driver.ownWriter
    ensures i in s.streams.table && i in s.streams.log
    ensures S.DoWrite(s.streams, i, bytes).log[i].accepted == s.streams.log[i].accepted + [bytes]
  {
    ReachableIn(s);
    hide InInv;
    HeadMeetsRecord(s, i);
  }

  /**
    From peer to pipe: whatever the schedule, the pipe of a stream receives a prefix of the data
    the peer sent on it; and when its writer has been shut down without a failure, all of it.
   */
  lemma PeerDataDelivered(s: State, i: StreamId)
    requires ConformingReachable(s) && i in s.readers
    ensures i in s.streams.log && s.streams.log[i].writer in s.streams.sinks
    ensures var k := s.streams.sinks[s.streams.log[i].writer];
      var all := Concat(SegmentsFor(s.sent, i));
      k.delivered <= all && (k.shutdowns > 0 && !k.failed ==> k.delivered == all)
  {
    ReachableIn(s);
    var c := ChannelFacts(s, i);
    AcceptedIsPrefix(s, i);
    if c.sink.shutdowns > 0 {
      assert i in s.removed;
      RemovedAllFed(s, i);
    }
  }

  lemma ChannelFacts(s: State, i: StreamId) returns (c: S.Channel)
    requires InInv(s) && i in s.readers
    ensures i in s.streams.log && s.streams.log[i].writer in s.streams.sinks && c == S.ChannelOf(s.streams, i)
      && S.Good(c)
  {
    hide FeedsTo, EndsTo, SegmentsFor, DataIn, S.Good;
    c := S.ChannelOf(s.streams, i);
  }

  lemma {:induction false} SegmentsAppend(a: seq<(StreamId, Bytes)>, b: seq<(StreamId, Bytes)>, i: StreamId)
    ensures SegmentsFor(a + b, i) == SegmentsFor(a, i) + SegmentsFor(b, i)
    decreases |b|
  {
    if b == [] {
      assert a + b == a && SegmentsFor(a, i) + [] == SegmentsFor(a, i);
    } else {
      var n := |b| - 1;
      SegmentsAppend(a, b[..n], i);
      SegmentsSnoc(a + b[..n], b[n], i);
      assert a + b[..n] + [b[n]] == a + b;
      var last := if b[n].0 == i then [b[n].1] else [];
      assert SegmentsFor(a, i) + SegmentsFor(b[..n], i) + last == SegmentsFor(a, i) + (SegmentsFor(b[..n], i) + last);
    }
  }

  lemma AcceptedIsPrefix(s: State, i: StreamId)
    requires InInv(s) && i in s.streams.log
    ensures Concat(s.streams.log[i].accepted) <= Concat(SegmentsFor(s.sent, i))
  {
    hide S.Inv, FeedsTo, EndsTo, SegmentsFor, DataIn;
    SegmentsAppend(s.fed, DataIn(s.inbox), i);
    ConcatAppend(SegmentsFor(s.fed, i), SegmentsFor(DataIn(s.inbox), i));
  }

  lemma RemovedAllFed(s: State, i: StreamId)
    requires InInv(s) && i in s.streams.log && i in s.removed
    ensures SegmentsFor(s.sent, i) == s.streams.log[i].accepted
  {
    hide S.Inv, FeedsTo, EndsTo, SegmentsFor, DataIn;
    assert forall k :: 0 <= k < |s.inbox| ==> !FeedsTo(s.inbox[k], i);
    DataInFrom(s.inbox, i);
    SegmentsNone(s.fed, DataIn(s.inbox), i);
  }
}
