/** A stream the peer has ended is removed, drained and shut down once everything has run its course. */
module TransportEnd {
  import opened Basics
  import opened Transport
  import S = Streams
  import Sending = TransportOut
  import Calling = TransportCalls
  import Receiving = TransportIn

  /** A peer that also ends only streams it was told of. */
  ghost predicate Polite(s: State, a: Action) {
    && Conforming(s, a)
    && (a.PeerSend? && EndsStream(a.frame).Some? ==> Announced(s, EndsStream(a.frame).value))
  }

  ghost predicate PoliteRun(s: State, actions: seq<Action>, end: State)
    decreases |actions|
  {
    if actions == [] then end == s
    else Enabled(s, actions[0]) && Polite(s, actions[0]) && PoliteRun(Next(s, actions[0]), actions[1..], end)
  }

  ghost predicate PoliteReachable(s: State) {
    exists driver, methods, actions :: PoliteRun(Initial(driver, methods), actions, s)
  }

  lemma {:induction false} PoliteIsConforming(s: State, actions: seq<Action>, end: State)
    requires PoliteRun(s, actions, end)
    ensures ConformingRun(s, actions, end) && Run(s, actions, end)
    decreases |actions|
  {
    hide Next, Enabled, Conforming;
    if actions != [] { PoliteIsConforming(Next(s, actions[0]), actions[1..], end); }
  }

  /** A stream_ended for the stream has arrived but not been dispatched. */
  predicate Waiting(inbox: seq<Incoming>, i: StreamId) {
    exists k :: 0 <= k < |inbox| && Receiving.EndsTo(inbox[k], i)
  }

  /** A future is about to `remove` the stream. */
  predicate Removing(calls: seq<Call>, i: StreamId) {
    exists c :: 0 <= c < |calls| && calls[c].phase == EndingStream(i)
  }

  predicate MarkedEnded(t: S.Table, i: StreamId) {
    i in t ==> t[i].ended
  }

  /** The end of a stream is never lost between the peer, the inbox, its future and the table. */
  ghost predicate EndInv(s: State) {
    && (forall i :: i in s.peerEnded ==> Told(s, i))
    && (forall i :: i in s.ended ==> i in s.readers)
    && (forall i :: i in s.peerEnded ==> i in s.ended || Waiting(s.inbox, i))
    && (forall i :: i in s.ended ==> i in s.removed || Removing(s.calls, i))
    && (forall i :: i in s.removed ==> i in s.peerEnded && MarkedEnded(s.streams.table, i))
  }

  /** No future about to remove a stream is lost. */
  predicate KeepsRemoving(calls: seq<Call>, calls': seq<Call>) {
    forall c :: 0 <= c < |calls| && calls[c].phase.EndingStream? ==> c < |calls'| && calls'[c].phase == calls[c].phase
  }

  lemma RemovingStays(calls: seq<Call>, calls': seq<Call>, i: StreamId)
    requires KeepsRemoving(calls, calls') && Removing(calls, i)
    ensures Removing(calls', i)
  {
    var c :| 0 <= c < |calls| && calls[c].phase == EndingStream(i);
    assert calls'[c].phase == EndingStream(i);
  }

  ghost predicate SameEnds(s: State, s': State) {
    && s'.peerEnded == s.peerEnded && s'.ended == s.ended && s'.removed == s.removed && s'.inbox == s.inbox
    && s'.readers.Keys >= s.readers.Keys && KeepsRemoving(s.calls, s'.calls)
    && s'.driver == s.driver && (forall i :: Told(s, i) ==> Told(s', i))
  }

  /** Steps that leave the marks in the table, or only add them. */
  lemma SameEndsKeeps(s: State, s': State)
    requires EndInv(s) && SameEnds(s, s')
    requires forall i :: i in s.removed && MarkedEnded(s.streams.table, i) ==> MarkedEnded(s'.streams.table, i)
    ensures EndInv(s')
  {
    hide Waiting, Removing, MarkedEnded;
    forall i | i in s'.ended ensures i in s'.removed || Removing(s'.calls, i) {
      if i !in s.removed { RemovingStays(s.calls, s'.calls, i); }
    }
  }

  lemma PeerSendEnds(s: State, f: Incoming)
    requires EndInv(s) && Sending.OutInv(s) && Polite(s, PeerSend(f))
    ensures EndInv(DoPeerSend(s, f))
  {
    hide Removing, MarkedEnded, FeedsStream, Sending.ViewsOk, Sending.IdsOk;
    var s' := DoPeerSend(s, f);
    forall i | i in s'.peerEnded ensures Told(s', i) && (i in s'.ended || Waiting(s'.inbox, i)) {
      if i in s.peerEnded {
        if i !in s.ended {
          var k :| 0 <= k < |s.inbox| && Receiving.EndsTo(s.inbox[k], i);
          assert Receiving.EndsTo(s'.inbox[k], i);
        }
      } else {
        assert Receiving.EndsTo(s'.inbox[|s.inbox|], i);
      }
    }
  }

  lemma EndRoute(s: State, i: StreamId)
    requires s.inbox != [] && Receiving.EndsTo(s.inbox[0], i)
    ensures s.inbox[0].Method? && HeadRoute(s) == ToEnd(i)
  {
  }

  /** A stream_ended at the head of the inbox becomes a future. */
  lemma EndShape(s: State, ok: bool, ids: seq<StreamId>)
    requires s.inbox != [] && s.inbox[0].Method? && HeadRoute(s).ToEnd?
    ensures var i := HeadRoute(s).stream;
      DoDispatch(s, ok, ids) ==
        s.(inbox := s.inbox[1..], ended := s.ended + {i}, handled := s.handled + [s.inbox[0]],
           calls := s.calls + [Call(s.inbox[0].id, false, EndingStream(i))])
  {
    hide HeadRoute;
  }

  /** Any other frame only leaves the inbox, as far as ends are concerned. */
  lemma OtherShape(s: State, ok: bool, ids: seq<StreamId>)
    requires s.inbox != [] && s.main.Dispatching? && !(s.inbox[0].Method? && HeadRoute(s).ToEnd?)
    ensures SameEnds(s.(inbox := s.inbox[1..]), DoDispatch(s, ok, ids))
  {
    DispatchFrame(s, ok, ids);
    DispatchCalls(s, ok, ids);
    DispatchStreams(s, ok, ids);
    hide DoDispatch, HeadRoute, S.DoWrite;
  }

  lemma DispatchTable(s: State, ok: bool, ids: seq<StreamId>, i: StreamId)
    requires s.inbox != [] && s.main.Dispatching? && MarkedEnded(s.streams.table, i)
    ensures MarkedEnded(DoDispatch(s, ok, ids).streams.table, i)
  {
    DispatchStreams(s, ok, ids);
    hide HeadRoute, DoDispatch;
  }

  lemma DispatchEnds(s: State, ok: bool, ids: seq<StreamId>)
    requires EndInv(s) && Receiving.InboxOk(s) && s.inbox != [] && s.main.Dispatching?
    ensures EndInv(DoDispatch(s, ok, ids))
  {
    hide DoDispatch, HeadRoute, EndsStream, MarkedEnded, Removing;
    var s1, s' := s.(inbox := s.inbox[1..]), DoDispatch(s, ok, ids);
    var ends := s.inbox[0].Method? && HeadRoute(s).ToEnd?;
    forall i | i in s.peerEnded && i !in s.ended ensures Waiting(s1.inbox, i) || (ends && HeadRoute(s).stream == i) {
      var k :| 0 <= k < |s.inbox| && Receiving.EndsTo(s.inbox[k], i);
      if k == 0 { EndRoute(s, i); } else { assert Receiving.EndsTo(s1.inbox[k - 1], i); }
    }
    hide Waiting;
    if ends {
      EndShape(s, ok, ids);
      HeadEnds(s);
      assert Removing(s'.calls, HeadRoute(s).stream) by { NewRemoving(s.calls, s'.calls[|s.calls|]); }
      forall i | Removing(s.calls, i) ensures Removing(s'.calls, i) { RemovingStays(s.calls, s'.calls, i); }
    } else {
      OtherShape(s, ok, ids);
      hide SameEnds;
      forall i | i in s.removed && MarkedEnded(s.streams.table, i) ensures MarkedEnded(s'.streams.table, i) {
        DispatchTable(s, ok, ids, i);
      }
      SameEndsKeeps(s1, s');
    }
  }

  /** An end at the head of the inbox is for an inserted stream. */
  lemma HeadEnds(s: State)
    requires EndInv(s) && Receiving.InboxOk(s) && s.inbox != [] && s.main.Dispatching?
    requires s.inbox[0].Method? && HeadRoute(s).ToEnd?
    ensures HeadRoute(s).stream in s.readers
  {
    Receiving.BuiltInRoutes(s);
    hide HeadRoute, Receiving.EndsTo;
    var i := HeadRoute(s).stream;
    assert Receiving.EndsTo(s.inbox[0], i) && i in s.peerEnded;
    assert Told(s, i);
  }

  lemma NewRemoving(calls: seq<Call>, call: Call)
    requires call.phase.EndingStream?
    ensures Removing(calls + [call], call.phase.stream)
  {
    assert (calls + [call])[|calls|] == call;
  }

  lemma RemoveMarks(t: S.State, i: StreamId, j: StreamId)
    ensures MarkedEnded(S.DoRemove(t, i).table, i)
    ensures MarkedEnded(t.table, j) ==> MarkedEnded(S.DoRemove(t, i).table, j)
  {
  }

  lemma RemoveShape(s: State, c: nat)
    requires c < |s.calls| && s.calls[c].phase.EndingStream?
    ensures var s', i := DoRunRemove(s, c), s.calls[c].phase.stream;
      && s' == s.(streams := S.DoRemove(s.streams, i), removed := s.removed + {i}, calls := s'.calls)
      && |s'.calls| == |s.calls| && forall d :: 0 <= d < |s.calls| && d != c ==> s'.calls[d] == s.calls[d]
  {
    hide S.DoRemove, S.RemoveRec;
  }

  lemma RunRemoveEnds(s: State, c: nat)
    requires EndInv(s) && s.ended <= s.peerEnded && c < |s.calls| && s.calls[c].phase.EndingStream?
      && s.calls[c].phase.stream in s.ended
    ensures EndInv(DoRunRemove(s, c))
  {
    var s', i := DoRunRemove(s, c), s.calls[c].phase.stream;
    RemoveShape(s, c);
    hide DoRunRemove, S.DoRemove, MarkedEnded, Waiting;
    forall j | j in s'.removed ensures MarkedEnded(s'.streams.table, j) { RemoveMarks(s.streams, i, j); }
    forall j | j in s'.ended ensures j in s'.removed || Removing(s'.calls, j) {
      if j !in s'.removed {
        var d :| 0 <= d < |s.calls| && s.calls[d].phase == EndingStream(j);
        assert s'.calls[d].phase == EndingStream(j);
      }
    }
  }

  lemma LoopMarks(t: S.State, a: S.Action, i: StreamId)
    requires S.Enabled(t, a) && !a.Insert? && !a.Write? && !a.Remove? && MarkedEnded(t.table, i)
    ensures MarkedEnded(S.Next(t, a).table, i)
  {
  }

  lemma LoopEnds(s: State, a: S.Action)
    requires EndInv(s) && S.Enabled(s.streams, a) && !a.Insert? && !a.Write? && !a.Remove?
    ensures EndInv(s.(streams := S.Next(s.streams, a)))
  {
    hide MarkedEnded, EndInv, S.Next, S.Enabled;
    var s' := s.(streams := S.Next(s.streams, a));
    forall i | i in s.removed && MarkedEnded(s.streams.table, i) ensures MarkedEnded(s'.streams.table, i) {
      LoopMarks(s.streams, a, i);
    }
    SameEndsKeeps(s, s');
  }

  lemma InsertEnds(s: State, w: S.Writer)
    requires EndInv(s) && s.removed <= s.ended
    requires s.main.Inserting? && s.main.ids != [] && s.main.ids[0] !in s.readers
    ensures EndInv(DoInsertStream(s, w))
  {
    var s', i := DoInsertStream(s, w), s.main.ids[0];
    assert i !in s.removed;
    assert forall j :: j != i ==> (MarkedEnded(s.streams.table, j) <==> MarkedEnded(s'.streams.table, j));
    hide EndInv, MarkedEnded;
    SameEndsKeeps(s, s');
  }

  lemma ElsewhereSame(s: State, a: Action)
    requires Enabled(s, a) && Calling.MainOk(s)
    requires !a.PeerSend? && !a.Dispatch? && !a.InsertStream? && !a.RunRemove? && !a.LoopStep?
    ensures SameEnds(s, Next(s, a)) && Next(s, a).streams == s.streams
  {
    assert OfCalls(a) || OfPipes(a);
    hide SameEnds, Next, Enabled, OfCalls, OfPipes, Calling.MainOk;
    if OfCalls(a) { CallsSame(s, a); } else { PipesSame(s, a); }
  }

  lemma CallsSame(s: State, a: Action)
    requires Enabled(s, a) && OfCalls(a) && Calling.MainOk(s)
    ensures SameEnds(s, Next(s, a)) && Next(s, a).streams == s.streams
  {
    CallsFrame(s, a);
    CallsPhases(s, a);
    hide Next, Enabled, OfCalls;
  }

  lemma PipesSame(s: State, a: Action)
    requires Enabled(s, a) && OfPipes(a)
    ensures SameEnds(s, Next(s, a)) && Next(s, a).streams == s.streams
  {
    PipesFrame(s, a);
    hide Next, Enabled;
  }

  lemma StepFacts(s: State)
    requires Receiving.InInv(s) && Sending.OutInv(s) && Calling.CallInv(s)
    ensures Receiving.EndsOk(s) && Receiving.InboxOk(s) && Calling.MainOk(s)
    ensures s.main.Inserting? && s.main.ids != [] ==> s.main.ids[0] !in s.readers
  {
    if s.main.Inserting? && s.main.ids != [] { Receiving.InsertFresh(s); }
  }

  lemma StepKeepsEnds(s: State, a: Action)
    requires EndInv(s) && Receiving.InInv(s) && Sending.OutInv(s) && Calling.CallInv(s) && Enabled(s, a) && Polite(s, a)
    ensures EndInv(Next(s, a))
  {
    StepFacts(s);
    hide EndInv, Receiving.InboxOk, Sending.OutInv, Polite, Receiving.InInv, Calling.CallInv, Calling.MainOk;
    match a
    case PeerSend(f) => PeerSendEnds(s, f);
    case Dispatch(ok, ids) => DispatchEnds(s, ok, ids);
    case InsertStream(w) => InsertEnds(s, w);
    case RunRemove(c) => RunRemoveEnds(s, c);
    case LoopStep(step) => LoopEnds(s, step);
    case _ => ElsewhereKeeps(s, a);
  }

  lemma ElsewhereKeeps(s: State, a: Action)
    requires EndInv(s) && Enabled(s, a) && Calling.MainOk(s)
    requires !a.PeerSend? && !a.Dispatch? && !a.InsertStream? && !a.RunRemove? && !a.LoopStep?
    ensures EndInv(Next(s, a))
  {
    ElsewhereSame(s, a);
    hide Next, SameEnds, EndInv, MarkedEnded, Enabled;
    SameEndsKeeps(s, Next(s, a));
  }

  lemma {:induction false} RunKeepsEnds(s: State, actions: seq<Action>, end: State)
    requires EndInv(s) && Receiving.InInv(s) && Sending.OutInv(s) && Calling.CallInv(s) && PoliteRun(s, actions, end)
    ensures EndInv(end)
    decreases |actions|
  {
    if actions != [] {
      StepKeepsEnds(s, actions[0]);
      Receiving.StepKeepsIn(s, actions[0]);
      Sending.StepKeepsOut(s, actions[0]);
      Calling.StepKeepsCalls(s, actions[0]);
      hide EndInv, Receiving.InInv, Sending.OutInv, Calling.CallInv, Next, Enabled;
      RunKeepsEnds(Next(s, actions[0]), actions[1..], end);
    }
  }

  lemma PoliteFacts(s: State)
    requires PoliteReachable(s)
    ensures EndInv(s) && Receiving.InInv(s) && ConformingReachable(s)
  {
    var driver, methods, actions :| PoliteRun(Initial(driver, methods), actions, s);
    PoliteIsConforming(Initial(driver, methods), actions, s);
    Sending.InitialOut(driver, methods);
    Receiving.InitialIn(driver, methods);
    Calling.InitialCalls(driver, methods);
    assert EndInv(Initial(driver, methods));
    hide EndInv, Receiving.InInv, Sending.OutInv, Calling.CallInv, PoliteRun, ConformingRun;
    RunKeepsEnds(Initial(driver, methods), actions, s);
    Receiving.ReachableIn(s);
  }

  /** Nothing is left to do for the stream: no end to dispatch or to carry out, no write loop. */
  predicate AtRest(s: State, i: StreamId) {
    && !Waiting(s.inbox, i) && !Removing(s.calls, i)
    && (i in s.streams.log ==> s.streams.log[i].writer !in s.streams.tasks)
  }

  /**
    Whatever else is going on, a stream at rest that the peer has ended is gone from the table, its
    pipe is shut down exactly once, and unless the pipe failed it has received all the data the
    peer sent on the stream.
   */
  lemma EndedIsDelivered(s: State, i: StreamId)
    requires PoliteReachable(s) && i in s.peerEnded && AtRest(s, i)
    ensures i !in s.streams.table && i in s.streams.log && s.streams.log[i].writer in s.streams.sinks
    ensures var k := s.streams.sinks[s.streams.log[i].writer];
      k.shutdowns == 1 && !k.late && (!k.failed ==> k.delivered == Concat(Receiving.SegmentsFor(s.sent, i)))
  {
    PoliteFacts(s);
    assert i in s.readers && i in s.removed && MarkedEnded(s.streams.table, i);
    Receiving.PeerDataDelivered(s, i);
    hide EndInv, PoliteReachable, ConformingReachable;
    var c := Receiving.ChannelFacts(s, i);
    assert c.task.None?;
  }
}
