/** Every dispatched request is answered exactly once, after its streams have been announced. */
module TransportCalls {
  import opened Basics
  import opened Transport
  import S = Streams

  /**
    What the frames say of one call: the requests its announcements name, the ids of its answers,
    and in `early` whether it was answered before its streams were announced.
   */
  datatype CallView = CallView(started: seq<RequestId>, answers: seq<RequestId>, early: bool)

  const UNSEEN := CallView([], [], false)

  function CallStep(v: CallView, o: Out, c: nat): CallView {
    match o
    case Started(d, forId, _) => if d == c then CallView(v.started + [forId], v.answers, v.early || v.answers != [])
      else v
    case Response(d, id, _) => if d == c then CallView(v.started, v.answers + [id], v.early) else v
    case _ => v
  }

  function Follow(c: nat): (CallView, Out) -> CallView {
    (v: CallView, o: Out) => CallStep(v, o, c)
  }

  function CallViewOf(t: seq<Out>, c: nat): CallView {
    Fold(Follow(c), UNSEEN, t)
  }

  function AddId(m: multiset<RequestId>, o: Out): multiset<RequestId> {
    if o.Response? then m + multiset{o.id} else m
  }

  /** The ids of all responses in a trace. */
  function ResponseIds(t: seq<Out>): multiset<RequestId> {
    Fold(AddId, multiset{}, t)
  }

  function IdOf(call: Call): multiset<RequestId> {
    if call.id.Some? then multiset{call.id.value} else multiset{}
  }

  /** The ids of all dispatched requests. */
  function RequestIds(calls: seq<Call>): multiset<RequestId>
    decreases |calls|
  {
    if calls == [] then multiset{}
    else
      var n := |calls| - 1;
      RequestIds(calls[..n]) + IdOf(calls[n])
  }

  /** The ids of the requests that are still to be answered. */
  function OwedIds(calls: seq<Call>): multiset<RequestId>
    decreases |calls|
  {
    if calls == [] then multiset{}
    else
      var n := |calls| - 1;
      OwedIds(calls[..n]) + (if calls[n].phase.Done? then multiset{} else IdOf(calls[n]))
  }

  /** The streams of a call have been announced. */
  predicate HasStarted(s: State, c: nat) {
    c < |s.calls| && s.calls[c].duplex && !(s.main.Starting? && s.main.call == c)
  }

  function ExpectCall(s: State, c: nat): CallView {
    CallView(if HasStarted(s, c) then [RequestOf(s.calls[c])] else [],
             if c < |s.calls| && s.calls[c].phase.Done? && s.calls[c].id.Some? then [s.calls[c].id.value] else [],
             false)
  }

  /** The main task works on a call exactly in the phases that say so. */
  predicate MainOk(s: State) {
    && (s.main.SendingReply? ==> s.main.call < |s.calls| && s.calls[s.main.call].phase.Answering?)
    && (s.main.Starting? || s.main.Inserting? ==>
         s.main.call < |s.calls| && s.calls[s.main.call].duplex && s.calls[s.main.call].phase.Opening?)
    && (forall c :: 0 <= c < |s.calls| && s.calls[c].phase.Answering? ==>
         s.main == SendingReply(c) && s.calls[c].id.Some?)
    && (forall c :: 0 <= c < |s.calls| && s.calls[c].phase.Replying? ==> s.calls[c].id.Some?)
    && (forall c :: 0 <= c < |s.calls| && s.calls[c].phase.Opening? ==>
         (s.main.Starting? || s.main.Inserting?) && s.main.call == c)
  }

  ghost predicate ViewsOk(s: State) {
    forall c: nat :: CallViewOf(Trace(s), c) == ExpectCall(s, c)
  }

  predicate Accounted(s: State) {
    ResponseIds(Trace(s)) + OwedIds(s.calls) == RequestIds(s.calls)
  }

  ghost predicate CallInv(s: State) {
    MainOk(s) && ViewsOk(s) && Accounted(s)
  }

  lemma {:induction false} UpdateRequests(calls: seq<Call>, c: nat, phase: Phase)
    requires c < |calls|
    ensures RequestIds(calls[c := calls[c].(phase := phase)]) == RequestIds(calls)
    decreases |calls|
  {
    hide IdOf;
    var n := |calls| - 1;
    var call' := calls[c].(phase := phase);
    var calls' := calls[c := call'];
    if c < n {
      UpdateRequests(calls[..n], c, phase);
      assert calls'[..n] == calls[..n][c := call'];
    } else {
      assert calls'[..n] == calls[..n];
      SameIdOf(calls[c], phase);
    }
  }

  lemma SwapLast(a: multiset<RequestId>, b: multiset<RequestId>, last: multiset<RequestId>, gone: multiset<RequestId>)
    requires a + gone == b
    ensures (a + last) + gone == b + last
  {
  }

  /** Answering call `c` takes its id out of the owed ones; any other change of phase does not. */
  lemma {:induction false} UpdateOwed(calls: seq<Call>, c: nat, phase: Phase)
    requires c < |calls| && !calls[c].phase.Done?
    ensures OwedIds(calls[c := calls[c].(phase := phase)]) + (if phase.Done? then IdOf(calls[c]) else multiset{})
      == OwedIds(calls)
    decreases |calls|
  {
    hide IdOf;
    var n := |calls| - 1;
    var call' := calls[c].(phase := phase);
    var calls' := calls[c := call'];
    var gone := if phase.Done? then IdOf(calls[c]) else multiset{};
    if c < n {
      UpdateOwed(calls[..n], c, phase);
      assert calls'[..n] == calls[..n][c := call'];
      SwapLast(OwedIds(calls'[..n]), OwedIds(calls[..n]), if calls[n].phase.Done? then multiset{}
        else IdOf(calls[n]), gone);
    } else {
      assert calls'[..n] == calls[..n];
      SameIdOf(calls[c], phase);
    }
  }

  lemma SameIdOf(call: Call, phase: Phase)
    ensures IdOf(call.(phase := phase)) == IdOf(call)
  {
  }

  lemma AppendIds(calls: seq<Call>, call: Call)
    ensures RequestIds(calls + [call]) == RequestIds(calls) + IdOf(call)
    ensures OwedIds(calls + [call]) == OwedIds(calls) + (if call.phase.Done? then multiset{} else IdOf(call))
  {
    assert (calls + [call])[..|calls|] == calls;
  }

  lemma CallViewSnoc(t: seq<Out>, o: Out, c: nat)
    ensures CallViewOf(t + [o], c) == CallStep(CallViewOf(t, c), o, c)
  {
    FoldSnoc(Follow(c), UNSEEN, t, o);
  }

  /** Neither the calls nor the frames about calls have changed. */
  lemma SameKeeps(s: State, s': State)
    requires CallInv(s) && s'.calls == s.calls && Trace(s') == Trace(s)
    requires s'.main == s.main || ((s.main.Idle? || s.main.Dispatching?) && (s'.main.Idle? || s'.main.Dispatching?))
      || (s.main.Inserting? && s'.main.Inserting? && s'.main.call == s.main.call)
    ensures CallInv(s')
  {
    hide CallViewOf, ResponseIds, OwedIds, RequestIds;
    assert forall c: nat :: ExpectCall(s', c) == ExpectCall(s, c);
  }

  lemma NeutralKeeps(s: State, s': State, o: Out)
    requires CallInv(s) && s'.calls == s.calls && s'.main == s.main && (o.Data? || o.End?)
    requires Trace(s') == Trace(s) + [o]
    ensures CallInv(s')
  {
    FoldSnoc(AddId, multiset{}, Trace(s), o);
    hide OwedIds, RequestIds;
    forall c: nat ensures CallViewOf(Trace(s'), c) == ExpectCall(s', c) {
      CallViewSnoc(Trace(s), o, c);
      assert ExpectCall(s', c) == ExpectCall(s, c);
    }
  }

  lemma ForeignKeeps(s: State, s': State)
    requires CallInv(s) && s'.calls == s.calls && s'.main == s.main
    requires s'.wire == s.wire + [Foreign] && s'.chan == s.chan
    ensures CallInv(s')
  {
    ForeignIds(s.wire, s.chan);
    hide OwedIds, RequestIds, ResponseIds, CallViewOf, CallStep;
    forall c: nat ensures CallViewOf(Trace(s'), c) == ExpectCall(s', c) {
      ForeignView(s.wire, s.chan, c);
      assert ExpectCall(s', c) == ExpectCall(s, c);
    }
  }

  lemma ForeignIds(wire: seq<Out>, chan: seq<Out>)
    ensures ResponseIds(wire + [Foreign] + chan) == ResponseIds(wire + chan)
  {
    FoldSkip(AddId, multiset{}, wire, Foreign, chan);
  }

  lemma ForeignView(wire: seq<Out>, chan: seq<Out>, c: nat)
    ensures CallViewOf(wire + [Foreign] + chan, c) == CallViewOf(wire + chan, c)
  {
    FoldSkip(Follow(c), UNSEEN, wire, Foreign, chan);
  }

  /** One more call, which owes an answer if its frame had an id; the main task may be at work on it. */
  predicate Appended(s: State, s': State) {
    && s'.wire == s.wire && s'.chan == s.chan
    && |s'.calls| == |s.calls| + 1 && s'.calls == s.calls + [s'.calls[|s.calls|]]
    && var call := s'.calls[|s.calls|];
       && (call.phase.Done? ==> call.id.None?) && !call.phase.Replying?
       && if call.phase.Answering? then s'.main == SendingReply(|s.calls|) && !call.duplex && call.id.Some?
          else if call.phase.Opening? then s'.main.Starting? && s'.main.call == |s.calls| && call.duplex
          else s'.main.Dispatching? && !call.duplex
  }

  lemma AppendMain(s: State, s': State)
    requires MainOk(s) && s.main.Dispatching? && Appended(s, s')
    ensures MainOk(s')
    ensures forall c: nat :: ExpectCall(s', c) == ExpectCall(s, c)
  {
  }

  lemma AppendKeeps(s: State, s': State)
    requires CallInv(s) && s.main.Dispatching? && Appended(s, s')
    ensures CallInv(s')
  {
    AppendMain(s, s');
    var call := s'.calls[|s.calls|];
    AppendIds(s.calls, call);
    assert call.phase.Done? ==> IdOf(call) == multiset{};
    assert Trace(s') == Trace(s);
    hide MainOk, CallViewOf, ResponseIds, OwedIds, RequestIds, ExpectCall, IdOf;
  }

  /** Call `c` has moved to another phase without being answered. */
  predicate Moved(s: State, s': State, c: nat, phase: Phase) {
    && c < |s.calls| && !s.calls[c].phase.Done? && !s.calls[c].phase.Answering?
    && s'.calls == s.calls[c := s.calls[c].(phase := phase)] && s'.wire == s.wire && s'.chan == s.chan
    && !phase.Answering? && !phase.Opening? && (phase.Done? ==> s.calls[c].id.None?)
    && (phase.Replying? ==> s.calls[c].id.Some?)
    && if s.calls[c].phase.Opening? then s.main.Inserting? && s'.main.Dispatching? else s'.main == s.main
  }

  lemma MoveMain(s: State, s': State, c: nat, phase: Phase)
    requires MainOk(s) && Moved(s, s', c, phase)
    ensures MainOk(s')
  {
  }

  lemma MoveView(s: State, s': State, c: nat, phase: Phase, d: nat)
    requires MainOk(s) && Moved(s, s', c, phase)
    ensures ExpectCall(s', d) == ExpectCall(s, d)
  {
  }

  lemma MoveAccounted(s: State, s': State, c: nat, phase: Phase)
    requires Accounted(s) && Moved(s, s', c, phase)
    ensures Accounted(s') && Trace(s') == Trace(s)
  {
    UpdateRequests(s.calls, c, phase);
    UpdateOwed(s.calls, c, phase);
    assert phase.Done? ==> IdOf(s.calls[c]) == multiset{};
    hide ResponseIds, OwedIds, RequestIds, IdOf;
  }

  lemma MoveKeeps(s: State, s': State, c: nat, phase: Phase)
    requires CallInv(s) && Moved(s, s', c, phase)
    ensures CallInv(s')
  {
    MoveMain(s, s', c, phase);
    MoveAccounted(s, s', c, phase);
    hide MainOk, Accounted, CallViewOf, ExpectCall, Moved;
    forall d: nat ensures CallViewOf(Trace(s'), d) == ExpectCall(s', d) {
      MoveView(s, s', c, phase, d);
    }
  }

  predicate AnsweredBy(s: State, s': State, c: nat, code: Code) {
    && c < |s.calls| && s.calls[c].id.Some? && (s.calls[c].phase.Answering? || s.calls[c].phase.Replying?)
    && s'.calls == s.calls[c := s.calls[c].(phase := Done)]
    && s'.wire == s.wire && s'.chan == s.chan + [Response(c, s.calls[c].id.value, code)]
    && if s.calls[c].phase.Answering? then s'.main.Dispatching? else s'.main == s.main
  }

  lemma AnswerView(s: State, s': State, c: nat, code: Code, d: nat)
    requires MainOk(s) && AnsweredBy(s, s', c, code)
    ensures ExpectCall(s', d) == CallStep(ExpectCall(s, d), Response(c, s.calls[c].id.value, code), d)
  {
  }

  lemma AnswerMain(s: State, s': State, c: nat, code: Code)
    requires MainOk(s) && AnsweredBy(s, s', c, code)
    ensures MainOk(s')
  {
  }

  lemma AnswerKeeps(s: State, s': State, c: nat, code: Code)
    requires CallInv(s) && AnsweredBy(s, s', c, code)
    ensures CallInv(s')
  {
    var o := Response(c, s.calls[c].id.value, code);
    assert Trace(s') == Trace(s) + [o];
    AnswerMain(s, s', c, code);
    UpdateRequests(s.calls, c, Done);
    UpdateOwed(s.calls, c, Done);
    FoldSnoc(AddId, multiset{}, Trace(s), o);
    assert IdOf(s.calls[c]) == multiset{o.id};
    hide MainOk, OwedIds, RequestIds, ExpectCall, CallStep, IdOf;
    forall d: nat ensures CallViewOf(Trace(s'), d) == ExpectCall(s', d) {
      CallViewSnoc(Trace(s), o, d);
      AnswerView(s, s', c, code, d);
    }
  }

  lemma StartedKeeps(s: State, s': State)
    requires CallInv(s) && s.main.Starting? && s.main.call < |s.calls|
    requires StartedBy(s, s')
    ensures CallInv(s')
  {
    var o := Started(s.main.call, RequestOf(s.calls[s.main.call]), s.main.ids);
    assert Trace(s') == Trace(s) + [o] && s'.calls == s.calls;
    FoldSnoc(AddId, multiset{}, Trace(s), o);
    StartedMain(s, s');
    hide MainOk, OwedIds, RequestIds, ExpectCall, CallStep, StartedBy;
    forall d: nat ensures CallViewOf(Trace(s'), d) == ExpectCall(s', d) {
      CallViewSnoc(Trace(s), o, d);
      StartedView(s, s', d);
    }
  }

  /** The streams of the main task's call have been announced, for its request. */
  predicate StartedBy(s: State, s': State)
    requires s.main.Starting? && s.main.call < |s.calls|
  {
    var o := Started(s.main.call, RequestOf(s.calls[s.main.call]), s.main.ids);
    s' == s.(chan := s.chan + [o], main := Inserting(s.main.call, s.main.ids))
  }

  lemma StartedMain(s: State, s': State)
    requires MainOk(s) && s.main.Starting? && s.main.call < |s.calls| && StartedBy(s, s')
    ensures MainOk(s')
  {
  }

  lemma StartedView(s: State, s': State, d: nat)
    requires MainOk(s) && s.main.Starting? && s.main.call < |s.calls| && StartedBy(s, s')
    ensures ExpectCall(s', d) ==
      CallStep(ExpectCall(s, d), Started(s.main.call, RequestOf(s.calls[s.main.call]), s.main.ids), d)
  {
  }

  lemma DispatchKeeps(s: State, ok: bool, ids: seq<StreamId>)
    requires CallInv(s) && s.main.Dispatching? && s.inbox != []
    ensures CallInv(DoDispatch(s, ok, ids))
  {
    hide CallInv, RouteOf;
    var s' := DoDispatch(s, ok, ids);
    if s.inbox[0].Reply? {
      SameKeeps(s, s');
    } else {
      DispatchAppends(s, ok, ids);
      hide DoDispatch;
      AppendKeeps(s, s');
    }
  }

  lemma ReplyNowAppends(s: State, s1: State, id: Option<RequestId>, code: Code)
    requires s1.calls == s.calls && s1.wire == s.wire && s1.chan == s.chan && s1.main.Dispatching?
    ensures Appended(s, ReplyNow(s1, id, code))
  {
  }

  lemma SpawnedAppends(s: State, s1: State, id: Option<RequestId>, phase: Phase)
    requires s1.calls == s.calls && s1.wire == s.wire && s1.chan == s.chan && s1.main.Dispatching?
    requires !phase.Done? && !phase.Answering? && !phase.Opening? && !phase.Replying?
    ensures Appended(s, Spawned(s1, id, phase))
  {
  }

  lemma DispatchAppends(s: State, ok: bool, ids: seq<StreamId>)
    requires s.main.Dispatching? && s.inbox != [] && s.inbox[0].Method?
    ensures Appended(s, DoDispatch(s, ok, ids))
  {
    var id, s1 := s.inbox[0].id, s.(inbox := s.inbox[1..], handled := s.handled + [s.inbox[0]]);
    match HeadRoute(s)
    case ToDuplex(_) => hide HeadRoute;
    case ToData(i, bytes) =>
      hide Appended, ReplyNow;
      ReplyNowAppends(s, s1.(streams := S.DoWrite(s.streams, i, bytes), fed := s.fed + [(i, bytes)]), id, Success);
    case ToEnd(i) => hide Appended, Spawned; SpawnedAppends(s, s1.(ended := s.ended + {i}), id, EndingStream(i));
    case ToSync => hide Appended, ReplyNow; ReplyNowAppends(s, s1.(outcomes := s.outcomes[|s.calls| := ok]), id, if ok
      then Success else Fail(-1));
    case ToAsync => hide Appended, Spawned; SpawnedAppends(s, s1, id, Running(None));
    case Now(code) => hide Appended, ReplyNow; ReplyNowAppends(s, s1, id, code);
    case Later(code) => hide Appended, Spawned; SpawnedAppends(s, s1, id, Running(Some(code)));
  }

  /** Steps that leave calls, trace and the main task's call alone. */
  lemma ElsewhereKeeps(s: State, a: Action)
    requires CallInv(s) && Enabled(s, a)
    requires a.PeerSend? || a.ReadStart? || a.ReadEnd? || a.InsertStream? || a.HandlerWrite? || a.HandlerClose?
      || a.ReaderTake? || a.ReaderStop? || a.LoopStep? || a.AllocateElsewhere?
    ensures CallInv(Next(s, a))
  {
    hide CallInv;
    SameKeeps(s, Next(s, a));
  }

  lemma WriteOutKeeps(s: State)
    requires CallInv(s) && s.chan != []
    ensures CallInv(s.(wire := s.wire + [s.chan[0]], chan := s.chan[1..]))
  {
    var s' := s.(wire := s.wire + [s.chan[0]], chan := s.chan[1..]);
    hide CallInv;
    assert Trace(s') == Trace(s);
    SameKeeps(s, s');
  }

  lemma ReaderKeeps(s: State, s': State, o: Out)
    requires CallInv(s) && s'.calls == s.calls && s'.main == s.main && (o.Data? || o.End?)
    requires s'.wire == s.wire && s'.chan == s.chan + [o]
    ensures CallInv(s')
  {
    hide CallInv;
    assert Trace(s') == Trace(s) + [o];
    NeutralKeeps(s, s', o);
  }

  /** A future that ends, with or without a reply to send. */
  lemma ResolvedKeeps(s: State, s1: State, c: nat, code: Code)
    requires CallInv(s) && c < |s.calls| && !s.calls[c].phase.Done? && !s.calls[c].phase.Answering?
      && !s.calls[c].phase.Opening?
    requires s1.calls == s.calls && s1.wire == s.wire && s1.chan == s.chan && s1.main == s.main
    ensures CallInv(Resolved(s1, c, code))
  {
    hide CallInv;
    MoveKeeps(s, Resolved(s1, c, code), c, if s.calls[c].id.Some? then Replying(code) else Done);
  }

  lemma RunRemoveKeeps(s: State, c: nat)
    requires CallInv(s) && c < |s.calls| && s.calls[c].phase.EndingStream?
    ensures CallInv(DoRunRemove(s, c))
  {
    hide CallInv;
    var i := s.calls[c].phase.stream;
    var taken := S.RemoveRec(S.Get(s.streams.table, i)).1;
    if taken.Some? {
      MoveKeeps(s, DoRunRemove(s, c), c, ShuttingDown(taken.value));
    } else {
      ResolvedKeeps(s, s.(streams := S.DoRemove(s.streams, i), removed := s.removed + {i}), c, Success);
    }
  }

  lemma StepKeepsCalls(s: State, a: Action)
    requires CallInv(s) && Enabled(s, a)
    ensures CallInv(Next(s, a))
  {
    hide CallInv;
    match a
    case Dispatch(ok, ids) => DispatchKeeps(s, ok, ids);
    case SendReply => AnswerKeeps(s, Next(s, a), s.main.call, s.calls[s.main.call].phase.code);
    case SendResponse(c) => AnswerKeeps(s, Next(s, a), c, s.calls[c].phase.code);
    case SendStarted => StartedKeeps(s, Next(s, a));
    case SpawnFuture => SpawnKeeps(s);
    case FutureDone(c, ok) => FutureKeeps(s, c, ok);
    case RunRemove(c) => RunRemoveKeeps(s, c);
    case RemoveDone(c) => ResolvedKeeps(s, s, c, Success);
    case ReaderSend(i) => ReaderKeeps(s, DoReaderSend(s, i), Data(i, s.readers[i].segment));
    case ReaderEnd(i) => ReaderKeeps(s, DoReaderEnd(s, i), End(i));
    case WriteOut => WriteOutKeeps(s);
    case WriteForeign => ForeignKeeps(s, s.(wire := s.wire + [Foreign]));
    case _ => ElsewhereKeeps(s, a);
  }

  lemma FutureKeeps(s: State, c: nat, ok: bool)
    requires CallInv(s) && c < |s.calls| && s.calls[c].phase.Running?
    ensures CallInv(DoFutureDone(s, c, ok))
  {
    hide CallInv;
    match s.calls[c].phase.ready
    case Some(code) => ResolvedKeeps(s, s, c, code);
    case None => ResolvedKeeps(s, s.(outcomes := s.outcomes[c := ok]), c, if ok then Success else Fail(-1));
  }

  lemma SpawnKeeps(s: State)
    requires CallInv(s) && s.main.Inserting? && s.main.call < |s.calls|
    ensures CallInv(SetPhase(s, s.main.call, Running(None)).(main := Dispatching))
  {
    assert s.calls[s.main.call].phase.Opening?;
    hide CallInv;
    MoveKeeps(s, SetPhase(s, s.main.call, Running(None)).(main := Dispatching), s.main.call, Running(None));
  }

  lemma InitialCalls(driver: Driver, methods: Methods)
    ensures CallInv(Initial(driver, methods))
  {
  }

  lemma {:induction false} RunKeepsCalls(s: State, actions: seq<Action>, end: State)
    requires CallInv(s) && Run(s, actions, end)
    ensures CallInv(end)
    decreases |actions|
  {
    if actions != [] {
      StepKeepsCalls(s, actions[0]);
      hide CallInv, Next, Enabled;
      RunKeepsCalls(Next(s, actions[0]), actions[1..], end);
    }
  }

  lemma ReachableCalls(s: State)
    requires Reachable(s)
    ensures CallInv(s)
  {
    var driver, methods, actions :| Run(Initial(driver, methods), actions, s);
    InitialCalls(driver, methods);
    RunKeepsCalls(Initial(driver, methods), actions, s);
  }

  /** All requests have run their course: nothing is pending in the main task or in any future. */
  predicate AllDone(s: State) {
    forall c :: 0 <= c < |s.calls| ==> s.calls[c].phase.Done?
  }

  lemma {:induction false} NothingOwed(calls: seq<Call>)
    requires forall c :: 0 <= c < |calls| ==> calls[c].phase.Done?
    ensures OwedIds(calls) == multiset{}
    decreases |calls|
  {
    if calls != [] { NothingOwed(calls[..|calls| - 1]); }
  }

  /**
    The ids of all responses, with those still owed, are the ids of all dispatched requests;
    once every handler has finished they are exactly those, whatever path each request took.
   */
  lemma RequestsAnswered(s: State)
    requires Reachable(s)
    ensures ResponseIds(Trace(s)) + OwedIds(s.calls) == RequestIds(s.calls)
    ensures AllDone(s) ==> ResponseIds(Trace(s)) == RequestIds(s.calls)
  {
    ReachableCalls(s);
    if AllDone(s) { NothingOwed(s.calls); }
  }

  lemma {:induction false} CallViewGrows(v: CallView, t: seq<Out>, c: nat)
    ensures var w := Fold(Follow(c), v, t);
      v.started <= w.started && v.answers <= w.answers && (v.early ==> w.early)
      && (v.answers != [] && v.started != w.started ==> w.early)
    decreases |t|
  {
    if t != [] { CallViewGrows(CallStep(v, t[0], c), t[1..], c); }
  }

  /**
    On the wire every call is answered at most once, with its own id; a call with streams is
    answered only after they were announced, once and for its own request.
   */
  lemma AnsweredOnceAfterStart(s: State, c: nat)
    requires Reachable(s)
    ensures var v := CallViewOf(s.wire, c);
      && !v.early && (v.started != [] ==> c < |s.calls| && v.started == [RequestOf(s.calls[c])])
      && (v.answers != [] ==> c < |s.calls| && s.calls[c].id.Some? && v.answers == [s.calls[c].id.value]
                              && (s.calls[c].duplex ==> v.started == v.answers))
  {
    ReachableCalls(s);
    FoldAppend(Follow(c), UNSEEN, s.wire, s.chan);
    assert CallViewOf(Trace(s), c) == ExpectCall(s, c);
    CallViewGrows(CallViewOf(s.wire, c), s.chan, c);
  }
}
