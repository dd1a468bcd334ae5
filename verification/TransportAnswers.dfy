/** What requests are answered with: the code of every response follows from its frame and its handler. */
module TransportAnswers {
  import opened Basics
  import opened Transport
  import S = Streams
  import Calling = TransportCalls

  /** The code a frame is to be answered with, `outcome` being whether its handler succeeded. */
  function AnswerCode(methods: Methods, f: Incoming, outcome: Option<bool>): Code
    requires f.Method?
  {
    if f.name == "stream_data" then if f.params.Segment? then Success else Fail(0)
    else if f.name == "stream_ended" then if f.params.Segment? || f.params.Ended? then Success else Fail(0)
    else if f.name !in methods then Fail(-1)
    else if f.params.Malformed? then Fail(0)
    else if outcome == Some(true) then Success else Fail(-1)
  }

  /** The frame reaches a registered handler. */
  predicate IsHandled(methods: Methods, f: Incoming) {
    f.Method? && f.name != "stream_data" && f.name != "stream_ended" && f.name in methods && !f.params.Malformed?
  }

  /** How many streams are opened for a frame, if any are announced. */
  function StreamsFor(methods: Methods, f: Incoming): Option<nat> {
    if IsHandled(methods, f) && methods[f.name].Duplex? then Some(methods[f.name].streams) else None
  }

  function Outcome(s: State, c: nat): Option<bool> {
    if c in s.outcomes then Some(s.outcomes[c]) else None
  }

  predicate CallOk(methods: Methods, f: Incoming, outcome: Option<bool>, call: Call) {
    && f.Method? && call.id == f.id && (call.duplex <==> StreamsFor(methods, f).Some?)
    && match call.phase
       case Answering(code) => code == AnswerCode(methods, f, outcome)
       case Replying(code) => code == AnswerCode(methods, f, outcome)
       case Running(Some(code)) => code == AnswerCode(methods, f, outcome)
       case Running(None) => IsHandled(methods, f)
       case Opening => IsHandled(methods, f)
       case EndingStream(_) => Success == AnswerCode(methods, f, outcome)
       case ShuttingDown(_) => Success == AnswerCode(methods, f, outcome)
       case Done => true
  }

  /** A frame about a call says what the frame of that call asks for. */
  predicate FrameOk(s: State, o: Out) {
    match o
    case Response(c, id, code) =>
      && c < |s.calls| && c < |s.handled| && s.calls[c].phase.Done? && s.handled[c].Method?
      && s.handled[c].id == Some(id) && code == AnswerCode(s.methods, s.handled[c], Outcome(s, c))
    case Started(c, forId, ids) =>
      && c < |s.handled| && s.handled[c].Method? && StreamsFor(s.methods, s.handled[c]) == Some(|ids|)
      && forId == if s.handled[c].id.Some? then s.handled[c].id.value else 0
    case _ => true
  }

  predicate Sent(s: State, o: Out) {
    o in s.wire || o in s.chan
  }

  predicate CallsOk(s: State) {
    && |s.handled| == |s.calls| && (forall c :: c in s.outcomes ==> c < |s.calls|)
    && forall c :: 0 <= c < |s.calls| ==> CallOk(s.methods, s.handled[c], Outcome(s, c), s.calls[c])
  }

  predicate MainAnnounces(s: State) {
    s.main.Starting? ==>
      s.main.call < |s.handled| && StreamsFor(s.methods, s.handled[s.main.call]) == Some(|s.main.ids|)
  }

  ghost predicate AnswersInv(s: State) {
    CallsOk(s) && MainAnnounces(s) && forall o :: Sent(s, o) ==> FrameOk(s, o)
  }

  // ---------- Steps ----------

  predicate SameCalls(s: State, s': State) {
    s'.methods == s.methods && s'.calls == s.calls && s'.handled == s.handled && s'.outcomes == s.outcomes
  }

  lemma SameKeeps(s: State, s': State)
    requires AnswersInv(s) && SameCalls(s, s') && (s'.main.Starting? ==> s'.main == s.main)
    requires forall o :: Sent(s', o) ==> Sent(s, o) || o.Data? || o.End? || o.Foreign? || (o.Started? && FrameOk(s, o))
    ensures AnswersInv(s')
  {
    hide CallOk, StreamsFor, Sent;
    assert forall c :: Outcome(s', c) == Outcome(s, c);
    forall o | Sent(s', o) ensures FrameOk(s', o) {
      assert FrameOk(s, o);
    }
  }

  /** Call `c`, not done so far, has changed; `news` are the frames about it. */
  lemma ChangeKeeps(s: State, s': State, c: nat, news: seq<Out>)
    requires AnswersInv(s) && s'.methods == s.methods && s'.handled == s.handled && c < |s.calls|
      && !s.calls[c].phase.Done?
    requires |s'.calls| == |s.calls| && forall d :: 0 <= d < |s.calls| && d != c ==> s'.calls[d] == s.calls[d]
    requires s'.outcomes == s.outcomes || (c in s'.outcomes && s'.outcomes == s.outcomes[c := s'.outcomes[c]])
    requires CallOk(s.methods, s.handled[c], Outcome(s', c), s'.calls[c])
    requires s'.wire == s.wire && s'.chan == s.chan + news && forall o :: o in news ==> FrameOk(s', o)
    requires s'.main.Starting? ==> s'.main == s.main
    ensures AnswersInv(s')
  {
    hide CallOk, StreamsFor;
    forall d | d != c ensures Outcome(s', d) == Outcome(s, d) { }
    forall o | Sent(s', o) ensures FrameOk(s', o) {
      if o !in news { assert Sent(s, o) && FrameOk(s, o); }
    }
  }

  /** The router and the table of methods agree on what a frame is to be answered with. */
  lemma RouteAnswers(methods: Methods, f: Incoming, ok: bool)
    requires f.Method?
    ensures var route := RouteOf(methods, f.name, f.params);
      && CallOk(methods, f, if route.ToSync? then Some(ok) else None, AddedBy(route, f.id, ok))
      && (route.ToSync? <==> IsHandled(methods, f) && methods[f.name].Sync?)
      && (route.ToAsync? <==> IsHandled(methods, f) && methods[f.name].Async?)
      && (if route.ToDuplex? then StreamsFor(methods, f) == Some(route.n) else StreamsFor(methods, f) == None)
  {
  }

  /** One more call, for the frame at the head. */
  lemma AddKeeps(s: State, s': State, f: Incoming, call: Call)
    requires AnswersInv(s) && s'.methods == s.methods && s'.calls == s.calls + [call] && s'.handled == s.handled + [f]
    requires s'.wire == s.wire && s'.chan == s.chan
    requires forall c :: 0 <= c < |s.calls| ==> Outcome(s', c) == Outcome(s, c)
    requires forall c :: c in s'.outcomes ==> c in s.outcomes || c == |s.calls|
    requires CallOk(s.methods, f, Outcome(s', |s.calls|), call)
    requires s'.main.Starting? ==> s'.main.call == |s.calls| && StreamsFor(s.methods, f) == Some(|s'.main.ids|)
    ensures AnswersInv(s')
  {
    hide CallOk, StreamsFor, Outcome;
    forall o | Sent(s', o) ensures FrameOk(s', o) { assert Sent(s, o) && FrameOk(s, o); }
  }

  lemma DispatchKeeps(s: State, ok: bool, ids: seq<StreamId>)
    requires AnswersInv(s) && s.main.Dispatching? && s.inbox != [] && Taken(s.nextId, ids, WantedIds(s))
    ensures AnswersInv(DoDispatch(s, ok, ids))
  {
    var s', f := DoDispatch(s, ok, ids), s.inbox[0];
    DispatchFrame(s, ok, ids);
    if f.Reply? {
      hide AnswersInv, FrameOk;
      SameKeeps(s, s');
    } else {
      AddedCall(s, ok, ids);
      DispatchRecords(s, ok, ids);
      DispatchStarts(s, ok, ids);
      RouteAnswers(s.methods, f, ok);
      assert |s.calls| !in s.outcomes;
      hide DoDispatch, CallOk, StreamsFor, AnswersInv, RouteOf, AddedBy;
      AddKeeps(s, s', f, AddedBy(HeadRoute(s), f.id, ok));
    }
  }

  /** The phase of a call changes, without a frame. */
  lemma PhaseKeeps(s: State, s': State, c: nat, phase: Phase)
    requires AnswersInv(s) && c < |s.calls| && !s.calls[c].phase.Done?
    requires s' == SetPhase(s, c, phase).(main := s'.main) && (s'.main.Starting? ==> s'.main == s.main)
    requires CallOk(s.methods, s.handled[c], Outcome(s, c), s.calls[c].(phase := phase))
    ensures AnswersInv(s')
  {
    hide AnswersInv, CallOk, FrameOk;
    ChangeKeeps(s, s', c, []);
  }

  lemma AnsweredKeeps(s: State, s': State, c: nat, code: Code)
    requires AnswersInv(s) && c < |s.calls| && s.calls[c].id.Some?
    requires s.calls[c].phase == Answering(code) || s.calls[c].phase == Replying(code)
    requires s' == Answered(s, c, code).(main := s'.main) && (s'.main.Starting? ==> s'.main == s.main)
    ensures AnswersInv(s')
  {
    assert CallOk(s.methods, s.handled[c], Outcome(s, c), s.calls[c]);
    ChangeKeeps(s, s', c, [Response(c, s.calls[c].id.value, code)]);
  }

  lemma FutureKeeps(s: State, c: nat, ok: bool)
    requires AnswersInv(s) && c < |s.calls| && s.calls[c].phase.Running?
    ensures AnswersInv(DoFutureDone(s, c, ok))
  {
    assert CallOk(s.methods, s.handled[c], Outcome(s, c), s.calls[c]);
    hide AnswersInv, FrameOk;
    ChangeKeeps(s, DoFutureDone(s, c, ok), c, []);
  }

  lemma StartedKeeps(s: State, s': State)
    requires AnswersInv(s) && s.main.Starting? && s.main.call < |s.calls|
    requires s' == s.(chan := s.chan + [Started(s.main.call, RequestOf(s.calls[s.main.call]), s.main.ids)],
      main := s'.main)
    requires !s'.main.Starting?
    ensures AnswersInv(s')
  {
    var c := s.main.call;
    assert CallOk(s.methods, s.handled[c], Outcome(s, c), s.calls[c]);
    assert FrameOk(s, Started(c, RequestOf(s.calls[c]), s.main.ids));
    hide AnswersInv, FrameOk;
    SameKeeps(s, s');
  }

  lemma RemoveKeeps(s: State, c: nat)
    requires AnswersInv(s) && c < |s.calls| && s.calls[c].phase.EndingStream?
    ensures AnswersInv(DoRunRemove(s, c))
  {
    assert CallOk(s.methods, s.handled[c], Outcome(s, c), s.calls[c]);
    RemoveFrame(s, c);
    hide AnswersInv, FrameOk, S.DoRemove;
    ChangeKeeps(s, DoRunRemove(s, c), c, []);
  }

  /** Steps that leave the calls alone and send no frame about one. */
  lemma ElsewhereKeeps(s: State, a: Action)
    requires AnswersInv(s) && Enabled(s, a)
    requires OfPipes(a) || a.PeerSend? || a.ReadStart? || a.ReadEnd? || a.InsertStream? || a.LoopStep?
    ensures AnswersInv(Next(s, a))
  {
    if OfPipes(a) { PipesFrame(s, a); }
    ElsewhereSends(s, a);
    hide AnswersInv, FrameOk, Sent;
    SameKeeps(s, Next(s, a));
  }

  lemma ElsewhereSends(s: State, a: Action)
    requires Enabled(s, a)
    requires OfPipes(a) || a.PeerSend? || a.ReadStart? || a.ReadEnd? || a.InsertStream? || a.LoopStep?
    ensures forall o :: Sent(Next(s, a), o) ==> Sent(s, o) || o.Data? || o.End? || o.Foreign?
  {
    hide S.Next, S.Enabled;
  }

  lemma StepKeepsAnswers(s: State, a: Action)
    requires AnswersInv(s) && Calling.MainOk(s) && Enabled(s, a)
    ensures AnswersInv(Next(s, a))
  {
    match a
    case Dispatch(ok, ids) => hide AnswersInv, Calling.MainOk; DispatchKeeps(s, ok, ids);
    case SendReply => hide AnswersInv,
      Calling.MainOk; AnsweredKeeps(s, Next(s, a), s.main.call, s.calls[s.main.call].phase.code);
    case SendResponse(c) => hide AnswersInv, Calling.MainOk; AnsweredKeeps(s, Next(s, a), c, s.calls[c].phase.code);
    case SendStarted => hide AnswersInv, Calling.MainOk; StartedKeeps(s, Next(s, a));
    case SpawnFuture => SpawnKeeps(s);
    case FutureDone(c, ok) => hide AnswersInv, Calling.MainOk; FutureKeeps(s, c, ok);
    case RunRemove(c) => hide AnswersInv, Calling.MainOk; RemoveKeeps(s, c);
    case RemoveDone(c) => RemovedKeeps(s, c);
    case _ => hide AnswersInv, Calling.MainOk; ElsewhereKeeps(s, a);
  }

  lemma SpawnKeeps(s: State)
    requires AnswersInv(s) && Calling.MainOk(s) && s.main.Inserting? && s.main.call < |s.calls|
    ensures AnswersInv(SetPhase(s, s.main.call, Running(None)).(main := Dispatching))
  {
    var c := s.main.call;
    assert s.calls[c].phase.Opening? && CallOk(s.methods, s.handled[c], Outcome(s, c), s.calls[c]);
    hide AnswersInv, Calling.MainOk;
    PhaseKeeps(s, SetPhase(s, c, Running(None)).(main := Dispatching), c, Running(None));
  }

  lemma RemovedKeeps(s: State, c: nat)
    requires AnswersInv(s) && c < |s.calls| && s.calls[c].phase.ShuttingDown?
    ensures AnswersInv(Resolved(s, c, Success))
  {
    assert CallOk(s.methods, s.handled[c], Outcome(s, c), s.calls[c]);
    hide AnswersInv;
    PhaseKeeps(s, Resolved(s, c, Success), c, if s.calls[c].id.Some? then Replying(Success) else Done);
  }

  lemma {:induction false} RunKeepsAnswers(s: State, actions: seq<Action>, end: State)
    requires AnswersInv(s) && Calling.CallInv(s) && Run(s, actions, end)
    ensures AnswersInv(end)
    decreases |actions|
  {
    if actions != [] {
      StepKeepsAnswers(s, actions[0]);
      Calling.StepKeepsCalls(s, actions[0]);
      hide AnswersInv, Calling.CallInv, Next, Enabled;
      RunKeepsAnswers(Next(s, actions[0]), actions[1..], end);
    }
  }

  lemma ReachableAnswers(s: State)
    requires Reachable(s)
    ensures AnswersInv(s)
  {
    var driver, methods, actions :| Run(Initial(driver, methods), actions, s);
    Calling.InitialCalls(driver, methods);
    assert AnswersInv(Initial(driver, methods));
    RunKeepsAnswers(Initial(driver, methods), actions, s);
  }

  /** The outcome of a call is what its handler said, when it said it. */
  lemma OutcomesAreHandlers(s: State, a: Action, c: nat)
    requires AnswersInv(s) && Enabled(s, a)
    ensures Outcome(Next(s, a), c) ==
      if a.FutureDone? && a.call == c && s.calls[c].phase.ready.None? then Some(a.ok)
      else if a.Dispatch? && c == |s.calls| && s.inbox[0].Method? && HeadRoute(s).ToSync? then Some(a.ok)
      else Outcome(s, c)
  {
    if OfPipes(a) { PipesFrame(s, a); }
    if a.FutureDone? { FutureFrame(s, a.call, a.ok); }
    if a.Dispatch? && s.inbox[0].Method? { DispatchRecords(s, a.ok, a.ids); }
    if a.RunRemove? { RemoveFrame(s, a.call); }
    hide S.Next, S.Enabled, HeadRoute, DoRunRemove, AnswersInv;
  }

  /**
    Every response, on the wire or on its way, is to a dispatched request with its id, and its code
    is the one the request's name, parameters and handler call for.
   */
  lemma AnswersAreRight(s: State, c: nat, id: RequestId, code: Code)
    requires Reachable(s) && Sent(s, Response(c, id, code))
    ensures c < |s.handled| && s.handled[c].Method? && s.handled[c].id == Some(id)
    ensures code == AnswerCode(s.methods, s.handled[c], Outcome(s, c))
  {
    ReachableAnswers(s);
    assert FrameOk(s, Response(c, id, code));
  }

  /**
    Streams are announced exactly for the duplex methods, as many as the method has, naming the
    request (0 for none); a response to such a method follows its announcement.
   */
  lemma AnnouncementsAreRight(s: State, c: nat, forId: RequestId, ids: seq<StreamId>)
    requires Reachable(s) && Sent(s, Started(c, forId, ids))
    ensures c < |s.handled| && s.handled[c].Method? && StreamsFor(s.methods, s.handled[c]) == Some(|ids|)
    ensures forId == if s.handled[c].id.Some? then s.handled[c].id.value else 0
  {
    ReachableAnswers(s);
    assert FrameOk(s, Started(c, forId, ids));
  }

  lemma AnsweredAfterStart(s: State, c: nat)
    requires Reachable(s) && c < |s.handled| && StreamsFor(s.methods, s.handled[c]).Some?
    ensures var v := Calling.CallViewOf(s.wire, c);
      v.answers != [] ==> v.started == v.answers && s.handled[c].id.Some? && v.answers == [s.handled[c].id.value]
  {
    ReachableAnswers(s);
    assert CallOk(s.methods, s.handled[c], Outcome(s, c), s.calls[c]);
    Calling.AnsweredOnceAfterStart(s, c);
  }
}
