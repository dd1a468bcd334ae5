/**
  The transport loop of cli/src/msgpack_rpc.rs and the dispatcher of cli/src/rpc.rs, as one
  transition system. The main task reads and dispatches frames; it also writes to the wire, unless
  the connection has a task of its own for that, as in cli/src/tunnels/control_server.rs. Handlers,
  stream readers and write loops run beside it.
 */
module Transport {
  import opened Basics
  import S = Streams

  const SEGMENT_LIMIT := 4096
  const IDS := 0x1_0000_0000
  const STREAM_DATA := "stream_data"
  const STREAM_ENDED := "stream_ended"

  type StreamId = S.StreamId
  type RequestId = nat

  // ---------- Frames ----------

  /** How the parameters of a frame parse. */
  datatype Params = Segment(stream: StreamId, bytes: Bytes) | Ended(stream: StreamId) | Other | Malformed

  datatype Incoming = Method(id: Option<RequestId>, name: string, params: Params) | Reply(replyTo: RequestId)

  datatype Code = Success | Fail(code: int)

  /** `call` numbers the dispatched method frames; it identifies a frame here and is not sent. */
  datatype Out =
    | Started(call: nat, forId: RequestId, ids: seq<StreamId>)
    | Data(stream: StreamId, segment: Bytes)
    | End(stream: StreamId)
    | Response(call: nat, id: RequestId, code: Code)
    | Foreign

  // ---------- Dispatch ----------

  datatype Kind = Sync | Async | Duplex(streams: nat)

  type Methods = map<string, Kind>

  datatype Route =
    | ToData(stream: StreamId, bytes: Bytes)
    | ToEnd(stream: StreamId)
    | ToSync
    | ToAsync
    | ToDuplex(n: nat)
    | Now(code: Code)       // answered by the dispatcher itself
    | Later(code: Code)     // answered by a future that is ready at once

  /** What happens to a method frame. The stream methods are built in; parameters are parsed first. */
  function RouteOf(methods: Methods, name: string, params: Params): Route {
    if name == STREAM_DATA then
      if params.Segment? then ToData(params.stream, params.bytes) else Now(Fail(0))
    else if name == STREAM_ENDED then
      if params.Segment? || params.Ended? then ToEnd(params.stream) else Later(Fail(0))
    else if name !in methods then Now(Fail(-1))
    else match methods[name]
      case Sync => if params.Malformed? then Now(Fail(0)) else ToSync
      case Async => if params.Malformed? then Later(Fail(0)) else ToAsync
      case Duplex(n) => if params.Malformed? then Later(Fail(0)) else ToDuplex(n)
  }

  // ---------- State ----------

  datatype Phase =
    | Answering(code: Code)                  // the main task is sending the reply
    | Opening                                // the main task is registering the streams
    | Running(ready: Option<Code>)           // a future; `ready` if it only holds a reply
    | EndingStream(stream: StreamId)         // the future of stream_ended, before `remove`
    | ShuttingDown(w: S.Writer)              // inside `remove`, waiting for the shutdown
    | Replying(code: Code)                   // the future's task is sending the reply
    | Done

  datatype Call = Call(id: Option<RequestId>, duplex: bool, phase: Phase)

  datatype Main =
    | Idle                                             // in the select
    | Dispatching                                      // in the decode loop
    | SendingReply(call: nat)
    | Starting(call: nat, ids: seq<StreamId>)          // sending streams_started
    | Inserting(call: nat, ids: seq<StreamId>)         // still to be inserted in the table

  /** `error` records whether the reader stopped on an error or at the end of what was written. */
  datatype Reader = Reading | Sending(segment: Bytes) | Finishing(error: bool) | Finished(error: bool)

  /** What a handler wrote to a stream, and how much of it the reader has taken. */
  datatype Pipe = Pipe(written: Bytes, taken: nat, closed: bool)

  /**
    How a connection is driven: by a loop that also writes, with a channel of 8 frames in
    `start_msgpack_rpc`, or with a task of its own for writing.
   */
  datatype Driver = Driver(capacity: nat, ownWriter: bool)

  datatype State = State(
    driver: Driver,
    methods: Methods,
    main: Main,
    inbox: seq<Incoming>,
    chan: seq<Out>,
    wire: seq<Out>,
    calls: seq<Call>,
    readers: map<StreamId, Reader>,
    pipes: map<StreamId, Pipe>,
    streams: S.State,
    nextId: nat,
    // history
    handled: seq<Incoming>,            // the frame of every call
    outcomes: map<nat, bool>,          // whether the handler of a call has succeeded
    sent: seq<(StreamId, Bytes)>,      // stream data the peer sent
    fed: seq<(StreamId, Bytes)>,       // stream data dispatched
    ended: set<StreamId>,              // streams with a dispatched stream_ended
    removed: set<StreamId>,            // streams whose `remove` has run
    peerEnded: set<StreamId>)          // streams the peer has ended

  function Initial(driver: Driver, methods: Methods): State {
    State(driver, methods, Idle, [], [], [], [], map[], map[], S.INITIAL, 0, [], map[], [], [], {}, {}, {})
  }

  datatype Action =
    | PeerSend(frame: Incoming)
    | ReadStart
    | ReadEnd
    | Dispatch(ok: bool, ids: seq<StreamId>) // the outcome of a synchronous callback, the ids taken
    | SendReply
    | SendStarted
    | InsertStream(w: S.Writer)
    | SpawnFuture
    | FutureDone(call: nat, ok: bool)        // `ok`: the outcome of a handler
    | RunRemove(call: nat)
    | RemoveDone(call: nat)
    | SendResponse(call: nat)
    | HandlerWrite(stream: StreamId, bytes: Bytes)
    | HandlerClose(stream: StreamId)
    | ReaderTake(stream: StreamId, n: nat)
    | ReaderStop(stream: StreamId, error: bool)
    | ReaderSend(stream: StreamId)
    | ReaderEnd(stream: StreamId)
    | WriteOut
    | WriteForeign
    | LoopStep(a: S.Action)
    | AllocateElsewhere(n: nat)

  // ---------- Steps ----------

  predicate Room(s: State) {
    |s.chan| < s.driver.capacity
  }

  function HeadRoute(s: State): Route
    requires s.inbox != [] && s.inbox[0].Method?
  {
    RouteOf(s.methods, s.inbox[0].name, s.inbox[0].params)
  }

  /** How many stream ids the frame at the head needs. */
  function WantedIds(s: State): nat
    requires s.inbox != []
  {
    if s.inbox[0].Method? && HeadRoute(s).ToDuplex? then HeadRoute(s).n else 0
  }

  predicate MayWrite(s: State) {
    s.main.Idle? || s.driver.ownWriter
  }

  predicate ReaderIs(s: State, i: StreamId) {
    i in s.readers && i in s.pipes
  }

  /** Ids do not wrap: fewer than 2^32 are ever taken from the counter. */
  predicate Enabled(s: State, a: Action) {
    match a
    case PeerSend(_) => true
    case ReadStart => s.main.Idle?
    case ReadEnd => s.main.Dispatching?
    case Dispatch(_, ids) => s.main.Dispatching? && s.inbox != [] && Taken(s.nextId, ids, WantedIds(s))
    case SendReply => s.main.SendingReply? && Room(s) && s.main.call < |s.calls|
      && s.calls[s.main.call].phase.Answering? && s.calls[s.main.call].id.Some?
    case SendStarted => s.main.Starting? && Room(s) && s.main.call < |s.calls|
    case InsertStream(w) => s.main.Inserting? && s.main.ids != [] && w !in s.streams.sinks
    case SpawnFuture => s.main.Inserting? && s.main.ids == [] && s.main.call < |s.calls|
    case FutureDone(c, _) => c < |s.calls| && s.calls[c].phase.Running?
    case RunRemove(c) => c < |s.calls| && s.calls[c].phase.EndingStream?
    case RemoveDone(c) => c < |s.calls| && s.calls[c].phase.ShuttingDown? && s.calls[c].phase.w !in s.streams.tasks
    case SendResponse(c) => c < |s.calls| && s.calls[c].phase.Replying? && s.calls[c].id.Some? && Room(s)
    case HandlerWrite(i, _) => i in s.pipes && !s.pipes[i].closed
    case HandlerClose(i) => i in s.pipes
    case ReaderTake(i, n) => ReaderIs(s, i) && s.readers[i].Reading? && 1 <= n <= SEGMENT_LIMIT
      && s.pipes[i].taken + n <= |s.pipes[i].written|
    case ReaderStop(i, error) => ReaderIs(s, i) && s.readers[i].Reading?
      && (error || (s.pipes[i].closed && s.pipes[i].taken == |s.pipes[i].written|))
    case ReaderSend(i) => ReaderIs(s, i) && s.readers[i].Sending? && Room(s)
    case ReaderEnd(i) => ReaderIs(s, i) && s.readers[i].Finishing? && Room(s)
    case WriteOut => MayWrite(s) && s.chan != []
    case WriteForeign => MayWrite(s)
    case LoopStep(a) => !a.Insert? && !a.Write? && !a.Remove? && S.Enabled(s.streams, a)
    case AllocateElsewhere(n) => s.nextId + n <= IDS
  }

  /** The stream a frame ends: a stream_ended whose parameters name a stream. */
  function EndsStream(f: Incoming): Option<StreamId> {
    if f.Method? && f.name == STREAM_ENDED && (f.params.Ended? || f.params.Segment?) then Some(f.params.stream)
      else None
  }

  function FeedsStream(f: Incoming): Option<(StreamId, Bytes)> {
    if f.Method? && f.name == STREAM_DATA && f.params.Segment? then Some((f.params.stream, f.params.bytes)) else None
  }

  function DoPeerSend(s: State, f: Incoming): State {
    s.(inbox := s.inbox + [f],
       sent := if FeedsStream(f).Some? then s.sent + [FeedsStream(f).value] else s.sent,
       peerEnded := if EndsStream(f).Some? then s.peerEnded + {EndsStream(f).value} else s.peerEnded)
  }

  /** `n` ids from the counter, one after another; others may take ids in between. */
  predicate Taken(next: nat, ids: seq<StreamId>, n: nat) {
    && |ids| == n
    && (forall k :: 0 <= k < |ids| ==> next <= ids[k] < IDS)
    && (forall j, k :: 0 <= j < k < |ids| ==> ids[j] < ids[k])
  }

  function NextAfter(next: nat, ids: seq<StreamId>): nat {
    if ids == [] then next else ids[|ids| - 1] + 1
  }

  /** A reply the dispatcher has at once: the main task sends it, if the frame had an id. */
  function ReplyNow(s: State, id: Option<RequestId>, code: Code): State {
    var s1 := s.(calls := s.calls + [Replied(id, code)]);
    if id.Some? then s1.(main := SendingReply(|s.calls|)) else s1
  }

  /** A call the dispatcher has answered. */
  function Replied(id: Option<RequestId>, code: Code): Call {
    Call(id, false, if id.Some? then Answering(code) else Done)
  }

  function Spawned(s: State, id: Option<RequestId>, phase: Phase): State {
    s.(calls := s.calls + [Call(id, false, phase)])
  }

  function DoDispatch(s: State, ok: bool, ids: seq<StreamId>): State
    requires s.inbox != []
  {
    var f := s.inbox[0];
    if f.Reply? then s.(inbox := s.inbox[1..])
    else
      var s1 := s.(inbox := s.inbox[1..], handled := s.handled + [f]);
      match HeadRoute(s)
      case ToData(i, bytes) => ReplyNow(s1.(streams := S.DoWrite(s.streams, i, bytes), fed := s.fed + [(i, bytes)]),
        f.id, Success)
      case ToEnd(i) => Spawned(s1.(ended := s.ended + {i}), f.id, EndingStream(i))
      case ToSync => ReplyNow(s1.(outcomes := s.outcomes[|s.calls| := ok]), f.id, if ok then Success else Fail(-1))
      case ToAsync => Spawned(s1, f.id, Running(None))
      case ToDuplex(_) =>
        s1.(calls := s.calls + [Call(f.id, true, Opening)], main := Starting(|s.calls|, ids),
           nextId := NextAfter(s.nextId, ids))
      case Now(code) => ReplyNow(s1, f.id, code)
      case Later(code) => Spawned(s1, f.id, Running(Some(code)))
  }

  /** What dispatching leaves alone. */
  lemma DispatchFrame(s: State, ok: bool, ids: seq<StreamId>)
    requires s.inbox != []
    ensures var s' := DoDispatch(s, ok, ids);
      s' == s.(inbox := s.inbox[1..], main := s'.main, calls := s'.calls, streams := s'.streams, fed := s'.fed,
               ended := s'.ended, nextId := s'.nextId, handled := s'.handled, outcomes := s'.outcomes)
  {
    hide HeadRoute, S.DoWrite, ReplyNow, Spawned, NextAfter;
    if s.inbox[0].Method? {
      var id, s1 := s.inbox[0].id, s.(inbox := s.inbox[1..], handled := s.handled + [s.inbox[0]]);
      match HeadRoute(s)
      case ToData(i, bytes) =>
        AddFrame(s1.(streams := S.DoWrite(s.streams, i, bytes), fed := s.fed + [(i, bytes)]), id, Success, Done);
      case ToEnd(i) => AddFrame(s1.(ended := s.ended + {i}), id, Success, EndingStream(i));
      case ToSync =>
        AddFrame(s1.(outcomes := s.outcomes[|s.calls| := ok]), id, if ok then Success else Fail(-1), Done);
      case ToAsync => AddFrame(s1, id, Success, Running(None));
      case ToDuplex(_) =>
      case Now(code) => AddFrame(s1, id, code, Done);
      case Later(code) => AddFrame(s1, id, code, Running(Some(code)));
    }
  }

  /** Adding a call changes the calls, and the main task if it has to reply. */
  lemma AddFrame(s: State, id: Option<RequestId>, code: Code, phase: Phase)
    ensures var s' := ReplyNow(s, id, code); s' == s.(calls := s'.calls, main := s'.main)
    ensures var s' := Spawned(s, id, phase); s' == s.(calls := s'.calls)
    ensures ReplyNow(s, id, code).main == if id.Some? then SendingReply(|s.calls|) else s.main
  {
  }

  lemma DispatchMain(s: State, ok: bool, ids: seq<StreamId>)
    requires s.inbox != [] && s.main.Dispatching? && !(s.inbox[0].Method? && HeadRoute(s).ToDuplex?)
    ensures var s' := DoDispatch(s, ok, ids); s'.nextId == s.nextId && (s'.main.Dispatching? || s'.main.SendingReply?)
  {
    hide HeadRoute, S.DoWrite, ReplyNow, Spawned, NextAfter;
    if s.inbox[0].Method? {
      var id, s1 := s.inbox[0].id, s.(inbox := s.inbox[1..], handled := s.handled + [s.inbox[0]]);
      match HeadRoute(s)
      case ToData(i, bytes) =>
        AddFrame(s1.(streams := S.DoWrite(s.streams, i, bytes), fed := s.fed + [(i, bytes)]), id, Success, Done);
      case ToEnd(i) => AddFrame(s1.(ended := s.ended + {i}), id, Success, EndingStream(i));
      case ToSync =>
        AddFrame(s1.(outcomes := s.outcomes[|s.calls| := ok]), id, if ok then Success else Fail(-1), Done);
      case ToAsync => AddFrame(s1, id, Success, Running(None));
      case Now(code) => AddFrame(s1, id, code, Done);
      case Later(code) => AddFrame(s1, id, code, Running(Some(code)));
    }
  }

  /** Earlier calls stay as they are; a new one that ends a stream is for a stream_ended at the head. */
  lemma DispatchCalls(s: State, ok: bool, ids: seq<StreamId>)
    requires s.inbox != []
    ensures var s' := DoDispatch(s, ok, ids);
      && |s'.calls| >= |s.calls| && (forall c :: 0 <= c < |s.calls| ==> s'.calls[c] == s.calls[c])
      && forall c :: |s.calls| <= c < |s'.calls| && s'.calls[c].phase.EndingStream? ==>
           s.inbox[0].Method? && HeadRoute(s) == ToEnd(s'.calls[c].phase.stream)
  {
    if s.inbox[0].Method? {
      AddedCall(s, ok, ids);
      hide DoDispatch, HeadRoute;
    }
  }

  /** The call a method frame becomes. */
  function AddedBy(route: Route, id: Option<RequestId>, ok: bool): Call {
    match route
    case ToData(_, _) => Replied(id, Success)
    case ToEnd(i) => Call(id, false, EndingStream(i))
    case ToSync => Replied(id, if ok then Success else Fail(-1))
    case ToAsync => Call(id, false, Running(None))
    case ToDuplex(_) => Call(id, true, Opening)
    case Now(code) => Replied(id, code)
    case Later(code) => Call(id, false, Running(Some(code)))
  }

  lemma AddedCall(s: State, ok: bool, ids: seq<StreamId>)
    requires s.inbox != [] && s.inbox[0].Method?
    ensures DoDispatch(s, ok, ids).calls == s.calls + [AddedBy(HeadRoute(s), s.inbox[0].id, ok)]
  {
    hide HeadRoute, S.DoWrite, Replied;
  }

  /** What dispatching records of a method frame. */
  lemma DispatchRecords(s: State, ok: bool, ids: seq<StreamId>)
    requires s.inbox != [] && s.inbox[0].Method?
    ensures var s' := DoDispatch(s, ok, ids);
      && s'.handled == s.handled + [s.inbox[0]]
      && s'.outcomes == if HeadRoute(s).ToSync? then s.outcomes[|s.calls| := ok] else s.outcomes
  {
    hide HeadRoute, S.DoWrite, Replied, NextAfter;
  }

  lemma DispatchStarts(s: State, ok: bool, ids: seq<StreamId>)
    requires s.inbox != [] && s.inbox[0].Method? && s.main.Dispatching?
    ensures DoDispatch(s, ok, ids).main.Starting? ==>
      HeadRoute(s).ToDuplex? && DoDispatch(s, ok, ids).main == Starting(|s.calls|, ids)
  {
    if HeadRoute(s).ToDuplex? { hide HeadRoute; } else { DispatchMain(s, ok, ids); hide DoDispatch, HeadRoute; }
  }

  /** What dispatching does to the streams and their history. */
  lemma DispatchStreams(s: State, ok: bool, ids: seq<StreamId>)
    requires s.inbox != []
    ensures var s' := DoDispatch(s, ok, ids);
      if s.inbox[0].Method? && HeadRoute(s).ToData? then
        && s'.streams == S.DoWrite(s.streams, HeadRoute(s).stream, HeadRoute(s).bytes)
        && s'.fed == s.fed + [(HeadRoute(s).stream, HeadRoute(s).bytes)] && s'.ended == s.ended
      else
        && s'.streams == s.streams && s'.fed == s.fed
        && s'.ended == s.ended + if s.inbox[0].Method? && HeadRoute(s).ToEnd? then {HeadRoute(s).stream} else {}
  {
    hide HeadRoute, S.DoWrite, ReplyNow, Spawned, NextAfter;
    if s.inbox[0].Method? {
      var id, s1 := s.inbox[0].id, s.(inbox := s.inbox[1..], handled := s.handled + [s.inbox[0]]);
      match HeadRoute(s)
      case ToData(i, bytes) =>
        AddFrame(s1.(streams := S.DoWrite(s.streams, i, bytes), fed := s.fed + [(i, bytes)]), id, Success, Done);
      case ToEnd(i) => AddFrame(s1.(ended := s.ended + {i}), id, Success, EndingStream(i));
      case ToSync =>
        AddFrame(s1.(outcomes := s.outcomes[|s.calls| := ok]), id, if ok then Success else Fail(-1), Done);
      case ToAsync => AddFrame(s1, id, Success, Running(None));
      case ToDuplex(_) =>
      case Now(code) => AddFrame(s1, id, code, Done);
      case Later(code) => AddFrame(s1, id, code, Running(Some(code)));
    }
  }

  function SetPhase(s: State, c: nat, phase: Phase): State
    requires c < |s.calls|
  {
    s.(calls := s.calls[c := s.calls[c].(phase := phase)])
  }

  /** A future has its result: a frame without an id gets no reply. */
  function Resolved(s: State, c: nat, code: Code): State
    requires c < |s.calls|
  {
    SetPhase(s, c, if s.calls[c].id.Some? then Replying(code) else Done)
  }

  function Answered(s: State, c: nat, code: Code): State
    requires c < |s.calls| && s.calls[c].id.Some?
  {
    SetPhase(s.(chan := s.chan + [Response(c, s.calls[c].id.value, code)]), c, Done)
  }

  /** The request a streams_started frame refers to; 0 stands for none. */
  function RequestOf(call: Call): RequestId {
    if call.id.Some? then call.id.value else 0
  }

  /** The future of a call ends: it held a reply, or its handler has succeeded or failed. */
  function DoFutureDone(s: State, c: nat, ok: bool): State
    requires c < |s.calls| && s.calls[c].phase.Running?
  {
    match s.calls[c].phase.ready
    case Some(code) => Resolved(s, c, code)
    case None => Resolved(s.(outcomes := s.outcomes[c := ok]), c, if ok then Success else Fail(-1))
  }

  function DoInsertStream(s: State, w: S.Writer): State
    requires s.main.Inserting? && s.main.ids != []
  {
    var i := s.main.ids[0];
    s.(main := Inserting(s.main.call, s.main.ids[1..]),
       streams := S.DoInsert(s.streams, i, w),
       readers := s.readers[i := Reading],
       pipes := s.pipes[i := Pipe([], 0, false)])
  }

  function DoRunRemove(s: State, c: nat): State
    requires c < |s.calls| && s.calls[c].phase.EndingStream?
  {
    var i := s.calls[c].phase.stream;
    var taken := S.RemoveRec(S.Get(s.streams.table, i)).1;
    var s1 := s.(streams := S.DoRemove(s.streams, i), removed := s.removed + {i});
    if taken.Some? then SetPhase(s1, c, ShuttingDown(taken.value)) else Resolved(s1, c, Success)
  }

  function DoReaderTake(s: State, i: StreamId, n: nat): State
    requires ReaderIs(s, i) && s.pipes[i].taken + n <= |s.pipes[i].written|
  {
    var p := s.pipes[i];
    s.(readers := s.readers[i := Sending(p.written[p.taken..p.taken + n])],
      pipes := s.pipes[i := p.(taken := p.taken + n)])
  }

  function DoReaderSend(s: State, i: StreamId): State
    requires ReaderIs(s, i) && s.readers[i].Sending?
  {
    s.(chan := s.chan + [Data(i, s.readers[i].segment)], readers := s.readers[i := Reading])
  }

  function DoReaderEnd(s: State, i: StreamId): State
    requires ReaderIs(s, i) && s.readers[i].Finishing?
  {
    s.(chan := s.chan + [End(i)], readers := s.readers[i := Finished(s.readers[i].error)])
  }

  function Next(s: State, a: Action): State
    requires Enabled(s, a)
  {
    match a
    case PeerSend(f) => DoPeerSend(s, f)
    case ReadStart => s.(main := Dispatching)
    case ReadEnd => s.(main := Idle)
    case Dispatch(ok, ids) => DoDispatch(s, ok, ids)
    case SendReply => Answered(s, s.main.call, s.calls[s.main.call].phase.code).(main := Dispatching)
    case SendStarted => s.(chan := s.chan + [Started(s.main.call, RequestOf(s.calls[s.main.call]), s.main.ids)],
      main := Inserting(s.main.call, s.main.ids))
    case InsertStream(w) => DoInsertStream(s, w)
    case SpawnFuture => SetPhase(s, s.main.call, Running(None)).(main := Dispatching)
    case FutureDone(c, ok) => DoFutureDone(s, c, ok)
    case RunRemove(c) => DoRunRemove(s, c)
    case RemoveDone(c) => Resolved(s, c, Success)
    case SendResponse(c) => Answered(s, c, s.calls[c].phase.code)
    case HandlerWrite(i, bytes) => s.(pipes := s.pipes[i := s.pipes[i].(written := s.pipes[i].written + bytes)])
    case HandlerClose(i) => s.(pipes := s.pipes[i := s.pipes[i].(closed := true)])
    case ReaderTake(i, n) => DoReaderTake(s, i, n)
    case ReaderStop(i, error) => s.(readers := s.readers[i := Finishing(error)])
    case ReaderSend(i) => DoReaderSend(s, i)
    case ReaderEnd(i) => DoReaderEnd(s, i)
    case WriteOut => s.(wire := s.wire + [s.chan[0]], chan := s.chan[1..])
    case WriteForeign => s.(wire := s.wire + [Foreign])
    case LoopStep(a) => s.(streams := S.Next(s.streams, a))
    case AllocateElsewhere(n) => s.(nextId := s.nextId + n)
  }

  /** Steps about calls and replies, none of which is about to remove a stream. */
  predicate OfCalls(a: Action) {
    a.ReadStart? || a.ReadEnd? || a.SendReply? || a.SendStarted? || a.SpawnFuture? || a.FutureDone? || a.RemoveDone?
    || a.SendResponse?
  }

  /** Steps of pipes and of the wire. */
  predicate OfPipes(a: Action) {
    a.HandlerWrite? || a.HandlerClose? || a.ReaderTake? || a.ReaderStop? || a.ReaderSend? || a.ReaderEnd?
    || a.WriteOut? || a.WriteForeign? || a.AllocateElsewhere?
  }

  /** What steps about calls leave alone. */
  lemma CallsFrame(s: State, a: Action)
    requires Enabled(s, a) && OfCalls(a)
    ensures var s' := Next(s, a);
      s' == s.(main := s'.main, calls := s'.calls, chan := s'.chan, outcomes := s'.outcomes)
    ensures s.main.Inserting? && s.main.ids != [] ==> Next(s, a).main == s.main
  {
    hide S.Enabled, S.Next, SetPhase, Answered, Resolved;
    match a
    case SendReply => AnsweredFrame(s, s.main.call, s.calls[s.main.call].phase.code);
    case SendResponse(c) => AnsweredFrame(s, c, s.calls[c].phase.code);
    case FutureDone(c, ok) => FutureFrame(s, c, ok);
    case RemoveDone(c) => ResolvedFrame(s, c, Success);
    case SpawnFuture => PhaseFrame(s, s.main.call, Running(None));
    case _ =>
  }

  lemma AnsweredFrame(s: State, c: nat, code: Code)
    requires c < |s.calls| && s.calls[c].id.Some?
    ensures var s' := Answered(s, c, code); s' == s.(calls := s'.calls, chan := s'.chan)
  {
  }

  lemma ResolvedFrame(s: State, c: nat, code: Code)
    requires c < |s.calls|
    ensures var s' := Resolved(s, c, code); s' == s.(calls := s'.calls)
  {
  }

  lemma FutureFrame(s: State, c: nat, ok: bool)
    requires c < |s.calls| && s.calls[c].phase.Running?
    ensures var s' := DoFutureDone(s, c, ok); s' == s.(calls := s'.calls, outcomes := s'.outcomes)
  {
    hide Resolved;
    match s.calls[c].phase.ready
    case Some(code) => ResolvedFrame(s, c, code);
    case None => ResolvedFrame(s.(outcomes := s.outcomes[c := ok]), c, if ok then Success else Fail(-1));
  }

  lemma RemoveFrame(s: State, c: nat)
    requires c < |s.calls| && s.calls[c].phase.EndingStream?
    ensures var s' := DoRunRemove(s, c); s' == s.(calls := s'.calls, streams := s'.streams, removed := s'.removed)
  {
    hide S.DoRemove, S.RemoveRec, S.Get;
  }

  lemma PhaseFrame(s: State, c: nat, phase: Phase)
    requires c < |s.calls|
    ensures var s' := SetPhase(s, c, phase);
      s' == s.(calls := s'.calls) && |s'.calls| == |s.calls| && s'.calls[c].phase == phase
      && forall d :: 0 <= d < |s.calls| && d != c ==> s'.calls[d] == s.calls[d]
  {
  }

  /** Which phases steps about calls change. */
  lemma CallsPhases(s: State, a: Action)
    requires Enabled(s, a) && OfCalls(a)
    ensures var s' := Next(s, a);
      && |s'.calls| == |s.calls|
      && forall c :: 0 <= c < |s.calls| && s'.calls[c].phase != s.calls[c].phase ==>
           !s'.calls[c].phase.EndingStream?
           && (s.calls[c].phase.EndingStream? ==> a.SpawnFuture? && s.main.Inserting? && c == s.main.call)
  {
    hide S.Enabled, S.Next;
  }

  /** What steps of pipes and of the wire leave alone. */
  lemma PipesFrame(s: State, a: Action)
    requires Enabled(s, a) && OfPipes(a)
    ensures var s' := Next(s, a);
      && s' == s.(chan := s'.chan, wire := s'.wire, readers := s'.readers, pipes := s'.pipes, nextId := s'.nextId)
      && s'.readers.Keys == s.readers.Keys
  {
    hide S.Enabled, S.Next, S.DoInsert, S.DoRemove, S.DoWrite;
  }

  ghost predicate Run(s: State, actions: seq<Action>, end: State)
    decreases |actions|
  {
    if actions == [] then end == s
    else Enabled(s, actions[0]) && Run(Next(s, actions[0]), actions[1..], end)
  }

  ghost predicate Reachable(s: State) {
    exists driver, methods, actions :: Run(Initial(driver, methods), actions, s)
  }

  /** The peer may know of the stream: it is inserted, or about to be while another task writes. */
  predicate Told(s: State, i: StreamId) {
    i in s.readers || (s.driver.ownWriter && s.main.Inserting? && i in s.main.ids)
  }

  predicate Announces(o: Out, i: StreamId) {
    o.Started? && i in o.ids
  }

  /** The peer has been told of the stream. */
  ghost predicate Announced(s: State, i: StreamId) {
    exists k :: 0 <= k < |s.wire| && Announces(s.wire[k], i)
  }

  /** A conforming peer sends data only on streams it was told of and has not ended. */
  ghost predicate Conforming(s: State, a: Action) {
    a.PeerSend? && FeedsStream(a.frame).Some? ==>
      var i := FeedsStream(a.frame).value.0;
      Announced(s, i) && i !in s.peerEnded
  }

  ghost predicate ConformingRun(s: State, actions: seq<Action>, end: State)
    decreases |actions|
  {
    if actions == [] then end == s
    else Enabled(s, actions[0]) && Conforming(s, actions[0]) && ConformingRun(Next(s, actions[0]), actions[1..], end)
  }

  ghost predicate ConformingReachable(s: State) {
    exists driver, methods, actions :: ConformingRun(Initial(driver, methods), actions, s)
  }

  /** Everything sent so far, on the wire or still queued for it. */
  function Trace(s: State): seq<Out> {
    s.wire + s.chan
  }
}
