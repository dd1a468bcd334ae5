/**
  When the transport loop can go on. The loop sends into a bounded channel that it empties itself,
  unless the connection has a task of its own for writing.
 */
module TransportProgress {
  import opened Basics
  import opened Transport
  import S = Streams
  import Calling = TransportCalls
  import Sending = TransportOut

  /** The main task has a frame to send and the channel is full. */
  predicate Blocked(s: State) {
    (s.main.SendingReply? || s.main.Starting?) && !Room(s)
  }

  predicate OfMain(a: Action) {
    a.ReadStart? || a.ReadEnd? || a.Dispatch? || a.SendReply? || a.SendStarted? || a.InsertStream? || a.SpawnFuture?
  }

  predicate MainStep(s: State, a: Action) {
    OfMain(a) && Enabled(s, a)
  }

  /** A number greater than all of a set. */
  lemma {:induction false} Above(used: set<nat>) returns (n: nat)
    ensures forall x :: x in used ==> x < n
    decreases used
  {
    if used == {} {
      n := 0;
    } else {
      var x :| x in used;
      var m := Above(used - {x});
      n := if x < m then m else x + 1;
      forall y | y in used ensures y < n {
        if y != x { assert y in used - {x}; }
      }
    }
  }

  lemma NextMainStep(s: State) returns (a: Action)
    requires Calling.MainOk(s) && !Blocked(s)
    ensures MainStep(s, a)
  {
    match s.main
    case Idle => a := ReadStart;
    case Dispatching => a := ReadEnd;
    case SendingReply(_) => a := SendReply;
    case Starting(_, _) => a := SendStarted;
    case Inserting(_, ids) =>
      var w := Above(s.streams.sinks.Keys);
      a := if ids == [] then SpawnFuture else InsertStream(w);
  }

  /** The main task can take a step exactly when it is not blocked. */
  lemma MainStepsIff(s: State)
    requires Reachable(s)
    ensures (exists a :: MainStep(s, a)) <==> !Blocked(s)
  {
    Calling.ReachableCalls(s);
    hide MainStep, Calling.ViewsOk;
    if !Blocked(s) {
      var a := NextMainStep(s);
    } else {
      forall a ensures !MainStep(s, a) { BlockedCannot(s, a); }
    }
  }

  lemma BlockedCannot(s: State, a: Action)
    requires Blocked(s)
    ensures !MainStep(s, a)
  {
  }

  /** Nothing the peer could notice has happened, and nothing it sent was dispatched. */
  predicate Stalled(s: State, s': State) {
    s'.driver == s.driver && s'.main == s.main && s'.chan == s.chan && s'.wire == s.wire && s.inbox <= s'.inbox
  }

  lemma StalledStep(s: State, a: Action)
    requires Blocked(s) && !s.driver.ownWriter && Enabled(s, a)
    ensures Stalled(s, Next(s, a))
  {
    hide S.Next, S.Enabled;
    if a.FutureDone? { FutureFrame(s, a.call, a.ok); }
    if a.RemoveDone? { ResolvedFrame(s, a.call, Success); }
    if a.RunRemove? { RemoveFrame(s, a.call); }
    hide DoFutureDone, DoRunRemove, Resolved, SetPhase;
  }

  /** A single task that is blocked stays so for good: it never writes, nor dispatches, anything again. */
  lemma {:induction false} BlockedForever(s: State, actions: seq<Action>, end: State)
    requires Blocked(s) && !s.driver.ownWriter && Run(s, actions, end)
    ensures Stalled(s, end) && Blocked(end)
    decreases |actions|
  {
    if actions != [] {
      var a := actions[0];
      StalledStep(s, a);
      hide Next, Enabled;
      BlockedForever(Next(s, a), actions[1..], end);
    }
  }

  /** With a task of its own for writing, a blocked main task gets room by one step of that task. */
  lemma OwnWriterUnblocks(s: State)
    requires Reachable(s) && Blocked(s) && s.driver.ownWriter && s.driver.capacity > 0
    ensures Enabled(s, WriteOut) && !Blocked(Next(s, WriteOut))
  {
    var driver, methods, actions :| Run(Initial(driver, methods), actions, s);
    ChannelBounded(Initial(driver, methods), actions, s);
  }

  // ---------- The other tasks ----------

  /** A handler's future can always go on, and can send its reply exactly when the channel has room. */
  lemma CallSteps(s: State, c: nat, ok: bool)
    requires Reachable(s) && c < |s.calls|
    ensures s.calls[c].phase.Running? ==> Enabled(s, FutureDone(c, ok))
    ensures s.calls[c].phase.EndingStream? ==> Enabled(s, RunRemove(c))
    ensures s.calls[c].phase.Replying? ==> (Enabled(s, SendResponse(c)) <==> Room(s))
  {
    Calling.ReachableCalls(s);
    hide Calling.ViewsOk;
  }

  /**
    A reader takes any amount from 1 to 4096 bytes of what there is to read, stops at the end, and
    sends when the channel has room.
   */
  lemma ReaderSteps(s: State, i: StreamId, n: nat)
    requires Reachable(s) && i in s.readers
    ensures i in s.pipes
    ensures s.readers[i].Sending? ==> (Enabled(s, ReaderSend(i)) <==> Room(s))
    ensures s.readers[i].Finishing? ==> (Enabled(s, ReaderEnd(i)) <==> Room(s))
    ensures s.readers[i].Reading? ==>
      var p := s.pipes[i];
      && (Enabled(s, ReaderTake(i, n)) <==> 1 <= n <= 4096 && p.taken + n <= |p.written|)
      && (Enabled(s, ReaderStop(i, false)) <==> p.closed && p.taken == |p.written|)
  {
    Sending.ReachableOut(s);
    assert i in s.pipes;
    hide Sending.OutInv, Reachable;
  }

  /** The channel never holds more than its capacity. */
  lemma {:induction false} ChannelBounded(s: State, actions: seq<Action>, end: State)
    requires |s.chan| <= s.driver.capacity && Run(s, actions, end)
    ensures |end.chan| <= end.driver.capacity && end.driver == s.driver
    decreases |actions|
  {
    if actions != [] {
      ChannelStep(s, actions[0]);
      hide Next, Enabled;
      ChannelBounded(Next(s, actions[0]), actions[1..], end);
    }
  }

  lemma ChannelStep(s: State, a: Action)
    requires |s.chan| <= s.driver.capacity && Enabled(s, a)
    ensures |Next(s, a).chan| <= s.driver.capacity && Next(s, a).driver == s.driver
  {
    if OfPipes(a) { PipesFrame(s, a); }
    if OfCalls(a) { CallsFrame(s, a); }
    if a.Dispatch? { DispatchFrame(s, a.ok, a.ids); }
    if a.RunRemove? { RemoveFrame(s, a.call); }
    hide S.Next, S.Enabled, DoDispatch, DoRunRemove, DoFutureDone, Resolved;
  }

  // ---------- How a single task comes to be blocked ----------

  /** A synchronous request. */
  function Request(name: string): Incoming {
    Method(Some(0), name, Other)
  }

  predicate IsSync(methods: Methods, name: string) {
    name in methods && methods[name].Sync? && name != STREAM_DATA && name != STREAM_ENDED
  }

  function Requests(name: string, n: nat): seq<Incoming> {
    if n == 0 then [] else [Request(name)] + Requests(name, n - 1)
  }

  lemma RunMore(s: State, a: Action, rest: seq<Action>, end: State)
    requires Enabled(s, a) && Run(Next(s, a), rest, end)
    ensures Run(s, [a] + rest, end)
  {
    assert ([a] + rest)[1..] == rest;
  }

  /** One request is dispatched and its reply put in the channel. */
  lemma ReplyOne(s: State, name: string)
    requires s.main.Dispatching? && s.inbox != [] && s.inbox[0] == Request(name) && IsSync(s.methods, name) && Room(s)
    ensures Enabled(s, Dispatch(true, []))
    ensures var s1 := Next(s, Dispatch(true, []));
      && Enabled(s1, SendReply)
      && var s2 := Next(s1, SendReply);
         && s2.main.Dispatching? && s2.inbox == s.inbox[1..] && s2.methods == s.methods && s2.driver == s.driver
         && |s2.chan| == |s.chan| + 1
  {
  }

  /** With one request more than the channel has room for, the main task ends up blocked. */
  lemma {:induction false} RequestsBlock(s: State, name: string, room: nat) returns (actions: seq<Action>, end: State)
    requires s.main.Dispatching? && IsSync(s.methods, name) && |s.chan| + room == s.driver.capacity
    requires s.inbox == Requests(name, room + 1)
    ensures Run(s, actions, end) && Blocked(end) && end.driver == s.driver
    decreases room
  {
    assert s.inbox[0] == Request(name) && s.inbox[1..] == Requests(name, room);
    if room == 0 {
      var a := Dispatch(true, []);
      end := Next(s, a);
      assert Run(end, [], end);
      RunMore(s, a, [], end);
      actions := [a] + [];
    } else {
      ReplyOne(s, name);
      var s1 := Next(s, Dispatch(true, []));
      var s2 := Next(s1, SendReply);
      hide Next, Enabled;
      var rest;
      rest, end := RequestsBlock(s2, name, room - 1);
      RunMore(s1, SendReply, rest, end);
      RunMore(s, Dispatch(true, []), [SendReply] + rest, end);
      actions := [Dispatch(true, [])] + ([SendReply] + rest);
    }
  }

  lemma {:induction false} Arrive(s: State, name: string, n: nat) returns (actions: seq<Action>, end: State)
    ensures Run(s, actions, end)
    ensures end.inbox == s.inbox + Requests(name, n) && end.main == s.main && end.chan == s.chan
    ensures end.methods == s.methods && end.driver == s.driver
    decreases n
  {
    if n == 0 {
      actions, end := [], s;
      assert s.inbox + [] == s.inbox;
    } else {
      var s1 := Next(s, PeerSend(Request(name)));
      var rest;
      rest, end := Arrive(s1, name, n - 1);
      RunMore(s, PeerSend(Request(name)), rest, end);
      actions := [PeerSend(Request(name))] + rest;
      assert s.inbox + [Request(name)] + Requests(name, n - 1) == s.inbox + Requests(name, n);
    }
  }

  lemma {:induction false} RunThen(s: State, xs: seq<Action>, mid: State, ys: seq<Action>, end: State)
    requires Run(s, xs, mid) && Run(mid, ys, end)
    ensures Run(s, xs + ys, end)
    decreases |xs|
  {
    hide Next, Enabled;
    if xs == [] {
      assert xs + ys == ys;
    } else {
      RunThen(Next(s, xs[0]), xs[1..], mid, ys, end);
      assert (xs + ys)[1..] == xs[1..] + ys;
    }
  }

  /**
    A single task with a synchronous method is blocked by one read that brings one request more than
    its channel holds, nine for the capacity of 8.
   */
  lemma PipelineBlocks(driver: Driver, methods: Methods, name: string)
    requires !driver.ownWriter && IsSync(methods, name)
    ensures exists s :: Reachable(s) && Blocked(s) && s.driver == driver
  {
    var start := Initial(driver, methods);
    var arrive, s1 := Arrive(start, name, driver.capacity + 1);
    assert [] + Requests(name, driver.capacity + 1) == Requests(name, driver.capacity + 1);
    var s2 := Next(s1, ReadStart);
    var block, end := RequestsBlock(s2, name, driver.capacity);
    RunMore(s1, ReadStart, block, end);
    RunThen(start, arrive, s1, [ReadStart] + block, end);
    assert Reachable(end);
  }
}
