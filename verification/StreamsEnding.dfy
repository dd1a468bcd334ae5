/** A stream that has been ended drains and shuts down within a fixed number of steps. */
module StreamsEnding {
  import opened Basics
  import opened Streams
  import opened StreamsSafety

  /** `remove` has run: the record is gone, or marked for its write loop. */
  predicate Ending(c: Channel) {
    c.rec.Some? ==> c.rec.value.ended
  }

  function Weight(batch: seq<Bytes>): nat {
    if batch == [] then 0 else |batch[0]| + 1 + Weight(batch[1..])
  }

  /** How often the write loop may still take the lock. */
  function LocksLeft(c: Channel): nat {
    if c.rec.None? || c.task.None? then 0 else if c.rec.value.q == [] then 1 else 2
  }

  /** An upper bound on the steps of the task that owns the writer. */
  function StepsLeft(c: Channel): nat {
    match c.task
    case None => 0
    case Some(Closing) => 1
    case Some(Locking(_)) => FromLock(c.rec)
    case Some(Draining(_, batch)) => Weight(batch) + 1 + FromLock(c.rec)
  }

  /** Take the lock, drain what is queued, take it again, shut down. */
  function FromLock(r: Option<StreamRec>): nat {
    if r.None? || r.value.q == [] then 2 else Weight(r.value.q) + 4
  }

  predicate StepOf(a: Action, w: Writer) {
    !a.Insert? && !a.Write? && !a.Remove? && a.w == w
  }

  function CountSteps(actions: seq<Action>, w: Writer): nat {
    if actions == [] then 0 else (if StepOf(actions[0], w) then 1 else 0) + CountSteps(actions[1..], w)
  }

  function CountLocks(actions: seq<Action>, w: Writer): nat {
    if actions == [] then 0 else (if actions[0] == Lock(w) then 1 else 0) + CountLocks(actions[1..], w)
  }

  predicate NoWriteTo(actions: seq<Action>, id: StreamId) {
    forall i :: 0 <= i < |actions| ==> !(actions[i].Write? && actions[i].id == id)
  }

  /** How one step `a` may change an ending stream. */
  predicate Closer(c: Channel, c': Channel, a: Action) {
    && Ending(c') && c'.accepted == c.accepted && c'.writer == c.writer
    && StepsLeft(c') + (if StepOf(a, c.writer) then 1 else 0) <= StepsLeft(c)
    && LocksLeft(c') + (if a == Lock(c.writer) then 1 else 0) <= LocksLeft(c)
  }

  lemma LockCloser(s: State, w: Writer)
    requires Inv(s) && w in s.tasks && s.tasks[w].Locking?
    requires Ending(ChannelOf(s, s.tasks[w].id))
    ensures Only(s, DoLock(s, w), s.tasks[w].id)
    ensures Closer(ChannelOf(s, s.tasks[w].id), ChannelOf(DoLock(s, w), s.tasks[w].id), Lock(w))
  {
    TaskChannel(s, w);
    LockStep(s, w);
    var id := s.tasks[w].id;
    LockShape(s, w);
    hide Inv, DoLock;
    LockCounts(ChannelOf(s, id), ChannelOf(DoLock(s, w), id));
  }

  lemma LockShape(s: State, w: Writer)
    requires Inv(s) && w in s.tasks && s.tasks[w].Locking?
    ensures var id := s.tasks[w].id;
      id in DoLock(s, w).log && DoLock(s, w).log[id].writer in DoLock(s, w).sinks && id in s.log
        && s.log[id].writer == w
      && LockedFrom(ChannelOf(s, id), ChannelOf(DoLock(s, w), id))
  {
    TaskChannel(s, w);
    assert s.tasks[w].id == s.sinks[w].id && s.tasks[w].id in s.table;
    hide Inv, Good;
    LockTasks(s, w);
  }

  lemma LockTasks(s: State, w: Writer)
    requires w in s.tasks && s.tasks[w].Locking?
    ensures var s', id := DoLock(s, w), s.tasks[w].id;
      && Get(s'.table, id) == LockRec(Get(s.table, id), w).0 && s'.sinks == s.sinks && s'.log == s.log
      && (if w in s'.tasks then Some(s'.tasks[w]) else None) ==
         match LockRec(Get(s.table, id), w).1
         case Parked => None
         case Batch(items) => Some(Draining(id, items))
         case _ => Some(Closing)
  {
  }

  /** One visit under the lock, as seen by the stream. */
  predicate LockedFrom(c: Channel, c': Channel) {
    && c' == Channel(c.id, c.writer, c.accepted, LockRec(c.rec, c.writer).0, c'.task, c.sink)
    && c.task.Some? && c.task.value.Locking? && c.rec.Some?
    && c'.task == match LockRec(c.rec, c.writer).1
                  case Parked => None
                  case Batch(items) => Some(Draining(c.task.value.id, items))
                  case _ => Some(Closing)
  }

  lemma LockCounts(c: Channel, c': Channel)
    requires LockedFrom(c, c') && Ending(c)
    ensures Closer(c, c', Lock(c.writer))
  {
  }

  /** A step that changes only the task and its pipe, judged by the stream alone. */
  lemma TouchCloser(s: State, w: Writer, task: Task, k: Sink, a: Action)
    requires Inv(s) && w in s.tasks && k.id == s.sinks[w].id && k.id in s.log && s.log[k.id].writer == w
    requires Closer(ChannelOf(s, k.id), ChannelOf(s, k.id).(task := Some(task), sink := k), a)
    ensures Only(s, Touch(s, w, Some(task), k), k.id)
    ensures Closer(ChannelOf(s, k.id), ChannelOf(Touch(s, w, Some(task), k), k.id), a)
  {
    hide Closer;
    TouchStep(s, w, Some(task), k);
  }

  lemma PutCounts(c: Channel, n: nat, k: Sink)
    requires Ending(c) && c.task.Some? && c.task.value.Draining? && c.task.value.batch != []
    requires 1 <= n <= |c.task.value.batch[0]|
    ensures var Draining(id, batch) := c.task.value;
      Closer(c, c.(task := Some(Draining(id, [batch[0][n..]] + batch[1..])), sink := k), Put(c.writer, n))
  {
    var batch := c.task.value.batch;
    assert ([batch[0][n..]] + batch[1..])[1..] == batch[1..];
  }

  lemma PutCloser(s: State, w: Writer, n: nat)
    requires Inv(s) && WritingItem(s, w) && !s.sinks[w].failed && 1 <= n <= |s.tasks[w].batch[0]|
    requires Ending(ChannelOf(s, s.tasks[w].id))
    ensures Only(s, DoPut(s, w, n), s.tasks[w].id)
    ensures Closer(ChannelOf(s, s.tasks[w].id), ChannelOf(DoPut(s, w, n), s.tasks[w].id), Put(w, n))
  {
    TaskChannel(s, w);
    var s' := DoPut(s, w, n);
    PutCounts(ChannelOf(s, s.tasks[w].id), n, s'.sinks[w]);
    hide Closer, Inv, Ending;
    TouchCloser(s, w, s'.tasks[w], s'.sinks[w], Put(w, n));
    assert s' == Touch(s, w, Some(s'.tasks[w]), s'.sinks[w]);
  }

  lemma ItemCounts(c: Channel)
    requires Ending(c) && c.task.Some? && c.task.value.Draining? && c.task.value.batch != []
    requires c.task.value.batch[0] == []
    ensures Closer(c, c.(task := Some(Draining(c.task.value.id, c.task.value.batch[1..]))), ItemDone(c.writer))
  {
  }

  lemma ItemDoneCloser(s: State, w: Writer)
    requires Inv(s) && WritingItem(s, w) && s.tasks[w].batch[0] == []
    requires Ending(ChannelOf(s, s.tasks[w].id))
    ensures Only(s, DoItemDone(s, w), s.tasks[w].id)
    ensures Closer(ChannelOf(s, s.tasks[w].id), ChannelOf(DoItemDone(s, w), s.tasks[w].id), ItemDone(w))
  {
    TaskChannel(s, w);
    var s' := DoItemDone(s, w);
    assert s.sinks[w := s.sinks[w]] == s.sinks;
    ItemCounts(ChannelOf(s, s.tasks[w].id));
    hide Closer, Inv, Ending;
    TouchCloser(s, w, s'.tasks[w], s'.sinks[w], ItemDone(w));
    assert s' == Touch(s, w, Some(s'.tasks[w]), s'.sinks[w]);
  }

  /** Leaving the batch, written out or given up. */
  lemma LeaveCounts(c: Channel, k: Sink, a: Action)
    requires Ending(c) && c.task.Some? && c.task.value.Draining? && StepOf(a, c.writer) && !a.Lock?
    ensures Closer(c, c.(task := Some(Locking(c.task.value.id)), sink := k), a)
  {
  }

  lemma FailCloser(s: State, w: Writer)
    requires Inv(s) && WritingItem(s, w)
    requires Ending(ChannelOf(s, s.tasks[w].id))
    ensures Only(s, DoFail(s, w), s.tasks[w].id)
    ensures Closer(ChannelOf(s, s.tasks[w].id), ChannelOf(DoFail(s, w), s.tasks[w].id), Fail(w))
  {
    TaskChannel(s, w);
    var s' := DoFail(s, w);
    LeaveCounts(ChannelOf(s, s.tasks[w].id), s'.sinks[w], Fail(w));
    hide Closer, Inv, Ending;
    TouchCloser(s, w, s'.tasks[w], s'.sinks[w], Fail(w));
    assert s' == Touch(s, w, Some(s'.tasks[w]), s'.sinks[w]);
  }

  lemma BatchDoneCloser(s: State, w: Writer)
    requires Inv(s) && w in s.tasks && s.tasks[w].Draining? && s.tasks[w].batch == []
    requires Ending(ChannelOf(s, s.tasks[w].id))
    ensures Only(s, DoBatchDone(s, w), s.tasks[w].id)
    ensures Closer(ChannelOf(s, s.tasks[w].id), ChannelOf(DoBatchDone(s, w), s.tasks[w].id), BatchDone(w))
  {
    TaskChannel(s, w);
    var s' := DoBatchDone(s, w);
    assert s.sinks[w := s.sinks[w]] == s.sinks;
    LeaveCounts(ChannelOf(s, s.tasks[w].id), s'.sinks[w], BatchDone(w));
    hide Closer, Inv, Ending;
    TouchCloser(s, w, s'.tasks[w], s'.sinks[w], BatchDone(w));
    assert s' == Touch(s, w, Some(s'.tasks[w]), s'.sinks[w]);
  }

  lemma ShutdownCloser(s: State, w: Writer)
    requires Inv(s) && w in s.tasks && s.tasks[w].Closing?
    requires s.sinks[w].id in s.log && Ending(ChannelOf(s, s.sinks[w].id))
    ensures Only(s, DoShutdown(s, w), s.sinks[w].id)
    ensures Closer(ChannelOf(s, s.sinks[w].id), ChannelOf(DoShutdown(s, w), s.sinks[w].id), Shutdown(w))
  {
    TaskChannel(s, w);
    ShutdownStep(s, w);
  }

  lemma RemoveCloser(s: State, id: StreamId)
    requires Inv(s) && id in s.log && Ending(ChannelOf(s, id))
    ensures Only(s, DoRemove(s, id), id)
    ensures ChannelOf(DoRemove(s, id), id) == ChannelOf(s, id)
  {
    RemoveStep(s, id);
    assert Good(ChannelOf(s, id));
  }

  /** A step of the task that owns the writer of `id`. */
  lemma TaskCloser(s: State, a: Action)
    requires Inv(s) && Enabled(s, a) && !a.Insert? && !a.Write? && !a.Remove?
    requires s.sinks[a.w].id in s.log && Ending(ChannelOf(s, s.sinks[a.w].id))
    ensures Only(s, Next(s, a), s.sinks[a.w].id)
    ensures Closer(ChannelOf(s, s.sinks[a.w].id), ChannelOf(Next(s, a), s.sinks[a.w].id), a)
  {
    TaskChannel(s, a.w);
    match a
    case Lock(w) => LockCloser(s, w);
    case Put(w, n) => PutCloser(s, w, n);
    case ItemDone(w) => ItemDoneCloser(s, w);
    case Fail(w) => FailCloser(s, w);
    case BatchDone(w) => BatchDoneCloser(s, w);
    case Shutdown(w) => ShutdownCloser(s, w);
  }

  lemma StepCloser(s: State, a: Action, id: StreamId)
    requires Inv(s) && Enabled(s, a) && Fresh(s, a) && !(a.Write? && a.id == id)
    requires id in s.log && Ending(ChannelOf(s, id))
    ensures Inv(Next(s, a)) && id in Next(s, a).log
    ensures Closer(ChannelOf(s, id), ChannelOf(Next(s, a), id), a)
  {
    StepKeepsInv(s, a);
    if Target(s, a) != id {
      assert ChannelOf(Next(s, a), id) == ChannelOf(s, id);
    } else if a.Remove? {
      RemoveCloser(s, id);
    } else {
      TaskCloser(s, a);
    }
  }

  lemma RemoveCounts(c: Channel)
    requires PlaceOk(c) && c.rec.Some?
    ensures var c' := Channel(c.id, c.writer, c.accepted, RemoveRec(c.rec).0,
                              if c.rec.value.write.Some? then Some(Closing) else c.task, c.sink);
      Ending(c') && LocksLeft(c') <= 2 && StepsLeft(c') <= StepsLeft(c) + 1
  {
  }

  /** `remove` on an existing record starts the ending, whoever holds the writer. */
  lemma RemoveEnds(s: State, id: StreamId)
    requires Reachable(s) && id in s.table
    ensures id in s.log && id in DoRemove(s, id).log && Inv(DoRemove(s, id))
    ensures Ending(ChannelOf(DoRemove(s, id), id)) && LocksLeft(ChannelOf(DoRemove(s, id), id)) <= 2
    ensures DoRemove(s, id).log[id] == s.log[id] && s.log[id].writer in s.sinks
    ensures StepsLeft(ChannelOf(DoRemove(s, id), id)) <= StepsLeft(ChannelOf(s, id)) + 1
  {
    ReachableInv(s);
    assert Good(ChannelOf(s, id));
    RemoveStep(s, id);
    RemoveOnly(s, id);
    RemoveCounts(ChannelOf(s, id));
    hide Inv, Good, PlaceOk, RemoveRec, Ending, LocksLeft, StepsLeft;
  }

  /** The record is gone, the pipe shut down once with no later write, every accepted byte delivered. */
  predicate Finished(c: Channel) {
    && c.rec.None? && c.task.None? && c.sink.shutdowns == 1 && !c.sink.late
    && (!c.sink.failed ==> c.sink.delivered == Concat(c.accepted))
  }

  /** The task of `w` can take `a`, and `a` is not the failure of a pipe that works. */
  predicate Forward(s: State, w: Writer, a: Action) {
    StepOf(a, w) && Enabled(s, a) && (a.Fail? ==> s.sinks[w].failed)
  }

  ghost predicate CanStep(s: State, w: Writer) {
    exists a :: Forward(s, w, a)
  }

  lemma DrainingForward(s: State, w: Writer) returns (a: Action)
    requires w in s.tasks && w in s.sinks && s.tasks[w].Draining?
    ensures Forward(s, w, a)
  {
    var batch := s.tasks[w].batch;
    a := if batch == [] then BatchDone(w) else if batch[0] == [] then ItemDone(w)
         else if s.sinks[w].failed then Fail(w) else Put(w, 1);
  }

  lemma TaskCanStep(s: State, w: Writer)
    requires Inv(s) && w in s.tasks
    ensures CanStep(s, w)
  {
    assert w in s.sinks;
    hide Inv;
    match s.tasks[w]
    case Closing => assert Forward(s, w, Shutdown(w));
    case Locking(_) => assert Forward(s, w, Lock(w));
    case Draining(_, _) =>
      var a := DrainingForward(s, w);
      assert Forward(s, w, a);
  }

  /** While steps are left one of them is enabled; after the last one everything is delivered. */
  lemma EndReached(s: State, id: StreamId)
    requires Inv(s) && id in s.log && Ending(ChannelOf(s, id))
    ensures if StepsLeft(ChannelOf(s, id)) > 0 then CanStep(s, s.log[id].writer) else Finished(ChannelOf(s, id))
  {
    var w := s.log[id].writer;
    assert Good(ChannelOf(s, id));
    if w in s.tasks { TaskCanStep(s, w); }
  }

  /** Between `c` and `e` the actions used up what `c` had left of its lock visits and steps. */
  predicate Bounded(c: Channel, e: Channel, actions: seq<Action>) {
    && Ending(e) && e.accepted == c.accepted && e.writer == c.writer
    && CountLocks(actions, c.writer) + LocksLeft(e) <= LocksLeft(c) <= 2
    && CountSteps(actions, c.writer) + StepsLeft(e) <= StepsLeft(c)
  }

  lemma {:induction false} EndingBounded(s: State, actions: seq<Action>, end: State, id: StreamId)
    requires Inv(s) && FreshRun(s, actions, end) && NoWriteTo(actions, id)
    requires id in s.log && Ending(ChannelOf(s, id))
    ensures Inv(end) && id in end.log && Bounded(ChannelOf(s, id), ChannelOf(end, id), actions)
    decreases |actions|
  {
    if actions != [] {
      StepCloser(s, actions[0], id);
      assert forall i :: 0 <= i < |actions[1..]| ==> actions[1..][i] == actions[i + 1];
      EndingBounded(Next(s, actions[0]), actions[1..], end, id);
      hide Inv, Next, Enabled, Ending, Closer, Bounded;
      BoundedStep(ChannelOf(s, id), ChannelOf(Next(s, actions[0]), id), ChannelOf(end, id), actions);
    }
  }

  lemma BoundedStep(c: Channel, c': Channel, e: Channel, actions: seq<Action>)
    requires actions != [] && Ending(c) && Closer(c, c', actions[0]) && Bounded(c', e, actions[1..])
    ensures Bounded(c, e, actions)
  {
  }

  function Items(c: Channel): seq<Bytes> {
    (if c.task.Some? && c.task.value.Draining? then c.task.value.batch else [])
    + (if c.rec.Some? then c.rec.value.q else [])
  }

  lemma {:induction false} WeightIs(batch: seq<Bytes>)
    ensures Weight(batch) == |Concat(batch)| + |batch|
  {
    if batch != [] { WeightIs(batch[1..]); }
  }

  /** The bound in numbers: one step for every byte still to deliver, one for every item, and six. */
  lemma StepsBound(c: Channel)
    ensures StepsLeft(c) <= |Pending(c)| + |Items(c)| + 6
  {
    if c.task.Some? && c.task.value.Draining? { WeightIs(c.task.value.batch); }
    if c.rec.Some? { WeightIs(c.rec.value.q); }
  }

  /**
    After `remove`, as long as nothing more is written to the stream: whatever else is
    interleaved, its task takes the lock at most twice and a bounded number of steps; it is
    never stuck before the record is gone, all bytes are delivered and the pipe is shut down.
   */
  lemma EndOfStream(s: State, actions: seq<Action>, end: State, id: StreamId)
    requires Reachable(s) && id in s.table
    requires FreshRun(DoRemove(s, id), actions, end) && NoWriteTo(actions, id)
    ensures id in s.log && s.log[id].writer in s.sinks && id in end.log && Inv(end)
    ensures var w, e := s.log[id].writer, ChannelOf(end, id);
      && e.writer == w && e.accepted == s.log[id].accepted
      && CountLocks(actions, w) <= 2
      && (if StepsLeft(e) > 0 then CanStep(end, w) else Finished(e))
    ensures CountSteps(actions, s.log[id].writer) + StepsLeft(ChannelOf(end, id)) <= StepsLeft(ChannelOf(s, id)) + 1
  {
    RemoveEnds(s, id);
    EndingBounded(DoRemove(s, id), actions, end, id);
    EndReached(end, id);
  }
}
