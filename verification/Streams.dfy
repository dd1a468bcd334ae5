/**
  The stream multiplexer of cli/src/rpc.rs: the shared table of stream records and the
  write loops that drain them, as a transition system whose steps are the critical sections,
  the single partial writes and the shutdowns.

  A writer is the ownership of one half of a pipe; a task is named by the writer it owns.
  `sinks` records what each pipe received. `log` is history: the writer inserted for an id
  and every segment accepted for that id.
 */
module Streams {
  import opened Basics

  type StreamId = nat
  type Writer = nat

  datatype StreamRec = StreamRec(write: Option<Writer>, q: seq<Bytes>, ended: bool)
  type Table = map<StreamId, StreamRec>

  // ---------- The critical sections, as functions of the record they work on ----------

  function Get(t: Table, id: StreamId): Option<StreamRec> {
    if id in t then Some(t[id]) else None
  }

  function Set(t: Table, id: StreamId, r: Option<StreamRec>): Table {
    if r.Some? then t[id := r.value] else t - {id}
  }

  /** The new record, and the writer to start a write loop with. */
  function WriteRec(r: Option<StreamRec>, buf: Bytes): (Option<StreamRec>, Option<Writer>) {
    if r.None? then (None, None)
    else (Some(StreamRec(None, r.value.q + [buf], r.value.ended)), r.value.write)
  }

  /** The new record, and the writer the caller has to shut down. */
  function RemoveRec(r: Option<StreamRec>): (Option<StreamRec>, Option<Writer>) {
    if r.None? then (None, None)
    else if r.value.write.Some? then (None, r.value.write)
    else (Some(r.value.(ended := true)), None)
  }

  datatype Visit = Missing | Ended | Parked | Batch(items: seq<Bytes>)

  /** What a write loop that owns `w` does under the lock. */
  function LockRec(r: Option<StreamRec>, w: Writer): (Option<StreamRec>, Visit) {
    if r.None? then (None, Missing)
    else if r.value.q != [] then (Some(r.value.(q := [])), Batch(r.value.q))
    else if r.value.ended then (None, Ended)
    else (Some(r.value.(write := Some(w))), Parked)
  }

  /** The lock-protected map, updated in place. */
  class StreamMap {
    var recs: Table

    constructor ()
      ensures recs == map[]
    {
      recs := map[];
    }

    method Insert(id: StreamId, w: Writer)
      modifies this
      ensures recs == Set(old(recs), id, Some(StreamRec(Some(w), [], false)))
    {
      recs := recs[id := StreamRec(Some(w), [], false)];
    }

    method Write(id: StreamId, buf: Bytes) returns (spawn: Option<Writer>)
      modifies this
      ensures recs == Set(old(recs), id, WriteRec(Get(old(recs), id), buf).0)
      ensures spawn == WriteRec(Get(old(recs), id), buf).1
    {
      spawn := None;
      if id in recs {
        var s := recs[id].(q := recs[id].q + [buf]);
        if s.write.Some? {
          spawn := s.write;
          s := s.(write := None);
        }
        recs := recs[id := s];
      }
    }

    method Remove(id: StreamId) returns (taken: Option<Writer>)
      modifies this
      ensures recs == Set(old(recs), id, RemoveRec(Get(old(recs), id)).0)
      ensures taken == RemoveRec(Get(old(recs), id)).1
    {
      taken := None;
      if id in recs {
        taken := recs[id].write;
        if taken.Some? {
          recs := recs - {id};
        } else {
          recs := recs[id := recs[id].(ended := true)];
        }
      }
    }

    method Lock(id: StreamId, w: Writer) returns (visit: Visit)
      modifies this
      ensures recs == Set(old(recs), id, LockRec(Get(old(recs), id), w).0)
      ensures visit == LockRec(Get(old(recs), id), w).1
    {
      if id !in recs {
        return Missing;
      }
      var s := recs[id];
      if s.q == [] {
        if s.ended {
          recs := recs - {id};
          return Ended;
        }
        recs := recs[id := s.(write := Some(w))];
        return Parked;
      }
      recs := recs[id := s.(q := [])];
      return Batch(s.q);
    }
  }

  // ---------- The transition system ----------

  /** About to take the lock, writing out a batch, or about to shut the writer down. */
  datatype Task = Locking(id: StreamId) | Draining(id: StreamId, batch: seq<Bytes>) | Closing

  /** `late` says that a byte was written after a shutdown. */
  datatype Sink = Sink(id: StreamId, delivered: Bytes, failed: bool, shutdowns: nat, late: bool)

  datatype History = History(writer: Writer, accepted: seq<Bytes>)

  datatype State = State(
    table: Table,
    tasks: map<Writer, Task>,
    sinks: map<Writer, Sink>,
    log: map<StreamId, History>)

  const INITIAL := State(map[], map[], map[], map[])

  datatype Action =
    | Insert(id: StreamId, w: Writer)
    | Write(id: StreamId, buf: Bytes)
    | Remove(id: StreamId)
    | Lock(w: Writer)
    | Put(w: Writer, n: nat)      // one partial write of the current item
    | ItemDone(w: Writer)
    | Fail(w: Writer)             // the pipe is broken: the rest of the batch is dropped
    | BatchDone(w: Writer)
    | Shutdown(w: Writer)

  predicate WritingItem(s: State, w: Writer) {
    w in s.tasks && w in s.sinks && s.tasks[w].Draining? && s.tasks[w].batch != []
  }

  /** A writer is inserted at most once; only its task takes the steps of a write loop. */
  predicate Enabled(s: State, a: Action) {
    match a
    case Insert(_, w) => w !in s.sinks
    case Write(_, _) => true
    case Remove(_) => true
    case Lock(w) => w in s.tasks && s.tasks[w].Locking?
    case Put(w, n) => WritingItem(s, w) && !s.sinks[w].failed && 1 <= n <= |s.tasks[w].batch[0]|
    case ItemDone(w) => WritingItem(s, w) && s.tasks[w].batch[0] == []
    case Fail(w) => WritingItem(s, w) && s.tasks[w].batch[0] != []
    case BatchDone(w) => w in s.tasks && s.tasks[w].Draining? && s.tasks[w].batch == []
    case Shutdown(w) => w in s.tasks && w in s.sinks && s.tasks[w].Closing?
  }

  function SetTask(tasks: map<Writer, Task>, w: Option<Writer>, task: Task): map<Writer, Task> {
    if w.Some? then tasks[w.value := task] else tasks
  }

  function DoInsert(s: State, id: StreamId, w: Writer): State {
    State(Set(s.table, id, Some(StreamRec(Some(w), [], false))),
          s.tasks,
          s.sinks[w := Sink(id, [], false, 0, false)],
          s.log[id := History(w, [])])
  }

  function DoWrite(s: State, id: StreamId, buf: Bytes): State {
    var (r, spawn) := WriteRec(Get(s.table, id), buf);
    State(Set(s.table, id, r),
          SetTask(s.tasks, spawn, Locking(id)),
          s.sinks,
          if r.Some? && id in s.log then s.log[id := s.log[id].(accepted := s.log[id].accepted + [buf])] else s.log)
  }

  function DoRemove(s: State, id: StreamId): State {
    var (r, taken) := RemoveRec(Get(s.table, id));
    State(Set(s.table, id, r), SetTask(s.tasks, taken, Closing), s.sinks, s.log)
  }

  function DoLock(s: State, w: Writer): State
    requires w in s.tasks && s.tasks[w].Locking?
  {
    var id := s.tasks[w].id;
    var (r, visit) := LockRec(Get(s.table, id), w);
    State(Set(s.table, id, r),
          if visit.Parked? then s.tasks - {w}
          else s.tasks[w := if visit.Batch? then Draining(id, visit.items) else Closing],
          s.sinks, s.log)
  }

  function DoPut(s: State, w: Writer, n: nat): State
    requires WritingItem(s, w) && n <= |s.tasks[w].batch[0]|
  {
    var Draining(id, batch) := s.tasks[w];
    var k := s.sinks[w];
    s.(tasks := s.tasks[w := Draining(id, [batch[0][n..]] + batch[1..])],
       sinks := s.sinks[w := k.(delivered := k.delivered + batch[0][..n], late := k.late || k.shutdowns > 0)])
  }

  function DoItemDone(s: State, w: Writer): State
    requires WritingItem(s, w)
  {
    s.(tasks := s.tasks[w := Draining(s.tasks[w].id, s.tasks[w].batch[1..])])
  }

  function DoBatchDone(s: State, w: Writer): State
    requires w in s.tasks && s.tasks[w].Draining?
  {
    s.(tasks := s.tasks[w := Locking(s.tasks[w].id)])
  }

  function DoFail(s: State, w: Writer): State
    requires WritingItem(s, w)
  {
    s.(tasks := s.tasks[w := Locking(s.tasks[w].id)], sinks := s.sinks[w := s.sinks[w].(failed := true)])
  }

  function DoShutdown(s: State, w: Writer): State
    requires w in s.sinks
  {
    s.(tasks := s.tasks - {w}, sinks := s.sinks[w := s.sinks[w].(shutdowns := s.sinks[w].shutdowns + 1)])
  }

  function Next(s: State, a: Action): State
    requires Enabled(s, a)
  {
    match a
    case Insert(id, w) => DoInsert(s, id, w)
    case Write(id, buf) => DoWrite(s, id, buf)
    case Remove(id) => DoRemove(s, id)
    case Lock(w) => DoLock(s, w)
    case Put(w, n) => DoPut(s, w, n)
    case ItemDone(w) => DoItemDone(s, w)
    case Fail(w) => DoFail(s, w)
    case BatchDone(w) => DoBatchDone(s, w)
    case Shutdown(w) => DoShutdown(s, w)
  }

  /** The id of an inserted stream has not been used before. */
  predicate Fresh(s: State, a: Action) {
    a.Insert? ==> a.id !in s.log
  }

  ghost predicate Run(s: State, actions: seq<Action>, end: State)
    decreases |actions|
  {
    if actions == [] then end == s
    else Enabled(s, actions[0]) && Run(Next(s, actions[0]), actions[1..], end)
  }

  ghost predicate FreshRun(s: State, actions: seq<Action>, end: State)
    decreases |actions|
  {
    if actions == [] then end == s
    else Enabled(s, actions[0]) && Fresh(s, actions[0]) && FreshRun(Next(s, actions[0]), actions[1..], end)
  }

  // ---------- The inductive invariant ----------

  /** Everything that belongs to one stream. */
  datatype Channel = Channel(
    id: StreamId, writer: Writer, accepted: seq<Bytes>,
    rec: Option<StreamRec>, task: Option<Task>, sink: Sink)

  function ChannelOf(s: State, id: StreamId): Channel
    requires id in s.log && s.log[id].writer in s.sinks
  {
    var w := s.log[id].writer;
    Channel(id, w, s.log[id].accepted, Get(s.table, id), if w in s.tasks then Some(s.tasks[w]) else None, s.sinks[w])
  }

  /** What is accepted but not delivered yet: the rest of the loop's batch, then the queue. */
  function Pending(c: Channel): Bytes {
    (if c.task.Some? && c.task.value.Draining? then Concat(c.task.value.batch) else [])
    + (if c.rec.Some? then Concat(c.rec.value.q) else [])
  }

  /** Record, task and pipe agree on where the writer is. */
  predicate PlaceOk(c: Channel) {
    && c.sink.id == c.id
    && match c.task
       case None =>
         if c.rec.Some? then c.rec.value == StreamRec(Some(c.writer), [], false) && c.sink.shutdowns == 0
         else c.sink.shutdowns == 1
       case Some(Closing) => c.rec.None? && c.sink.shutdowns == 0
       case Some(task) => task.id == c.id && c.rec.Some? && c.rec.value.write.None? && c.sink.shutdowns == 0
  }

  predicate BytesOk(c: Channel) {
    && !c.sink.late
    && c.sink.delivered <= Concat(c.accepted)
    && (!c.sink.failed ==> c.sink.delivered + Pending(c) == Concat(c.accepted))
  }

  /** Writers and ids correspond one to one, and nothing refers to an unknown one. */
  predicate Linked(s: State) {
    && (forall id :: id in s.log ==> s.log[id].writer in s.sinks && s.sinks[s.log[id].writer].id == id)
    && (forall w :: w in s.sinks ==> s.sinks[w].id in s.log && s.log[s.sinks[w].id].writer == w)
    && (forall id :: id in s.table ==> id in s.log)
    && (forall w :: w in s.tasks ==> w in s.sinks)
  }

  predicate Good(c: Channel) {
    PlaceOk(c) && BytesOk(c)
  }

  predicate Inv(s: State) {
    && Linked(s)
    && forall id :: id in s.log ==> Good(ChannelOf(s, id))
  }

  /** From `s` to `s'` only stream `id` changes. */
  predicate Only(s: State, s': State, id: StreamId)
    requires Linked(s)
  {
    && Linked(s')
    && (forall i :: i in s.log ==> i in s'.log)
    && (forall i :: i in s'.log ==> i == id || i in s.log)
    && forall i :: i in s.log && i != id ==> ChannelOf(s', i) == ChannelOf(s, i)
  }

  lemma OnlyKeepsInv(s: State, s': State, id: StreamId)
    requires Inv(s) && Only(s, s', id)
    requires id in s'.log ==> Good(ChannelOf(s', id))
    ensures Inv(s')
  {
  }

  lemma InsertOnly(s: State, id: StreamId, w: Writer)
    requires Linked(s) && w !in s.sinks && id !in s.log
    ensures Only(s, DoInsert(s, id, w), id)
    ensures Good(ChannelOf(DoInsert(s, id, w), id))
  {
    var s' := DoInsert(s, id, w);
    assert Linked(s');
    forall i | i in s.log && i != id ensures ChannelOf(s', i) == ChannelOf(s, i) { }
    assert ChannelOf(s', id) == Channel(id, w, [], Some(StreamRec(Some(w), [], false)), None,
      Sink(id, [], false, 0, false));
  }

  lemma WriteOnly(s: State, id: StreamId, buf: Bytes)
    requires Linked(s) && id in s.table && PlaceOk(ChannelOf(s, id))
    ensures Only(s, DoWrite(s, id, buf), id)
    ensures var c := ChannelOf(s, id);
      ChannelOf(DoWrite(s, id, buf), id) ==
      Channel(id, c.writer, c.accepted + [buf], WriteRec(c.rec, buf).0,
              if c.rec.value.write.Some? then Some(Locking(id)) else c.task, c.sink)
  {
    var s' := DoWrite(s, id, buf);
    assert Linked(s');
  }

  lemma RemoveOnly(s: State, id: StreamId)
    requires Linked(s) && id in s.table && PlaceOk(ChannelOf(s, id))
    ensures Only(s, DoRemove(s, id), id)
    ensures var c := ChannelOf(s, id);
      ChannelOf(DoRemove(s, id), id) ==
      Channel(id, c.writer, c.accepted, RemoveRec(c.rec).0, if c.rec.value.write.Some? then Some(Closing)
        else c.task, c.sink)
  {
    var (r, taken) := RemoveRec(Get(s.table, id));
    TaskOnly(s, id, r, taken, Closing);
  }

  /** A step that changes one record and starts at most the task of its writer. */
  lemma TaskOnly(s: State, id: StreamId, r: Option<StreamRec>, w: Option<Writer>, task: Task)
    requires Linked(s) && id in s.log && (w.Some? ==> w.value == s.log[id].writer)
    ensures var s' := State(Set(s.table, id, r), SetTask(s.tasks, w, task), s.sinks, s.log);
      var c := ChannelOf(s, id);
      Only(s, s', id) && ChannelOf(s', id)
        == Channel(id, c.writer, c.accepted, r, if w.Some? then Some(task) else c.task, c.sink)
  {
    assert Linked(State(Set(s.table, id, r), SetTask(s.tasks, w, task), s.sinks, s.log));
  }

  lemma WriteGood(c: Channel, c': Channel, buf: Bytes)
    requires Good(c) && c.rec.Some? && c'.sink == c.sink && c'.id == c.id && c'.writer == c.writer
    requires c'.rec == WriteRec(c.rec, buf).0 && c'.accepted == c.accepted + [buf]
    requires c'.task == if c.rec.value.write.Some? then Some(Locking(c.id)) else c.task
    ensures Good(c')
  {
    ConcatSnoc(c.rec.value.q, buf);
    ConcatSnoc(c.accepted, buf);
  }

  lemma LockOnly(s: State, w: Writer)
    requires Linked(s) && w in s.tasks && s.tasks[w].Locking? && s.tasks[w].id == s.sinks[w].id
    ensures Only(s, DoLock(s, w), s.tasks[w].id)
  {
    var s' := DoLock(s, w);
    var id := s.tasks[w].id;
    assert Linked(s');
  }

  /** A step that changes only a task and what its pipe received. */
  function Touch(s: State, w: Writer, task: Option<Task>, k: Sink): State {
    s.(tasks := if task.Some? then s.tasks[w := task.value] else s.tasks - {w}, sinks := s.sinks[w := k])
  }

  lemma TouchOnly(s: State, w: Writer, task: Option<Task>, k: Sink)
    requires Linked(s) && w in s.tasks && k.id == s.sinks[w].id
    ensures Only(s, Touch(s, w, task, k), k.id)
  {
    var s' := Touch(s, w, task, k);
    assert Linked(s');
  }

  lemma PutBytes(delivered: Bytes, batch: seq<Bytes>, queued: Bytes, n: nat)
    requires batch != [] && n <= |batch[0]|
    ensures delivered + batch[0][..n] + (Concat([batch[0][n..]] + batch[1..]) + queued)
         == delivered + (Concat(batch) + queued)
  {
    var item, rest := batch[0], Concat(batch[1..]);
    assert ([item[n..]] + batch[1..])[1..] == batch[1..];
    assert item[..n] + item[n..] == item;
    assert Concat(batch) == item + rest && Concat([item[n..]] + batch[1..]) == item[n..] + rest;
    hide Concat;
    Regroup(delivered, item[..n], item[n..], rest, queued);
  }

  lemma Regroup(d: Bytes, a: Bytes, b: Bytes, r: Bytes, q: Bytes)
    ensures d + a + ((b + r) + q) == d + (((a + b) + r) + q)
  {
  }

  lemma PutGood(c: Channel, c': Channel, n: nat)
    requires Good(c) && c.task.Some? && c.task.value.Draining? && c.task.value.batch != []
    requires n <= |c.task.value.batch[0]| && !c.sink.failed
    requires c' == Channel(c.id, c.writer, c.accepted, c.rec, c'.task, c'.sink)
    requires c'.task == Some(Draining(c.task.value.id, [c.task.value.batch[0][n..]] + c.task.value.batch[1..]))
    requires c'.sink == Sink(c.sink.id, c.sink.delivered + c.task.value.batch[0][..n], false, c.sink.shutdowns, false)
    ensures Good(c')
  {
    PutBytes(c.sink.delivered, c.task.value.batch, if c.rec.Some? then Concat(c.rec.value.q) else [], n);
    assert c'.sink.delivered + Pending(c') == c.sink.delivered + Pending(c);
  }

  lemma RemoveGood(c: Channel, c': Channel)
    requires Good(c) && c.rec.Some?
    requires c' == c.(rec := RemoveRec(c.rec).0, task := if c.rec.value.write.Some? then Some(Closing) else c.task)
    ensures Good(c')
  {
    assert Pending(c') == Pending(c);
  }

  lemma LockGood(c: Channel, c': Channel)
    requires Good(c) && c.rec.Some? && c.task == Some(Locking(c.id))
    requires c'.rec == LockRec(c.rec, c.writer).0
    requires c' == Channel(c.id, c.writer, c.accepted, c'.rec, c'.task, c.sink)
    requires c'.task == match LockRec(c.rec, c.writer).1
                        case Parked => None
                        case Batch(items) => Some(Draining(c.id, items))
                        case _ => Some(Closing)
    ensures Good(c')
  {
    assert Pending(c') == Pending(c);
  }

  lemma ItemGood(c: Channel, c': Channel)
    requires Good(c) && c.task.Some? && c.task.value.Draining? && c.task.value.batch != []
      && c.task.value.batch[0] == []
    requires c' == Channel(c.id, c.writer, c.accepted, c.rec, c'.task, c.sink)
    requires c'.task == Some(Draining(c.task.value.id, c.task.value.batch[1..]))
    ensures Good(c')
  {
    assert Concat(c.task.value.batch) == Concat(c'.task.value.batch);
    assert Pending(c') == Pending(c);
  }

  lemma LeaveGood(c: Channel, c': Channel)
    requires Good(c) && c.task.Some? && c.task.value.Draining?
    requires c' == Channel(c.id, c.writer, c.accepted, c.rec, Some(Locking(c.task.value.id)), c'.sink)
    requires c'.sink == c.sink.(failed := true) || (c'.sink == c.sink && c.task.value.batch == [])
    ensures Good(c')
  {
    if c'.sink == c.sink && c.task.value.batch == [] { assert Pending(c') == Pending(c); }
  }

  lemma ShutdownGood(c: Channel, c': Channel)
    requires Good(c) && c.task == Some(Closing)
    requires c' == Channel(c.id, c.writer, c.accepted, c.rec, None, c'.sink)
    requires c'.sink == c.sink.(shutdowns := c.sink.shutdowns + 1)
    ensures Good(c')
  {
    assert Pending(c') == Pending(c);
  }

  lemma InsertStep(s: State, id: StreamId, w: Writer)
    requires Inv(s) && w !in s.sinks && id !in s.log
    ensures Inv(DoInsert(s, id, w)) && Only(s, DoInsert(s, id, w), id)
  {
    InsertOnly(s, id, w);
    OnlyKeepsInv(s, DoInsert(s, id, w), id);
  }

  lemma WriteStep(s: State, id: StreamId, buf: Bytes)
    requires Inv(s)
    ensures Inv(DoWrite(s, id, buf)) && Only(s, DoWrite(s, id, buf), id)
  {
    var s' := DoWrite(s, id, buf);
    if id in s.table {
      assert Good(ChannelOf(s, id));
      WriteOnly(s, id, buf);
      hide DoWrite, WriteRec, PlaceOk, BytesOk;
      WriteGood(ChannelOf(s, id), ChannelOf(s', id), buf);
      OnlyKeepsInv(s, s', id);
    } else {
      assert s' == s;
    }
  }

  lemma RemoveStep(s: State, id: StreamId)
    requires Inv(s)
    ensures Inv(DoRemove(s, id)) && Only(s, DoRemove(s, id), id)
  {
    var s' := DoRemove(s, id);
    if id in s.table {
      assert Good(ChannelOf(s, id));
      RemoveOnly(s, id);
      hide DoRemove, RemoveRec, PlaceOk, BytesOk;
      RemoveGood(ChannelOf(s, id), ChannelOf(s', id));
      OnlyKeepsInv(s, s', id);
    } else {
      assert s' == s;
    }
  }

  /** The stream of the writer a task owns. */
  lemma TaskChannel(s: State, w: Writer)
    requires Inv(s) && w in s.tasks
    ensures var id := s.sinks[w].id;
      && id in s.log && s.log[id].writer == w
      && ChannelOf(s, id).task == Some(s.tasks[w]) && Good(ChannelOf(s, id))
  {
    assert s.sinks[w].id in s.log;
  }

  lemma LockStep(s: State, w: Writer)
    requires Inv(s) && w in s.tasks && s.tasks[w].Locking?
    ensures s.tasks[w].id == s.sinks[w].id && s.tasks[w].id in s.table
    ensures Inv(DoLock(s, w)) && Only(s, DoLock(s, w), s.tasks[w].id)
  {
    TaskChannel(s, w);
    LockOnly(s, w);
    var id := s.tasks[w].id;
    LockGood(ChannelOf(s, id), ChannelOf(DoLock(s, w), id));
    OnlyKeepsInv(s, DoLock(s, w), id);
  }

  lemma TouchStep(s: State, w: Writer, task: Option<Task>, k: Sink)
    requires Linked(s) && w in s.tasks && k.id == s.sinks[w].id
    ensures Only(s, Touch(s, w, task, k), k.id)
    ensures var c := ChannelOf(s, k.id);
      ChannelOf(Touch(s, w, task, k), k.id) == Channel(k.id, w, c.accepted, c.rec, task, k)
  {
    assert k.id in s.log;
    TouchOnly(s, w, task, k);
  }

  lemma PutStep(s: State, w: Writer, n: nat)
    requires Inv(s) && WritingItem(s, w) && !s.sinks[w].failed && n <= |s.tasks[w].batch[0]|
    ensures Inv(DoPut(s, w, n)) && Only(s, DoPut(s, w, n), s.sinks[w].id)
  {
    TaskChannel(s, w);
    var s', id := DoPut(s, w, n), s.sinks[w].id;
    TouchStep(s, w, Some(s'.tasks[w]), s'.sinks[w]);
    assert s' == Touch(s, w, Some(s'.tasks[w]), s'.sinks[w]);
    PutGood(ChannelOf(s, id), ChannelOf(s', id), n);
    OnlyKeepsInv(s, s', id);
  }

  lemma ItemDoneStep(s: State, w: Writer)
    requires Inv(s) && WritingItem(s, w) && s.tasks[w].batch[0] == []
    ensures Inv(DoItemDone(s, w)) && Only(s, DoItemDone(s, w), s.sinks[w].id)
  {
    TaskChannel(s, w);
    var s', id := DoItemDone(s, w), s.sinks[w].id;
    assert s.sinks[w := s.sinks[w]] == s.sinks;
    TouchStep(s, w, Some(s'.tasks[w]), s.sinks[w]);
    assert s' == Touch(s, w, Some(s'.tasks[w]), s.sinks[w]);
    ItemGood(ChannelOf(s, id), ChannelOf(s', id));
    OnlyKeepsInv(s, s', id);
  }

  lemma FailStep(s: State, w: Writer)
    requires Inv(s) && WritingItem(s, w)
    ensures Inv(DoFail(s, w)) && Only(s, DoFail(s, w), s.sinks[w].id)
  {
    TaskChannel(s, w);
    var s', id := DoFail(s, w), s.sinks[w].id;
    TouchStep(s, w, Some(s'.tasks[w]), s'.sinks[w]);
    assert s' == Touch(s, w, Some(s'.tasks[w]), s'.sinks[w]);
    LeaveGood(ChannelOf(s, id), ChannelOf(s', id));
    OnlyKeepsInv(s, s', id);
  }

  lemma BatchDoneStep(s: State, w: Writer)
    requires Inv(s) && w in s.tasks && s.tasks[w].Draining? && s.tasks[w].batch == []
    ensures Inv(DoBatchDone(s, w)) && Only(s, DoBatchDone(s, w), s.sinks[w].id)
  {
    TaskChannel(s, w);
    var s', id := DoBatchDone(s, w), s.sinks[w].id;
    assert s.sinks[w := s.sinks[w]] == s.sinks;
    TouchStep(s, w, Some(s'.tasks[w]), s.sinks[w]);
    assert s' == Touch(s, w, Some(s'.tasks[w]), s.sinks[w]);
    LeaveGood(ChannelOf(s, id), ChannelOf(s', id));
    OnlyKeepsInv(s, s', id);
  }

  lemma ShutdownStep(s: State, w: Writer)
    requires Inv(s) && w in s.tasks && s.tasks[w].Closing?
    ensures Inv(DoShutdown(s, w)) && Only(s, DoShutdown(s, w), s.sinks[w].id)
  {
    TaskChannel(s, w);
    var s', id := DoShutdown(s, w), s.sinks[w].id;
    TouchStep(s, w, None, s'.sinks[w]);
    assert s' == Touch(s, w, None, s'.sinks[w]);
    ShutdownGood(ChannelOf(s, id), ChannelOf(s', id));
    OnlyKeepsInv(s, s', id);
  }

  /** The stream a step works on. */
  function Target(s: State, a: Action): StreamId
    requires Inv(s) && Enabled(s, a)
  {
    match a
    case Insert(id, _) => id
    case Write(id, _) => id
    case Remove(id) => id
    case _ => s.sinks[a.w].id
  }

  lemma StepKeepsInv(s: State, a: Action)
    requires Inv(s) && Enabled(s, a) && Fresh(s, a)
    ensures Inv(Next(s, a)) && Only(s, Next(s, a), Target(s, a))
  {
    match a
    case Insert(id, w) => InsertStep(s, id, w);
    case Write(id, buf) => WriteStep(s, id, buf);
    case Remove(id) => RemoveStep(s, id);
    case Lock(w) => LockStep(s, w);
    case Put(w, n) => PutStep(s, w, n);
    case ItemDone(w) => ItemDoneStep(s, w);
    case Shutdown(w) => ShutdownStep(s, w);
    case Fail(w) => FailStep(s, w);
    case BatchDone(w) => BatchDoneStep(s, w);
  }

  lemma {:induction false} RunKeepsInv(s: State, actions: seq<Action>, end: State)
    requires Inv(s) && FreshRun(s, actions, end)
    ensures Inv(end)
    decreases |actions|
  {
    if actions != [] {
      StepKeepsInv(s, actions[0]);
      RunKeepsInv(Next(s, actions[0]), actions[1..], end);
    }
  }
}
