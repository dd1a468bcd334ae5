/** What every reachable state of the stream multiplexer guarantees. */
module StreamsSafety {
  import opened Basics
  import opened Streams

  /** Reached from an empty table by any interleaving in which no stream id is inserted twice. */
  ghost predicate Reachable(s: State) {
    exists actions :: FreshRun(INITIAL, actions, s)
  }

  lemma ReachableInv(s: State)
    requires Reachable(s)
    ensures Inv(s)
  {
    var actions :| FreshRun(INITIAL, actions, s);
    RunKeepsInv(INITIAL, actions, s);
  }

  /**
    Delivered bytes, the rest of the write loop's batch and the queue are together exactly the
    accepted segments in order; after the pipe breaks, what was delivered is a prefix of them.
   */
  lemma BytesConserved(s: State, id: StreamId)
    requires Reachable(s) && id in s.log
    ensures s.log[id].writer in s.sinks
    ensures var w := s.log[id].writer;
      var batch := if w in s.tasks && s.tasks[w].Draining? then s.tasks[w].batch else [];
      var queue := if id in s.table then s.table[id].q else [];
      var accepted := Concat(s.log[id].accepted);
      && s.sinks[w].delivered <= accepted
      && (!s.sinks[w].failed ==> s.sinks[w].delivered + (Concat(batch) + Concat(queue)) == accepted)
  {
    ReachableInv(s);
    assert Good(ChannelOf(s, id));
  }

  /** What a pipe received is written down as it happens: only a failure fails it, only a shutdown shuts it down. */
  lemma SinksRecordSteps(s: State, a: Action, w: Writer)
    requires Inv(s) && Enabled(s, a) && w in s.sinks
    ensures w in Next(s, a).sinks
    ensures var k, k' := s.sinks[w], Next(s, a).sinks[w];
      && k'.id == k.id
      && (k'.failed <==> k.failed || a == Fail(w))
      && k'.shutdowns == k.shutdowns + (if a == Shutdown(w) then 1 else 0)
      && (k'.late <==> k.late || (a.Put? && a.w == w && k.shutdowns > 0))
      && k'.delivered == k.delivered + if a.Put? && a.w == w then s.tasks[w].batch[0][..a.n] else []
  {
    hide Inv;
  }

  /** The writer rests in the record of `id`. */
  predicate ParkedIn(s: State, w: Writer, id: StreamId) {
    id in s.table && s.table[id].write == Some(w)
  }

  /** Every writer is in exactly one place: its own record, one task, or shut down once. */
  lemma ExclusiveWriter(s: State, w: Writer)
    requires Reachable(s) && w in s.sinks
    ensures var home := s.sinks[w].id;
      && s.sinks[w].shutdowns <= 1 && !s.sinks[w].late
      && (forall id :: ParkedIn(s, w, id) ==> id == home)
      && (ParkedIn(s, w, home) <==> w !in s.tasks && s.sinks[w].shutdowns == 0)
      && (w in s.tasks ==> s.sinks[w].shutdowns == 0)
  {
    ReachableInv(s);
    var home := s.sinks[w].id;
    assert Good(ChannelOf(s, home));
    forall id | ParkedIn(s, w, id) ensures id == home { assert Good(ChannelOf(s, id)); }
  }

  /** A record with work to do has a live write loop; a parked writer has nothing to do. */
  lemma NoLostWakeup(s: State, id: StreamId)
    requires Reachable(s) && id in s.table
    ensures s.table[id].write.Some? ==> s.table[id].q == [] && !s.table[id].ended
    ensures s.table[id].q != [] || s.table[id].ended ==>
      exists w :: w in s.tasks && !s.tasks[w].Closing? && s.tasks[w].id == id
  {
    ReachableInv(s);
    assert Good(ChannelOf(s, id));
  }

  /** A write loop never finds its record missing. */
  lemma RecordPresent(s: State, w: Writer)
    requires Reachable(s) && w in s.tasks && !s.tasks[w].Closing?
    ensures s.tasks[w].id in s.table
    ensures LockRec(Get(s.table, s.tasks[w].id), w).1 != Missing
  {
    ReachableInv(s);
    TaskChannel(s, w);
  }

  /** The writer is in no record, in no task and not shut down. */
  ghost predicate Lost(s: State, w: Writer) {
    w in s.sinks && w !in s.tasks && s.sinks[w].shutdowns == 0 && forall id :: !ParkedIn(s, w, id)
  }

  lemma ParkedIsLost(s: State, id: StreamId, w: Writer)
    requires Inv(s) && w !in s.sinks && id in s.table && s.table[id].write.Some?
    ensures Lost(DoInsert(s, id, w), s.table[id].write.value)
  {
    var v, s' := s.table[id].write.value, DoInsert(s, id, w);
    assert Good(ChannelOf(s, id));
    forall i ensures !ParkedIn(s', v, i) {
      if i in s.table && i != id { assert Good(ChannelOf(s, i)); }
    }
  }

  lemma InsertFrame(s: State, id: StreamId, w: Writer, v: Writer, home: StreamId)
    ensures var s' := DoInsert(s, id, w);
      && ParkedIn(s', w, id) && s'.tasks == s.tasks
      && (v != w ==> (v in s'.sinks <==> v in s.sinks) && (v in s.sinks ==> s'.sinks[v] == s.sinks[v]))
      && (home != id ==> (ParkedIn(s', v, home) <==> ParkedIn(s, v, home)))
  {
  }

  lemma OthersAreKept(s: State, id: StreamId, w: Writer, v: Writer)
    requires Inv(s) && w !in s.sinks && !(id in s.table && s.table[id].write.Some?)
    ensures !Lost(DoInsert(s, id, w), v)
  {
    InsertFrame(s, id, w, v, id);
    if v in s.sinks && v !in s.tasks && s.sinks[v].shutdowns == 0 {
      StillParked(s, v);
      InsertFrame(s, id, w, v, s.sinks[v].id);
    }
    hide Inv, DoInsert;
  }

  lemma StillParked(s: State, v: Writer)
    requires Inv(s) && v in s.sinks && v !in s.tasks && s.sinks[v].shutdowns == 0
    ensures ParkedIn(s, v, s.sinks[v].id)
  {
    assert Good(ChannelOf(s, s.sinks[v].id));
  }

  /** What an insert costs: a writer is lost exactly when one is parked under the id. */
  lemma InsertLosesIff(s: State, id: StreamId, w: Writer)
    requires Inv(s) && w !in s.sinks
    ensures (exists v :: Lost(DoInsert(s, id, w), v)) <==> id in s.table && s.table[id].write.Some?
  {
    hide Inv, DoInsert, Lost;
    if id in s.table && s.table[id].write.Some? {
      ParkedIsLost(s, id, w);
    } else {
      forall v ensures !Lost(DoInsert(s, id, w), v) { OthersAreKept(s, id, w, v); }
    }
  }

  /** Fresh ids are needed: inserting an id again drops the writer parked under it. */
  lemma ReusedIdLosesWriter(id: StreamId)
    ensures exists actions, s :: Run(INITIAL, actions, s) && Lost(s, 0)
  {
    var s1 := DoInsert(INITIAL, id, 0);
    var s2 := DoInsert(s1, id, 1);
    var actions := [Insert(id, 0), Insert(id, 1)];
    assert actions[1..] == [Insert(id, 1)];
    assert Run(s2, [], s2);
    assert Run(s1, actions[1..], s2);
    assert Run(INITIAL, actions, s2) && Lost(s2, 0);
  }
}
