/**
  `write_loop` of cli/src/rpc.rs as the loop it is. Between any two of its atomic statements
  the rest of the program may take steps; the loop is shown to be one task of the transition
  system, so everything proved about runs holds of it.
 */
module WriteLoop {
  import opened Basics
  import opened Streams
  import opened StreamsSafety
  import opened StreamsEnding

  lemma {:induction false} RunAppend(s: State, xs: seq<Action>, mid: State, ys: seq<Action>, end: State)
    requires FreshRun(s, xs, mid) && FreshRun(mid, ys, end)
    ensures FreshRun(s, xs + ys, end)
    decreases |xs|
  {
    if xs == [] {
      assert xs + ys == ys;
    } else {
      RunAppend(Next(s, xs[0]), xs[1..], mid, ys, end);
      assert (xs + ys)[1..] == xs[1..] + ys;
    }
  }

  lemma RunSnoc(s: State, xs: seq<Action>, mid: State, a: Action)
    requires FreshRun(s, xs, mid) && Enabled(mid, a) && Fresh(mid, a)
    ensures FreshRun(s, xs + [a], Next(mid, a))
  {
    assert [a][1..] == [];
    assert FreshRun(Next(mid, a), [], Next(mid, a));
    assert FreshRun(mid, [a], Next(mid, a));
    RunAppend(s, xs, mid, [a], Next(mid, a));
  }

  /** The task of `w` and its pipe are as they were. */
  predicate Spared(s: State, s': State, w: Writer) {
    w in s.tasks && w in s'.tasks && s'.tasks[w] == s.tasks[w] && w in s.sinks && w in s'.sinks
      && s'.sinks[w] == s.sinks[w]
  }

  lemma ParkedIsIdle(s: State, id: StreamId)
    requires Inv(s)
    ensures id in s.table && s.table[id].write.Some? ==> s.table[id].write.value !in s.tasks
  {
    if id in s.table { assert Good(ChannelOf(s, id)); }
  }

  lemma TaskStepSpares(s: State, a: Action, w: Writer)
    requires Enabled(s, a) && !a.Insert? && !a.Write? && !a.Remove? && a.w != w && w in s.tasks && w in s.sinks
    ensures Spared(s, Next(s, a), w)
  {
  }

  lemma OtherStep(s: State, a: Action, w: Writer)
    requires Inv(s) && Enabled(s, a) && Fresh(s, a) && !StepOf(a, w) && w in s.tasks
    ensures Spared(s, Next(s, a), w)
  {
    assert w in s.sinks;
    if a.Write? || a.Remove? { ParkedIsIdle(s, a.id); }
    hide Inv;
    if a.Write? || a.Remove? || a.Insert? {
      TableStepSpares(s, a, w);
    } else {
      TaskStepSpares(s, a, w);
    }
  }

  lemma TableStepSpares(s: State, a: Action, w: Writer)
    requires Enabled(s, a) && (a.Insert? || a.Write? || a.Remove?) && w in s.tasks && w in s.sinks
    requires !a.Insert? && a.id in s.table && s.table[a.id].write.Some? ==> s.table[a.id].write.value !in s.tasks
    ensures Spared(s, Next(s, a), w)
  {
  }

  lemma RunOn(s: State, trace: seq<Action>, mid: State, a: Action)
    requires Inv(mid) && FreshRun(s, trace, mid) && Enabled(mid, a) && Fresh(mid, a)
    ensures FreshRun(s, trace + [a], Next(mid, a)) && Inv(Next(mid, a))
  {
    StepKeepsInv(mid, a);
    RunSnoc(s, trace, mid, a);
  }

  lemma StandStill(s: State, w: Writer)
    requires Inv(s) && w in s.tasks
    ensures FreshRun(s, [], s) && Spared(s, s, w)
  {
  }

  lemma LockOn(s: State, trace: seq<Action>, mid: State, w: Writer)
    requires Inv(mid) && FreshRun(s, trace, mid) && w in mid.tasks && mid.tasks[w].Locking?
    ensures FreshRun(s, trace + [Lock(w)], DoLock(mid, w)) && Inv(DoLock(mid, w))
    ensures var (r, visit) := LockRec(Get(mid.table, mid.tasks[w].id), w);
      && (visit.Batch? ==>
            w in DoLock(mid, w).tasks && DoLock(mid, w).tasks[w] == Draining(mid.tasks[w].id, visit.items))
      && (visit.Ended? || visit.Missing? ==> w in DoLock(mid, w).tasks && DoLock(mid, w).tasks[w] == Closing)
      && (visit.Parked? ==> w !in DoLock(mid, w).tasks)
      && !visit.Missing?
  {
    LockStep(mid, w);
    RunSnoc(s, trace, mid, Lock(w));
  }

  lemma PutOn(s: State, trace: seq<Action>, mid: State, w: Writer, n: nat)
    requires Inv(mid) && FreshRun(s, trace, mid) && WritingItem(mid, w) && !mid.sinks[w].failed
      && 1 <= n <= |mid.tasks[w].batch[0]|
    ensures FreshRun(s, trace + [Put(w, n)], DoPut(mid, w, n)) && Inv(DoPut(mid, w, n))
  {
    PutStep(mid, w, n);
    RunSnoc(s, trace, mid, Put(w, n));
  }

  lemma ItemDoneOn(s: State, trace: seq<Action>, mid: State, w: Writer)
    requires Inv(mid) && FreshRun(s, trace, mid) && WritingItem(mid, w) && mid.tasks[w].batch[0] == []
    ensures FreshRun(s, trace + [ItemDone(w)], DoItemDone(mid, w)) && Inv(DoItemDone(mid, w))
  {
    ItemDoneStep(mid, w);
    RunSnoc(s, trace, mid, ItemDone(w));
  }

  lemma FailOn(s: State, trace: seq<Action>, mid: State, w: Writer)
    requires Inv(mid) && FreshRun(s, trace, mid) && WritingItem(mid, w) && mid.tasks[w].batch[0] != []
    ensures FreshRun(s, trace + [Fail(w)], DoFail(mid, w)) && Inv(DoFail(mid, w))
  {
    FailStep(mid, w);
    RunSnoc(s, trace, mid, Fail(w));
  }

  lemma BatchDoneOn(s: State, trace: seq<Action>, mid: State, w: Writer)
    requires Inv(mid) && FreshRun(s, trace, mid) && w in mid.tasks && mid.tasks[w].Draining? && mid.tasks[w].batch == []
    ensures FreshRun(s, trace + [BatchDone(w)], DoBatchDone(mid, w)) && Inv(DoBatchDone(mid, w))
  {
    BatchDoneStep(mid, w);
    RunSnoc(s, trace, mid, BatchDone(w));
  }

  lemma ShutdownOn(s: State, trace: seq<Action>, mid: State, w: Writer)
    requires Inv(mid) && FreshRun(s, trace, mid) && w in mid.tasks && mid.tasks[w].Closing?
    ensures FreshRun(s, trace + [Shutdown(w)], DoShutdown(mid, w)) && Inv(DoShutdown(mid, w))
  {
    ShutdownStep(mid, w);
    RunSnoc(s, trace, mid, Shutdown(w));
  }

  /** A writer that no task owns is parked in its record, or it has been shut down. */
  lemma Settled(s: State, w: Writer)
    requires Inv(s) && w in s.sinks && w !in s.tasks
    ensures ParkedIn(s, w, s.sinks[w].id) <==> s.sinks[w].shutdowns != 1
  {
    assert Good(ChannelOf(s, s.sinks[w].id));
  }

  class World {
    var st: State
    ghost var trace: seq<Action>
    ghost const start: State

    constructor (s: State)
      requires Inv(s)
      ensures st == start == s && trace == [] && Valid()
    {
      st, trace, start := s, [], s;
    }

    /** The world has come from its start by the recorded steps. */
    ghost predicate Valid()
      reads this
    {
      Inv(st) && FreshRun(start, trace, st)
    }

    /** Up to `budget` steps of the rest of the program. */
    method Interfere(w: Writer, budget: nat) returns (left: nat)
      requires Valid() && w in st.tasks
      modifies this
      ensures Valid() && old(trace) <= trace
      ensures left <= budget && (left == budget ==> st == old(st))
      ensures Spared(old(st), st, w)
    {
      hide Inv, FreshRun, Enabled, Fresh, Next;
      StandStill(st, w);
      left := budget;
      while left > 0
        invariant left <= budget && (left == budget ==> st == old(st))
        invariant Valid() && old(trace) <= trace && Spared(old(st), st, w)
      {
        var a: Action := *;
        if !Enabled(st, a) || !Fresh(st, a) || StepOf(a, w) {
          return;
        }
        OtherStep(st, a, w);
        RunOn(start, trace, st, a);
        st, left, trace := Next(st, a), left - 1, trace + [a];
      }
    }

    /** Writes out the current item of the batch; false when the pipe is broken. */
    method WriteAll(w: Writer, budget: nat) returns (ok: bool, left: nat)
      requires Valid() && w in st.tasks && st.tasks[w].Draining? && st.tasks[w].batch != []
      modifies this
      ensures Valid() && old(trace) <= trace
      ensures left <= budget && (left == budget ==> st.table == old(st.table))
      ensures w in st.tasks
      ensures st.tasks[w] ==
        if ok then Draining(old(st.tasks[w].id), old(st.tasks[w].batch)[1..]) else Locking(old(st.tasks[w].id))
      ensures w in st.sinks && (!ok ==> st.sinks[w].failed)
    {
      hide Inv, FreshRun, Enabled, Fresh, Next;
      left := Interfere(w, budget);
      while st.tasks[w].batch[0] != []
        invariant Valid() && old(trace) <= trace
        invariant left <= budget && (left == budget ==> st.table == old(st.table))
        invariant WritingItem(st, w) && st.tasks[w].id == old(st.tasks[w].id)
        invariant st.tasks[w].batch[1..] == old(st.tasks[w].batch)[1..]
        decreases |st.tasks[w].batch[0]|
      {
        var broken: bool := *;
        if broken || st.sinks[w].failed {
          FailOn(start, trace, st, w);
          st, trace := DoFail(st, w), trace + [Fail(w)];
          return false, left;
        }
        var n: nat :| 1 <= n <= |st.tasks[w].batch[0]|;
        PutOn(start, trace, st, w, n);
        st, trace := DoPut(st, w, n), trace + [Put(w, n)];
        left := Interfere(w, left);
      }
      ItemDoneOn(start, trace, st, w);
      st, trace := DoItemDone(st, w), trace + [ItemDone(w)];
      ok := true;
    }

    /**
      The write loop. However the rest of the program interferes, it is a run of the transition
      system; when it ends its writer is parked, or shut down.
     */
    method Loop(w: Writer, budget: nat)
      requires Valid() && w in st.tasks && st.tasks[w].Locking?
      modifies this
      ensures Valid() && old(trace) <= trace && w !in st.tasks && w in st.sinks
      ensures ParkedIn(st, w, st.sinks[w].id) || st.sinks[w].shutdowns == 1
      ensures !(ParkedIn(st, w, st.sinks[w].id) && st.sinks[w].shutdowns == 1)
    {
      hide Inv, FreshRun, Enabled, Fresh, Next;
      var id := st.tasks[w].id;
      var left := budget;
      while true
        invariant Valid() && old(trace) <= trace
        invariant w in st.tasks && st.tasks[w] == Locking(id)
        decreases left, if id in st.table && st.table[id].q != [] then 1 else 0
      {
        left := Interfere(w, left);
        var visit := LockRec(Get(st.table, id), w).1;
        LockOn(start, trace, st, w);
        st, trace := DoLock(st, w), trace + [Lock(w)];
        if visit.Missing? || visit.Ended? {
          break;
        }
        if visit.Parked? {
          Settled(st, w);
          return;
        }
        var ok, table, before := true, st.table, left;
        while ok && st.tasks[w].batch != []
          invariant Valid() && old(trace) <= trace
          invariant w in st.tasks && left <= before && (left == before ==> st.table == table)
          invariant if ok then st.tasks[w].Draining? && st.tasks[w].id == id else st.tasks[w] == Locking(id)
          decreases if ok then 1 + |st.tasks[w].batch| else 0
        {
          ok, left := WriteAll(w, left);
        }
        if ok {
          BatchDoneOn(start, trace, st, w);
          st, trace := DoBatchDone(st, w), trace + [BatchDone(w)];
        }
      }
      ShutdownOn(start, trace, st, w);
      st, trace := DoShutdown(st, w), trace + [Shutdown(w)];
      Settled(st, w);
    }
  }
}
