/**
  Outgoing calls of cli/src/rpc.rs: an id from a wrapping counter, the request handed to the
  sender, then a callback registered under the id, which a reply takes out and fires.
  Sending and registering are separate steps: a reply may come in between.
 */
module Calls {
  import opened Basics

  const IDS := 0x1_0000_0000

  type Id = i: int | 0 <= i < IDS

  datatype Failure = Failure(code: int, message: string)

  /** What a reply frame carries: an error, or a body that may not parse as the result. */
  datatype Reply = ErrorReply(error: Failure) | SuccessReply(result: Option<string>)

  datatype Result = Ok(value: string) | Err(error: Failure)

  /** What the caller receives for a reply. */
  function Delivered(r: Reply): Result {
    match r
    case ErrorReply(error) => Err(error)
    case SuccessReply(Some(result)) => Ok(result)
    case SuccessReply(None) => Err(Failure(0, "invalid result"))
  }

  datatype Phase = Sent | Registered | Dropped

  /** One call, numbered by its place in `issued`. */
  datatype Issue = Issue(id: Id, phase: Phase)

  datatype Firing = Firing(call: nat, frameId: Id, result: Result)

  /** `taken` counts every id ever taken from the counter. */
  datatype State = State(taken: nat, issued: seq<Issue>, calls: map<Id, nat>, fired: seq<Firing>)

  const INITIAL := State(0, [], map[], [])

  datatype Action =
    | Begin(delivered: bool)            // take an id, hand the request to the sender
    | Register(call: nat)
    | Incoming(id: Id, reply: Reply)
    | Allocate(n: nat)                  // ids taken for streams and by other connections

  predicate Enabled(s: State, a: Action) {
    a.Register? ==> a.call < |s.issued| && s.issued[a.call].phase == Sent
  }

  function DoIncoming(s: State, id: Id, reply: Reply): State {
    if id !in s.calls then s
    else s.(calls := s.calls - {id}, fired := s.fired + [Firing(s.calls[id], id, Delivered(reply))])
  }

  function Next(s: State, a: Action): State
    requires Enabled(s, a)
  {
    match a
    case Begin(delivered) =>
      s.(taken := s.taken + 1, issued := s.issued + [Issue(s.taken % IDS, if delivered then Sent else Dropped)])
    case Register(c) =>
      s.(issued := s.issued[c := s.issued[c].(phase := Registered)], calls := s.calls[s.issued[c].id := c])
    case Incoming(id, reply) => DoIncoming(s, id, reply)
    case Allocate(n) => s.(taken := s.taken + n)
  }

  ghost predicate Run(s: State, actions: seq<Action>, end: State)
    decreases |actions|
  {
    if actions == [] then end == s
    else Enabled(s, actions[0]) && Run(Next(s, actions[0]), actions[1..], end)
  }

  predicate HasFired(fired: seq<Firing>, c: nat) {
    exists i :: 0 <= i < |fired| && fired[i].call == c
  }

  /** Ids grow with the calls, and were all taken from the counter. */
  predicate IdsOk(taken: nat, issued: seq<Issue>) {
    && (forall c :: 0 <= c < |issued| ==> issued[c].id < taken)
    && (forall c, d :: 0 <= c < d < |issued| ==> issued[c].id < issued[d].id)
  }

  /** The table holds exactly the calls registered and not fired. */
  predicate TableOk(s: State) {
    && (forall id :: id in s.calls ==>
         && s.calls[id] < |s.issued| && s.issued[s.calls[id]] == Issue(id, Registered)
         && !HasFired(s.fired, s.calls[id]))
    && (forall c :: 0 <= c < |s.issued| && s.issued[c].phase == Registered && !HasFired(s.fired, c) ==>
         s.issued[c].id in s.calls && s.calls[s.issued[c].id] == c)
  }

  predicate Inv(s: State) {
    IdsOk(s.taken, s.issued) && TableOk(s) && FiredOk(s)
  }

  /** Each callback fires at most once, and only for a frame with its own id. */
  predicate FiredOk(s: State) {
    && (forall i :: 0 <= i < |s.fired| ==>
         s.fired[i].call < |s.issued| && s.issued[s.fired[i].call] == Issue(s.fired[i].frameId, Registered))
    && (forall i, j :: 0 <= i < j < |s.fired| ==> s.fired[i].call != s.fired[j].call)
  }

  lemma BeginKeeps(s: State, delivered: bool)
    requires Inv(s) && s.taken < IDS
    ensures Inv(Next(s, Begin(delivered)))
  {
    hide HasFired;
  }

  lemma RegisterKeeps(s: State, c: nat)
    requires Inv(s) && Enabled(s, Register(c))
    ensures Inv(Next(s, Register(c)))
  {
    assert !HasFired(s.fired, c);
    hide HasFired;
  }

  lemma IncomingKeeps(s: State, id: Id, reply: Reply)
    requires Inv(s)
    ensures Inv(DoIncoming(s, id, reply))
  {
    if id in s.calls {
      var s' := DoIncoming(s, id, reply);
      forall d ensures HasFired(s'.fired, d) <==> HasFired(s.fired, d) || d == s.calls[id] {
        if HasFired(s.fired, d) {
          var i :| 0 <= i < |s.fired| && s.fired[i].call == d;
          assert s'.fired[i].call == d;
        }
        assert s'.fired[|s.fired|].call == s.calls[id];
      }
      assert FiredOk(s') by { assert !HasFired(s.fired, s.calls[id]); }
      hide HasFired, FiredOk;
    }
  }

  lemma {:induction false} RunKeepsInv(s: State, actions: seq<Action>, end: State)
    requires Inv(s) && Run(s, actions, end) && end.taken <= IDS
    ensures Inv(end) && s.taken <= end.taken
    decreases |actions|
  {
    if actions != [] {
      var a, s' := actions[0], Next(s, actions[0]);
      AllocatedGrows(s', actions[1..], end);
      StepKeeps(s, a);
      hide Inv;
      RunKeepsInv(s', actions[1..], end);
    }
  }

  lemma StepKeeps(s: State, a: Action)
    requires Inv(s) && Enabled(s, a) && Next(s, a).taken <= IDS
    ensures Inv(Next(s, a))
  {
    hide Inv;
    match a
    case Begin(delivered) => BeginKeeps(s, delivered);
    case Register(c) => RegisterKeeps(s, c);
    case Incoming(id, reply) => IncomingKeeps(s, id, reply);
    case Allocate(n) => AllocateKeeps(s, n);
  }

  lemma AllocateKeeps(s: State, n: nat)
    requires Inv(s)
    ensures Inv(s.(taken := s.taken + n))
  {
    hide HasFired;
  }

  lemma {:induction false} AllocatedGrows(s: State, actions: seq<Action>, end: State)
    requires Run(s, actions, end)
    ensures s.taken <= end.taken
    decreases |actions|
  {
    if actions != [] { AllocatedGrows(Next(s, actions[0]), actions[1..], end); }
  }

  /** Reached with fewer than 2^32 ids taken from the counter. */
  ghost predicate Reachable(s: State) {
    s.taken <= 0x1_0000_0000 && exists actions :: Run(INITIAL, actions, s)
  }

  lemma ReachableInv(s: State)
    requires Reachable(s)
    ensures Inv(s)
  {
    var actions :| Run(INITIAL, actions, s);
    RunKeepsInv(INITIAL, actions, s);
  }

  /** Callbacks fire at most once and for their own id; the table is registered minus answered. */
  lemma Correlation(s: State)
    requires Reachable(s)
    ensures FiredOk(s)
    ensures forall id :: id in s.calls <==>
      exists c :: 0 <= c < |s.issued| && s.issued[c] == Issue(id, Registered) && !HasFired(s.fired, c)
    ensures forall id :: id in s.calls ==> s.calls[id] < |s.issued| && s.issued[s.calls[id]] == Issue(id, Registered)
  {
    ReachableInv(s);
    hide HasFired;
  }

  /**
    A reply completes a call exactly when the call is registered and not yet answered: with the
    result it carries, with its error, or with an error of code 0 if its body does not parse.
   */
  lemma ReplyCompletes(s: State, c: nat, reply: Reply)
    requires Reachable(s) && c < |s.issued|
    ensures var id := s.issued[c].id;
      (exists r :: DoIncoming(s, id, reply).fired == s.fired + [Firing(c, id, r)])
      <==> s.issued[c].phase == Registered && !HasFired(s.fired, c)
    ensures forall r :: DoIncoming(s, s.issued[c].id, reply).fired == s.fired + [Firing(c, s.issued[c].id, r)] ==>
      match reply
      case ErrorReply(error) => r == Err(error)
      case SuccessReply(Some(result)) => r == Ok(result)
      case SuccessReply(None) => r.Err? && r.error.code == 0
  {
    ReachableInv(s);
    var id, fired := s.issued[c].id, DoIncoming(s, s.issued[c].id, reply).fired;
    hide HasFired;
    if id in s.calls {
      var d := s.calls[id];
      assert d == c by { assert s.issued[d].id == s.issued[c].id; }
      assert fired == s.fired + [Firing(c, id, Delivered(reply))];
    } else {
      assert fired == s.fired;
    }
    forall r | fired == s.fired + [Firing(c, id, r)] ensures r == Delivered(reply) {
      assert fired[|s.fired|] == Firing(c, id, r);
    }
  }

  /** A reply that overtakes the registration fires nothing and is not kept. */
  lemma EarlyReplyLost(s: State, c: nat, reply: Reply)
    requires Reachable(s) && c < |s.issued| && s.issued[c].phase == Sent
    ensures DoIncoming(s, s.issued[c].id, reply) == s && !HasFired(s.fired, c)
  {
    ReachableInv(s);
  }

  predicate NoReplyTo(actions: seq<Action>, id: Id) {
    forall i :: 0 <= i < |actions| ==> !(actions[i].Incoming? && actions[i].id == id)
  }

  /** A call whose only reply came too early stays unanswered until another frame carries its id. */
  lemma {:induction false} UnansweredStays(s: State, actions: seq<Action>, end: State, c: nat)
    requires Inv(s) && Run(s, actions, end) && end.taken <= IDS
    requires c < |s.issued| && !HasFired(s.fired, c) && NoReplyTo(actions, s.issued[c].id)
    ensures !HasFired(end.fired, c) && c < |end.issued|
    ensures end.issued[c].id == s.issued[c].id
    ensures end.issued[c].phase == Registered ==> end.issued[c].id in end.calls && end.calls[end.issued[c].id] == c
    decreases |actions|
  {
    if actions != [] {
      var a, s' := actions[0], Next(s, actions[0]);
      AllocatedGrows(s', actions[1..], end);
      StepKeeps(s, a);
      StepLeavesUnfired(s, a, c);
      hide Inv, HasFired, Next;
      assert forall i :: 0 <= i < |actions| - 1 ==> actions[1..][i] == actions[i + 1];
      UnansweredStays(s', actions[1..], end, c);
    }
  }

  lemma StepLeavesUnfired(s: State, a: Action, c: nat)
    requires Inv(s) && Enabled(s, a) && c < |s.issued| && !HasFired(s.fired, c)
    requires !(a.Incoming? && a.id == s.issued[c].id)
    ensures !HasFired(Next(s, a).fired, c) && c < |Next(s, a).issued| && Next(s, a).issued[c].id == s.issued[c].id
  {
  }

  lemma OneStep(s: State, a: Action, rest: seq<Action>, end: State)
    requires Enabled(s, a) && Run(Next(s, a), rest, end)
    ensures Run(s, [a] + rest, end)
  {
    assert ([a] + rest)[1..] == rest;
  }

  /** Call `c` could not be handed to the sender. */
  predicate Unsent(s: State, c: nat) {
    c < |s.issued| && s.issued[c].phase == Dropped && !HasFired(s.fired, c) && forall id :: id in s.calls ==>
      s.calls[id] != c
  }

  lemma UnsentStep(s: State, a: Action, c: nat)
    requires Unsent(s, c) && Enabled(s, a)
    ensures Unsent(Next(s, a), c)
  {
    if a.Incoming? && a.id in s.calls {
      var s' := Next(s, a);
      assert forall i :: 0 <= i < |s.fired| ==> s'.fired[i] == s.fired[i];
    }
  }

  lemma {:induction false} UnsentStays(s: State, actions: seq<Action>, end: State, c: nat)
    requires Unsent(s, c) && Run(s, actions, end)
    ensures Unsent(end, c)
    decreases |actions|
  {
    if actions != [] {
      UnsentStep(s, actions[0], c);
      hide Unsent, Next, Enabled;
      UnsentStays(Next(s, actions[0]), actions[1..], end, c);
    }
  }

  /** A call whose request cannot be sent is never registered and never answered, whatever happens later. */
  lemma FailedSendIsFinal(s: State, actions: seq<Action>, end: State)
    requires Reachable(s) && Run(Next(s, Begin(false)), actions, end)
    ensures |s.issued| < |end.issued| && end.issued[|s.issued|].phase == Dropped
    ensures !HasFired(end.fired, |s.issued|) && forall id :: id in end.calls ==> end.calls[id] != |s.issued|
  {
    ReachableInv(s);
    UnsentStays(Next(s, Begin(false)), actions, end, |s.issued|);
  }

  /** What a registration costs: a pending call is dropped exactly when it has the same id. */
  lemma RegisterDropsIff(s: State, c: nat)
    requires TableOk(s) && Enabled(s, Register(c)) && !HasFired(s.fired, c)
    ensures TableOk(Next(s, Register(c))) <==> s.issued[c].id !in s.calls
  {
    var s' := Next(s, Register(c));
    hide HasFired;
    if s.issued[c].id in s.calls {
      var d := s.calls[s.issued[c].id];
      assert s'.issued[d].phase == Registered && s'.issued[d].id in s'.calls && d != c;
    }
  }

  /** The bound is needed: after 2^32 ids a new call takes the place of an unanswered one. */
  lemma WrappedIdDropsCall()
    ensures exists actions, s :: Run(INITIAL, actions, s) && LostCall(s)
  {
    var s1 := Next(INITIAL, Begin(true));
    var s2 := Next(s1, Register(0));
    var s3 := Next(s2, Allocate(IDS - 1));
    var s4 := Next(s3, Begin(true));
    var s5 := Next(s4, Register(1));
    assert Run(s5, [], s5);
    hide Run;
    OneStep(s4, Register(1), [], s5);
    OneStep(s3, Begin(true), [Register(1)] + [], s5);
    OneStep(s2, Allocate(IDS - 1), [Begin(true)] + ([Register(1)] + []), s5);
    OneStep(s1, Register(0), [Allocate(IDS - 1)] + ([Begin(true)] + ([Register(1)] + [])), s5);
    OneStep(INITIAL, Begin(true), [Register(0)] + ([Allocate(IDS - 1)] + ([Begin(true)] + ([Register(1)] + []))), s5);
    assert s5.issued[0] == Issue(0, Registered) && s5.calls == map[0 := 1] && s5.fired == [];
  }

  /** Call 0 is registered and unanswered, but its callback is gone. */
  predicate LostCall(s: State) {
    && |s.issued| > 0 && s.issued[0].phase == Registered && s.fired == []
    && forall id :: id in s.calls ==> s.calls[id] != 0
  }

  /** The counter, the table and the sender's queue, changed in place: every method is a step. */
  class Caller {
    var taken: nat
    var calls: map<Id, nat>
    var queue: seq<Id>
    var completed: seq<Firing>
    ghost var issued: seq<Issue>

    constructor ()
      ensures View() == INITIAL && queue == []
    {
      taken, calls, queue, completed, issued := 0, map[], [], [], [];
    }

    ghost function View(): State
      reads this
    {
      State(taken, issued, calls, completed)
    }

    method NextMessageId() returns (id: Id)
      modifies this`taken
      ensures id == old(taken) % 0x1_0000_0000 && View() == Next(old(View()), Allocate(1))
    {
      id := taken % IDS;
      taken := taken + 1;
    }

    /** The part of `call` up to the sender. */
    method Send(open: bool) returns (id: Id, ok: bool)
      modifies this`taken, this`queue, this`issued
      ensures View() == Next(old(View()), Begin(open)) && ok == open
      ensures issued[|old(issued)|].id == id && queue == if open then old(queue) + [id] else old(queue)
    {
      id := NextMessageId();
      if open {
        queue := queue + [id];
      }
      ok := open;
      issued := issued + [Issue(id, if open then Sent else Dropped)];
    }

    /** The rest of `call`, for the call that was sent with `id`. */
    method RegisterCallback(id: Id, call: nat)
      requires call < |issued| && issued[call] == Issue(id, Sent)
      modifies this`calls, this`issued
      ensures View() == Next(old(View()), Register(call))
    {
      calls := calls[id := call];
      issued := issued[call := issued[call].(phase := Registered)];
    }

    method DispatchReply(id: Id, reply: Reply)
      modifies this`calls, this`completed
      ensures View() == Next(old(View()), Incoming(id, reply))
    {
      if id in calls {
        completed := completed + [Firing(calls[id], id, Delivered(reply))];
        calls := calls - {id};
      }
    }
  }
}
