/** What the download cache keeps: a working set of up to five names survives every operation. */
module CacheRetention {
  import opened Basics
  import opened DownloadCache

  /** The names a history is about. */
  function Names(log: seq<Event>): set<string> {
    set i | 0 <= i < |log| :: log[i].name
  }

  /** The names used after `name` was, and not deleted since. */
  function Newer(log: seq<Event>, name: string): set<string> {
    set x | x in Names(log) && LastUse(log, x) > LastUse(log, name)
  }

  lemma {:induction false} UsedIsNamed(log: seq<Event>, x: string)
    requires LastUse(log, x) >= 0
    ensures x in Names(log)
    decreases |log|
  {
    var n := |log| - 1;
    if log[n] != Touched(x) && log[n] != Deleted(x) {
      UsedIsNamed(log[..n], x);
      var i :| 0 <= i < n && log[..n][i].name == x;
      assert log[i].name == x;
    } else {
      assert log[n].name == x;
    }
  }

  function FirstNames(l: seq<string>, p: nat): set<string>
    requires p <= |l|
  {
    set i | 0 <= i < p :: l[i]
  }

  lemma {:induction false} FirstNamesSize(l: seq<string>, p: nat)
    requires p <= |l| && NoDuplicates(l)
    ensures |FirstNames(l, p)| == p
  {
    if p > 0 {
      FirstNamesSize(l, p - 1);
      assert FirstNames(l, p) == FirstNames(l, p - 1) + {l[p - 1]};
      assert l[p - 1] !in FirstNames(l, p - 1);
    }
  }

  lemma SubsetSize(a: set<string>, b: set<string>)
    requires a <= b
    ensures |a| <= |b|
  {
    assert b == a + (b - a);
  }

  /** Whoever stands before a name in the list was used after it. */
  lemma Position(l: seq<string>, log: seq<Event>, p: nat)
    requires MostRecent(l, log) && p < |l|
    ensures p <= |Newer(log, l[p])|
  {
    MostRecentNoDuplicates(l, log);
    FirstNamesSize(l, p);
    forall x | x in FirstNames(l, p) ensures x in Newer(log, l[p]) {
      var i :| 0 <= i < p && l[i] == x;
      assert x in l && LastUse(log, l[i]) > LastUse(log, l[p]);
      UsedIsNamed(log, x);
    }
    SubsetSize(FirstNames(l, p), Newer(log, l[p]));
  }

  lemma TouchKeepsRecent(c: Cache, name: string, removable: bool, kept: string)
    requires MostRecent(c.list, c.log) && kept in c.list && kept != name
    requires |Newer(c.log + [Touched(name)], kept)| < 5
    ensures var c' := Touch(c, name, removable);
      kept in c'.list && (kept in c.dirs ==> kept in c'.dirs && c'.dirs[kept] == c.dirs[kept])
  {
    var l, log' := Bumped(c.list, name), c.log + [Touched(name)];
    TouchedList(c.list, c.log, name);
    var p :| 0 <= p < |l| && l[p] == kept;
    Position(l, log', p);
    hide MostRecent, Newer, Bumped;
    if |l| > 5 {
      assert l[..|l| - 1][p] == kept;
      assert l[|l| - 1] != l[p];
    }
  }

  lemma TouchLog(c: Cache, name: string, removable: bool)
    ensures Touch(c, name, removable).log == c.log + [Touched(name)]
  {
  }

  /**
    An operation on another name keeps a cached name, with its directory and tree, as long as
    fewer than five names have been used after it, the one of the operation included.
   */
  lemma RecentIsKept(c: Cache, op: Op, kept: string)
    requires Inv(c) && Proper(op) && kept != op.name && kept in c.list && kept in c.dirs
    requires |Newer(Step(c, op).log, kept)| < 5
    ensures var c' := Step(c, op); kept in c'.list && kept in c'.dirs && c'.dirs[kept] == c.dirs[kept]
  {
    assert ProperName(kept);
    match op
    case DoExists(name, removable, _) =>
      TouchLog(c, name, removable);
      if name in c.dirs { TouchKeepsRecent(c, name, removable, kept); }
    case DoDelete(name, removable, _) =>
      RetainMembers(c.list, name);
    case DoCreate(name, creation, f, _) =>
      StagingIsStaging(name);
      var made := Made(c, name, creation, f);
      assert kept in made.dirs && made.dirs[kept] == c.dirs[kept];
      hide IsStaging, AfterMkdir, AfterSteps;
      TouchLog(made, name, !f.eviction);
      if name !in c.dirs && !f.mkdir && creation.ok {
        TouchKeepsRecent(made, name, !f.eviction, kept);
      }
      hide Touch;
  }

  /** An operation makes at most its own name newer. */
  lemma NewerGrows(c: Cache, op: Op, kept: string)
    requires Inv(c) && kept != op.name
    ensures Newer(Step(c, op).log, kept) <= Newer(c.log, kept) + {op.name}
  {
    var log' := Step(c, op).log;
    forall x | x in Newer(log', kept) && x != op.name ensures x in Newer(c.log, kept) {
      UseOfStep(c, op, x);
      UseOfStep(c, op, kept);
      StepNames(c, op);
    }
  }

  lemma StepNames(c: Cache, op: Op)
    ensures Names(Step(c, op).log) <= Names(c.log) + {op.name}
  {
    var log' := Step(c, op).log;
    assert |log'| >= |c.log| && (forall i :: 0 <= i < |c.log| ==> log'[i] == c.log[i]) && |log'| <= |c.log| + 1;
    assert |log'| > |c.log| ==> log'[|c.log|].name == op.name;
  }

  function OpNames(ops: seq<Op>): set<string> {
    set i | 0 <= i < |ops| :: ops[i].name
  }

  /**
    A cached name survives every run on other names, whatever fails in it, if with those used after
    it already there are fewer than five: a working set of five names stays cached.
   */
  lemma {:induction false} WorkingSetIsKept(c: Cache, ops: seq<Op>, kept: string)
    requires Inv(c) && (forall op :: op in ops ==> Proper(op)) && kept !in OpNames(ops)
    requires kept in c.list && kept in c.dirs && |Newer(c.log, kept) + OpNames(ops)| < 5
    ensures var c' := Exec(c, ops); kept in c'.list && kept in c'.dirs && c'.dirs[kept] == c.dirs[kept]
    decreases |ops|
  {
    if ops != [] {
      var op, rest := ops[0], ops[1..];
      var c', all := Step(c, op), Newer(c.log, kept) + OpNames(ops);
      assert op in ops && op.name in OpNames(ops);
      FirstOpNames(ops);
      NewerGrows(c, op, kept);
      SubsetSize(Newer(c'.log, kept), all);
      SubsetSize(Newer(c'.log, kept) + OpNames(rest), all);
      RecentIsKept(c, op, kept);
      StepKeepsInv(c, op);
      hide Inv, Step, Newer, OpNames;
      WorkingSetIsKept(c', rest, kept);
    }
  }

  lemma FirstOpNames(ops: seq<Op>)
    requires ops != []
    ensures OpNames(ops) == {ops[0].name} + OpNames(ops[1..])
  {
    assert forall i :: 0 < i < |ops| ==> ops[i] == ops[1..][i - 1];
    forall x | x in OpNames(ops[1..]) ensures x in OpNames(ops) {
      var i :| 0 <= i < |ops| - 1 && ops[1..][i].name == x;
      assert ops[i + 1].name == x;
    }
  }

  /** Right after a use, four other names may follow: nothing is newer than the name used last. */
  lemma NothingNewer(c: Cache, op: Op)
    requires Inv(c) && EffectOf(c, op).Used?
    ensures Newer(Step(c, op).log, op.name) == {}
  {
    UseOfStep(c, op, op.name);
    var log' := Step(c, op).log;
    forall x ensures LastUse(log', x) <= LastUse(log', op.name) { LastUseRange(log', x); }
    LogGrows(c, op);
  }

  lemma LogGrows(c: Cache, op: Op)
    ensures |Step(c, op).log| <= |c.log| + 1
  {
  }

  // ---------- What an operation takes away ----------

  /** When exactly a deletion succeeds; one that fails changes nothing. */
  lemma DeletesIff(c: Cache, name: string, removable: bool)
    ensures var (c', ok) := Delete(c, name, removable);
      && (ok <==> name !in c.dirs || removable)
      && (if ok then name !in c'.list && name !in c'.dirs else c' == c)
      && (forall x :: x != name ==> (x in c'.list <==> x in c.list) && (x in c'.dirs <==> x in c.dirs))
      && (forall x :: x != name && x in c.dirs ==> c'.dirs[x] == c.dirs[x])
  {
    RetainMembers(c.list, name);
  }

  /** Only a directory that was to be evicted and could not be removed counts as a failed eviction. */
  lemma FailuresAreReal(c: Cache, op: Op)
    requires Inv(c)
    ensures c.failedEvictions <= Step(c, op).failedEvictions <= c.failedEvictions + 1
    ensures Step(c, op).failedEvictions > c.failedEvictions ==>
      && EffectOf(c, op).Used? && |c.list| >= 5
      && (op.DoExists? ==> !op.removable) && (op.DoCreate? ==> op.faults.eviction)
  {
    TouchedList(c.list, c.log, op.name);
    hide MostRecent, Bumped, AfterMkdir, AfterSteps;
  }

  /** The name was published before the operation, is not its own, and is no longer there after it. */
  predicate Evicted(c: Cache, op: Op, name: string) {
    name in c.dirs && !IsStaging(name) && name != op.name && name !in Step(c, op).dirs
  }

  lemma TouchTakes(c: Cache, name: string, removable: bool, other: string)
    requires other in c.dirs
    ensures other !in Touch(c, name, removable).dirs ==>
      other == Bumped(c.list, name)[|Bumped(c.list, name)| - 1] && |Bumped(c.list, name)| > 5
    ensures other in Touch(c, name, removable).dirs ==> Touch(c, name, removable).dirs[other] == c.dirs[other]
  {
  }

  /** What happens to the directory of another name. */
  lemma OtherName(c: Cache, op: Op, x: string)
    requires Inv(c) && Proper(op) && x in c.dirs && !IsStaging(x) && x != op.name
    ensures x in Step(c, op).dirs ==> Step(c, op).dirs[x] == c.dirs[x]
    ensures x !in Step(c, op).dirs ==>
      EffectOf(c, op).Used? && x == Bumped(c.list, op.name)[|Bumped(c.list, op.name)| - 1]
        && |Bumped(c.list, op.name)| > 5
  {
    match op
    case DoExists(name, removable, _) => TouchTakes(c, name, removable, x); hide Inv;
    case DoDelete(_, _, _) => hide Inv;
    case DoCreate(name, creation, f, _) =>
      StagingIsStaging(name);
      var made := Made(c, name, creation, f);
      assert x in made.dirs && made.dirs[x] == c.dirs[x];
      hide IsStaging, AfterMkdir, AfterSteps, Inv;
      TouchTakes(made, name, !f.eviction, x);
      hide Touch, Bumped;
  }

  /**
    A deletion takes no other name; a use takes at most one, and only when five others are in the
    list. All that stays keeps its tree.
   */
  lemma AtMostOneEvicted(c: Cache, op: Op, x: string, y: string)
    requires Inv(c) && Proper(op)
    ensures Evicted(c, op, x) ==> EffectOf(c, op).Used? && |c.list| >= 5
    ensures Evicted(c, op, x) && Evicted(c, op, y) ==> x == y
    ensures x in c.dirs && !IsStaging(x) && x != op.name && x in Step(c, op).dirs ==> Step(c, op).dirs[x] == c.dirs[x]
  {
    TouchedList(c.list, c.log, op.name);
    if x in c.dirs && !IsStaging(x) && x != op.name { OtherName(c, op, x); }
    if y in c.dirs && !IsStaging(y) && y != op.name { OtherName(c, op, y); }
    hide Inv, Step, EffectOf, Bumped;
  }
}
