/**
  The download cache of cli/src/download_cache.rs: a list of recently used names, a directory per
  name, evictions that may fail and creation through a staging directory.
 */
module DownloadCache {
  import opened Basics
  import opened PersistedState

  const KEEP_LRU := 5
  const STAGING_SUFFIX := ".staging"
  const RENAME_ATTEMPTS := 20
  const STATE_FILE := "lru.json"

  /** What a directory holds. */
  type Tree = seq<string>
  type Dirs = map<string, Tree>

  predicate IsStaging(name: string) {
    |name| >= |STAGING_SUFFIX| && name[|name| - |STAGING_SUFFIX|..] == STAGING_SUFFIX
  }

  /** A name that clashes with no staging directory and not with the list's own file. */
  predicate ProperName(name: string) {
    !IsStaging(name) && name != STATE_FILE
  }

  lemma StagingIsStaging(name: string)
    ensures IsStaging(name + STAGING_SUFFIX)
  {
  }

  /** History: which names were marked as used or deleted. */
  datatype Event = Touched(name: string) | Deleted(name: string)

  datatype Cache = Cache(list: seq<string>, dirs: Dirs, log: seq<Event>, failedEvictions: nat)

  function RemoveFirst(l: seq<string>, name: string): seq<string> {
    if l == [] then [] else if l[0] == name then l[1..] else [l[0]] + RemoveFirst(l[1..], name)
  }

  function Retain(l: seq<string>, name: string): seq<string> {
    if l == [] then [] else (if l[0] == name then [] else [l[0]]) + Retain(l[1..], name)
  }

  /** `name` moved, or added, to the front. */
  function Bumped(l: seq<string>, name: string): seq<string> {
    [name] + RemoveFirst(l, name)
  }

  function Touch(c: Cache, name: string, removable: bool): Cache {
    var l := Bumped(c.list, name);
    var log := c.log + [Touched(name)];
    if |l| <= KEEP_LRU then Cache(l, c.dirs, log, c.failedEvictions)
    else
      var last := l[|l| - 1];
      if last in c.dirs && !removable then Cache(l, c.dirs, log, c.failedEvictions + 1)
      else Cache(l[..|l| - 1], c.dirs - {last}, log, c.failedEvictions)
  }

  function Delete(c: Cache, name: string, removable: bool): (Cache, bool) {
    if name in c.dirs && !removable then (c, false)
    else (Cache(Retain(c.list, name), c.dirs - {name}, c.log + [Deleted(name)], c.failedEvictions), true)
  }

  /** What `do_create` does in its directory: the trees it passes through, the last one its result. */
  datatype Creation = Creation(steps: seq<Tree>, ok: bool)

  /** Which of the file operations of `create` go wrong. */
  datatype Faults = Faults(cleanup: bool, mkdir: bool, eviction: bool, renames: nat)

  function Staging(name: string): string {
    name + STAGING_SUFFIX
  }

  function AfterMkdir(dirs: Dirs, name: string, cleanupFails: bool): Dirs {
    var clean := if cleanupFails then dirs else dirs - {Staging(name)};
    if Staging(name) in clean then clean else clean[Staging(name) := []]
  }

  function AfterSteps(dirs: Dirs, name: string, steps: seq<Tree>): Dirs {
    if steps == [] then dirs else dirs[Staging(name) := steps[|steps| - 1]]
  }

  /** `do_create` has run. */
  function Made(c: Cache, name: string, creation: Creation, f: Faults): Cache {
    c.(dirs := AfterSteps(AfterMkdir(c.dirs, name, f.cleanup), name, creation.steps))
  }

  datatype CreateEnd = Existing | Created | Error

  function Create(c: Cache, name: string, creation: Creation, f: Faults): (Cache, CreateEnd) {
    if name in c.dirs then (c, Existing)
    else
      var cleaned := if f.cleanup then c.dirs else c.dirs - {Staging(name)};
      if f.mkdir then (c.(dirs := cleaned), Error)
      else
        var made := Made(c, name, creation, f);
        if !creation.ok then (made, Error)
        else
          var touched := Touch(made, name, !f.eviction);
          if f.renames > RENAME_ATTEMPTS || Staging(name) !in touched.dirs then (touched, Error)
          else (touched.(dirs := touched.dirs[name := touched.dirs[Staging(name)]] - {Staging(name)}), Created)
  }

  /** `end` is how saving the list ends, if the operation comes to that. */
  datatype Op =
    | DoExists(name: string, removable: bool, end: WriteEnd)
    | DoDelete(name: string, removable: bool, end: WriteEnd)
    | DoCreate(name: string, creation: Creation, faults: Faults, end: WriteEnd)

  function Step(c: Cache, op: Op): Cache {
    match op
    case DoExists(name, removable, _) => if name in c.dirs then Touch(c, name, removable) else c
    case DoDelete(name, removable, _) => Delete(c, name, removable).0
    case DoCreate(name, creation, f, _) => Create(c, name, creation, f).0
  }

  function Exec(c: Cache, ops: seq<Op>): Cache
    decreases |ops|
  {
    if ops == [] then c else Exec(Step(c, ops[0]), ops[1..])
  }

  // ---------- The list is the most recently used names ----------

  /** When `name` was last used, -1 if never or if it was deleted since. */
  function LastUse(log: seq<Event>, name: string): int
    decreases |log|
  {
    if log == [] then -1
    else
      var n := |log| - 1;
      if log[n] == Touched(name) then n
      else if log[n] == Deleted(name) then -1
      else LastUse(log[..n], name)
  }

  lemma LastUseSnoc(log: seq<Event>, e: Event, name: string)
    ensures LastUse(log + [e], name) ==
      if e == Touched(name) then |log| else if e == Deleted(name) then -1 else LastUse(log, name)
  {
    assert (log + [e])[..|log|] == log;
  }

  lemma {:induction false} LastUseRange(log: seq<Event>, name: string)
    ensures -1 <= LastUse(log, name) < |log|
    decreases |log|
  {
    if log != [] { LastUseRange(log[..|log| - 1], name); }
  }

  /**
    `l` lists names by decreasing last use, and every name in use that it leaves out was used
    before all of its names: it is exactly the |l| most recently used names, in order.
   */
  ghost predicate MostRecent(l: seq<string>, log: seq<Event>) {
    && (forall name :: name in l ==> LastUse(log, name) >= 0)
    && Descending(l, log)
    && (forall name, other :: name in l && other !in l ==> LastUse(log, name) > LastUse(log, other))
  }

  lemma MostRecentNoDuplicates(l: seq<string>, log: seq<Event>)
    requires MostRecent(l, log)
    ensures NoDuplicates(l)
  {
  }

  lemma {:induction false} RetainMembers(l: seq<string>, name: string)
    ensures forall x :: x in Retain(l, name) <==> x in l && x != name
    ensures name !in l ==> Retain(l, name) == l
    ensures |Retain(l, name)| <= |l|
  {
    if l != [] {
      RetainMembers(l[1..], name);
      assert l == [l[0]] + l[1..];
    }
  }

  lemma {:induction false} RemoveFirstIs(l: seq<string>, name: string)
    requires NoDuplicates(l)
    ensures RemoveFirst(l, name) == Retain(l, name)
    ensures |Retain(l, name)| == if name in l then |l| - 1 else |l|
  {
    if l != [] {
      RetainMembers(l[1..], name);
      RemoveFirstIs(l[1..], name);
    }
  }

  /** The order between list members survives dropping a name. */
  lemma {:induction false} RetainDescending(l: seq<string>, name: string, log: seq<Event>, log': seq<Event>)
    requires Descending(l, log) && forall x :: x != name ==> LastUse(log', x) == LastUse(log, x)
    ensures Descending(Retain(l, name), log')
  {
    hide LastUse;
    if l != [] {
      var rest := Retain(l[1..], name);
      RetainDescending(l[1..], name, log, log');
      RetainMembers(l[1..], name);
      forall j | 0 <= j < |rest| && l[0] != name ensures LastUse(log', l[0]) > LastUse(log', rest[j]) {
        assert rest[j] in l[1..];
      }
    }
  }

  lemma TouchOrder(l: seq<string>, log: seq<Event>, name: string)
    requires MostRecent(l, log)
    ensures MostRecent(Bumped(l, name), log + [Touched(name)])
  {
    var l', log', rest := Bumped(l, name), log + [Touched(name)], Retain(l, name);
    MostRecentNoDuplicates(l, log);
    RemoveFirstIs(l, name);
    RetainMembers(l, name);
    forall x ensures LastUse(log', x) == if x == name then |log| else LastUse(log, x) {
      LastUseSnoc(log, Touched(name), x);
    }
    forall x ensures LastUse(log, x) < |log| { LastUseRange(log, x); }
    RetainDescending(l, name, log, log');
    assert l' == [name] + rest;
    BumpRecent(l, rest, log, log', name);
  }

  predicate Descending(l: seq<string>, log: seq<Event>) {
    forall i, j :: 0 <= i < j < |l| ==> LastUse(log, l[i]) > LastUse(log, l[j])
  }

  /** `name` in front of the others, used later than all of them. */
  lemma BumpRecent(l: seq<string>, rest: seq<string>, log: seq<Event>, log': seq<Event>, name: string)
    requires MostRecent(l, log) && forall x :: x in rest <==> x in l && x != name
    requires forall x :: LastUse(log', x) == if x == name then |log| else LastUse(log, x)
    requires forall x :: LastUse(log, x) < |log|
    requires Descending(rest, log')
    ensures MostRecent([name] + rest, log')
  {
    hide LastUse;
    var l' := [name] + rest;
    assert forall x :: x in l' <==> x == name || x in l;
    BumpDescending(rest, log', name);
    hide Descending;
    forall x, y | x in l' && y !in l' ensures LastUse(log', x) > LastUse(log', y) {
      assert x == name || x in l;
    }
  }

  lemma BumpDescending(rest: seq<string>, log: seq<Event>, name: string)
    requires Descending(rest, log) && forall x :: x in rest ==> LastUse(log, x) < LastUse(log, name)
    ensures Descending([name] + rest, log)
  {
    hide LastUse;
    var l' := [name] + rest;
    forall i, j | 0 <= i < j < |l'| ensures LastUse(log, l'[i]) > LastUse(log, l'[j]) {
      assert l'[j] == rest[j - 1] && rest[j - 1] in rest;
      if i > 0 { assert l'[i] == rest[i - 1]; }
    }
  }

  lemma DropLast(l: seq<string>, log: seq<Event>)
    requires MostRecent(l, log) && l != []
    ensures MostRecent(l[..|l| - 1], log)
  {
    hide LastUse;
    var l' := l[..|l| - 1];
    forall name, i | LastUse(log, name) >= 0 && name !in l' && 0 <= i < |l'|
      ensures LastUse(log, l'[i]) > LastUse(log, name)
    {
      assert l'[i] == l[i];
      if name in l { assert name == l[|l| - 1]; }
    }
  }

  lemma DeleteOrder(l: seq<string>, log: seq<Event>, name: string)
    requires MostRecent(l, log)
    ensures MostRecent(Retain(l, name), log + [Deleted(name)])
  {
    var l', log' := Retain(l, name), log + [Deleted(name)];
    RetainMembers(l, name);
    forall x ensures LastUse(log', x) == if x == name then -1 else LastUse(log, x)
      { LastUseSnoc(log, Deleted(name), x); }
    RetainDescending(l, name, log, log');
    forall i | 0 <= i < |l'| ensures l'[i] in l && l'[i] != name { }
  }

  // ---------- Whole runs ----------

  /** Every published directory is in the list. */
  predicate PublishedListed(c: Cache) {
    forall name :: name in c.dirs && !IsStaging(name) ==> name in c.list
  }

  ghost predicate Inv(c: Cache) {
    && MostRecent(c.list, c.log)
    && |c.list| <= KEEP_LRU + c.failedEvictions
    && PublishedListed(c)
    && (forall name :: name in c.list ==> ProperName(name))
  }

  lemma TouchedList(l: seq<string>, log: seq<Event>, name: string)
    requires MostRecent(l, log)
    ensures var l' := Bumped(l, name);
      && MostRecent(l', log + [Touched(name)]) && NoDuplicates(l') && |l'| <= |l| + 1
      && l' != [] && l'[0] == name && forall x :: x in l' <==> x == name || x in l
  {
    var l' := Bumped(l, name);
    TouchOrder(l, log, name);
    MostRecentNoDuplicates(l, log);
    MostRecentNoDuplicates(l', log + [Touched(name)]);
    hide MostRecent;
    RemoveFirstIs(l, name);
    RetainMembers(l, name);
  }

  lemma BumpedMember(l: seq<string>, name: string, x: string)
    requires NoDuplicates(l)
    ensures x in Bumped(l, name) <==> x == name || x in l
  {
    RemoveFirstIs(l, name);
    RetainMembers(l, name);
  }

  lemma LastOrBefore(l: seq<string>, x: string)
    requires l != []
    ensures x in l <==> x in l[..|l| - 1] || x == l[|l| - 1]
  {
    assert l == l[..|l| - 1] + [l[|l| - 1]];
  }

  /** Membership in the list a touch leaves. */
  lemma TouchMember(c: Cache, name: string, removable: bool, x: string)
    requires NoDuplicates(c.list)
    ensures x in Touch(c, name, removable).list ==> x == name || x in c.list
    ensures x in Touch(c, name, removable).dirs && x in c.list ==> x in Touch(c, name, removable).list
  {
    var l := Bumped(c.list, name);
    BumpedMember(c.list, name, x);
    hide Bumped, NoDuplicates;
    if |l| > KEEP_LRU { LastOrBefore(l, x); }
  }

  lemma TouchRecent(c: Cache, name: string, removable: bool)
    requires MostRecent(c.list, c.log) && |c.list| <= KEEP_LRU + c.failedEvictions
    ensures MostRecent(Touch(c, name, removable).list, Touch(c, name, removable).log)
    ensures |Touch(c, name, removable).list| <= KEEP_LRU + Touch(c, name, removable).failedEvictions
  {
    var l, log' := Bumped(c.list, name), c.log + [Touched(name)];
    TouchedList(c.list, c.log, name);
    hide MostRecent, Bumped, NoDuplicates;
    if |l| > KEEP_LRU { DropLast(l, log'); }
  }

  lemma TouchKeeps(c: Cache, name: string, removable: bool)
    requires Inv(c) && ProperName(name)
    ensures Inv(Touch(c, name, removable))
  {
    TouchRecent(c, name, removable);
    MostRecentNoDuplicates(c.list, c.log);
    var c' := Touch(c, name, removable);
    assert forall x :: x in c'.dirs ==> x in c.dirs;
    hide MostRecent, Touch, ProperName, IsStaging, NoDuplicates;
    forall x ensures x in c'.list ==> x == name || x in c.list { TouchMember(c, name, removable, x); }
    forall x ensures x in c'.dirs && x in c.list ==> x in c'.list { TouchMember(c, name, removable, x); }
  }

  /** A touch never evicts the name it touches, nor a staging directory. */
  lemma TouchSpares(c: Cache, name: string, removable: bool, dir: string)
    requires Inv(c) && ProperName(name) && dir in c.dirs && (dir == name || IsStaging(dir))
    ensures Touch(c, name, removable).list[0] == name
    ensures dir in Touch(c, name, removable).dirs && Touch(c, name, removable).dirs[dir] == c.dirs[dir]
  {
    var l := Bumped(c.list, name);
    TouchedList(c.list, c.log, name);
    hide MostRecent, Bumped;
    if |l| > KEEP_LRU {
      assert ProperName(l[|l| - 1]);
      hide IsStaging;
      assert l[0] != l[|l| - 1];
    }
  }

  lemma DeleteKeeps(c: Cache, name: string, removable: bool)
    requires Inv(c)
    ensures Inv(Delete(c, name, removable).0)
  {
    DeleteOrder(c.list, c.log, name);
    RetainMembers(c.list, name);
    hide MostRecent, LastUse;
  }

  lemma CreateKeeps(c: Cache, name: string, creation: Creation, f: Faults)
    requires Inv(c) && ProperName(name)
    ensures Inv(Create(c, name, creation, f).0)
    ensures Create(c, name, creation, f).1.Created? ==> Create(c, name, creation, f).0.list[0] == name
  {
    hide MostRecent, LastUse;
    StagingIsStaging(name);
    hide IsStaging;
    var made := Made(c, name, creation, f);
    assert Inv(made);
    hide Made;
    TouchKeeps(made, name, !f.eviction);
    assert Touch(made, name, !f.eviction).list[0] == name;
    hide Touch;
  }

  /** Whether the step used its name, or deleted it. */
  datatype Effect = Used | Unused | Gone

  function EffectOf(c: Cache, op: Op): Effect {
    match op
    case DoExists(name, _, _) => if name in c.dirs then Used else Unused
    case DoDelete(name, removable, _) => if name !in c.dirs || removable then Gone else Unused
    case DoCreate(name, creation, f, _) => if name !in c.dirs && !f.mkdir && creation.ok then Used else Unused
  }

  /**
    A use makes a name the first of the list and the last one used; a deletion takes it out of
    list, directories and history; the use of any other name never changes.
   */
  lemma UseOfStep(c: Cache, op: Op, other: string)
    requires Inv(c)
    ensures var c' := Step(c, op);
      match EffectOf(c, op)
      case Used => c'.list != [] && c'.list[0] == op.name && LastUse(c'.log, op.name) == |c.log|
      case Gone => op.name !in c'.list && op.name !in c'.dirs && LastUse(c'.log, op.name) == -1
      case Unused => c'.list == c.list && c'.log == c.log
    ensures other != op.name ==> LastUse(Step(c, op).log, other) == LastUse(c.log, other)
  {
    LastUseSnoc(c.log, Touched(op.name), op.name);
    LastUseSnoc(c.log, Touched(op.name), other);
    LastUseSnoc(c.log, Deleted(op.name), op.name);
    LastUseSnoc(c.log, Deleted(op.name), other);
    RetainMembers(c.list, op.name);
    hide LastUse, MostRecent, AfterMkdir, AfterSteps;
  }

  /** When exactly a creation succeeds; otherwise the name is not published, or was before. */
  lemma CreatesIff(c: Cache, name: string, creation: Creation, f: Faults)
    requires Inv(c) && ProperName(name)
    ensures var (c', r) := Create(c, name, creation, f);
      && (r.Existing? <==> name in c.dirs)
      && (r.Created? <==> name !in c.dirs && !f.mkdir && creation.ok && f.renames <= 20)
      && (r.Created? <==> name !in c.dirs && name in c'.dirs)
      && (r.Existing? ==> c' == c)
  {
    var made := Made(c, name, creation, f);
    StagingIsStaging(name);
    hide IsStaging;
    MadeKeeps(c, name, creation, f);
    if !f.mkdir {
      assert Staging(name) in made.dirs && (name in made.dirs <==> name in c.dirs);
      hide Made;
      TouchSpares(made, name, !f.eviction, Staging(name));
      assert forall x :: x in Touch(made, name, !f.eviction).dirs ==> x in made.dirs;
    }
    hide Touch;
  }

  predicate Proper(op: Op) {
    ProperName(op.name)
  }

  lemma StepKeepsInv(c: Cache, op: Op)
    requires Inv(c) && Proper(op)
    ensures Inv(Step(c, op))
  {
    hide Inv;
    match op
    case DoExists(name, removable, _) => TouchKeeps(c, name, removable);
    case DoDelete(name, removable, _) => DeleteKeeps(c, name, removable);
    case DoCreate(name, creation, f, _) => CreateKeeps(c, name, creation, f);
  }

  lemma {:induction false} ExecKeepsInv(c: Cache, ops: seq<Op>)
    requires Inv(c) && forall op :: op in ops ==> Proper(op)
    ensures Inv(Exec(c, ops))
    decreases |ops|
  {
    if ops != [] {
      assert Proper(ops[0]);
      StepKeepsInv(c, ops[0]);
      hide Inv;
      ExecKeepsInv(Step(c, ops[0]), ops[1..]);
    }
  }

  /** A history that explains a list read from disk. */
  function LogOf(l: seq<string>): seq<Event> {
    if l == [] then [] else LogOf(l[1..]) + [Touched(l[0])]
  }

  lemma {:induction false} LogOfOrder(l: seq<string>)
    requires NoDuplicates(l)
    ensures MostRecent(l, LogOf(l))
  {
    if l != [] {
      LogOfOrder(l[1..]);
      TouchOrder(l[1..], LogOf(l[1..]), l[0]);
      RemoveFirstIs(l[1..], l[0]);
      RetainMembers(l[1..], l[0]);
      assert l == [l[0]] + l[1..];
    }
  }

  function Published(dirs: Dirs): set<string> {
    set name | name in dirs && !IsStaging(name)
  }

  lemma {:induction false} SetOfListSize(s: set<string>, l: seq<string>)
    requires forall x :: x in s ==> x in l
    ensures |s| <= |l|
  {
    if l == [] {
      assert s == {};
    } else {
      SetOfListSize(s - {l[0]}, l[1..]);
    }
  }

  /**
    In every run from a list without duplicates of at most five names: the list is exactly the
    most recently used names, in order; every published directory is in it; and list and
    directories exceed five only by evictions that failed.
   */
  lemma CacheRun(list: seq<string>, dirs: Dirs, ops: seq<Op>)
    requires NoDuplicates(list) && |list| <= 5 && (forall name :: name in list ==> ProperName(name))
    requires forall name :: name in dirs && !IsStaging(name) ==> name in list
    requires forall op :: op in ops ==> Proper(op)
    ensures var end := Exec(Cache(list, dirs, LogOf(list), 0), ops);
      && MostRecent(end.list, end.log) && NoDuplicates(end.list) && PublishedListed(end)
      && |Published(end.dirs)| <= |end.list| <= 5 + end.failedEvictions
  {
    var start := Cache(list, dirs, LogOf(list), 0);
    LogOfOrder(list);
    ExecKeepsInv(start, ops);
    var end := Exec(start, ops);
    MostRecentNoDuplicates(end.list, end.log);
    SetOfListSize(Published(end.dirs), end.list);
  }

  // ---------- Stopping at any moment ----------

  /** What is left when the process stops: the directories and the list's file. */
  datatype Disk = Disk(dirs: Dirs, file: File<seq<string>>)

  /** A change of the disk that happens at once. A file being written does not parse until it is complete. */
  datatype Change =
    | RemoveTree(name: string)
    | MakeDir(name: string)
    | Fill(name: string, tree: Tree)
    | Rename(from: string, to: string)
    | Truncate
    | StoreList(list: seq<string>)

  function Apply(d: Disk, change: Change): Disk {
    match change
    case RemoveTree(name) => d.(dirs := d.dirs - {name})
    case MakeDir(name) => d.(dirs := d.dirs[name := []])
    case Fill(name, tree) => d.(dirs := d.dirs[name := tree])
    case Rename(from, to) => if from in d.dirs then d.(dirs := d.dirs[to := d.dirs[from]] - {from}) else d
    case Truncate => d.(file := Torn)
    case StoreList(list) => d.(file := Text(list))
  }

  function ApplyAll(d: Disk, changes: seq<Change>): Disk {
    Fold(Apply, d, changes)
  }

  function EvictChanges(c: Cache, name: string, removable: bool): seq<Change> {
    var l := Bumped(c.list, name);
    if |l| > KEEP_LRU && l[|l| - 1] in c.dirs && removable then [RemoveTree(l[|l| - 1])] else []
  }

  function FillChanges(name: string, steps: seq<Tree>): seq<Change> {
    seq(|steps|, i requires 0 <= i < |steps| => Fill(Staging(name), steps[i]))
  }

  /** Preparing the staging directory. */
  function StagingChanges(c: Cache, name: string, f: Faults): seq<Change> {
    (if f.cleanup then [] else [RemoveTree(Staging(name))])
    + (if f.mkdir || (f.cleanup && Staging(name) in c.dirs) then [] else [MakeDir(Staging(name))])
  }

  /** The changes of an operation up to where it saves the list. */
  function Before(c: Cache, op: Op): seq<Change> {
    match op
    case DoExists(name, removable, _) => if name in c.dirs then EvictChanges(c, name, removable) else []
    case DoDelete(name, removable, _) => if name in c.dirs && removable then [RemoveTree(name)] else []
    case DoCreate(name, creation, f, _) =>
      if name in c.dirs then []
      else
        StagingChanges(c, name, f)
        + (if f.mkdir then [] else FillChanges(name, creation.steps))
        + (if f.mkdir || !creation.ok then [] else EvictChanges(Made(c, name, creation, f), name, !f.eviction))
  }

  /** Opening the file truncates it; the text is written after that. */
  function WriteChanges(l: seq<string>, end: WriteEnd): seq<Change> {
    match end
    case NotOpened => []
    case Cut => [Truncate]
    case Written => [Truncate, StoreList(l)]
  }

  function SaveChanges(c: Cache, op: Op): seq<Change> {
    if EffectOf(c, op).Unused? then [] else WriteChanges(Step(c, op).list, op.end)
  }

  predicate Publishes(c: Cache, op: Op) {
    op.DoCreate? && Create(c, op.name, op.creation, op.faults).1.Created?
  }

  function PublishChanges(c: Cache, op: Op): seq<Change> {
    if Publishes(c, op) then [Rename(Staging(op.name), op.name)] else []
  }

  /** All changes of the disk an operation makes, in order. */
  function ChangesOf(c: Cache, op: Op): seq<Change> {
    Before(c, op) + SaveChanges(c, op) + PublishChanges(c, op)
  }

  /** The directories when an operation saves the list. */
  function MidDirs(c: Cache, op: Op): Dirs {
    if Publishes(c, op) then Touch(Made(c, op.name, op.creation, op.faults), op.name, !op.faults.eviction).dirs
    else Step(c, op).dirs
  }

  lemma FillsApply(d: Disk, name: string, steps: seq<Tree>)
    ensures ApplyAll(d, FillChanges(name, steps)) == Disk(AfterSteps(d.dirs, name, steps), d.file)
    decreases |steps|
  {
    if steps != [] {
      var n := |steps| - 1;
      FillsApply(d, name, steps[..n]);
      assert FillChanges(name, steps) == FillChanges(name, steps[..n]) + [Fill(Staging(name), steps[n])];
      FoldSnoc(Apply, d, FillChanges(name, steps[..n]), Fill(Staging(name), steps[n]));
    }
  }

  lemma StagingApply(c: Cache, file: File<seq<string>>, name: string, f: Faults)
    ensures ApplyAll(Disk(c.dirs, file), StagingChanges(c, name, f)) ==
      Disk(if f.mkdir then (if f.cleanup then c.dirs else c.dirs - {Staging(name)})
        else AfterMkdir(c.dirs, name, f.cleanup), file)
  {
    var d := Disk(c.dirs, file);
    var first := if f.cleanup then [] else [RemoveTree(Staging(name))];
    var second := if f.mkdir || (f.cleanup && Staging(name) in c.dirs) then [] else [MakeDir(Staging(name))];
    FoldAppend(Apply, d, first, second);
    ApplyOne(d, RemoveTree(Staging(name)));
    ApplyOne(ApplyAll(d, first), MakeDir(Staging(name)));
  }

  lemma ApplyOne(d: Disk, change: Change)
    ensures ApplyAll(d, [change]) == Apply(d, change) && ApplyAll(d, []) == d
  {
    FoldSnoc(Apply, d, [], change);
    assert [] + [change] == [change];
  }

  lemma EvictApplies(c: Cache, file: File<seq<string>>, name: string, removable: bool)
    ensures ApplyAll(Disk(c.dirs, file), EvictChanges(c, name, removable)) == Disk(Touch(c, name, removable).dirs, file)
  {
    var l := Bumped(c.list, name);
    if |l| > KEEP_LRU { ApplyOne(Disk(c.dirs, file), RemoveTree(l[|l| - 1])); }
    ApplyOne(Disk(c.dirs, file), RemoveTree(name));
  }

  lemma BeforeCreateApplies(c: Cache, op: Op, file: File<seq<string>>)
    requires op.DoCreate? && op.name !in c.dirs
    ensures ApplyAll(Disk(c.dirs, file), Before(c, op)) == Disk(MidDirs(c, op), file)
  {
    var DoCreate(name, creation, f, _) := op;
    var d := Disk(c.dirs, file);
    var a := StagingChanges(c, name, f);
    var b := if f.mkdir then [] else FillChanges(name, creation.steps);
    var e := if f.mkdir || !creation.ok then [] else EvictChanges(Made(c, name, creation, f), name, !f.eviction);
    StagingApply(c, file, name, f);
    FillsApply(ApplyAll(d, a), name, creation.steps);
    EvictApplies(Made(c, name, creation, f), file, name, !f.eviction);
    FoldAppend(Apply, d, a, b);
    FoldAppend(Apply, d, a + b, e);
    ApplyOne(d, RemoveTree(name));
    ApplyOne(ApplyAll(d, a), RemoveTree(name));
    ApplyOne(ApplyAll(d, a + b), RemoveTree(name));
    hide StagingChanges, FillChanges, EvictChanges, Touch, AfterMkdir, AfterSteps, Apply, Fold;
  }

  lemma BeforeApplies(c: Cache, op: Op, file: File<seq<string>>)
    ensures ApplyAll(Disk(c.dirs, file), Before(c, op)) == Disk(MidDirs(c, op), file)
  {
    var d := Disk(c.dirs, file);
    ApplyOne(d, RemoveTree(op.name));
    if op.DoCreate? && op.name !in c.dirs {
      BeforeCreateApplies(c, op, file);
    } else if op.DoExists? {
      EvictApplies(c, file, op.name, op.removable);
    }
  }

  /** The changes of an operation add up to what it does. */
  lemma ChangesApply(c: Cache, op: Op, file: File<seq<string>>)
    ensures ApplyAll(Disk(c.dirs, file), ChangesOf(c, op)) == Disk(Step(c, op).dirs, Saved(c, op, file))
    ensures ApplyAll(Disk(c.dirs, file), Before(c, op) + SaveChanges(c, op)) == Disk(MidDirs(c, op), Saved(c, op, file))
  {
    var d := Disk(c.dirs, file);
    BeforeApplies(c, op, file);
    FoldAppend(Apply, d, Before(c, op), SaveChanges(c, op));
    FoldAppend(Apply, d, Before(c, op) + SaveChanges(c, op), PublishChanges(c, op));
    var mid := Disk(MidDirs(c, op), file);
    WriteApplies(mid, Step(c, op).list, op.end);
    ApplyOne(mid, Truncate);
    var saved := Disk(MidDirs(c, op), Saved(c, op, file));
    ApplyOne(saved, Rename(Staging(op.name), op.name));
    hide Before, Touch, Fold, Made, EffectOf, Delete, WriteChanges;
  }

  lemma WriteApplies(d: Disk, l: seq<string>, end: WriteEnd)
    ensures ApplyAll(d, WriteChanges(l, end)) == Disk(d.dirs, AfterWrite(d.file, l, end))
    ensures |WriteChanges(l, end)| > 0 ==> ApplyAll(d, WriteChanges(l, end)[..1]) == Disk(d.dirs, Torn)
  {
    ApplyOne(d, Truncate);
    if end.Written? {
      FoldSnoc(Apply, d, [Truncate], StoreList(l));
      assert [Truncate] + [StoreList(l)] == WriteChanges(l, end) && WriteChanges(l, end)[..1] == [Truncate];
    } else if end.Cut? {
      assert WriteChanges(l, end)[..1] == [Truncate];
    }
  }

  function Saved(c: Cache, op: Op, file: File<seq<string>>): File<seq<string>> {
    if EffectOf(c, op).Unused? then file else AfterWrite(file, Step(c, op).list, op.end)
  }

  // ---------- What a stopped process leaves ----------

  /** The disk after the first `k` changes of an operation. */
  function StopAt(d: Disk, c: Cache, op: Op, k: nat): Disk
    requires k <= |ChangesOf(c, op)|
  {
    ApplyAll(d, ChangesOf(c, op)[..k])
  }

  /** Nothing published has appeared or changed. */
  predicate Sound(before: Dirs, after: Dirs) {
    forall name :: name in after && !IsStaging(name) ==> name in before && after[name] == before[name]
  }

  predicate Harmless(change: Change) {
    change.RemoveTree? || ((change.MakeDir? || change.Fill?) && IsStaging(change.name))
  }

  lemma {:induction false} HarmlessSound(d: Disk, changes: seq<Change>)
    requires forall change :: change in changes ==> Harmless(change)
    ensures Sound(d.dirs, ApplyAll(d, changes).dirs) && ApplyAll(d, changes).file == d.file
    decreases |changes|
  {
    hide IsStaging;
    if changes != [] {
      assert Harmless(changes[0]);
      HarmlessSound(Apply(d, changes[0]), changes[1..]);
    }
  }

  lemma BeforeHarmless(c: Cache, op: Op)
    ensures forall change :: change in Before(c, op) ==> Harmless(change)
  {
    StagingIsStaging(op.name);
    hide IsStaging;
    if op.DoCreate? {
      assert forall change :: change in StagingChanges(c, op.name, op.faults) ==> Harmless(change);
      var fills := FillChanges(op.name, op.creation.steps);
      forall change | change in fills ensures Harmless(change) {
        var i :| 0 <= i < |fills| && fills[i] == change;
        assert change == Fill(Staging(op.name), op.creation.steps[i]) && IsStaging(Staging(op.name));
      }
    }
  }

  /** The list's file is empty: it was truncated and has not been written. */
  predicate Emptied(c: Cache, op: Op, k: nat) {
    k > |Before(c, op)| && !EffectOf(c, op).Unused?
    && (op.end.Cut? || (op.end.Written? && k == |Before(c, op)| + 1))
  }

  /** The disk at a stop: still before the save, within it, after it, or at the end. */
  lemma StopState(d: Disk, c: Cache, op: Op, k: nat)
    requires d.dirs == c.dirs && k <= |ChangesOf(c, op)|
    ensures k <= |Before(c, op)| ==> StopAt(d, c, op, k) == ApplyAll(d, Before(c, op)[..k])
    ensures k >= |Before(c, op)| ==>
      StopAt(d, c, op, k).dirs == if k == |ChangesOf(c, op)| then Step(c, op).dirs else MidDirs(c, op)
    ensures k > |Before(c, op)| ==> StopAt(d, c, op, k).file == if Emptied(c, op, k) then Torn else Saved(c, op, d.file)
    ensures k == |ChangesOf(c, op)| ==> StopAt(d, c, op, k) == Disk(Step(c, op).dirs, Saved(c, op, d.file))
  {
    var b, w := Before(c, op), SaveChanges(c, op);
    BeforeApplies(c, op, d.file);
    ChangesApply(c, op, d.file);
    WriteApplies(Disk(MidDirs(c, op), d.file), Step(c, op).list, op.end);
    Prefixes(b, w, PublishChanges(c, op), k);
    if |w| > 0 { FoldAppend(Apply, d, b, w[..1]); }
    UnusedPublishesNothing(c, op);
    hide Before, Step, MidDirs, EffectOf, Publishes, Fold;
  }

  lemma Prefixes(b: seq<Change>, w: seq<Change>, p: seq<Change>, k: nat)
    requires k <= |b + w + p|
    ensures k <= |b| ==> (b + w + p)[..k] == b[..k]
    ensures k == |b| ==> (b + w + p)[..k] == b
    ensures k == |b| + 1 && |w| > 0 ==> (b + w + p)[..k] == b + w[..1]
    ensures k == |b + w| ==> (b + w + p)[..k] == b + w
    ensures k == |b + w + p| ==> (b + w + p)[..k] == b + w + p
  {
  }

  lemma UnusedPublishesNothing(c: Cache, op: Op)
    ensures EffectOf(c, op).Unused? ==> !Publishes(c, op)
  {
  }

  /** The full result of the creation: its last tree, or what it was started on. */
  function ResultTree(c: Cache, op: Op): Tree
    requires op.DoCreate?
  {
    if op.creation.steps != [] then op.creation.steps[|op.creation.steps| - 1]
    else if op.faults.cleanup && Staging(op.name) in c.dirs then c.dirs[Staging(op.name)]
    else []
  }

  lemma PublishedTree(c: Cache, op: Op)
    requires Inv(c) && Proper(op) && Publishes(c, op)
    ensures var mid := MidDirs(c, op);
      && Staging(op.name) in mid && mid[Staging(op.name)] == ResultTree(c, op)
      && Step(c, op).dirs == mid[op.name := ResultTree(c, op)] - {Staging(op.name)}
  {
    var made := Made(c, op.name, op.creation, op.faults);
    StagingIsStaging(op.name);
    hide IsStaging;
    MadeKeeps(c, op.name, op.creation, op.faults);
    assert Staging(op.name) in made.dirs && made.dirs[Staging(op.name)] == ResultTree(c, op);
    hide Made;
    TouchSpares(made, op.name, !op.faults.eviction, Staging(op.name));
    hide Touch;
  }

  lemma MadeKeeps(c: Cache, name: string, creation: Creation, f: Faults)
    requires Inv(c)
    ensures Inv(Made(c, name, creation, f))
  {
    StagingIsStaging(name);
    hide IsStaging, MostRecent;
  }

  /**
    Stopped after any number of its changes, an operation has left published directories as they
    were or removed them; only the last change of a creation publishes one, with its full result.
   */
  lemma StopAnywhere(c: Cache, op: Op, file: File<seq<string>>, k: nat)
    requires Inv(c) && Proper(op) && k <= |ChangesOf(c, op)|
    ensures var dirs := StopAt(Disk(c.dirs, file), c, op, k).dirs;
      if Publishes(c, op) && k == |ChangesOf(c, op)|
      then op.name in dirs && dirs[op.name] == ResultTree(c, op) && Sound(c.dirs, dirs - {op.name})
      else Sound(c.dirs, dirs)
  {
    var d, before := Disk(c.dirs, file), Before(c, op);
    BeforeHarmless(c, op);
    StopState(d, c, op, k);
    BeforeApplies(c, op, file);
    StagingIsStaging(op.name);
    hide Before, ChangesOf, StopAt, Harmless, ApplyAll, IsStaging;
    hide Step, Saved, MidDirs, Publishes, ResultTree;
    HarmlessSound(d, before[..if k <= |before| then k else 0]);
    HarmlessSound(d, before);
    if Publishes(c, op) {
      PublishedTree(c, op);
      PublishesLast(c, op);
    } else {
      MidIsEnd(c, op);
    }
  }

  lemma PublishesLast(c: Cache, op: Op)
    requires Publishes(c, op)
    ensures |Before(c, op)| < |ChangesOf(c, op)|
  {
    hide Before, SaveChanges;
  }

  lemma MidIsEnd(c: Cache, op: Op)
    requires !Publishes(c, op)
    ensures MidDirs(c, op) == Step(c, op).dirs
  {
  }

  /** The disk after whole operations. */
  function DiskRun(d: Disk, c: Cache, ops: seq<Op>): Disk
    decreases |ops|
  {
    if ops == [] then d else DiskRun(ApplyAll(d, ChangesOf(c, ops[0])), Step(c, ops[0]), ops[1..])
  }

  lemma {:induction false} DiskRunDirs(d: Disk, c: Cache, ops: seq<Op>)
    requires d.dirs == c.dirs
    ensures DiskRun(d, c, ops).dirs == Exec(c, ops).dirs
    decreases |ops|
  {
    if ops != [] {
      ChangesApply(c, ops[0], d.file);
      hide ChangesOf, Step, ApplyAll;
      DiskRunDirs(ApplyAll(d, ChangesOf(c, ops[0])), Step(c, ops[0]), ops[1..]);
    }
  }

  /** Every published directory holds the full result of a creation of that name. */
  predicate Whole(dirs: Dirs, results: set<(string, Tree)>) {
    forall name :: name in dirs && !IsStaging(name) ==> (name, dirs[name]) in results
  }

  /** What an operation publishes. */
  function Result(c: Cache, op: Op): set<(string, Tree)> {
    if Publishes(c, op) then {(op.name, ResultTree(c, op))} else {}
  }

  function Results(c: Cache, ops: seq<Op>): set<(string, Tree)>
    decreases |ops|
  {
    if ops == [] then {} else Result(c, ops[0]) + Results(Step(c, ops[0]), ops[1..])
  }

  lemma StepWhole(c: Cache, op: Op, file: File<seq<string>>, k: nat, results: set<(string, Tree)>)
    requires Inv(c) && Proper(op) && Whole(c.dirs, results) && k <= |ChangesOf(c, op)|
    ensures Whole(StopAt(Disk(c.dirs, file), c, op, k).dirs,
                  results + if k == |ChangesOf(c, op)| then Result(c, op) else {})
  {
    StopAnywhere(c, op, file, k);
    hide ChangesOf, StopAt, IsStaging, Publishes, ResultTree, Inv;
  }

  lemma {:induction false} ExecWhole(c: Cache, ops: seq<Op>, results: set<(string, Tree)>)
    requires Inv(c) && (forall op :: op in ops ==> Proper(op)) && Whole(c.dirs, results)
    ensures Whole(Exec(c, ops).dirs, results + Results(c, ops)) && Inv(Exec(c, ops))
    decreases |ops|
  {
    if ops != [] {
      var op := ops[0];
      assert Proper(op);
      StepWhole(c, op, Absent, |ChangesOf(c, op)|, results);
      StopState(Disk(c.dirs, Absent), c, op, |ChangesOf(c, op)|);
      StepKeepsInv(c, op);
      hide Inv, Whole, ChangesOf, Step, Result, StopAt;
      ExecWhole(Step(c, op), ops[1..], results + Result(c, op));
      assert results + Result(c, op) + Results(Step(c, op), ops[1..]) == results + Results(c, ops);
    }
  }

  /**
    A process that stops anywhere in a run, after whole operations and any part of the next one,
    leaves only published directories with the full result of a `do_create` that returned Ok.
   */
  lemma RunStopsWhole(c: Cache, file: File<seq<string>>, done: seq<Op>, op: Op, k: nat, results: set<(string, Tree)>)
    requires Inv(c) && Whole(c.dirs, results) && (forall o :: o in done ==> Proper(o)) && Proper(op)
    requires k <= |ChangesOf(Exec(c, done), op)|
    ensures var c' := Exec(c, done);
      Whole(StopAt(DiskRun(Disk(c.dirs, file), c, done), c', op, k).dirs,
            results + Results(c, done) + if k == |ChangesOf(c', op)| then Result(c', op) else {})
  {
    ExecWhole(c, done, results);
    DiskRunDirs(Disk(c.dirs, file), c, done);
    hide Inv, Whole, Exec, Results, Result, ChangesOf, StopAt, DiskRun;
    StepWhole(Exec(c, done), op, DiskRun(Disk(c.dirs, file), c, done).file, k, results + Results(c, done));
  }

  // ---------- A new process on what was left ----------

  function Excess(l: seq<string>): nat {
    if |l| > KEEP_LRU then |l| - KEEP_LRU else 0
  }

  /** The cache of a new process; names beyond the five are failed evictions of an earlier one. */
  function Restarted(d: Disk): Cache {
    var l := OnDisk(d.file, []);
    Cache(l, d.dirs, LogOf(l), Excess(l))
  }

  lemma RestartKeeps(d: Disk, l: seq<string>)
    requires OnDisk(d.file, []) == l && NoDuplicates(l) && forall name :: name in l ==> ProperName(name)
    requires forall name :: name in d.dirs && !IsStaging(name) ==> name in l
    ensures Inv(Restarted(d))
  {
    LogOfOrder(l);
    hide MostRecent, NoDuplicates, LogOf, ProperName, IsStaging;
  }

  /** File and memory say the same. */
  predicate Agree(d: Disk, c: Cache) {
    d.dirs == c.dirs && OnDisk(d.file, []) == c.list
  }

  lemma MidListed(c: Cache, op: Op)
    requires Inv(c) && Proper(op)
    ensures forall name :: name in MidDirs(c, op) && !IsStaging(name) ==> name in Step(c, op).list
  {
    StepKeepsInv(c, op);
    if Publishes(c, op) {
      var made := Made(c, op.name, op.creation, op.faults);
      MadeKeeps(c, op.name, op.creation, op.faults);
      TouchKeeps(made, op.name, !op.faults.eviction);
      hide MostRecent, Touch, Made, IsStaging;
    }
  }

  lemma InvList(c: Cache)
    requires Inv(c)
    ensures NoDuplicates(c.list) && (forall name :: name in c.list ==> ProperName(name)) && PublishedListed(c)
  {
    MostRecentNoDuplicates(c.list, c.log);
  }

  /** The list a restart finds, when it would have found `l` before the operation. */
  function FoundList(l: seq<string>, c: Cache, op: Op, k: nat): seq<string> {
    if k <= |Before(c, op)| || EffectOf(c, op).Unused? || op.end.NotOpened? then l
    else if Emptied(c, op, k) then []
    else Step(c, op).list
  }

  lemma StopFinds(d: Disk, c: Cache, op: Op, k: nat)
    requires d.dirs == c.dirs && k <= |ChangesOf(c, op)|
    ensures Restarted(StopAt(d, c, op, k)).list == FoundList(OnDisk(d.file, []), c, op, k)
  {
    StopState(d, c, op, k);
    BeforeHarmless(c, op);
    hide Before, ChangesOf, StopAt, Harmless, ApplyAll, Step, MidDirs, EffectOf, Emptied, LogOf;
    if k <= |Before(c, op)| { HarmlessSound(d, Before(c, op)[..k]); }
  }

  /** The list a restart finds after a run: that of the last save that opened the file. */
  function FileList(l: seq<string>, c: Cache, ops: seq<Op>): seq<string>
    decreases |ops|
  {
    if ops == [] then l else FileList(FoundList(l, c, ops[0], |ChangesOf(c, ops[0])|), Step(c, ops[0]), ops[1..])
  }

  lemma {:induction false} RunFinds(d: Disk, c: Cache, ops: seq<Op>)
    requires d.dirs == c.dirs
    ensures OnDisk(DiskRun(d, c, ops).file, []) == FileList(OnDisk(d.file, []), c, ops)
    decreases |ops|
  {
    if ops != [] {
      var op := ops[0];
      StopFinds(d, c, op, |ChangesOf(c, op)|);
      StopState(d, c, op, |ChangesOf(c, op)|);
      assert ChangesOf(c, op)[..|ChangesOf(c, op)|] == ChangesOf(c, op);
      hide ChangesOf, Step, ApplyAll, FoundList;
      RunFinds(ApplyAll(d, ChangesOf(c, op)), Step(c, op), ops[1..]);
    }
  }

  /** The last operation of the run that saves the list, if there is one, succeeds in it. */
  predicate LastSaved(c: Cache, ops: seq<Op>, before: bool)
    decreases |ops|
  {
    if ops == [] then before
    else LastSaved(Step(c, ops[0]), ops[1..], if EffectOf(c, ops[0]).Unused? then before else ops[0].end.Written?)
  }

  lemma SavedIsFound(l: seq<string>, c: Cache, op: Op)
    requires Inv(c)
    ensures var found := FoundList(l, c, op, |ChangesOf(c, op)|);
      && (EffectOf(c, op).Unused? ==> found == l && Step(c, op).list == c.list)
      && (!EffectOf(c, op).Unused? && op.end.Written? ==> found == Step(c, op).list)
  {
    UseOfStep(c, op, op.name);
    hide Before, Step, EffectOf, PublishChanges, Inv, LastUse;
  }

  /** After a save that succeeded, file and memory say the same, whatever saves failed before. */
  lemma {:induction false} SavedRun(l: seq<string>, c: Cache, ops: seq<Op>, before: bool)
    requires Inv(c) && (forall op :: op in ops ==> Proper(op)) && (before ==> l == c.list)
    ensures LastSaved(c, ops, before) ==> FileList(l, c, ops) == Exec(c, ops).list
    decreases |ops|
  {
    if ops != [] {
      var op := ops[0];
      assert Proper(op);
      SavedIsFound(l, c, op);
      StepKeepsInv(c, op);
      hide Inv, ChangesOf, Step, FoundList, EffectOf;
      SavedRun(FoundList(l, c, op, |ChangesOf(c, op)|), Step(c, op), ops[1..],
               if EffectOf(c, op).Unused? then before else op.end.Written?);
    }
  }

  /**
    The stop is not in a truncated file while something is published, and not after a creation
    whose name is new to the list and could not be saved.
   */
  predicate StopSafe(c: Cache, op: Op, k: nat) {
    && (Emptied(c, op, k) ==>
         Published(if k == |ChangesOf(c, op)| then Step(c, op).dirs else MidDirs(c, op)) == {})
    && (Publishes(c, op) && k == |ChangesOf(c, op)| && op.end.NotOpened? ==> op.name in c.list)
  }

  predicate AllListed(dirs: Dirs, l: seq<string>) {
    forall name :: name in dirs && !IsStaging(name) ==> name in l
  }

  lemma NoneListed(dirs: Dirs)
    ensures AllListed(dirs, []) <==> Published(dirs) == {}
  {
    hide IsStaging;
    assert Published(dirs) == {} ==> forall name :: name in dirs && !IsStaging(name) ==> name in Published(dirs);
  }

  /** What the save leaves listed, by how it ends. */
  lemma EndListed(c: Cache, op: Op)
    requires Inv(c) && Proper(op)
    ensures AllListed(MidDirs(c, op), c.list) && AllListed(MidDirs(c, op), Step(c, op).list)
    ensures AllListed(Step(c, op).dirs, Step(c, op).list)
    ensures AllListed(Step(c, op).dirs, c.list) <==> (Publishes(c, op) ==> op.name in c.list)
  {
    StepKeepsInv(c, op);
    MidListed(c, op);
    BeforeHarmless(c, op);
    BeforeApplies(c, op, Absent);
    HarmlessSound(Disk(c.dirs, Absent), Before(c, op));
    InvList(c);
    InvList(Step(c, op));
    StagingIsStaging(op.name);
    hide IsStaging, Before, ApplyAll, Harmless, MidDirs, Step, Publishes, ResultTree, NoDuplicates;
    if Publishes(c, op) {
      PublishedTree(c, op);
      hide Inv;
      assert !IsStaging(op.name) && op.name in Step(c, op).dirs;
    } else {
      MidIsEnd(c, op);
    }
  }

  /** When exactly a restart finds all that is published, for a stop anywhere in an operation. */
  lemma StopListedIff(d: Disk, c: Cache, op: Op, k: nat)
    requires Inv(c) && Agree(d, c) && Proper(op) && k <= |ChangesOf(c, op)|
    ensures PublishedListed(Restarted(StopAt(d, c, op, k))) <==> StopSafe(c, op, k)
  {
    StopFinds(d, c, op, k);
    StopState(d, c, op, k);
    EndListed(c, op);
    NoneListed(MidDirs(c, op));
    NoneListed(Step(c, op).dirs);
    BeforeHarmless(c, op);
    InvList(c);
    UnusedPublishesNothing(c, op);
    ShortChanges(c, op);
    hide Inv, Before, ChangesOf, StopAt, Harmless, ApplyAll, Step, MidDirs, Publishes;
    hide EffectOf, IsStaging, NoDuplicates;
    if k <= |Before(c, op)| { HarmlessSound(d, Before(c, op)[..k]); }
  }

  lemma ShortChanges(c: Cache, op: Op)
    ensures |ChangesOf(c, op)| > |Before(c, op)| ==> !EffectOf(c, op).Unused?
    ensures |ChangesOf(c, op)| > |Before(c, op)| && op.end.NotOpened? ==>
      Publishes(c, op) && |ChangesOf(c, op)| == |Before(c, op)| + 1
    ensures Publishes(c, op) ==> |ChangesOf(c, op)| > |Before(c, op)|
  {
    UnusedPublishesNothing(c, op);
    hide Before, EffectOf, Publishes;
  }

  /** The state whose list a restart finds, or should find. */
  function FoundFrom(c: Cache, op: Op, k: nat): Cache {
    if k <= |Before(c, op)| || EffectOf(c, op).Unused? || op.end.NotOpened? then c else Step(c, op)
  }

  lemma FoundOrdered(c: Cache, op: Op, k: nat)
    requires Inv(c) && Proper(op)
    ensures var l, from := FoundList(c.list, c, op, k), FoundFrom(c, op, k);
      && l == (if Emptied(c, op, k) then [] else from.list)
      && MostRecent(l, from.log) && |l| <= 5 + from.failedEvictions
      && NoDuplicates(l) && forall name :: name in l ==> ProperName(name)
  {
    StepKeepsInv(c, op);
    InvList(c);
    InvList(Step(c, op));
    hide Before, Step, EffectOf, LastUse, ProperName;
  }

  /**
    A process that stops anywhere after a run in which saves may fail, the last one not. A new one
    finds the list as it was when last saved, in the order of use and within the bound, or the
    empty list of a truncated file; every published directory is in it exactly when the stop is
    safe, and then the new cache is in order.
   */
  lemma RestartAnywhere(d: Disk, c: Cache, done: seq<Op>, op: Op, k: nat)
    requires Inv(c) && Agree(d, c) && (forall o :: o in done ==> Proper(o)) && Proper(op)
    requires LastSaved(c, done, true) && k <= |ChangesOf(Exec(c, done), op)|
    ensures var c' := Exec(c, done);
      var next, from := Restarted(StopAt(DiskRun(d, c, done), c', op, k)), FoundFrom(c', op, k);
      && next.list == (if Emptied(c', op, k) then [] else from.list)
      && MostRecent(next.list, from.log) && |next.list| <= 5 + from.failedEvictions
      && (PublishedListed(next) <==> StopSafe(c', op, k))
      && (StopSafe(c', op, k) ==> Inv(next))
  {
    var c', d' := Exec(c, done), DiskRun(d, c, done);
    ExecKeepsInv(c, done);
    DiskRunDirs(d, c, done);
    RunFinds(d, c, done);
    SavedRun(OnDisk(d.file, []), c, done, true);
    assert Agree(d', c');
    StopFinds(d', c', op, k);
    StopListedIff(d', c', op, k);
    FoundOrdered(c', op, k);
    hide Inv, Agree, ChangesOf, StopAt, DiskRun, Exec, Emptied, FoundList, FoundFrom, StopSafe, MostRecent, ProperName;
    var stop := StopAt(d', c', op, k);
    if StopSafe(c', op, k) { RestartKeeps(stop, Restarted(stop).list); }
  }

  lemma DiskRunOne(d: Disk, c: Cache, op: Op)
    ensures DiskRun(d, c, [op]) == ApplyAll(d, ChangesOf(c, op))
  {
    hide ChangesOf, Step, ApplyAll;
    assert [op][1..] == [];
  }

  /** Stopped between truncating and writing the file, a save that would have succeeded loses the list. */
  lemma StopWhileSaving(name: string, tree: Tree)
    requires ProperName(name)
    ensures var d := Disk(map[name := tree], Text([name]));
      var c, op := Restarted(d), DoExists(name, true, Written);
      && Inv(c) && Agree(d, c) && ChangesOf(c, op) == [Truncate, StoreList([name])]
      && !PublishedListed(Restarted(StopAt(d, c, op, 1))) && PublishedListed(Restarted(StopAt(d, c, op, 2)))
  {
    var d := Disk(map[name := tree], Text([name]));
    var c, op := Restarted(d), DoExists(name, true, Written);
    RestartKeeps(d, [name]);
    UseOfStep(c, op, name);
    assert Bumped([name], name) == [name];
    assert Before(c, op) == [] && Step(c, op).list == [name] && Step(c, op).dirs == c.dirs;
    StopListedIff(d, c, op, 1);
    StopListedIff(d, c, op, 2);
    assert name in Published(c.dirs);
  }

  /** A save that fails is made good by no restart: the directory is published and not in the list. */
  lemma FailedSaveForgets(name: string)
    requires ProperName(name)
    ensures var empty := Cache([], map[], [], 0);
      var op := DoCreate(name, Creation([], true), Faults(false, false, false, 0), NotOpened);
      var d := DiskRun(Disk(map[], Absent), empty, [op]);
      && Inv(empty) && PublishedListed(Step(empty, op))
      && name in d.dirs && d.file == Absent && !PublishedListed(Restarted(d))
  {
    var empty := Cache([], map[], [], 0);
    var op := DoCreate(name, Creation([], true), Faults(false, false, false, 0), NotOpened);
    var d := DiskRun(Disk(map[], Absent), empty, [op]);
    assert Inv(empty);
    DiskRunOne(Disk(map[], Absent), empty, op);
    ChangesApply(empty, op, Absent);
    UseOfStep(empty, op, name);
    StepKeepsInv(empty, op);
    assert Publishes(empty, op);
    PublishedTree(empty, op);
    StagingIsStaging(name);
    assert name != Staging(name);
    hide IsStaging, Create, Touch, Made, ChangesOf, MidDirs, Step, Saved;
    assert name in d.dirs;
  }

  // ---------- The object ----------

  class DownloadCache {
    const state: Container<seq<string>>
    var dirs: Dirs
    ghost var log: seq<Event>
    ghost var failedEvictions: nat
    ghost const start: Disk
    ghost var trail: seq<Change>   // every change of the disk, in order

    /** A new process, possibly on what another one left. */
    constructor (disk: Disk, ghost log: seq<Event>)
      ensures Valid() && View() == Cache(OnDisk(disk.file, []), disk.dirs, log, 0) && trail == [] && start == disk
      ensures fresh(state)
    {
      state := new Container(disk.file, []);
      dirs, this.log, failedEvictions, trail, start := disk.dirs, log, 0, [], disk;
    }

    ghost function View(): Cache
      reads this, state
    {
      Cache(state.Current(), dirs, log, failedEvictions)
    }

    /** The disk is what the recorded changes have made of it. */
    ghost predicate Valid()
      reads this, state
    {
      state.default == [] && ApplyAll(start, trail) == Disk(dirs, state.file)
    }

    method ChangeDirs(change: Change)
      requires Valid() && !change.Truncate? && !change.StoreList?
      modifies this`dirs, this`trail
      ensures Valid() && Disk(dirs, state.file) == Apply(Disk(old(dirs), state.file), change)
      ensures trail == old(trail) + [change]
    {
      match change {
        case RemoveTree(name) => dirs := dirs - {name};
        case MakeDir(name) => dirs := dirs[name := []];
        case Fill(name, tree) => dirs := dirs[name := tree];
        case Rename(from, to) => if from in dirs { dirs := dirs[to := dirs[from]] - {from}; }
      }
      trail := trail + [change];
      FoldSnoc(Apply, start, old(trail), change);
    }

    method SaveList(l: seq<string>, end: WriteEnd) returns (ok: bool)
      requires Valid()
      modifies this`trail, state
      ensures Valid() && ok == end.Written? && state.Current() == l && trail == old(trail) + WriteChanges(l, end)
    {
      ok := state.Save(l, end);
      trail := trail + WriteChanges(l, end);
      FoldAppend(Apply, start, old(trail), WriteChanges(l, end));
      WriteApplies(Disk(dirs, old(state.file)), l, end);
    }

    method TouchName(name: string, removable: bool, end: WriteEnd)
      requires Valid()
      modifies this`dirs, this`trail, this`log, this`failedEvictions, state
      ensures Valid() && View() == Touch(old(View()), name, removable)
      ensures trail == old(trail) + EvictChanges(old(View()), name, removable) + WriteChanges(View().list, end)
    {
      hide ApplyAll;
      var l := state.LoadOrGet();
      l := [name] + RemoveFirst(l, name);
      log := log + [Touched(name)];
      if |l| > KEEP_LRU {
        var last := l[|l| - 1];
        if last !in dirs {
          assert dirs - {last} == dirs;
          l := l[..|l| - 1];
        } else if removable {
          ChangeDirs(RemoveTree(last));
          l := l[..|l| - 1];
        } else {
          failedEvictions := failedEvictions + 1;
        }
      }
      assert trail == old(trail) + EvictChanges(old(View()), name, removable);
      var _ := SaveList(l, end);
    }

    method Exists(name: string, removable: bool, end: WriteEnd) returns (found: bool)
      requires Valid()
      modifies this`dirs, this`trail, this`log, this`failedEvictions, state
      ensures Valid() && found == (name in old(dirs))
      ensures View() == Step(old(View()), DoExists(name, removable, end))
      ensures trail == old(trail) + ChangesOf(old(View()), DoExists(name, removable, end))
    {
      hide EvictChanges, Touch, ApplyAll, WriteChanges;
      found := name in dirs;
      if found {
        TouchName(name, removable, end);
      }
    }

    /** Fails when the directory cannot be removed, or when the list cannot be persisted. */
    method DeleteName(name: string, removable: bool, end: WriteEnd) returns (ok: bool)
      requires Valid()
      modifies this`dirs, this`trail, this`log, state
      ensures Valid() && View() == Step(old(View()), DoDelete(name, removable, end))
      ensures ok == (Delete(old(View()), name, removable).1 && end.Written?)
      ensures trail == old(trail) + ChangesOf(old(View()), DoDelete(name, removable, end))
    {
      hide ApplyAll;
      if name in dirs {
        if !removable {
          return false;
        }
        ChangeDirs(RemoveTree(name));
      }
      log := log + [Deleted(name)];
      var l := state.LoadOrGet();
      ok := SaveList(Retain(l, name), end);
    }

    /** The changes of the disk, in this order, are all it does; `StopAnywhere` is about them. */
    method CreateName(name: string, creation: Creation, f: Faults, end: WriteEnd) returns (r: CreateEnd)
      requires Valid()
      modifies this, state
      ensures Valid() && (View(), r) == Create(old(View()), name, creation, f)
      ensures trail == old(trail) + ChangesOf(old(View()), DoCreate(name, creation, f, end))
    {
      ghost var c, op := View(), DoCreate(name, creation, f, end);
      hide ApplyAll, Touch, EvictChanges, StagingChanges, FillChanges, WriteChanges, AfterMkdir, AfterSteps;
      if name in dirs {
        return Existing;
      }
      var staged := PrepareStaging(name, f);
      if !staged {
        return Error;
      }
      RunCreation(name, creation.steps);
      assert View() == Made(c, name, creation, f);
      assert trail == old(trail) + (StagingChanges(c, name, f) + FillChanges(name, creation.steps));
      if !creation.ok {
        return Error;
      }
      TouchName(name, !f.eviction, end);
      assert trail == old(trail) + (Before(c, op) + WriteChanges(View().list, end));
      var renamed := RenameStaging(name, f.renames);
      r := if renamed then Created else Error;
    }

    /** A fresh staging directory, if the file system lets it. */
    method PrepareStaging(name: string, f: Faults) returns (ok: bool)
      requires Valid()
      modifies this`dirs, this`trail
      ensures Valid() && ok == !f.mkdir && trail == old(trail) + StagingChanges(old(View()), name, f)
      ensures ok ==> dirs == AfterMkdir(old(dirs), name, f.cleanup)
      ensures !ok ==> dirs == if f.cleanup then old(dirs) else old(dirs) - {Staging(name)}
    {
      hide ApplyAll;
      if !f.cleanup {
        ChangeDirs(RemoveTree(Staging(name)));
      }
      if f.mkdir {
        return false;
      }
      if Staging(name) !in dirs {
        ChangeDirs(MakeDir(Staging(name)));
      }
      ok := true;
    }

    /** `do_create` at work in the staging directory. */
    method RunCreation(name: string, steps: seq<Tree>)
      requires Valid()
      modifies this`dirs, this`trail
      ensures Valid() && dirs == AfterSteps(old(dirs), name, steps) && trail == old(trail) + FillChanges(name, steps)
    {
      for i := 0 to |steps|
        invariant Valid() && dirs == AfterSteps(old(dirs), name, steps[..i])
        invariant trail == old(trail) + FillChanges(name, steps[..i])
      {
        ChangeDirs(Fill(Staging(name), steps[i]));
        assert FillChanges(name, steps[..i + 1]) == FillChanges(name, steps[..i]) + [Fill(Staging(name), steps[i])];
      }
      assert steps[..|steps|] == steps;
    }

    /** The first `failures` attempts fail, later ones succeed if there is something to rename. */
    method RenameStaging(name: string, failures: nat) returns (ok: bool)
      requires Valid()
      modifies this`dirs, this`trail
      ensures Valid() && ok == (failures <= 20 && Staging(name) in old(dirs))
      ensures dirs == if ok then old(dirs)[name := old(dirs)[Staging(name)]] - {Staging(name)} else old(dirs)
      ensures trail == old(trail) + if ok then [Rename(Staging(name), name)] else []
    {
      for attempt := 0 to RENAME_ATTEMPTS + 1
        invariant Valid() && dirs == old(dirs) && trail == old(trail)
        invariant Staging(name) in dirs ==> attempt <= failures
      {
        if attempt >= failures && Staging(name) in dirs {
          ChangeDirs(Rename(Staging(name), name));
          return true;
        }
      }
      ok := false;
    }
  }
}
