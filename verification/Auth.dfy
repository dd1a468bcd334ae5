/**
  The credential cell of cli/src/auth.rs: a storage chosen at first use, a one-way fallback from
  keyring to file, and the last value kept in memory.
 */
module Auth {
  import opened Basics
  import opened Keyring
  import opened PersistedState

  datatype StoredCredential = StoredCredential(
    provider: string, accessToken: string, refreshToken: Option<string>, expiresAt: Option<int>)

  type Credential = Option<StoredCredential>

  /** `unseal` decrypts and parses; `step` is the entry limit less the marker. */
  datatype Config = Config(step: nat, preferFile: bool, unseal: string -> Credential)

  /** What survives a process: the keyring and the credentials file. */
  datatype Disk = Disk(ring: Ring, file: File<Option<string>>)

  /** One process. `cache` belongs to the file storage, `known` to the keyring storage. */
  datatype Session = Session(
    disk: Disk, known: nat, cache: Option<Option<string>>,
    started: bool, onFile: bool, fallback: bool, lastRead: Credential)

  function NewSession(disk: Disk): Session {
    Session(disk, 0, None, false, false, false, None)
  }

  function Unsealed(cfg: Config, text: Option<string>): Credential {
    if text.Some? then cfg.unseal(text.value) else None
  }

  /** What a new process finds. */
  function FreshRead(cfg: Config, disk: Disk, unreadable: set<nat>): Credential {
    if cfg.preferFile || !disk.file.Absent? then Unsealed(cfg, OnDisk(disk.file, None))
    else
      var end := ReadFrom(disk.ring, 0, unreadable);
      if end.Found? then cfg.unseal(end.text) else None
  }

  function Start(cfg: Config, s: Session, unreadable: set<nat>): Session {
    if s.started then s
    else
      var tryKeyring := !cfg.preferFile && s.disk.file.Absent?;
      var onFile := !tryKeyring || ReadFrom(s.disk.ring, 0, unreadable).Failed?;
      s.(known := if tryKeyring then Touched(s.disk.ring, 0, unreadable) else 0,
         cache := if onFile then Some(OnDisk(s.disk.file, None)) else None,
         started := true, onFile := onFile, fallback := !onFile,
         lastRead := FreshRead(cfg, s.disk, unreadable))
  }

  /** Which accesses to the disk go wrong during an operation. */
  datatype Faults = Faults(unreadable: set<nat>, broken: set<nat>, end: WriteEnd)

  datatype Op =
    | Get(faults: Faults)
    | Store(creds: StoredCredential, sealed: string, faults: Faults)
    | Clear(faults: Faults)

  function SaveFile(s: Session, value: Option<string>, end: WriteEnd): Session {
    s.(cache := Some(value), disk := s.disk.(file := AfterWrite(s.disk.file, value, end)))
  }

  /** How many parts of `sealed` the keyring takes. */
  function Taken(cfg: Config, sealed: string, broken: set<nat>): nat
    requires cfg.step > 0
  {
    FirstIn(broken, 0, |Parts(sealed, cfg.step)|)
  }

  function SaveKeyring(cfg: Config, s: Session, sealed: string, broken: set<nat>): Session
    requires cfg.step > 0
  {
    var parts, n := Parts(sealed, cfg.step), Taken(cfg, sealed, broken);
    s.(disk := s.disk.(ring := WriteParts(s.disk.ring, parts, n)),
       known := if parts == [] then s.known else Maximum(s.known, if n == |parts| then n else n + 1))
  }

  /** The storage after `store_credentials`, and whether a write succeeded. */
  function DoStore(cfg: Config, s: Session, creds: StoredCredential, sealed: string, f: Faults): (Session, bool)
    requires cfg.step > 0
  {
    var s1 := Start(cfg, s, f.unreadable);
    var (s2, ok) :=
      if s1.onFile then (SaveFile(s1, Some(sealed), f.end), f.end.Written?)
      else
        var k := SaveKeyring(cfg, s1, sealed, f.broken);
        if Taken(cfg, sealed, f.broken) == |Parts(sealed, cfg.step)| then (k, true)
        else if k.fallback then (SaveFile(k.(onFile := true, fallback := false), Some(sealed), f.end), f.end.Written?)
        else (k, false);
    (s2.(lastRead := Some(creds)), ok)
  }

  /** The storage after `clear_credentials`, and whether it succeeded. */
  function DoClear(cfg: Config, s: Session, f: Faults): (Session, bool) {
    var s1 := Start(cfg, s, f.unreadable);
    if s1.onFile then
      var s2 := SaveFile(s1, None, f.end);
      (if f.end.Written? then s2.(lastRead := None) else s2, f.end.Written?)
    else
      var known := Maximum(s1.known, Touched(s1.disk.ring, 0, f.unreadable));
      var n := FirstUndeletable(s1.disk.ring, f.broken, 0, known);
      var s2 := s1.(disk := s1.disk.(ring := Without(s1.disk.ring, n)), known := if n == known then 0 else known);
      (if n == known then s2.(lastRead := None) else s2, n == known)
  }

  function Step(cfg: Config, s: Session, op: Op): Session
    requires cfg.step > 0
  {
    match op
    case Get(f) => Start(cfg, s, f.unreadable)
    case Store(creds, sealed, f) => DoStore(cfg, s, creds, sealed, f).0
    case Clear(f) => DoClear(cfg, s, f).0
  }

  /** On the keyring the fallback is still there and no credentials file exists. */
  predicate Valid(cfg: Config, s: Session) {
    && cfg.step > 0
    && (s.started && !s.onFile ==> s.fallback && !cfg.preferFile && s.disk.file.Absent? && s.cache.None?)
    && (s.started && s.onFile ==> !s.fallback && s.cache.Some?)
    && (!s.started ==> s.cache.None? && !s.onFile && !s.fallback && s.known == 0)
  }

  lemma StepKeepsValid(cfg: Config, s: Session, op: Op)
    requires Valid(cfg, s)
    ensures Valid(cfg, Step(cfg, s, op)) && Step(cfg, s, op).started
    ensures s.started && s.onFile ==> Step(cfg, s, op).onFile
  {
    hide Parts, ReadFrom, Touched, FirstIn, FirstUndeletable, WriteParts, Without;
  }

  /** The sealed text opens to the credential it was made from. */
  predicate Honest(cfg: Config, op: Op) {
    op.Store? ==> cfg.unseal(op.sealed) == Some(op.creds)
  }

  /** After a store whose write succeeded, a new process on the same disk reads the credential. */
  lemma StoreSurvives(cfg: Config, s: Session, op: Op)
    requires Valid(cfg, s) && op.Store? && Honest(cfg, op)
    requires DoStore(cfg, s, op.creds, op.sealed, op.faults).1
    requires Step(cfg, s, op).onFile || Storable(op.sealed, cfg.step)
    ensures FreshRead(cfg, Step(cfg, s, op).disk, {}) == Some(op.creds)
  {
    hide Parts, ReadFrom, Touched, WriteParts, FirstUndeletable, Without, Storable;
    if !Step(cfg, s, op).onFile {
      StoreThenRead(s.disk.ring, op.sealed, cfg.step);
    }
  }

  /** After a clear that succeeded, a new process reads no credential, even from a failing keyring. */
  lemma ClearSurvives(cfg: Config, s: Session, op: Op, unreadable: set<nat>)
    requires Valid(cfg, s) && op.Clear? && DoClear(cfg, s, op.faults).1
    ensures FreshRead(cfg, Step(cfg, s, op).disk, unreadable) == None
  {
    hide Parts, ReadFrom, Touched, WriteParts, FirstUndeletable, Without;
    var s1 := Start(cfg, s, op.faults.unreadable);
    if !s1.onFile {
      ClearedIsEmpty(s1.disk.ring, Maximum(s1.known, Touched(s1.disk.ring, 0, op.faults.unreadable)), unreadable);
    }
  }

  // ---------- Choosing the storage, falling back, and success ----------

  /** A new process uses the file if asked to, if the file exists, or if it cannot read the keyring. */
  lemma StartsOnFileIff(cfg: Config, disk: Disk, unreadable: set<nat>)
    ensures Start(cfg, NewSession(disk), unreadable).onFile
      <==> cfg.preferFile || !disk.file.Absent? || exists n :: n in unreadable && ChainTo(disk.ring, unreadable, n)
  {
    FailsIff(disk.ring, unreadable);
    hide ReadFrom, Touched, ChainTo;
  }

  /** The keyring takes every part of the sealed text. */
  predicate KeyringTakes(cfg: Config, sealed: string, broken: set<nat>)
    requires cfg.step > 0
  {
    forall i :: 0 <= i < |Parts(sealed, cfg.step)| ==> i !in broken
  }

  lemma TakenAllIff(cfg: Config, sealed: string, broken: set<nat>)
    requires cfg.step > 0
    ensures Taken(cfg, sealed, broken) == |Parts(sealed, cfg.step)| <==> KeyringTakes(cfg, sealed, broken)
  {
    hide Parts;
    var n := Taken(cfg, sealed, broken);
  }

  /** A store succeeds exactly when the file can be written or the process is on a keyring that takes it all. */
  lemma StoreSucceedsIff(cfg: Config, s: Session, op: Op)
    requires Valid(cfg, s) && op.Store?
    ensures DoStore(cfg, s, op.creds, op.sealed, op.faults).1
      <==> op.faults.end.Written?
           || (!Start(cfg, s, op.faults.unreadable).onFile && KeyringTakes(cfg, op.sealed, op.faults.broken))
  {
    StepKeepsValid(cfg, s, Get(op.faults));
    TakenAllIff(cfg, op.sealed, op.faults.broken);
    hide Parts, Start, WriteParts, Taken, KeyringTakes;
  }

  /**
    A store the keyring refuses, and every store on the file, ends on the file with the fallback
    used up; if the file could be written a new process reads the credential from it, whatever the
    string.
   */
  lemma FallsBack(cfg: Config, s: Session, op: Op)
    requires Valid(cfg, s) && op.Store? && Honest(cfg, op)
    requires Start(cfg, s, op.faults.unreadable).onFile || !KeyringTakes(cfg, op.sealed, op.faults.broken)
    ensures Step(cfg, s, op).onFile && !Step(cfg, s, op).fallback
    ensures op.faults.end.Written? ==> FreshRead(cfg, Step(cfg, s, op).disk, {}) == Some(op.creds)
    ensures Step(cfg, s, op).disk.file ==
      match op.faults.end
      case Written => Text(Some(op.sealed))
      case NotOpened => s.disk.file
      case Cut => Torn
  {
    StepKeepsValid(cfg, s, Get(op.faults));
    TakenAllIff(cfg, op.sealed, op.faults.broken);
    assert Start(cfg, s, op.faults.unreadable).disk == s.disk;
    hide Parts, Start, WriteParts, Taken, KeyringTakes, ReadFrom;
  }

  /** A store the keyring takes stays on the keyring: its parts are written and no file appears. */
  lemma StaysOnKeyring(cfg: Config, s: Session, op: Op)
    requires Valid(cfg, s) && op.Store?
    requires !Start(cfg, s, op.faults.unreadable).onFile && KeyringTakes(cfg, op.sealed, op.faults.broken)
    ensures var s', parts := Step(cfg, s, op), Parts(op.sealed, cfg.step);
      && !s'.onFile && s'.fallback && s'.disk.file == Absent && s'.known >= |parts|
      && Holds(s'.disk.ring, 0, parts)
      && (forall i :: i >= |parts| ==> (i in s'.disk.ring <==> i in s.disk.ring))
      && (forall i :: i >= |parts| && i in s.disk.ring ==> s'.disk.ring[i] == s.disk.ring[i])
  {
    StepKeepsValid(cfg, s, Get(op.faults));
    TakenAllIff(cfg, op.sealed, op.faults.broken);
    var s1, parts := Start(cfg, s, op.faults.unreadable), Parts(op.sealed, cfg.step);
    assert s1.disk == s.disk;
    WrittenHolds(s.disk.ring, parts, |parts|);
    assert parts[..|parts|] == parts;
    hide Parts, Start, WriteParts, Taken, KeyringTakes, Holds;
  }

  const NO_FAULTS := Faults({}, {}, Written)

  /** In general: on the file when it can be written, on the keyring when every known entry can be deleted. */
  lemma ClearSucceedsWhen(cfg: Config, s: Session, f: Faults)
    requires Valid(cfg, s)
    ensures var s1 := Start(cfg, s, f.unreadable);
      DoClear(cfg, s, f).1 <==>
        if s1.onFile then f.end.Written?
        else forall i :: 0 <= i < Maximum(s1.known, Touched(s1.disk.ring, 0, f.unreadable)) ==>
               i in s1.disk.ring && i !in f.broken
  {
    var s1 := Start(cfg, s, f.unreadable);
    var known := Maximum(s1.known, Touched(s1.disk.ring, 0, f.unreadable));
    hide Start, Touched, Without, Valid;
    var n := FirstUndeletable(s1.disk.ring, f.broken, 0, known);
    if n == known {
      forall i | 0 <= i < known ensures i in s1.disk.ring && i !in f.broken
        { assert Deletable(s1.disk.ring, f.broken, i); }
    } else {
      assert !Deletable(s1.disk.ring, f.broken, n);
    }
  }

  /** On a working keyring `clear_credentials` succeeds exactly when all entries it knows of are there. */
  lemma ClearSucceedsIff(cfg: Config, s: Session)
    requires Valid(cfg, s) && !Start(cfg, s, {}).onFile
    ensures var s1 := Start(cfg, s, {});
      DoClear(cfg, s, NO_FAULTS).1
      <==> ReadFrom(s1.disk.ring, 0, {}).Found? && forall i :: 0 <= i < s1.known ==> i in s1.disk.ring
  {
    var s1 := Start(cfg, s, {});
    ClearableIff(s1.disk.ring, s1.known);
    hide ReadFrom, Touched, FirstUndeletable, Without;
  }

  lemma OnePart(ring: Ring, sealed: string, step: nat)
    requires 0 < |sealed| <= step
    ensures var part := if |sealed| == step then sealed + MARKER else sealed;
      Parts(sealed, step) == [part] && Stored(ring, sealed, step) == ring[0 := part] && FirstIn({}, 0, 1) == 1
  {
    if |sealed| == step {
      assert sealed[..step] == sealed && sealed[step..] == [];
    }
    assert WriteParts(ring, Parts(sealed, step), 0) == ring;
  }

  /**
    A keyring left by storing a full step. A process opens two entries, stores a short string that
    reads back, and then cannot clear: the credential's entry goes, the process keeps the value,
    and trying again changes nothing.
   */
  lemma ClearStuck(unseal: string -> Credential, creds: StoredCredential)
    ensures var cfg, ring := Config(2, false, unseal), Stored(map[], "ab", 2);
      var s := Start(cfg, NewSession(Disk(ring, Absent)), {});
      var (s1, stored) := DoStore(cfg, s, creds, "x", NO_FAULTS);
      var (s2, cleared) := DoClear(cfg, s1, NO_FAULTS);
      && stored && FreshRead(cfg, s1.disk, {}) == unseal("x")
      && !cleared && s2.disk.ring == map[] && s2.lastRead == Some(creds)
      && DoClear(cfg, s2, NO_FAULTS) == (s2, false)
  {
    var cfg, ring := Config(2, false, unseal), Stored(map[], "ab", 2);
    OnePart(map[], "ab", 2);
    assert ring == map[0 := "ab" + MARKER];
    var s := Start(cfg, NewSession(Disk(ring, Absent)), {});
    MarkedPart("ab");
    assert ReadFrom(ring, 1, {}) == NoEntry && Touched(ring, 1, {}) == 1;
    assert s.known == 2 && !s.onFile;
    OnePart(ring, "x", 2);
    var s1 := DoStore(cfg, s, creds, "x", NO_FAULTS).0;
    assert s1.disk.ring == map[0 := "x"] && s1.known == 2;
    var s2 := DoClear(cfg, s1, NO_FAULTS).0;
    assert Touched(s1.disk.ring, 0, {}) == 1;
    assert !Deletable(s1.disk.ring, {}, 1) && Deletable(s1.disk.ring, {}, 0);
    assert FirstUndeletable(s1.disk.ring, {}, 0, 2) == 1;
    assert s2.disk.ring == map[];
    assert !Deletable(s2.disk.ring, {}, 0);
    assert FirstUndeletable(s2.disk.ring, {}, 0, 2) == 0;
    assert Without(map[], 0) == map[];
  }

  // ---------- Whole runs of one process ----------

  function Exec(cfg: Config, s: Session, ops: seq<Op>): Session
    requires cfg.step > 0
    decreases |ops|
  {
    if ops == [] then s else Exec(cfg, Step(cfg, s, ops[0]), ops[1..])
  }

  /** The last value stored or successfully cleared, `initial` if there was none. */
  function LastValue(cfg: Config, s: Session, ops: seq<Op>, initial: Credential): Credential
    requires cfg.step > 0
    decreases |ops|
  {
    if ops == [] then initial
    else
      var now := match ops[0]
                 case Get(_) => initial
                 case Store(creds, _, _) => Some(creds)
                 case Clear(f) => if DoClear(cfg, s, f).1 then None else initial;
      LastValue(cfg, Step(cfg, s, ops[0]), ops[1..], now)
  }

  /** How often the storage changes between keyring and file. */
  function Switches(cfg: Config, s: Session, ops: seq<Op>): nat
    requires cfg.step > 0
    decreases |ops|
  {
    if ops == [] then 0
    else
      var s' := Step(cfg, s, ops[0]);
      (if s.started && s'.onFile != s.onFile then 1 else 0) + Switches(cfg, s', ops[1..])
  }

  lemma {:induction false} RunFromStarted(cfg: Config, s: Session, ops: seq<Op>)
    requires Valid(cfg, s) && s.started
    ensures Valid(cfg, Exec(cfg, s, ops)) && Exec(cfg, s, ops).started
    ensures Exec(cfg, s, ops).lastRead == LastValue(cfg, s, ops, s.lastRead)
    ensures Switches(cfg, s, ops) == if Exec(cfg, s, ops).onFile && !s.onFile then 1 else 0
    ensures s.onFile ==> Exec(cfg, s, ops).onFile
    decreases |ops|
  {
    if ops != [] {
      StepKeepsValid(cfg, s, ops[0]);
      StepLast(cfg, s, ops[0]);
      hide Step, DoClear;
      RunFromStarted(cfg, Step(cfg, s, ops[0]), ops[1..]);
    }
  }

  lemma StepLast(cfg: Config, s: Session, op: Op)
    requires Valid(cfg, s) && s.started
    ensures Step(cfg, s, op).lastRead ==
            match op
            case Get(_) => s.lastRead
            case Store(creds, _, _) => Some(creds)
            case Clear(f) => if DoClear(cfg, s, f).1 then None else s.lastRead
  {
    hide Parts, ReadFrom, Touched, WriteParts, FirstIn, FirstUndeletable, Without;
  }

  /**
    Over any run of a process: `get_current_credential` returns the last value stored or
    successfully cleared since the initial read, and the storage switches at most once,
    from keyring to file, using up the fallback.
   */
  lemma CredentialOfRun(cfg: Config, disk: Disk, first: Faults, ops: seq<Op>)
    requires cfg.step > 0
    ensures var s := Start(cfg, NewSession(disk), first.unreadable);
      var end := Exec(cfg, s, ops);
      && end.lastRead == LastValue(cfg, s, ops, FreshRead(cfg, disk, first.unreadable))
      && Switches(cfg, s, ops) <= 1
      && (Switches(cfg, s, ops) == 1 <==> s.fallback && !end.fallback)
      && (s.onFile ==> Switches(cfg, s, ops) == 0 && end.onFile)
  {
    var s := Start(cfg, NewSession(disk), first.unreadable);
    StepKeepsValid(cfg, NewSession(disk), Get(first));
    RunFromStarted(cfg, s, ops);
  }

  /** The last operation of a run is a store whose write succeeded: a restart finds the credential. */
  lemma RestartAfterStore(cfg: Config, disk: Disk, first: Faults, ops: seq<Op>, op: Op)
    requires cfg.step > 0 && op.Store? && Honest(cfg, op)
    requires var s := Exec(cfg, Start(cfg, NewSession(disk), first.unreadable), ops);
      DoStore(cfg, s, op.creds, op.sealed, op.faults).1 && (Step(cfg, s, op).onFile || Storable(op.sealed, cfg.step))
    ensures var s := Exec(cfg, Start(cfg, NewSession(disk), first.unreadable), ops);
      Start(cfg, NewSession(Step(cfg, s, op).disk), {}).lastRead == Some(op.creds)
  {
    var s := Start(cfg, NewSession(disk), first.unreadable);
    StepKeepsValid(cfg, NewSession(disk), Get(first));
    RunFromStarted(cfg, s, ops);
    StoreSurvives(cfg, Exec(cfg, s, ops), op);
  }

  lemma RestartAfterClear(cfg: Config, disk: Disk, first: Faults, ops: seq<Op>, op: Op, again: set<nat>)
    requires cfg.step > 0 && op.Clear?
    requires DoClear(cfg, Exec(cfg, Start(cfg, NewSession(disk), first.unreadable), ops), op.faults).1
    ensures var s := Exec(cfg, Start(cfg, NewSession(disk), first.unreadable), ops);
      Start(cfg, NewSession(Step(cfg, s, op).disk), again).lastRead == None
  {
    var s := Start(cfg, NewSession(disk), first.unreadable);
    StepKeepsValid(cfg, NewSession(disk), Get(first));
    RunFromStarted(cfg, s, ops);
    ClearSurvives(cfg, Exec(cfg, s, ops), op, again);
  }

  // ---------- Nothing of a credential is left behind ----------

  /** The most entries the process has known of. */
  function HighWater(cfg: Config, s: Session, ops: seq<Op>): (h: nat)
    requires cfg.step > 0
    ensures h >= s.known
    decreases |ops|
  {
    if ops == [] then s.known else Maximum(s.known, HighWater(cfg, Step(cfg, s, ops[0]), ops[1..]))
  }

  /** Below `high` only entries the process knows of are in the keyring. */
  ghost predicate Swept(s: Session, high: nat) {
    forall i :: i in s.disk.ring ==> i < s.known || i >= high
  }

  lemma StepSweeps(cfg: Config, s: Session, op: Op, high: nat)
    requires Valid(cfg, s) && s.started && Swept(s, high) && high >= s.known
    ensures Swept(Step(cfg, s, op), Maximum(high, Step(cfg, s, op).known))
  {
    match op
    case Get(_) =>
    case Store(creds, sealed, f) =>
      var n := Taken(cfg, sealed, f.broken);
      WrittenHolds(s.disk.ring, Parts(sealed, cfg.step), n);
      hide Parts, WriteParts, Holds;
    case Clear(f) =>
      WithoutClears(s.disk.ring, f.broken, Maximum(s.known, Touched(s.disk.ring, 0, f.unreadable)));
      hide Without, Touched, FirstUndeletable;
  }

  lemma {:induction false} RunSweeps(cfg: Config, s: Session, ops: seq<Op>, high: nat)
    requires Valid(cfg, s) && s.started && Swept(s, high) && high >= s.known
    ensures Swept(Exec(cfg, s, ops), Maximum(high, HighWater(cfg, s, ops)))
    ensures HighWater(cfg, s, ops) >= Exec(cfg, s, ops).known
    decreases |ops|
  {
    if ops != [] {
      var s' := Step(cfg, s, ops[0]);
      StepSweeps(cfg, s, ops[0], high);
      StepKeepsValid(cfg, s, ops[0]);
      hide Step, Swept, Valid;
      RunSweeps(cfg, s', ops[1..], Maximum(high, s'.known));
    }
  }

  /**
    After any run of a process, a clear that succeeds on the keyring leaves no entry the process
    has ever known of: none that it read, and no part of anything it stored.
   */
  lemma ClearSweeps(cfg: Config, s: Session, ops: seq<Op>, f: Faults)
    requires Valid(cfg, s) && s.started && !Exec(cfg, s, ops).onFile && DoClear(cfg, Exec(cfg, s, ops), f).1
    ensures forall i :: 0 <= i < HighWater(cfg, s, ops) ==> i !in DoClear(cfg, Exec(cfg, s, ops), f).0.disk.ring
  {
    var s1, high := Exec(cfg, s, ops), HighWater(cfg, s, ops);
    RunFromStarted(cfg, s, ops);
    RunSweeps(cfg, s, ops, s.known);
    StepSweeps(cfg, s1, Clear(f), high);
    hide Exec, HighWater, Without, Touched, FirstUndeletable, Valid;
    assert DoClear(cfg, s1, f).0.known == 0;
  }

  /** A store on the keyring makes its parts known, those before the first refused one included. */
  lemma {:induction false} PartsAreKnown(cfg: Config, s: Session, ops: seq<Op>, i: nat)
    requires Valid(cfg, s) && s.started && i < |ops| && ops[i].Store? && !Exec(cfg, s, ops[..i]).onFile
    ensures HighWater(cfg, s, ops) >= Taken(cfg, ops[i].sealed, ops[i].faults.broken)
    decreases |ops|
  {
    hide Parts, WriteParts;
    if i == 0 {
      assert ops[..0] == [];
      assert Step(cfg, s, ops[0]).known >= Taken(cfg, ops[0].sealed, ops[0].faults.broken);
    } else {
      StepKeepsValid(cfg, s, ops[0]);
      assert ops[..i][1..] == ops[1..][..i - 1];
      hide Step, Valid;
      PartsAreKnown(cfg, Step(cfg, s, ops[0]), ops[1..], i - 1);
    }
  }

  /** So a part stored anywhere in a run is gone after a later clear that succeeds. */
  lemma NoPartLeft(cfg: Config, s: Session, ops: seq<Op>, i: nat, f: Faults, part: nat)
    requires Valid(cfg, s) && s.started && !Exec(cfg, s, ops).onFile && DoClear(cfg, Exec(cfg, s, ops), f).1
    requires i < |ops| && ops[i].Store? && !Exec(cfg, s, ops[..i]).onFile
    requires part < Taken(cfg, ops[i].sealed, ops[i].faults.broken)
    ensures part !in DoClear(cfg, Exec(cfg, s, ops), f).0.disk.ring
  {
    ClearSweeps(cfg, s, ops, f);
    PartsAreKnown(cfg, s, ops, i);
  }

  // ---------- The object ----------

  /** The `Auth` object of one process over its two storages. */
  class Auth {
    const cfg: Config
    const keyring: KeyringStorage
    const files: Container<Option<string>>
    var started: bool
    var onFile: bool
    var fallback: bool
    var lastRead: Credential

    constructor (cfg: Config, disk: Disk)
      requires cfg.step > 0
      ensures View() == NewSession(disk) && this.cfg == cfg && Linked()
      ensures fresh(keyring) && fresh(files)
    {
      this.cfg := cfg;
      keyring := new KeyringStorage(disk.ring, cfg.step + |MARKER|);
      files := new Container(disk.file, None);
      started, onFile, fallback, lastRead := false, false, false, None;
    }

    ghost predicate Linked() {
      keyring.limit == cfg.step + |MARKER| && files.default == None && cfg.step > 0
    }

    ghost function View(): Session
      reads this, keyring, files
    {
      Session(Disk(keyring.ring, files.file), keyring.entries, files.state, started, onFile, fallback, lastRead)
    }

    method Begin(unreadable: set<nat>)
      requires Linked() && Valid(cfg, View())
      modifies this, keyring, files
      ensures View() == Start(cfg, old(View()), unreadable)
    {
      hide ReadFrom, Touched;
      if started {
        return;
      }
      var end := Failed;
      if !cfg.preferFile && files.file.Absent? {
        end := keyring.Read(unreadable);
      }
      if end.Failed? {
        var text := files.LoadOrGet();
        lastRead, fallback, onFile := Unsealed(cfg, text), false, true;
      } else {
        lastRead, fallback, onFile := if end.Found? then cfg.unseal(end.text) else None, true, false;
      }
      started := true;
    }

    method StoreCredentials(creds: StoredCredential, sealed: string, f: Faults) returns (ghost written: bool)
      requires Linked() && Valid(cfg, View())
      modifies this, keyring, files
      ensures (View(), written) == DoStore(cfg, old(View()), creds, sealed, f)
    {
      hide Start, Parts, WriteParts, Valid;
      Begin(f.unreadable);
      var ok;
      if onFile {
        ok := files.Save(Some(sealed), f.end);
      } else {
        ok := keyring.Store(sealed, f.broken);
        if !ok && fallback {
          onFile, fallback := true, false;
          ok := files.Save(Some(sealed), f.end);
        }
      }
      lastRead := Some(creds);
      written := ok;
    }

    method ClearCredentials(f: Faults) returns (ok: bool)
      requires Linked() && Valid(cfg, View())
      modifies this, keyring, files
      ensures (View(), ok) == DoClear(cfg, old(View()), f)
    {
      hide Start, Without, Touched, FirstUndeletable, Valid;
      Begin(f.unreadable);
      if onFile {
        ok := files.Save(None, f.end);
      } else {
        ok := keyring.Clear(f.unreadable, f.broken);
      }
      if ok {
        lastRead := None;
      }
    }

    method GetCurrentCredential(f: Faults) returns (creds: Credential)
      requires Linked() && Valid(cfg, View())
      modifies this, keyring, files
      ensures View() == Step(cfg, old(View()), Get(f)) && creds == View().lastRead
    {
      hide Start, Valid;
      Begin(f.unreadable);
      creds := lastRead;
    }
  }
}
