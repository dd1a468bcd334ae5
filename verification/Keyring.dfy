/**
  The keyring storage of cli/src/auth.rs: a string is split over numbered entries, every entry
  but the last ending in a continuation marker.
 */
module Keyring {
  import opened Basics

  type Ring = map<nat, string>

  const MARKER := "<MORE>"

  predicate Continued(entry: string) {
    |entry| >= |MARKER| && entry[|entry| - |MARKER|..] == MARKER
  }

  /** The outcome of reading: the reassembled string, no entry, or an error of the keyring. */
  datatype ReadEnd = Found(text: string) | NoEntry | Failed

  function Above(ring: Ring, i: nat): set<nat> {
    set k | k in ring && k >= i
  }

  lemma AboveShrinks(ring: Ring, i: nat)
    requires i in ring
    ensures Above(ring, i + 1) < Above(ring, i)
  {
    assert i in Above(ring, i) && i !in Above(ring, i + 1);
  }

  /** Reassembles the chain of entries from number `i` on. Reading an entry in `broken` fails. */
  function ReadFrom(ring: Ring, i: nat, broken: set<nat>): ReadEnd
    decreases Above(ring, i)
  {
    if i in broken then Failed
    else if i !in ring then NoEntry
    else if Continued(ring[i]) then
      AboveShrinks(ring, i);
      Prepended(ring[i][..|ring[i]| - |MARKER|], ReadFrom(ring, i + 1, broken))
    else Found(ring[i])
  }

  /** `end` read after `str` was already put together. */
  function Prepended(str: string, end: ReadEnd): ReadEnd {
    if end.Found? then Found(str + end.text) else end
  }

  lemma PrependTwice(a: string, b: string, end: ReadEnd)
    ensures Prepended(a, Prepended(b, end)) == Prepended(a + b, end)
  {
    if end.Found? { assert a + (b + end.text) == a + b + end.text; }
  }

  /** Entries 0 to `n` - 1 are readable and say that more follows. */
  predicate ChainTo(ring: Ring, broken: set<nat>, n: nat) {
    forall i :: 0 <= i < n ==> i !in broken && i in ring && Continued(ring[i])
  }

  /** The texts of entries `i` to `n` - 1, their markers taken off. */
  function Stripped(ring: Ring, i: nat, n: nat): string
    requires i <= n && forall k :: i <= k < n ==> k in ring && Continued(ring[k])
    decreases n - i
  {
    if i == n then []
    else
      assert Continued(ring[i]);
      ring[i][..|ring[i]| - |MARKER|] + Stripped(ring, i + 1, n)
  }

  lemma {:induction false} ReadFromChain(ring: Ring, broken: set<nat>, i: nat, n: nat)
    requires i <= n && ChainTo(ring, broken, n)
    ensures ReadFrom(ring, i, broken) == Prepended(Stripped(ring, i, n), ReadFrom(ring, n, broken))
    decreases n - i
  {
    if i < n {
      ReadFromChain(ring, broken, i + 1, n);
      PrependTwice(ring[i][..|ring[i]| - |MARKER|], Stripped(ring, i + 1, n), ReadFrom(ring, n, broken));
    } else if ReadFrom(ring, n, broken).Found? {
      assert [] + ReadFrom(ring, n, broken).text == ReadFrom(ring, n, broken).text;
    }
  }

  /** Where a chain leads: a read fails, finds nothing, or puts together all texts, by its last entry. */
  lemma ReadIs(ring: Ring, broken: set<nat>, n: nat)
    requires ChainTo(ring, broken, n)
    ensures n in broken ==> ReadFrom(ring, 0, broken) == Failed
    ensures n !in broken && n !in ring ==> ReadFrom(ring, 0, broken) == NoEntry
    ensures n !in broken && n in ring && !Continued(ring[n]) ==>
      ReadFrom(ring, 0, broken) == Found(Stripped(ring, 0, n) + ring[n])
  {
    ReadFromChain(ring, broken, 0, n);
  }

  /** Every read has such a last entry. */
  lemma {:induction false} ChainEnds(ring: Ring, broken: set<nat>, i: nat) returns (n: nat)
    requires ChainTo(ring, broken, i)
    ensures n >= i && ChainTo(ring, broken, n) && (n in broken || n !in ring || !Continued(ring[n]))
    ensures Touched(ring, i, broken) == n + 1 - i
    decreases Above(ring, i)
  {
    if i !in broken && i in ring && Continued(ring[i]) {
      AboveShrinks(ring, i);
      n := ChainEnds(ring, broken, i + 1);
    } else {
      n := i;
    }
  }

  /** A read fails exactly when the chain leads to an entry that cannot be read. */
  lemma FailsIff(ring: Ring, broken: set<nat>)
    ensures ReadFrom(ring, 0, broken).Failed? <==> exists n :: n in broken && ChainTo(ring, broken, n)
  {
    var n := ChainEnds(ring, broken, 0);
    ReadIs(ring, broken, n);
    hide ReadFrom;
    if exists m :: m in broken && ChainTo(ring, broken, m) {
      var m :| m in broken && ChainTo(ring, broken, m);
      ReadIs(ring, broken, m);
    }
  }

  /** How many entries a read touches, the missing or broken one included. */
  function Touched(ring: Ring, i: nat, broken: set<nat>): (n: nat)
    ensures n >= 1
    decreases Above(ring, i)
  {
    if i !in broken && i in ring && Continued(ring[i]) then
      AboveShrinks(ring, i);
      1 + Touched(ring, i + 1, broken)
    else 1
  }

  /** The entries a string is stored as, `step` characters each. */
  function Parts(sealed: string, step: nat): seq<string>
    requires step > 0
    decreases |sealed|
  {
    if sealed == [] then []
    else if |sealed| < step then [sealed]
    else [sealed[..step] + MARKER] + Parts(sealed[step..], step)
  }

  /** `ring` with the first `n` parts written from entry `i` on. */
  function WriteParts(ring: Ring, parts: seq<string>, n: nat): Ring
    requires n <= |parts|
  {
    if n == 0 then ring else WriteParts(ring, parts, n - 1)[n - 1 := parts[n - 1]]
  }

  /** A nonzero multiple is at least one step away from zero. */
  lemma StepAway(d: int, step: nat)
    ensures d >= 1 ==> d * step >= step
    ensures d <= -1 ==> d * step + step <= 0
  {
    assert d * step == step + (d - 1) * step && d * step == (d + 1) * step - step;
  }

  /** Position `i` of `sealed` is where part `m` starts, or past the last part. */
  predicate AtPart(sealed: string, step: nat, parts: seq<string>, i: nat, m: nat)
    requires step > 0
  {
    && i == m * step && m <= |parts|
    && parts[m..] == Parts(if i <= |sealed| then sealed[i..] else [], step)
  }

  lemma PartNumber(i: nat, m: nat, step: nat)
    requires step > 0 && i == m * step
    ensures i / step == m && (m + 1) * step == i + step
  {
    assert (m - i / step) * step == i % step;
    StepAway(m - i / step, step);
    assert (m + 1) * step == m * step + step;
  }

  /** The entry for the characters from `i` on. */
  function PartAt(sealed: string, i: nat, cutoff: nat): string
    requires i <= |sealed| && i <= cutoff
  {
    if cutoff <= |sealed| then sealed[i..cutoff] + MARKER else sealed[i..]
  }

  lemma NextPart(sealed: string, step: nat, parts: seq<string>, i: nat, m: nat)
    requires step > 0 && AtPart(sealed, step, parts, i, m) && i < |sealed|
    ensures m < |parts| && i / step == m
    ensures parts[m] == PartAt(sealed, i, i + step)
    ensures AtPart(sealed, step, parts, i + step, m + 1)
  {
    PartNumber(i, m, step);
    var now := sealed[i..];
    assert |parts[m..]| > 0 && parts[m] == parts[m..][0];
    assert parts[m + 1..] == parts[m..][1..];
    if step <= |now| {
      assert now[..step] == sealed[i..i + step] && now[step..] == sealed[i + step..];
    }
  }

  lemma LastPartWritten(sealed: string, step: nat, parts: seq<string>, i: nat, m: nat)
    requires step > 0 && AtPart(sealed, step, parts, i, m) && i >= |sealed|
    ensures m == |parts|
  {
    assert |parts[m..]| == 0;
  }

  /** The first of the numbers from `i` up to `n` that is in `broken`, or `n`. */
  function FirstIn(broken: set<nat>, i: nat, n: nat): (k: nat)
    requires i <= n
    ensures i <= k <= n && (k < n ==> k in broken) && forall j :: i <= j < k ==> j !in broken
    decreases n - i
  {
    if i == n || i in broken then i else FirstIn(broken, i + 1, n)
  }

  /** The first entry from `i` up to `n` that cannot be deleted, or `n`. */
  function FirstUndeletable(ring: Ring, broken: set<nat>, i: nat, n: nat): (k: nat)
    requires i <= n
    ensures i <= k <= n && (k < n ==> !Deletable(ring, broken, k))
    ensures forall j :: i <= j < k ==> Deletable(ring, broken, j)
    decreases n - i
  {
    if i == n || !Deletable(ring, broken, i) then i else FirstUndeletable(ring, broken, i + 1, n)
  }

  predicate Deletable(ring: Ring, broken: set<nat>, i: nat) {
    i in ring && i !in broken
  }

  lemma StoreNext(ring: Ring, parts: seq<string>, broken: set<nat>, m: nat)
    requires m < |parts|
    ensures WriteParts(ring, parts, m + 1) == WriteParts(ring, parts, m)[m := parts[m]]
    ensures FirstIn(broken, m, |parts|) == if m in broken then m else FirstIn(broken, m + 1, |parts|)
  {
  }

  function Without(ring: Ring, n: nat): Ring {
    map k | k in ring && k >= n :: ring[k]
  }

  /** Clearing up to entry `n` removes the entries before it, all of them present, and touches no other. */
  ghost predicate ClearedTo(ring: Ring, ring': Ring, n: nat) {
    && (forall i :: 0 <= i < n ==> i in ring && i !in ring')
    && (forall i :: i >= n ==> (i in ring' <==> i in ring))
    && (forall i :: i >= n && i in ring ==> ring'[i] == ring[i])
  }

  lemma WithoutClears(ring: Ring, broken: set<nat>, known: nat)
    ensures ClearedTo(ring, Without(ring, FirstUndeletable(ring, broken, 0, known)),
      FirstUndeletable(ring, broken, 0, known))
  {
    forall i | 0 <= i < FirstUndeletable(ring, broken, 0, known) ensures i in ring {
      assert Deletable(ring, broken, i);
    }
  }

  function Maximum(a: nat, b: nat): nat {
    if a < b then b else a
  }

  class KeyringStorage {
    var entries: nat            // handles opened so far; handle i is entry number i
    var ring: Ring
    const limit: nat

    constructor (ring: Ring, limit: nat)
      requires limit > |MARKER|
      ensures this.entries == 0 && this.ring == ring && this.limit == limit
    {
      this.entries, this.ring, this.limit := 0, ring, limit;
    }

    method NextEntry(i: nat)
      requires i <= entries
      modifies this`entries
      ensures entries == Maximum(old(entries), i + 1)
    {
      if i >= entries {
        entries := entries + 1;
      }
    }

    method Read(broken: set<nat>) returns (end: ReadEnd)
      modifies this`entries
      ensures end == ReadFrom(ring, 0, broken)
      ensures entries == Maximum(old(entries), Touched(ring, 0, broken))
    {
      var str: string := "";
      var i := 0;
      while true
        invariant i <= entries
        invariant ReadFrom(ring, 0, broken) == Prepended(str, ReadFrom(ring, i, broken))
        invariant Touched(ring, 0, broken) == i + Touched(ring, i, broken)
        invariant entries == Maximum(old(entries), i)
        decreases Above(ring, i)
      {
        NextEntry(i);
        if i in broken {
          return Failed;
        }
        if i !in ring {
          return NoEntry;
        }
        var chunk := ring[i];
        if !Continued(chunk) {
          return Found(str + chunk);
        }
        AboveShrinks(ring, i);
        PrependTwice(str, chunk[..|chunk| - |MARKER|], ReadFrom(ring, i + 1, broken));
        str := str + chunk[..|chunk| - |MARKER|];
        i := i + 1;
      }
    }

    /** Stops at the first entry the keyring refuses; the entries before it stay written. */
    method Store(sealed: string, broken: set<nat>) returns (ok: bool)
      requires limit > |MARKER|
      modifies this
      ensures var parts := Parts(sealed, limit - |MARKER|);
        var n := FirstIn(broken, 0, |parts|);
        && ok == (n == |parts|) && ring == WriteParts(old(ring), parts, n)
        && entries == if parts == [] then old(entries) else Maximum(old(entries), if ok then n else n + 1)
    {
      var step := limit - |MARKER|;
      ghost var parts := Parts(sealed, step);
      ghost var m := 0;
      var i := 0;
      assert AtPart(sealed, step, parts, i, m);
      assert WriteParts(ring, parts, 0) == ring;
      hide AtPart, Parts, WriteParts, FirstIn, PartAt;
      while i < |sealed|
        invariant AtPart(sealed, step, parts, i, m)
        invariant m <= |parts| && (m > 0 ==> parts != []) && entries == Maximum(old(entries), m)
        invariant ring == WriteParts(old(ring), parts, m)
        invariant FirstIn(broken, 0, |parts|) == FirstIn(broken, m, |parts|)
      {
        NextPart(sealed, step, parts, i, m);
        StoreNext(old(ring), parts, broken, m);
        var n := i / step;
        NextEntry(n);
        var cutoff := i + step;
        var part := PartAt(sealed, i, cutoff);
        if n in broken {
          return false;
        }
        ring := ring[n := part];
        i, m := cutoff, m + 1;
      }
      LastPartWritten(sealed, step, parts, i, m);
      ok := true;
    }

    /** Deletes every entry that was opened or that a read touches; stops at the first that is missing or refused. */
    method Clear(unreadable: set<nat>, broken: set<nat>) returns (ok: bool)
      modifies this
      ensures var known := Maximum(old(entries), Touched(old(ring), 0, unreadable));
        var n := FirstUndeletable(old(ring), broken, 0, known);
        && ok == (n == known) && ring == Without(old(ring), n) && entries == (if ok then 0 else known)
        && ClearedTo(old(ring), ring, n)
    {
      var _ := Read(unreadable);
      WithoutClears(ring, broken, entries);
      var i := 0;
      while i < entries
        invariant i <= entries == Maximum(old(entries), Touched(old(ring), 0, unreadable))
        invariant ring == Without(old(ring), i)
        invariant FirstUndeletable(old(ring), broken, 0, entries) == FirstUndeletable(old(ring), broken, i, entries)
      {
        if i in broken || i !in ring {
          assert !Deletable(old(ring), broken, i);
          return false;
        }
        assert Deletable(old(ring), broken, i);
        ring := ring - {i};
        i := i + 1;
      }
      entries := 0;
      ok := true;
    }
  }

  // ---------- What storing, reading and clearing promise ----------

  /** The part of a string after its last full step. */
  function LastPart(sealed: string, step: nat): string
    requires step > 0
    decreases |sealed|
  {
    if |sealed| < step then sealed else LastPart(sealed[step..], step)
  }

  /** Known before storing: the string does not end on a full step, nor its last part in the marker. */
  predicate Storable(sealed: string, step: nat)
    requires step > 0
  {
    LastPart(sealed, step) != [] && !Continued(LastPart(sealed, step))
  }

  /** `LastPart` is what the length modulo the step says. */
  lemma {:induction false} LastPartIsRemainder(sealed: string, step: nat)
    requires step > 0
    ensures |LastPart(sealed, step)| == |sealed| % step
    ensures LastPart(sealed, step) == sealed[|sealed| - |sealed| % step..]
    decreases |sealed|
  {
    if |sealed| >= step {
      LastPartIsRemainder(sealed[step..], step);
      StepModulo(|sealed| - step, step);
    }
  }

  lemma StepModulo(n: nat, step: nat)
    requires step > 0
    ensures (n + step) % step == n % step
  {
    var q, q' := n / step, (n + step) / step;
    assert (q' - (q + 1)) * step == n % step - (n + step) % step;
    StepAway(q' - (q + 1), step);
  }

  /** Every entry written fits the limit. */
  lemma {:induction false} PartsFit(sealed: string, limit: nat)
    requires limit > |MARKER|
    ensures forall p :: p in Parts(sealed, limit - |MARKER|) ==> |p| <= limit
    decreases |sealed|
  {
    var step := limit - |MARKER|;
    if |sealed| >= step { PartsFit(sealed[step..], limit); }
  }

  /** Part `k` is step `k` of the string, from `i` on, and the marker unless it is an unfinished last one. */
  lemma {:induction false} PartsAre(sealed: string, step: nat, k: nat, i: nat)
    requires step > 0 && k < |Parts(sealed, step)| && i == k * step
    ensures i < |sealed|
    ensures Parts(sealed, step)[k] ==
      if i + step <= |sealed| then sealed[i..i + step] + "<MORE>" else sealed[i..]
    decreases |sealed|
  {
    if k > 0 {
      var rest := sealed[step..];
      assert Parts(sealed, step)[k] == Parts(rest, step)[k - 1];
      StepBefore(k, step);
      PartsAre(rest, step, k - 1, i - step);
      hide Parts;
      if i + step <= |sealed| {
        assert rest[i - step..i] == sealed[i..i + step];
      } else {
        assert rest[i - step..] == sealed[i..];
      }
    }
  }

  lemma StepBefore(k: nat, step: nat)
    requires k > 0
    ensures k * step == (k - 1) * step + step
  {
  }

  /** And there are as many of them as there are started steps. */
  lemma {:induction false} PartsCount(sealed: string, step: nat)
    requires step > 0
    ensures |sealed| <= |Parts(sealed, step)| * step < |sealed| + step
    decreases |sealed|
  {
    if |sealed| >= step {
      PartsCount(sealed[step..], step);
      var n := |Parts(sealed[step..], step)|;
      assert (n + 1) * step == n * step + step;
    } else if sealed != [] {
      assert 1 * step == step;
    }
  }

  /** The entries from `i` on are the parts of `sealed`. */
  predicate Holds(ring: Ring, i: nat, parts: seq<string>) {
    forall k :: i <= k < i + |parts| ==> k in ring && ring[k] == parts[k - i]
  }

  lemma {:induction false} WrittenHolds(ring: Ring, parts: seq<string>, n: nat)
    requires n <= |parts|
    ensures Holds(WriteParts(ring, parts, n), 0, parts[..n])
    ensures forall k :: k >= n ==> (k in WriteParts(ring, parts, n) <==> k in ring)
    ensures forall k :: k >= n && k in ring ==> WriteParts(ring, parts, n)[k] == ring[k]
  {
    if n > 0 {
      WrittenHolds(ring, parts, n - 1);
      assert parts[..n][..n - 1] == parts[..n - 1];
    }
  }

  lemma MarkedPart(text: string)
    ensures Continued(text + MARKER) && (text + MARKER)[..|text + MARKER| - |MARKER|] == text
  {
  }

  lemma {:induction false} ReadsBack(ring: Ring, i: nat, sealed: string, step: nat)
    requires step > 0 && Holds(ring, i, Parts(sealed, step)) && Storable(sealed, step)
    ensures ReadFrom(ring, i, {}) == Found(sealed)
    decreases |sealed|
  {
    var parts := Parts(sealed, step);
    assert i in ring && ring[i] == parts[0];
    if |sealed| >= step {
      var rest := Parts(sealed[step..], step);
      assert parts[1..] == rest;
      assert Holds(ring, i + 1, rest);
      ReadsBack(ring, i + 1, sealed[step..], step);
      MarkedPart(sealed[..step]);
      assert sealed[..step] + sealed[step..] == sealed;
    }
  }

  lemma {:induction false} RunsOff(ring: Ring, i: nat, sealed: string, step: nat)
    requires step > 0 && Holds(ring, i, Parts(sealed, step)) && !Storable(sealed, step)
    requires i + |Parts(sealed, step)| !in ring
    ensures ReadFrom(ring, i, {}) == NoEntry
    decreases |sealed|
  {
    var parts := Parts(sealed, step);
    if sealed != [] {
      assert i in ring && ring[i] == parts[0];
      if |sealed| >= step {
        var rest := Parts(sealed[step..], step);
        assert parts[1..] == rest;
        assert Holds(ring, i + 1, rest);
        RunsOff(ring, i + 1, sealed[step..], step);
        MarkedPart(sealed[..step]);
      }
    }
  }

  function Stored(ring: Ring, sealed: string, step: nat): Ring
    requires step > 0
  {
    WriteParts(ring, Parts(sealed, step), |Parts(sealed, step)|)
  }

  predicate Kept(ring: Ring, sealed: string, step: nat)
    requires step > 0
  {
    ReadFrom(Stored(ring, sealed, step), 0, {}) == Found(sealed)
  }

  /** A storable string is read back whatever the entries held before. */
  lemma StoreThenRead(before: Ring, sealed: string, step: nat)
    requires step > 0 && Storable(sealed, step)
    ensures Kept(before, sealed, step)
  {
    var parts := Parts(sealed, step);
    WrittenHolds(before, parts, |parts|);
    assert parts[..|parts|] == parts;
    ReadsBack(Stored(before, sealed, step), 0, sealed, step);
  }

  /** Any other string is lost on a keyring with no older entry behind it. */
  lemma StoreThenLose(before: Ring, sealed: string, step: nat)
    requires step > 0 && !Storable(sealed, step) && |Parts(sealed, step)| !in before
    ensures ReadFrom(Stored(before, sealed, step), 0, {}) == NoEntry
  {
    var parts := Parts(sealed, step);
    WrittenHolds(before, parts, |parts|);
    assert parts[..|parts|] == parts;
    RunsOff(Stored(before, sealed, step), 0, sealed, step);
  }

  /** The exact condition of the round trip. */
  lemma RoundTripIff(sealed: string, step: nat)
    requires step > 0
    ensures (forall ring :: Kept(ring, sealed, step))
       <==> var tail := sealed[|sealed| - |sealed| % step..]; tail != [] && !Continued(tail)
  {
    LastPartIsRemainder(sealed, step);
    if Storable(sealed, step) {
      forall ring ensures Kept(ring, sealed, step) {
        StoreThenRead(ring, sealed, step);
      }
    } else {
      StoreThenLose(map[], sealed, step);
      assert !Kept(map[], sealed, step);
    }
  }

  /** A read touches only present entries exactly when it finds a string. */
  lemma {:induction false} TouchedPresent(ring: Ring, i: nat)
    ensures ReadFrom(ring, i, {}).Found? <==> forall j :: i <= j < i + Touched(ring, i, {}) ==> j in ring
    decreases Above(ring, i)
  {
    if i in ring && Continued(ring[i]) {
      AboveShrinks(ring, i);
      TouchedPresent(ring, i + 1);
    } else {
      assert Touched(ring, i, {}) == 1;
      assert i <= i < i + Touched(ring, i, {});
    }
  }

  /**
    A working keyring is cleared exactly when a string can be read from it and every entry opened
    before, by whatever reads and stores, is still there.
   */
  lemma ClearableIff(ring: Ring, entries: nat)
    ensures var known := Maximum(entries, Touched(ring, 0, {}));
      FirstUndeletable(ring, {}, 0, known) == known
      <==> ReadFrom(ring, 0, {}).Found? && forall i :: 0 <= i < entries ==> i in ring
  {
    var known := Maximum(entries, Touched(ring, 0, {}));
    TouchedPresent(ring, 0);
    hide ReadFrom, Touched;
    var n := FirstUndeletable(ring, {}, 0, known);
    if n == known {
      forall i | 0 <= i < known ensures i in ring { assert Deletable(ring, {}, i); }
    } else {
      assert n !in ring;
      assert n < entries || n < 0 + Touched(ring, 0, {});
    }
  }

  /** After clearing, nothing is read. */
  lemma ClearedIsEmpty(ring: Ring, n: nat, broken: set<nat>)
    requires n >= 1
    ensures !ReadFrom(Without(ring, n), 0, broken).Found?
  {
    assert 0 !in Without(ring, n);
  }
}
