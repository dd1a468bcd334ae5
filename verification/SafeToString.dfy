/**
  Serialising console arguments in src/bootstrap-fork.ts: `JSON.stringify` over an arbitrary,
  possibly cyclic object graph with a replacer that keeps a list of the objects it has seen.
 */
module SafeToString {
  import opened Basics

  type Ref = nat

  /** A leaf carries its JSON text; None is a value JSON leaves out, such as `undefined`. */
  datatype Value = Leaf(text: Option<string>) | Link(r: Ref)

  /** Field names are JSON texts. */
  datatype Node = Obj(keys: seq<string>, values: seq<Value>) | Arr(values: seq<Value>)

  type Heap = map<Ref, Node>

  predicate InHeap(heap: Heap, v: Value) {
    v.Link? ==> v.r in heap
  }

  predicate AllInHeap(heap: Heap, vs: seq<Value>) {
    forall i :: 0 <= i < |vs| ==> InHeap(heap, vs[i])
  }

  predicate Closed(heap: Heap) {
    forall r :: r in heap ==> AllInHeap(heap, heap[r].values) && (heap[r].Obj? ==> |heap[r].keys| == |heap[r].values|)
  }

  /** What is printed for a value. */
  datatype Out = Atom(text: Option<string>) | Circular | Expanded(r: Ref, kids: seq<Out>)

  /** The objects that have not been seen. */
  ghost function Unseen(heap: Heap, seen: seq<Ref>): set<Ref> {
    set r | r in heap && r !in seen
  }

  lemma UnseenShrinks(heap: Heap, seen: seq<Ref>, more: seq<Ref>)
    ensures Unseen(heap, seen + more) <= Unseen(heap, seen)
  {
  }

  lemma SeeOne(heap: Heap, seen: seq<Ref>, r: Ref)
    requires r in heap && r !in seen
    ensures Unseen(heap, seen + [r]) < Unseen(heap, seen)
  {
    assert r in Unseen(heap, seen) && r in seen + [r];
  }

  /** The walk with its threaded list of seen objects. It ends on every finite graph. */
  function Walk(heap: Heap, v: Value, seen: seq<Ref>): (res: (Out, seq<Ref>))
    requires Closed(heap) && InHeap(heap, v)
    ensures seen <= res.1
    decreases Unseen(heap, seen), 0
  {
    match v
    case Leaf(text) => (Atom(text), seen)
    case Link(r) =>
      if r in seen then (Circular, seen)
      else
        SeeOne(heap, seen, r);
        var (kids, seen') := WalkAll(heap, heap[r].values, seen + [r]);
        (Expanded(r, kids), seen')
  }

  function WalkAll(heap: Heap, vs: seq<Value>, seen: seq<Ref>): (res: (seq<Out>, seq<Ref>))
    requires Closed(heap) && AllInHeap(heap, vs)
    ensures seen <= res.1 && |res.0| == |vs|
    decreases Unseen(heap, seen), |vs| + 1
  {
    if vs == [] then ([], seen)
    else
      assert InHeap(heap, vs[0]) && AllInHeap(heap, vs[1..]);
      var (first, seen1) := Walk(heap, vs[0], seen);
      UnseenShrinks(heap, seen, seen1[|seen|..]);
      assert seen + seen1[|seen|..] == seen1;
      var (rest, seen2) := WalkAll(heap, vs[1..], seen1);
      ([first] + rest, seen2)
  }

  /** The objects expanded in an output, in order. */
  function Refs(out: Out): seq<Ref> {
    if out.Expanded? then [out.r] + RefsAll(out.kids) else []
  }

  function RefsAll(outs: seq<Out>): seq<Ref> {
    if outs == [] then [] else Refs(outs[0]) + RefsAll(outs[1..])
  }

  /** The list of seen objects is the list of expanded objects, without duplicates. */
  lemma {:induction false} SeenIsExpanded(heap: Heap, v: Value, seen: seq<Ref>)
    requires Closed(heap) && InHeap(heap, v) && NoDuplicates(seen)
    ensures Walk(heap, v, seen).1 == seen + Refs(Walk(heap, v, seen).0)
    ensures NoDuplicates(Walk(heap, v, seen).1)
    decreases Unseen(heap, seen), 0
  {
    if v.Link? && v.r !in seen {
      SeeOne(heap, seen, v.r);
      SeenIsExpandedAll(heap, heap[v.r].values, seen + [v.r]);
      var kids := WalkAll(heap, heap[v.r].values, seen + [v.r]).0;
      assert seen + [v.r] + RefsAll(kids) == seen + ([v.r] + RefsAll(kids));
    } else {
      assert seen + [] == seen;
    }
  }

  lemma {:induction false} SeenIsExpandedAll(heap: Heap, vs: seq<Value>, seen: seq<Ref>)
    requires Closed(heap) && AllInHeap(heap, vs) && NoDuplicates(seen)
    ensures WalkAll(heap, vs, seen).1 == seen + RefsAll(WalkAll(heap, vs, seen).0)
    ensures NoDuplicates(WalkAll(heap, vs, seen).1)
    decreases Unseen(heap, seen), |vs| + 1
  {
    if vs == [] {
      assert seen + [] == seen;
    } else {
      assert InHeap(heap, vs[0]) && AllInHeap(heap, vs[1..]);
      hide Walk, NoDuplicates;
      var (first, seen1) := Walk(heap, vs[0], seen);
      SeenIsExpanded(heap, vs[0], seen);
      UnseenShrinks(heap, seen, Refs(first));
      SeenIsExpandedAll(heap, vs[1..], seen1);
      var rest := WalkAll(heap, vs[1..], seen1).0;
      assert ([first] + rest)[1..] == rest;
      assert seen + Refs(first) + RefsAll(rest) == seen + (Refs(first) + RefsAll(rest));
    }
  }

  // ---------- Every reachable object is expanded exactly once ----------

  /** A chain of links from `v`. */
  predicate Path(heap: Heap, v: Value, path: seq<Ref>)
    decreases |path|
  {
    path != [] && v == Link(path[0]) &&
    (|path| > 1 ==> path[0] in heap && Link(path[1]) in heap[path[0]].values && Path(heap, Link(path[1]), path[1..]))
  }

  ghost predicate Reachable(heap: Heap, v: Value, r: Ref) {
    exists path :: Path(heap, v, path) && path[|path| - 1] == r
  }

  lemma Further(heap: Heap, v: Value, child: Value, r: Ref)
    requires v.Link? && v.r in heap && child in heap[v.r].values && Reachable(heap, child, r)
    ensures Reachable(heap, v, r)
  {
    var path :| Path(heap, child, path) && path[|path| - 1] == r;
    var longer := [v.r] + path;
    assert longer[1..] == path;
    assert Path(heap, v, longer) && longer[|longer| - 1] == r;
  }

  lemma {:induction false} ExpandedReachable(heap: Heap, v: Value, seen: seq<Ref>, r: Ref)
    requires Closed(heap) && InHeap(heap, v) && r in Refs(Walk(heap, v, seen).0)
    ensures Reachable(heap, v, r)
    decreases Unseen(heap, seen), 0
  {
    if v.Link? && v.r !in seen {
      if r == v.r {
        assert Path(heap, v, [r]);
      } else {
        SeeOne(heap, seen, v.r);
        var child := ExpandedReachableAll(heap, heap[v.r].values, seen + [v.r], r);
        Further(heap, v, child, r);
      }
    }
  }

  lemma {:induction false} ExpandedReachableAll(heap: Heap, vs: seq<Value>, seen: seq<Ref>, r: Ref)
    returns (child: Value)
    requires Closed(heap) && AllInHeap(heap, vs) && r in RefsAll(WalkAll(heap, vs, seen).0)
    ensures child in vs && Reachable(heap, child, r)
    decreases Unseen(heap, seen), |vs| + 1
  {
    assert InHeap(heap, vs[0]) && AllInHeap(heap, vs[1..]);
    var (first, seen1) := Walk(heap, vs[0], seen);
    if r in Refs(first) {
      ExpandedReachable(heap, vs[0], seen, r);
      child := vs[0];
    } else {
      UnseenShrinks(heap, seen, seen1[|seen|..]);
      assert seen + seen1[|seen|..] == seen1;
      var rest := WalkAll(heap, vs[1..], seen1).0;
      assert ([first] + rest)[1..] == rest;
      child := ExpandedReachableAll(heap, vs[1..], seen1, r);
    }
  }

  predicate SeenValue(v: Value, seen: seq<Ref>) {
    v.Link? ==> v.r in seen
  }

  /** All that an object links to has been seen. */
  predicate Explored(heap: Heap, r: Ref, seen: seq<Ref>) {
    r in heap && forall v :: v in heap[r].values ==> SeenValue(v, seen)
  }

  lemma ExploredMore(heap: Heap, r: Ref, seen: seq<Ref>, more: seq<Ref>)
    requires Explored(heap, r, seen) && seen <= more
    ensures Explored(heap, r, more)
  {
    forall v | v in heap[r].values ensures SeenValue(v, more) {
      assert SeenValue(v, seen);
    }
  }

  lemma {:induction false} ExpandedExplored(heap: Heap, v: Value, seen: seq<Ref>)
    requires Closed(heap) && InHeap(heap, v)
    ensures SeenValue(v, Walk(heap, v, seen).1)
    ensures forall r :: r in Refs(Walk(heap, v, seen).0) ==> Explored(heap, r, Walk(heap, v, seen).1)
    decreases Unseen(heap, seen), 0
  {
    if v.Link? && v.r !in seen {
      SeeOne(heap, seen, v.r);
      ExpandedExploredAll(heap, heap[v.r].values, seen + [v.r]);
      assert v.r in seen + [v.r];
    }
  }

  lemma {:induction false} ExpandedExploredAll(heap: Heap, vs: seq<Value>, seen: seq<Ref>)
    requires Closed(heap) && AllInHeap(heap, vs)
    ensures forall v :: v in vs ==> SeenValue(v, WalkAll(heap, vs, seen).1)
    ensures forall r :: r in RefsAll(WalkAll(heap, vs, seen).0) ==> Explored(heap, r, WalkAll(heap, vs, seen).1)
    decreases Unseen(heap, seen), |vs| + 1
  {
    if vs != [] {
      assert InHeap(heap, vs[0]) && AllInHeap(heap, vs[1..]);
      var (first, seen1) := Walk(heap, vs[0], seen);
      ExpandedExplored(heap, vs[0], seen);
      UnseenShrinks(heap, seen, seen1[|seen|..]);
      assert seen + seen1[|seen|..] == seen1;
      ExpandedExploredAll(heap, vs[1..], seen1);
      var (rest, seen2) := WalkAll(heap, vs[1..], seen1);
      assert ([first] + rest)[1..] == rest;
      hide Walk;
      hide Explored;
      forall r | r in Refs(first) ensures Explored(heap, r, seen2) { ExploredMore(heap, r, seen1, seen2); }
      forall v | v in vs ensures SeenValue(v, seen2) { assert v == vs[0] || v in vs[1..]; }
    }
  }

  /** A set of objects that holds the start and all links out of it holds every path. */
  lemma {:induction false} PathSeen(heap: Heap, v: Value, path: seq<Ref>, seen: seq<Ref>)
    requires Path(heap, v, path) && SeenValue(v, seen)
    requires forall r :: r in seen ==> Explored(heap, r, seen)
    ensures path[|path| - 1] in seen
    decreases |path|
  {
    if |path| > 1 {
      assert Explored(heap, path[0], seen);
      assert SeenValue(Link(path[1]), seen);
      PathSeen(heap, Link(path[1]), path[1..], seen);
    }
  }

  /** Each object reachable from the value is expanded exactly once, and no other is. */
  lemma ExpandsReachableOnce(heap: Heap, v: Value)
    requires Closed(heap) && InHeap(heap, v)
    ensures NoDuplicates(Refs(Walk(heap, v, []).0))
    ensures forall r :: r in Refs(Walk(heap, v, []).0) <==> Reachable(heap, v, r)
  {
    var (out, seen) := Walk(heap, v, []);
    SeenIsExpanded(heap, v, []);
    assert seen == Refs(out);
    ExpandedExplored(heap, v, []);
    forall r | r in Refs(out) ensures Reachable(heap, v, r) { ExpandedReachable(heap, v, [], r); }
    hide Walk;
    forall r | Reachable(heap, v, r) ensures r in Refs(out) {
      var path :| Path(heap, v, path) && path[|path| - 1] == r;
      PathSeen(heap, v, path, seen);
    }
  }

  /** `out` prints `v`: every link is either expanded with all its children, or "[Circular]". */
  predicate Prints(heap: Heap, v: Value, out: Out)
    decreases out
  {
    match out
    case Atom(text) => v == Leaf(text)
    case Circular => v.Link?
    case Expanded(r, kids) =>
      && v == Link(r) && r in heap && |kids| == |heap[r].values|
      && forall i :: 0 <= i < |kids| ==> Prints(heap, heap[r].values[i], kids[i])
  }

  lemma {:induction false} WalkPrints(heap: Heap, v: Value, seen: seq<Ref>)
    requires Closed(heap) && InHeap(heap, v)
    ensures Prints(heap, v, Walk(heap, v, seen).0)
    decreases Unseen(heap, seen), 0
  {
    if v.Link? && v.r !in seen {
      SeeOne(heap, seen, v.r);
      WalkAllPrints(heap, heap[v.r].values, seen + [v.r]);
    }
  }

  lemma {:induction false} WalkAllPrints(heap: Heap, vs: seq<Value>, seen: seq<Ref>)
    requires Closed(heap) && AllInHeap(heap, vs)
    ensures forall i :: 0 <= i < |vs| ==> Prints(heap, vs[i], WalkAll(heap, vs, seen).0[i])
    decreases Unseen(heap, seen), |vs| + 1
  {
    if vs != [] {
      assert InHeap(heap, vs[0]) && AllInHeap(heap, vs[1..]);
      hide Walk, Prints;
      var (first, seen1) := Walk(heap, vs[0], seen);
      WalkPrints(heap, vs[0], seen);
      UnseenShrinks(heap, seen, seen1[|seen|..]);
      assert seen + seen1[|seen|..] == seen1;
      WalkAllPrints(heap, vs[1..], seen1);
      var rest := WalkAll(heap, vs[1..], seen1).0;
      forall i | 0 <= i < |vs| ensures Prints(heap, vs[i], ([first] + rest)[i]) {
        if i > 0 { assert vs[i] == vs[1..][i - 1]; }
      }
    }
  }

  // ---------- JSON.stringify itself ----------

  /** `JSON.stringify` without a replacer; None is the error it throws on a cycle. */
  function Plain(heap: Heap, v: Value, stack: seq<Ref>): Option<Out>
    requires Closed(heap) && InHeap(heap, v)
    decreases Unseen(heap, stack), 0
  {
    match v
    case Leaf(text) => Some(Atom(text))
    case Link(r) =>
      if r in stack then None
      else
        SeeOne(heap, stack, r);
        var kids := PlainAll(heap, heap[r].values, stack + [r]);
        if kids.None? then None else Some(Expanded(r, kids.value))
  }

  function PlainAll(heap: Heap, vs: seq<Value>, stack: seq<Ref>): (res: Option<seq<Out>>)
    requires Closed(heap) && AllInHeap(heap, vs)
    ensures res.Some? ==> |res.value| == |vs|
    decreases Unseen(heap, stack), |vs| + 1
  {
    if vs == [] then Some([])
    else
      assert InHeap(heap, vs[0]) && AllInHeap(heap, vs[1..]);
      var first := Plain(heap, vs[0], stack);
      var rest := PlainAll(heap, vs[1..], stack);
      if first.None? || rest.None? then None else Some([first.value] + rest.value)
  }

  predicate Within(stack: seq<Ref>, seen: seq<Ref>) {
    forall r :: r in stack ==> r in seen
  }

  lemma NoDuplicatesParts(a: seq<Ref>, b: seq<Ref>)
    requires NoDuplicates(a + b)
    ensures NoDuplicates(a)
    ensures forall r :: r in b ==> r !in a
  {
    assert forall i :: 0 <= i < |a| ==> (a + b)[i] == a[i];
    forall r | r in b ensures r !in a {
      var j :| 0 <= j < |b| && b[j] == r;
      assert (a + b)[|a| + j] == r;
    }
  }

  /** If plain serialisation expands no object twice, the walk gives the same. */
  lemma {:induction false} UnsharedIsPlain(heap: Heap, v: Value, stack: seq<Ref>, seen: seq<Ref>)
    requires Closed(heap) && InHeap(heap, v) && Within(stack, seen) && Plain(heap, v, stack).Some?
    requires NoDuplicates(seen + Refs(Plain(heap, v, stack).value))
    ensures Walk(heap, v, seen) == (Plain(heap, v, stack).value, seen + Refs(Plain(heap, v, stack).value))
    decreases Unseen(heap, stack), 0
  {
    if v.Link? {
      var kids := PlainAll(heap, heap[v.r].values, stack + [v.r]).value;
      NoDuplicatesParts(seen, [v.r] + RefsAll(kids));
      assert v.r in [v.r] + RefsAll(kids);
      SeeOne(heap, stack, v.r);
      assert seen + ([v.r] + RefsAll(kids)) == seen + [v.r] + RefsAll(kids);
      UnsharedIsPlainAll(heap, heap[v.r].values, stack + [v.r], seen + [v.r]);
    } else {
      assert seen + [] == seen;
    }
  }

  lemma {:induction false} UnsharedIsPlainAll(heap: Heap, vs: seq<Value>, stack: seq<Ref>, seen: seq<Ref>)
    requires Closed(heap) && AllInHeap(heap, vs) && Within(stack, seen) && PlainAll(heap, vs, stack).Some?
    requires NoDuplicates(seen + RefsAll(PlainAll(heap, vs, stack).value))
    ensures WalkAll(heap, vs, seen)
      == (PlainAll(heap, vs, stack).value, seen + RefsAll(PlainAll(heap, vs, stack).value))
    decreases Unseen(heap, stack), |vs| + 1
  {
    if vs == [] {
      assert seen + [] == seen;
    } else {
      assert InHeap(heap, vs[0]) && AllInHeap(heap, vs[1..]);
      var first, rest := Plain(heap, vs[0], stack).value, PlainAll(heap, vs[1..], stack).value;
      hide Plain, Walk, NoDuplicates;
      assert ([first] + rest)[1..] == rest;
      assert seen + (Refs(first) + RefsAll(rest)) == seen + Refs(first) + RefsAll(rest);
      NoDuplicatesParts(seen + Refs(first), RefsAll(rest));
      UnsharedIsPlain(heap, vs[0], stack, seen);
      UnsharedIsPlainAll(heap, vs[1..], stack, seen + Refs(first));
    }
  }

  predicate NoCircular(out: Out)
    decreases out
  {
    match out
    case Atom(_) => true
    case Circular => false
    case Expanded(_, kids) => NoCircularAll(kids)
  }

  predicate NoCircularAll(outs: seq<Out>)
    decreases outs
  {
    outs == [] || (NoCircular(outs[0]) && NoCircularAll(outs[1..]))
  }

  lemma {:induction false} UncutIsPlain(heap: Heap, v: Value, stack: seq<Ref>, seen: seq<Ref>)
    requires Closed(heap) && InHeap(heap, v) && Within(stack, seen) && NoCircular(Walk(heap, v, seen).0)
    ensures Plain(heap, v, stack) == Some(Walk(heap, v, seen).0)
    decreases Unseen(heap, seen), 0
  {
    if v.Link? {
      SeeOne(heap, seen, v.r);
      UncutIsPlainAll(heap, heap[v.r].values, stack + [v.r], seen + [v.r]);
    }
  }

  lemma {:induction false} UncutIsPlainAll(heap: Heap, vs: seq<Value>, stack: seq<Ref>, seen: seq<Ref>)
    requires Closed(heap) && AllInHeap(heap, vs) && Within(stack, seen) && NoCircularAll(WalkAll(heap, vs, seen).0)
    ensures PlainAll(heap, vs, stack) == Some(WalkAll(heap, vs, seen).0)
    decreases Unseen(heap, seen), |vs| + 1
  {
    if vs != [] {
      assert InHeap(heap, vs[0]) && AllInHeap(heap, vs[1..]);
      var (first, seen1) := Walk(heap, vs[0], seen);
      var rest := WalkAll(heap, vs[1..], seen1).0;
      assert ([first] + rest)[0] == first && ([first] + rest)[1..] == rest;
      UnseenShrinks(heap, seen, seen1[|seen|..]);
      assert seen + seen1[|seen|..] == seen1;
      hide Walk, Plain, NoCircular;
      UncutIsPlain(heap, vs[0], stack, seen);
      UncutIsPlainAll(heap, vs[1..], stack, seen1);
    }
  }

  /**
    "[Circular]" is printed exactly when what is reachable is not a tree, that is when plain
    serialisation would fail on a cycle or expand an object twice; otherwise the output is the
    plain one.
   */
  lemma PlainUnlessShared(heap: Heap, v: Value)
    requires Closed(heap) && InHeap(heap, v)
    ensures var plain, out := Plain(heap, v, []), Walk(heap, v, []).0;
      && (NoCircular(out) <==> Tree(heap, v))
      && (NoCircular(out) <==> plain.Some? && NoDuplicates(Refs(plain.value)))
      && (NoCircular(out) ==> plain == Some(out))
  {
    var plain, out := Plain(heap, v, []), Walk(heap, v, []).0;
    hide Plain, Walk, Tree;
    UncutIffTree(heap, v);
    if NoCircular(out) {
      UncutIsPlain(heap, v, [], []);
      ExpandsReachableOnce(heap, v);
    }
    if plain.Some? && NoDuplicates(Refs(plain.value)) {
      assert [] + Refs(plain.value) == Refs(plain.value);
      UnsharedIsPlain(heap, v, [], []);
      PlainNotCircular(heap, v, []);
    }
  }

  lemma {:induction false} PlainNotCircular(heap: Heap, v: Value, stack: seq<Ref>)
    requires Closed(heap) && InHeap(heap, v) && Plain(heap, v, stack).Some?
    ensures NoCircular(Plain(heap, v, stack).value)
    decreases Unseen(heap, stack), 0
  {
    if v.Link? {
      SeeOne(heap, stack, v.r);
      PlainNotCircularAll(heap, heap[v.r].values, stack + [v.r]);
    }
  }

  lemma {:induction false} PlainNotCircularAll(heap: Heap, vs: seq<Value>, stack: seq<Ref>)
    requires Closed(heap) && AllInHeap(heap, vs) && PlainAll(heap, vs, stack).Some?
    ensures NoCircularAll(PlainAll(heap, vs, stack).value)
    decreases Unseen(heap, stack), |vs| + 1
  {
    if vs != [] {
      assert InHeap(heap, vs[0]) && AllInHeap(heap, vs[1..]);
      var first, rest := Plain(heap, vs[0], stack).value, PlainAll(heap, vs[1..], stack).value;
      PlainNotCircular(heap, vs[0], stack);
      PlainNotCircularAll(heap, vs[1..], stack);
      assert ([first] + rest)[0] == first && ([first] + rest)[1..] == rest;
    }
  }

  // ---------- Which graphs print "[Circular]" ----------

  /** Object `p` links to `r` from its `i`-th place. */
  predicate LinkAt(heap: Heap, p: Ref, i: nat, r: Ref) {
    p in heap && i < |heap[p].values| && heap[p].values[i] == Link(r)
  }

  /**
    Every object reachable from `v` is linked to from one place only, and `v` itself from none:
    what can be reached from `v` is a tree.
   */
  ghost predicate Tree(heap: Heap, v: Value) {
    && (forall p, i: nat, q, j: nat, r ::
         Reachable(heap, v, p) && Reachable(heap, v, q) && LinkAt(heap, p, i, r) && LinkAt(heap, q, j, r) ==>
           p == q && i == j)
    && (forall p, i: nat, r :: v == Link(r) && Reachable(heap, v, p) ==> !LinkAt(heap, p, i, r))
  }

  function Own(v: Value): seq<Ref> {
    if v.Link? then [v.r] else []
  }

  /** The objects that values link to, in order. */
  function LinksIn(vs: seq<Value>): seq<Ref> {
    if vs == [] then [] else Own(vs[0]) + LinksIn(vs[1..])
  }

  function AllLinks(heap: Heap, refs: seq<Ref>): seq<Ref> {
    if refs == [] then []
    else LinksOf(heap, refs[0]) + AllLinks(heap, refs[1..])
  }

  function LinksOf(heap: Heap, p: Ref): seq<Ref> {
    if p in heap then LinksIn(heap[p].values) else []
  }

  /** The links an output shows, expanded or cut, in order. */
  function Targets(heap: Heap, v: Value, out: Out): seq<Ref>
    decreases out
  {
    match out
    case Expanded(r, kids) => if r in heap then [r] + TargetsAll(heap, heap[r].values, kids) else []
    case _ => Own(v)
  }

  function TargetsAll(heap: Heap, vs: seq<Value>, outs: seq<Out>): seq<Ref>
    decreases outs
  {
    if vs == [] || outs == [] then [] else Targets(heap, vs[0], outs[0]) + TargetsAll(heap, vs[1..], outs[1..])
  }

  predicate PrintsAll(heap: Heap, vs: seq<Value>, outs: seq<Out>) {
    |vs| == |outs| && forall i :: 0 <= i < |vs| ==> Prints(heap, vs[i], outs[i])
  }

  /** An output without "[Circular]" shows exactly the links it expands. */
  lemma {:induction false} UncutTargets(heap: Heap, v: Value, out: Out)
    requires Prints(heap, v, out) && NoCircular(out)
    ensures Targets(heap, v, out) == Refs(out)
    decreases out
  {
    if out.Expanded? { UncutTargetsAll(heap, heap[out.r].values, out.kids); }
  }

  lemma {:induction false} UncutTargetsAll(heap: Heap, vs: seq<Value>, outs: seq<Out>)
    requires PrintsAll(heap, vs, outs) && NoCircularAll(outs)
    ensures TargetsAll(heap, vs, outs) == RefsAll(outs)
    decreases outs
  {
    if vs != [] {
      hide Prints, NoCircular, Targets, Refs;
      UncutTargets(heap, vs[0], outs[0]);
      UncutTargetsAll(heap, vs[1..], outs[1..]);
    }
  }

  /** Where no link shown repeats, nor was seen before, nothing is cut. */
  lemma {:induction false} DistinctUncut(heap: Heap, v: Value, seen: seq<Ref>)
    requires Closed(heap) && InHeap(heap, v) && NoDuplicates(seen + Targets(heap, v, Walk(heap, v, seen).0))
    ensures NoCircular(Walk(heap, v, seen).0)
    decreases Unseen(heap, seen), 0
  {
    if v.Link? {
      if v.r in seen {
        NoDuplicatesParts(seen, [v.r]);
        assert false;
      } else {
        SeeOne(heap, seen, v.r);
        var kids := WalkAll(heap, heap[v.r].values, seen + [v.r]).0;
        var rest := TargetsAll(heap, heap[v.r].values, kids);
        assert seen + ([v.r] + rest) == seen + [v.r] + rest;
        DistinctUncutAll(heap, heap[v.r].values, seen + [v.r]);
      }
    }
  }

  lemma {:induction false} DistinctUncutAll(heap: Heap, vs: seq<Value>, seen: seq<Ref>)
    requires Closed(heap) && AllInHeap(heap, vs)
    requires NoDuplicates(seen + TargetsAll(heap, vs, WalkAll(heap, vs, seen).0))
    ensures NoCircularAll(WalkAll(heap, vs, seen).0)
    decreases Unseen(heap, seen), |vs| + 1
  {
    if vs != [] {
      assert InHeap(heap, vs[0]) && AllInHeap(heap, vs[1..]);
      var (first, seen1) := Walk(heap, vs[0], seen);
      var rest := WalkAll(heap, vs[1..], seen1).0;
      hide Walk, NoCircular, Targets;
      assert ([first] + rest)[0] == first && ([first] + rest)[1..] == rest;
      var now, later := Targets(heap, vs[0], first), TargetsAll(heap, vs[1..], rest);
      assert seen + (now + later) == seen + now + later;
      NoDuplicatesParts(seen + now, later);
      DistinctUncut(heap, vs[0], seen);
      NoDuplicatesParts(seen, now);
      SeenIsExpanded(heap, vs[0], seen);
      WalkPrints(heap, vs[0], seen);
      UncutTargets(heap, vs[0], first);
      UnseenShrinks(heap, seen, seen1[|seen|..]);
      assert seen + seen1[|seen|..] == seen1;
      DistinctUncutAll(heap, vs[1..], seen1);
    }
  }

  /** The links shown are the value's own and, for each object expanded, all of its links. */
  lemma {:induction false} TargetsAreLinks(heap: Heap, v: Value, out: Out)
    requires Prints(heap, v, out)
    ensures multiset(Targets(heap, v, out)) == multiset(Own(v)) + multiset(AllLinks(heap, Refs(out)))
    decreases out
  {
    if out.Expanded? {
      var r, values := out.r, heap[out.r].values;
      TargetsAreLinksAll(heap, values, out.kids);
      assert ([r] + RefsAll(out.kids))[1..] == RefsAll(out.kids);
    }
  }

  lemma {:induction false} TargetsAreLinksAll(heap: Heap, vs: seq<Value>, outs: seq<Out>)
    requires PrintsAll(heap, vs, outs)
    ensures multiset(TargetsAll(heap, vs, outs)) == multiset(LinksIn(vs)) + multiset(AllLinks(heap, RefsAll(outs)))
    decreases outs
  {
    if vs != [] {
      hide Prints, Targets, Refs, AllLinks;
      TargetsAreLinks(heap, vs[0], outs[0]);
      TargetsAreLinksAll(heap, vs[1..], outs[1..]);
      AllLinksAppend(heap, Refs(outs[0]), RefsAll(outs[1..]));
      assert LinksIn(vs) == Own(vs[0]) + LinksIn(vs[1..]);
      assert TargetsAll(heap, vs, outs) == Targets(heap, vs[0], outs[0]) + TargetsAll(heap, vs[1..], outs[1..]);
      assert RefsAll(outs) == Refs(outs[0]) + RefsAll(outs[1..]);
      hide TargetsAll, RefsAll, LinksIn, Own;
      ExchangeMiddle(multiset(Own(vs[0])), multiset(AllLinks(heap, Refs(outs[0]))),
                     multiset(LinksIn(vs[1..])), multiset(AllLinks(heap, RefsAll(outs[1..]))));
    }
  }

  lemma ExchangeMiddle(a: multiset<Ref>, b: multiset<Ref>, c: multiset<Ref>, d: multiset<Ref>)
    ensures (a + b) + (c + d) == (a + c) + (b + d)
  {
  }

  lemma {:induction false} AllLinksAppend(heap: Heap, a: seq<Ref>, b: seq<Ref>)
    ensures AllLinks(heap, a + b) == AllLinks(heap, a) + AllLinks(heap, b)
  {
    hide LinksOf;
    if a == [] {
      assert a + b == b;
    } else {
      AllLinksAppend(heap, a[1..], b);
      assert (a + b)[1..] == a[1..] + b && (a + b)[0] == a[0];
      var first, more, rest := LinksOf(heap, a[0]), AllLinks(heap, a[1..]), AllLinks(heap, b);
      assert AllLinks(heap, a + b) == first + (more + rest) && AllLinks(heap, a) == first + more;
      hide AllLinks;
    }
  }

  // Links without repetition, place by place.

  lemma NoDuplicatesAppend(a: seq<Ref>, b: seq<Ref>)
    ensures NoDuplicates(a + b) <==> NoDuplicates(a) && NoDuplicates(b) && forall r :: r in b ==> r !in a
  {
    var c := a + b;
    assert forall i :: 0 <= i < |a| ==> c[i] == a[i];
    assert forall i :: 0 <= i < |b| ==> c[|a| + i] == b[i];
    if NoDuplicates(c) {
      NoDuplicatesParts(a, b);
      forall i, j | 0 <= i < j < |b| ensures b[i] != b[j] { assert c[|a| + i] != c[|a| + j]; }
    }
    if NoDuplicates(a) && NoDuplicates(b) && forall r :: r in b ==> r !in a {
      forall i, j | 0 <= i < j < |c| ensures c[i] != c[j] {
        if i < |a| <= j { assert b[j - |a|] in b && a[i] in a; }
      }
    }
  }

  lemma {:induction false} NoDuplicatesCount(s: seq<Ref>)
    ensures NoDuplicates(s) <==> forall r :: multiset(s)[r] <= 1
  {
    if s != [] {
      NoDuplicatesCount(s[1..]);
      NoDuplicatesAppend([s[0]], s[1..]);
      assert s == [s[0]] + s[1..];
      assert multiset(s) == multiset{s[0]} + multiset(s[1..]);
      assert forall r :: multiset(s)[r] == multiset(s[1..])[r] + if r == s[0] then 1 else 0;
      assert forall r :: r in s[1..] <==> multiset(s[1..])[r] > 0;
      hide NoDuplicates;
    }
  }

  /** No value links where an earlier one does. */
  predicate Once(vs: seq<Value>) {
    forall i, j :: 0 <= i < j < |vs| && vs[i].Link? ==> vs[i] != vs[j]
  }

  lemma {:induction false} LinksInOnce(vs: seq<Value>)
    ensures forall r :: r in LinksIn(vs) <==> Link(r) in vs
    ensures NoDuplicates(LinksIn(vs)) <==> Once(vs)
  {
    if vs != [] {
      var first := if vs[0].Link? then [vs[0].r] else [];
      LinksInOnce(vs[1..]);
      assert vs == [vs[0]] + vs[1..];
      NoDuplicatesAppend(first, LinksIn(vs[1..]));
      OnceFront(vs);
    }
  }

  lemma OnceFront(vs: seq<Value>)
    requires vs != []
    ensures Once(vs) <==> (vs[0].Link? ==> vs[0] !in vs[1..]) && Once(vs[1..])
  {
    if Once(vs) {
      forall j | 0 <= j < |vs| - 1 && vs[0].Link? ensures vs[1..][j] != vs[0] { assert vs[j + 1] != vs[0]; }
      forall i, j | 0 <= i < j < |vs| - 1 && vs[1..][i].Link? ensures vs[1..][i] != vs[1..][j] {
        assert vs[i + 1] != vs[j + 1];
      }
    }
    if (vs[0].Link? ==> vs[0] !in vs[1..]) && Once(vs[1..]) {
      forall i, j | 0 <= i < j < |vs| && vs[i].Link? ensures vs[i] != vs[j] {
        assert vs[j] == vs[1..][j - 1];
        if i > 0 { assert vs[i] == vs[1..][i - 1]; }
      }
    }
  }

  /** No two of the objects, nor two places of one of them, link to the same. */
  ghost predicate OnceAmong(heap: Heap, refs: seq<Ref>) {
    forall p, i: nat, q, j: nat, r :: p in refs && q in refs && LinkAt(heap, p, i, r) && LinkAt(heap, q, j, r) ==>
      p == q && i == j
  }

  predicate LinkedFrom(heap: Heap, p: Ref, r: Ref) {
    p in heap && Link(r) in heap[p].values
  }

  lemma LinkedAt(heap: Heap, p: Ref, r: Ref)
    ensures LinkedFrom(heap, p, r) <==> exists i: nat :: LinkAt(heap, p, i, r)
  {
    if LinkedFrom(heap, p, r) {
      var i :| 0 <= i < |heap[p].values| && heap[p].values[i] == Link(r);
      assert LinkAt(heap, p, i, r);
    }
  }

  lemma {:induction false} AllLinksMembers(heap: Heap, refs: seq<Ref>, r: Ref)
    ensures r in AllLinks(heap, refs) <==> exists p :: p in refs && LinkedFrom(heap, p, r)
  {
    if refs != [] {
      AllLinksMembers(heap, refs[1..], r);
      if refs[0] in heap { LinksInOnce(heap[refs[0]].values); }
      assert refs == [refs[0]] + refs[1..];
      assert r in AllLinks(heap, refs) <==> LinkedFrom(heap, refs[0], r) || r in AllLinks(heap, refs[1..]);
      hide AllLinks, LinkedFrom;
      if exists p :: p in refs && LinkedFrom(heap, p, r) {
        var p :| p in refs && LinkedFrom(heap, p, r);
        assert p == refs[0] || p in refs[1..];
      }
    }
  }

  lemma {:induction false} AllLinksOnce(heap: Heap, refs: seq<Ref>)
    requires NoDuplicates(refs)
    ensures NoDuplicates(AllLinks(heap, refs)) <==> OnceAmong(heap, refs)
  {
    if refs != [] {
      var first, tail := refs[0], refs[1..];
      var here := LinksOf(heap, first);
      assert refs == [first] + tail;
      NoDuplicatesAppend([first], tail);
      AllLinksOnce(heap, tail);
      NoDuplicatesAppend(here, AllLinks(heap, tail));
      if first in heap { LinksInOnce(heap[first].values); }
      forall r ensures r in AllLinks(heap, tail) <==> exists p :: p in tail && LinkedFrom(heap, p, r) {
        AllLinksMembers(heap, tail, r);
      }
      hide NoDuplicates, LinksIn, AllLinks, LinksOf;
      OnceAmongFront(heap, first, tail);
    }
  }

  lemma OnceAmongFront(heap: Heap, first: Ref, tail: seq<Ref>)
    requires first !in tail
    ensures OnceAmong(heap, [first] + tail) <==>
      && (first in heap ==> Once(heap[first].values))
      && OnceAmong(heap, tail)
      && forall p, r :: p in tail && LinkedFrom(heap, p, r) ==> !LinkedFrom(heap, first, r)
  {
    forall p, r ensures LinkedFrom(heap, p, r) <==> exists i: nat :: LinkAt(heap, p, i, r) { LinkedAt(heap, p, r); }
    var refs := [first] + tail;
    assert forall p :: p in refs <==> p == first || p in tail;
    if first in heap { OncePlaces(heap, first); }
    assert first !in heap ==> OnceAmong(heap, [first]);
    hide LinkedFrom, LinkAt, Once;
    if OnceAmong(heap, refs) {
      assert OnceAmong(heap, tail);
      assert OnceAmong(heap, [first]);
    }
    if OnceAmong(heap, [first]) && OnceAmong(heap, tail)
      && forall p, r :: p in tail && LinkedFrom(heap, p, r) ==> !LinkedFrom(heap, first, r)
    {
      forall p, i: nat, q, j: nat, r | p in refs && q in refs && LinkAt(heap, p, i, r) && LinkAt(heap, q, j, r)
        ensures p == q && i == j
      {
        assert LinkedFrom(heap, p, r) && LinkedFrom(heap, q, r);
        assert p in [first] || p in tail;
      }
    }
  }

  lemma OncePlaces(heap: Heap, p: Ref)
    requires p in heap
    ensures Once(heap[p].values) <==> OnceAmong(heap, [p])
  {
    var vs := heap[p].values;
    if OnceAmong(heap, [p]) {
      forall i, j | 0 <= i < j < |vs| && vs[i].Link? ensures vs[i] != vs[j] {
        if vs[i] == vs[j] { assert LinkAt(heap, p, i, vs[i].r) && LinkAt(heap, p, j, vs[i].r); }
      }
    }
  }

  /** "[Circular]" is printed exactly when what is reachable is not a tree. */
  lemma UncutIffTree(heap: Heap, v: Value)
    requires Closed(heap) && InHeap(heap, v)
    ensures NoCircular(Walk(heap, v, []).0) <==> Tree(heap, v)
  {
    var out := Walk(heap, v, []).0;
    var refs, targets := Refs(out), Targets(heap, v, out);
    var links := Own(v) + AllLinks(heap, refs);
    WalkPrints(heap, v, []);
    ExpandsReachableOnce(heap, v);
    if NoCircular(out) { UncutTargets(heap, v, out); }
    assert [] + targets == targets;
    if NoDuplicates(targets) { DistinctUncut(heap, v, []); }
    TargetsAreLinks(heap, v, out);
    assert multiset(targets) == multiset(links);
    NoDuplicatesCount(targets);
    NoDuplicatesCount(links);
    assert NoCircular(out) <==> NoDuplicates(links);
    TreeLinks(heap, v, refs);
  }

  lemma AllLinksPlaces(heap: Heap, refs: seq<Ref>, r: Ref)
    ensures r in AllLinks(heap, refs) <==> exists p, i: nat :: p in refs && LinkAt(heap, p, i, r)
  {
    AllLinksMembers(heap, refs, r);
    hide AllLinks, LinkAt, LinkedFrom;
    forall p ensures LinkedFrom(heap, p, r) <==> exists i: nat :: LinkAt(heap, p, i, r) { LinkedAt(heap, p, r); }
  }

  lemma TreeLinks(heap: Heap, v: Value, refs: seq<Ref>)
    requires NoDuplicates(refs) && forall r :: r in refs <==> Reachable(heap, v, r)
    ensures NoDuplicates(Own(v) + AllLinks(heap, refs)) <==> Tree(heap, v)
  {
    NoDuplicatesAppend(Own(v), AllLinks(heap, refs));
    AllLinksOnce(heap, refs);
    assert NoDuplicates(Own(v)) && forall r :: r in Own(v) <==> v == Link(r);
    hide NoDuplicates, AllLinks, LinksIn, LinkAt, Reachable, Own;
    forall r ensures r in AllLinks(heap, refs) <==> exists p, i: nat :: p in refs && LinkAt(heap, p, i, r) {
      AllLinksPlaces(heap, refs, r);
    }
    assert (forall r :: r in AllLinks(heap, refs) ==> r !in Own(v))
      <==> forall p, i: nat, r :: v == Link(r) && Reachable(heap, v, p) ==> !LinkAt(heap, p, i, r);
  }

  lemma WalkOne(heap: Heap, v: Value, seen: seq<Ref>)
    requires Closed(heap) && InHeap(heap, v)
    ensures AllInHeap(heap, [v])
    ensures WalkAll(heap, [v], seen) == ([Walk(heap, v, seen).0], Walk(heap, v, seen).1)
    ensures PlainAll(heap, [v], seen) == var out := Plain(heap, v, seen); if out.Some? then Some([out.value]) else None
  {
    hide Walk, Plain;
    assert [v][1..] == [] && [v][0] == v;
    assert forall seen': seq<Ref> :: WalkAll(heap, [], seen') == ([], seen');
    assert PlainAll(heap, [], seen) == Some([]);
    assert forall out: Out :: [out] + [] == [out];
  }

  lemma WalkTwo(heap: Heap, v: Value, w: Value, seen: seq<Ref>)
    requires Closed(heap) && InHeap(heap, v) && InHeap(heap, w)
    ensures AllInHeap(heap, [v, w])
    ensures var (first, seen1) := Walk(heap, v, seen);
      var (second, seen2) := Walk(heap, w, seen1);
      WalkAll(heap, [v, w], seen) == ([first, second], seen2)
    ensures var first, second := Plain(heap, v, seen), Plain(heap, w, seen);
      first.Some? && second.Some? ==> PlainAll(heap, [v, w], seen) == Some([first.value, second.value])
  {
    WalkOne(heap, w, Walk(heap, v, seen).1);
    WalkOne(heap, w, seen);
    hide Walk, Plain;
    assert [v, w][1..] == [w] && [v, w][0] == v;
    assert forall a: Out, b: Out :: [a] + [b] == [a, b];
  }

  /** An array that holds another one twice, without cycles. */
  const SHARED: Heap := map[0 := Arr([Link(1), Link(1)]), 1 := Arr([])]

  lemma SharedNoTree()
    ensures Closed(SHARED) && !Tree(SHARED, Link(0))
  {
    assert Path(SHARED, Link(0), [0]);
    assert Reachable(SHARED, Link(0), 0);
    assert LinkAt(SHARED, 0, 0, 1) && LinkAt(SHARED, 0, 1, 1);
  }

  /** What is used twice is printed as "[Circular]" the second time, and would be expanded twice without that. */
  lemma SharedIsCut()
    ensures Closed(SHARED) && Walk(SHARED, Link(0), []).0 == Expanded(0, [Expanded(1, []), Circular])
    ensures Plain(SHARED, Link(0), []) == Some(Expanded(0, [Expanded(1, []), Expanded(1, [])]))
  {
    SharedNoTree();
    hide Closed;
    assert [] + [0] == [0] && [0] + [1] == [0, 1];
    assert Walk(SHARED, Link(1), [0]) == (Expanded(1, []), [0, 1]);
    assert Plain(SHARED, Link(1), [0]) == Some(Expanded(1, []));
    WalkTwo(SHARED, Link(1), Link(1), [0]);
  }

  /** `JSON.stringify` with its stack check, and the replacer's list as the captured variable. */
  class Serializer {
    var seen: seq<Ref>

    constructor ()
      ensures seen == []
    {
      seen := [];
    }

    /** None would be the error on a cycle: it never comes, since the stack is always seen. */
    method Stringify(heap: Heap, v: Value, stack: seq<Ref>) returns (res: Option<Out>)
      requires Closed(heap) && InHeap(heap, v) && Within(stack, seen)
      modifies this
      ensures res == Some(Walk(heap, v, old(seen)).0) && seen == Walk(heap, v, old(seen)).1
      decreases Unseen(heap, seen), 0
    {
      if v.Leaf? {
        return Some(Atom(v.text));
      }
      if v.r in seen {
        return Some(Circular);
      }
      seen := seen + [v.r];
      if v.r in stack {
        return None;
      }
      SeeOne(heap, old(seen), v.r);
      var kids := StringifyAll(heap, heap[v.r].values, stack + [v.r]);
      res := Some(Expanded(v.r, kids.value));
    }

    method StringifyAll(heap: Heap, vs: seq<Value>, stack: seq<Ref>) returns (res: Option<seq<Out>>)
      requires Closed(heap) && AllInHeap(heap, vs) && Within(stack, seen)
      modifies this
      ensures res == Some(WalkAll(heap, vs, old(seen)).0) && seen == WalkAll(heap, vs, old(seen)).1
      decreases Unseen(heap, seen), 1
    {
      var kids: seq<Out> := [];
      ghost var all := WalkAll(heap, vs, seen);
      assert vs[0..] == vs && [] + all.0 == all.0;
      for i := 0 to |vs|
        invariant AllInHeap(heap, vs[i..]) && Within(stack, seen)
        invariant Unseen(heap, seen) <= Unseen(heap, old(seen))
        invariant all == (kids + WalkAll(heap, vs[i..], seen).0, WalkAll(heap, vs[i..], seen).1)
      {
        ghost var seen1 := Walk(heap, vs[i], seen).1;
        WalkFirst(heap, vs[i..], seen, kids);
        assert vs[i..][1..] == vs[i + 1..];
        UnseenShrinks(heap, seen, seen1[|seen|..]);
        assert seen + seen1[|seen|..] == seen1;
        hide Walk, WalkAll;
        var kid := Stringify(heap, vs[i], stack);
        if kid.None? {
          return None;
        }
        kids := kids + [kid.value];
      }
      assert vs[|vs|..] == [] && kids + [] == kids;
      res := Some(kids);
    }
  }

  lemma WalkFirst(heap: Heap, vs: seq<Value>, seen: seq<Ref>, kids: seq<Out>)
    requires Closed(heap) && AllInHeap(heap, vs) && vs != []
    ensures AllInHeap(heap, vs[1..]) && InHeap(heap, vs[0])
    ensures var (first, seen1) := Walk(heap, vs[0], seen);
      var (rest, seen2) := WalkAll(heap, vs[1..], seen1);
      (kids + WalkAll(heap, vs, seen).0, WalkAll(heap, vs, seen).1) == (kids + [first] + rest, seen2)
  {
    assert InHeap(heap, vs[0]) && AllInHeap(heap, vs[1..]);
    var (first, seen1) := Walk(heap, vs[0], seen);
    var rest := WalkAll(heap, vs[1..], seen1).0;
    assert kids + ([first] + rest) == kids + [first] + rest;
  }

  // ---------- The whole function ----------

  const MAX_LENGTH := 100000
  const CIRCULAR := "\"[Circular]\""
  const TOO_LARGE := "Output omitted for a large object that exceeds the limits"

  /** The JSON text of an output; None is left out of objects and `null` in arrays. */
  function Text(heap: Heap, out: Out): Option<string>
    decreases out, 1
  {
    match out
    case Atom(text) => text
    case Circular => Some(CIRCULAR)
    case Expanded(r, kids) =>
      if r !in heap then None
      else match heap[r]
        case Arr(_) => Some("[" + Joined(Items(heap, kids)) + "]")
        case Obj(keys, _) => Some("{" + Joined(Fields(heap, keys, kids)) + "}")
  }

  function Items(heap: Heap, outs: seq<Out>): seq<string>
    decreases outs, 0
  {
    if outs == [] then []
    else
      var first := Text(heap, outs[0]);
      [if first.Some? then first.value else "null"] + Items(heap, outs[1..])
  }

  function Fields(heap: Heap, keys: seq<string>, outs: seq<Out>): seq<string>
    decreases outs, 0
  {
    if outs == [] || keys == [] then []
    else
      var first := Text(heap, outs[0]);
      (if first.Some? then [keys[0] + ":" + first.value] else []) + Fields(heap, keys[1..], outs[1..])
  }

  function Joined(parts: seq<string>): string {
    if parts == [] then "" else if |parts| == 1 then parts[0] else parts[0] + "," + Joined(parts[1..])
  }

  /** A console argument; an error counts by its stack, or by its text if it has none. Both are JSON texts. */
  datatype Argument = Undefined | Failure(stack: Option<string>, text: string) | Ordinary(value: Value)

  function Massaged(arg: Argument): Value {
    match arg
    case Undefined => Leaf(Some("\"undefined\""))
    case Failure(stack, text) => Leaf(Some(if stack.Some? then stack.value else text))
    case Ordinary(value) => value
  }

  function MassagedAll(args: seq<Argument>): seq<Value> {
    seq(|args|, i requires 0 <= i < |args| => Massaged(args[i]))
  }

  lemma ClosedWithRoot(heap: Heap, root: Ref, args: seq<Argument>)
    requires Closed(heap) && root !in heap
    requires forall i :: 0 <= i < |args| ==> InHeap(heap, Massaged(args[i]))
    ensures Closed(heap[root := Arr(MassagedAll(args))])
  {
    var all := heap[root := Arr(MassagedAll(args))];
    forall r | r in all ensures AllInHeap(all, all[r].values) && (all[r].Obj? ==> |all[r].keys| == |all[r].values|) {
      if r in heap && r != root { assert AllInHeap(heap, heap[r].values); }
    }
  }

  /** `root` is the array object the arguments are collected in. */
  method ArgumentsToString(heap: Heap, root: Ref, args: seq<Argument>) returns (res: string)
    requires Closed(heap) && root !in heap
    requires forall i :: 0 <= i < |args| ==> InHeap(heap, Massaged(args[i]))
    ensures var all := heap[root := Arr(MassagedAll(args))];
      Closed(all) &&
      var text := Text(all, Walk(all, Link(root), []).0);
      text.Some? && res == if |text.value| > 100000 then TOO_LARGE else text.value
  {
    var argsArray: seq<Value> := [];
    for i := 0 to |args|
      invariant argsArray == MassagedAll(args)[..i]
    {
      argsArray := argsArray + [Massaged(args[i])];
    }
    assert argsArray == MassagedAll(args);
    var all := heap[root := Arr(argsArray)];
    ClosedWithRoot(heap, root, args);
    var serializer := new Serializer();
    var out := serializer.Stringify(all, Link(root), []);
    var text := Text(all, out.value).value;
    res := if |text| > MAX_LENGTH then TOO_LARGE else text;
  }
}
