/**
  The text a console message is sent as (`safeToString` in src/bootstrap-fork.ts): read back as JSON
  without white space (section 25.5 of ECMA-262) it is the tree of what the walk printed.
 */
module ConsoleText {
  import opened Basics
  import opened SafeToString

  // ---------- A reader ----------

  /** A number, a literal or a quoted string is a word. */
  datatype Doc = Word(text: string) | List(items: seq<Doc>) | Record(fields: seq<(string, Doc)>)

  datatype Reading<T> = Got(value: T, rest: string) | Bad

  predicate Structural(c: char) {
    c == '[' || c == ']' || c == '{' || c == '}' || c == ',' || c == ':' || c == '"'
  }

  /** The length of a string up to its closing quote, that one included; 0 if there is none. */
  function QuotedLen(s: string): (n: nat)
    ensures n <= |s|
  {
    if s == [] then 0
    else if s[0] == '"' then 1
    else if s[0] != '\\' then After(1, QuotedLen(s[1..]))
    else if |s| == 1 then 0
    else After(2, QuotedLen(s[2..]))
  }

  function After(skipped: nat, n: nat): nat {
    if n == 0 then 0 else skipped + n
  }

  function BareLen(s: string): (n: nat)
    ensures n <= |s|
  {
    if s == [] || Structural(s[0]) then 0 else 1 + BareLen(s[1..])
  }

  function WordLen(s: string): (n: nat)
    ensures n <= |s|
  {
    if s == [] then 0 else if s[0] == '"' then After(1, QuotedLen(s[1..])) else BareLen(s)
  }

  function ReadDoc(s: string): (r: Reading<Doc>)
    ensures r.Got? ==> |r.rest| < |s|
    decreases |s|, 0
  {
    if s == [] then Bad
    else if s[0] == '[' then
      if |s| > 1 && s[1] == ']' then Got(List([]), s[2..])
      else match ReadItems(s[1..])
        case Got(items, rest) => if rest != [] && rest[0] == ']' then Got(List(items), rest[1..]) else Bad
        case Bad => Bad
    else if s[0] == '{' then
      if |s| > 1 && s[1] == '}' then Got(Record([]), s[2..])
      else match ReadFields(s[1..])
        case Got(fields, rest) => if rest != [] && rest[0] == '}' then Got(Record(fields), rest[1..]) else Bad
        case Bad => Bad
    else
      var n := WordLen(s);
      if n == 0 then Bad else Got(Word(s[..n]), s[n..])
  }

  /** One or more values with commas between them. */
  function ReadItems(s: string): (r: Reading<seq<Doc>>)
    ensures r.Got? ==> |r.rest| < |s|
    decreases |s|, 1
  {
    match ReadDoc(s)
    case Bad => Bad
    case Got(first, rest) =>
      if rest == [] || rest[0] != ',' then Got([first], rest)
      else match ReadItems(rest[1..])
        case Bad => Bad
        case Got(more, end) => Got([first] + more, end)
  }

  /** One or more keys, each with a colon and a value, with commas between them. */
  function ReadFields(s: string): (r: Reading<seq<(string, Doc)>>)
    ensures r.Got? ==> |r.rest| < |s|
    decreases |s|, 1
  {
    var n := WordLen(s);
    if n == 0 || n == |s| || s[n] != ':' then Bad
    else match ReadDoc(s[n + 1..])
      case Bad => Bad
      case Got(first, rest) =>
        if rest == [] || rest[0] != ',' then Got([(s[..n], first)], rest)
        else match ReadFields(rest[1..])
          case Bad => Bad
          case Got(more, end) => Got([(s[..n], first)] + more, end)
  }

  // ---------- Words ----------

  predicate IsWord(w: string) {
    w != [] && WordLen(w) == |w|
  }

  /** What may follow a value. */
  predicate Ends(rest: string) {
    rest == [] || Structural(rest[0])
  }

  lemma JoinFrom(a: string, b: string, k: nat)
    requires k <= |a|
    ensures (a + b)[k..] == a[k..] + b
  {
  }

  lemma {:induction false} QuotedStops(s: string, rest: string)
    requires QuotedLen(s) > 0
    ensures QuotedLen(s + rest) == QuotedLen(s)
  {
    if s[0] != '"' {
      var k := if s[0] == '\\' then 2 else 1;
      JoinFrom(s, rest, k);
      QuotedStops(s[k..], rest);
    }
  }

  lemma {:induction false} BareStops(w: string, rest: string)
    requires BareLen(w) == |w| && Ends(rest)
    ensures BareLen(w + rest) == |w|
  {
    if w == [] {
      assert w + rest == rest;
    } else {
      JoinFrom(w, rest, 1);
      BareStops(w[1..], rest);
    }
  }

  lemma WordStops(w: string, rest: string)
    requires IsWord(w) && Ends(rest)
    ensures WordLen(w + rest) == |w| && (w + rest)[..|w|] == w && (w + rest)[|w|..] == rest
  {
    if w[0] == '"' {
      JoinFrom(w, rest, 1);
      QuotedStops(w[1..], rest);
    } else {
      BareStops(w, rest);
    }
  }

  /** Text in quotes is a word if it has no quote or backslash itself. */
  lemma {:induction false} PlainQuoted(t: string)
    requires forall i :: 0 <= i < |t| ==> t[i] != '"' && t[i] != '\\'
    ensures QuotedLen(t + "\"") == |t| + 1
  {
    if t == [] {
      assert t + "\"" == "\"";
    } else {
      assert (t + "\"")[1..] == t[1..] + "\"";
      PlainQuoted(t[1..]);
    }
  }

  lemma QuotedIsWord(t: string)
    requires forall i :: 0 <= i < |t| ==> t[i] != '"' && t[i] != '\\'
    ensures IsWord("\"" + t + "\"")
  {
    PlainQuoted(t);
    assert ("\"" + t + "\"")[1..] == t + "\"";
  }

  lemma FixedWords()
    ensures IsWord("null") && IsWord("\"[Circular]\"") && IsWord("\"undefined\"")
  {
    QuotedIsWord("[Circular]");
    QuotedIsWord("undefined");
    assert "\"" + "[Circular]" + "\"" == "\"[Circular]\"" && "\"" + "undefined" + "\"" == "\"undefined\"";
    var n := "null";
    assert n[1..] == "ull" && n[1..][1..] == "ll" && n[1..][1..][1..] == "l" && n[1..][1..][1..][1..] == [];
  }

  // ---------- What is to be read ----------

  /** The tree of an output; None is what JSON leaves out. */
  function DocOf(heap: Heap, out: Out): Option<Doc>
    decreases out, 1
  {
    match out
    case Atom(None) => None
    case Atom(Some(text)) => Some(Word(text))
    case Circular => Some(Word("\"[Circular]\""))
    case Expanded(r, kids) =>
      if r !in heap then None
      else match heap[r]
        case Arr(_) => Some(List(ItemDocs(heap, kids)))
        case Obj(keys, _) => Some(Record(FieldDocs(heap, keys, kids)))
  }

  function ItemDoc(heap: Heap, out: Out): Doc
    decreases out, 2
  {
    var doc := DocOf(heap, out);
    if doc.Some? then doc.value else Word("null")
  }

  function ItemDocs(heap: Heap, outs: seq<Out>): (docs: seq<Doc>)
    ensures |docs| == |outs|
    decreases outs, 0
  {
    if outs == [] then [] else [ItemDoc(heap, outs[0])] + ItemDocs(heap, outs[1..])
  }

  function FieldDocs(heap: Heap, keys: seq<string>, outs: seq<Out>): seq<(string, Doc)>
    decreases outs, 0
  {
    if outs == [] || keys == [] then []
    else OneField(keys[0], DocOf(heap, outs[0])) + FieldDocs(heap, keys[1..], outs[1..])
  }

  function OneField(key: string, doc: Option<Doc>): seq<(string, Doc)> {
    if doc.Some? then [(key, doc.value)] else []
  }

  /** Item `i` of an array is child `i`, `null` if JSON leaves it out. */
  lemma {:induction false} ItemAt(heap: Heap, outs: seq<Out>, i: nat)
    requires i < |outs|
    ensures ItemDocs(heap, outs)[i] == match DocOf(heap, outs[i]) case Some(doc) => doc case None => Word("null")
  {
    hide DocOf;
    if i > 0 { ItemAt(heap, outs[1..], i - 1); }
  }

  /** The fields are those of the children before `i`, of child `i` if it has a text, and of those after. */
  lemma {:induction false} FieldsAround(heap: Heap, keys: seq<string>, outs: seq<Out>, i: nat)
    requires i < |outs| && |keys| == |outs|
    ensures FieldDocs(heap, keys, outs) ==
      FieldDocs(heap, keys[..i], outs[..i])
      + OneField(keys[i], DocOf(heap, outs[i]))
      + FieldDocs(heap, keys[i + 1..], outs[i + 1..])
  {
    hide DocOf;
    if i == 0 {
      assert FieldDocs(heap, keys[..0], outs[..0]) == [];
      hide OneField;
      var first := OneField(keys[0], DocOf(heap, outs[0]));
      assert [] + first == first;
    } else {
      var ks, os := keys[1..], outs[1..];
      FieldsAround(heap, ks, os, i - 1);
      FieldsCut(heap, keys, outs, i);
      hide FieldDocs, OneField;
      var first, mid := OneField(keys[0], DocOf(heap, outs[0])), OneField(ks[i - 1], DocOf(heap, os[i - 1]));
      var front, back := FieldDocs(heap, ks[..i - 1], os[..i - 1]), FieldDocs(heap, ks[i..], os[i..]);
      RegroupFields(first, front, mid, back);
    }
  }

  lemma FieldsCut(heap: Heap, keys: seq<string>, outs: seq<Out>, i: nat)
    requires 0 < i < |outs| && |keys| == |outs|
    ensures var first := OneField(keys[0], DocOf(heap, outs[0]));
      && FieldDocs(heap, keys, outs) == first + FieldDocs(heap, keys[1..], outs[1..])
      && FieldDocs(heap, keys[..i], outs[..i]) == first + FieldDocs(heap, keys[1..][..i - 1], outs[1..][..i - 1])
    ensures keys[1..][i..] == keys[i + 1..] && outs[1..][i..] == outs[i + 1..]
  {
    hide DocOf, OneField;
    assert keys[1..][..i - 1] == keys[..i][1..] && outs[1..][..i - 1] == outs[..i][1..];
  }

  lemma RegroupFields(a: seq<(string, Doc)>, b: seq<(string, Doc)>, c: seq<(string, Doc)>, d: seq<(string, Doc)>)
    ensures a + (b + c + d) == a + b + c + d
  {
  }

  /** All words of an output are words, and keys go with children. */
  predicate Spelled(heap: Heap, out: Out)
    decreases out
  {
    match out
    case Atom(None) => true
    case Atom(Some(text)) => IsWord(text)
    case Circular => true
    case Expanded(r, kids) =>
      && r in heap && (heap[r].Obj? ==> |heap[r].keys| == |kids| && KeysSpelled(heap[r].keys))
      && forall i :: 0 <= i < |kids| ==> Spelled(heap, kids[i])
  }

  predicate KeysSpelled(keys: seq<string>) {
    forall i :: 0 <= i < |keys| ==> IsWord(keys[i])
  }

  predicate AllSpelled(heap: Heap, outs: seq<Out>) {
    forall i :: 0 <= i < |outs| ==> Spelled(heap, outs[i])
  }

  // ---------- The text reads back as the tree ----------

  /** `s`, followed by anything that may follow a value, reads as `doc`. */
  ghost predicate ReadsAs(s: string, doc: Doc) {
    && s != [] && s[0] != ']' && s[0] != '}' && s[0] != ','
    && forall rest :: Ends(rest) ==> ReadDoc(s + rest) == Got(doc, rest)
  }

  lemma WordReads(w: string)
    requires IsWord(w)
    ensures ReadsAs(w, Word(w))
  {
    assert !Structural(w[0]) || w[0] == '"';
    forall rest | Ends(rest) ensures ReadDoc(w + rest) == Got(Word(w), rest) { WordStops(w, rest); }
  }

  /** What an array item is printed as. */
  function ItemText(heap: Heap, out: Out): string {
    var text := Text(heap, out);
    if text.Some? then text.value else "null"
  }

  lemma {:induction false} TextReads(heap: Heap, out: Out)
    requires Spelled(heap, out)
    ensures Text(heap, out).Some? <==> DocOf(heap, out).Some?
    ensures Text(heap, out).Some? ==> ReadsAs(Text(heap, out).value, DocOf(heap, out).value)
    ensures ReadsAs(ItemText(heap, out), ItemDoc(heap, out))
    decreases out, 1
  {
    FixedWords();
    WordReads("null");
    match out
    case Atom(None) =>
    case Atom(Some(text)) => WordReads(text);
    case Circular => WordReads("\"[Circular]\"");
    case Expanded(r, kids) =>
      assert AllSpelled(heap, kids);
      match heap[r] {
        case Arr(_) => ArrayReads(heap, kids);
        case Obj(keys, _) => ObjectReads(heap, keys, kids);
      }
  }

  lemma {:induction false} ArrayReads(heap: Heap, kids: seq<Out>)
    requires AllSpelled(heap, kids)
    ensures ReadsAs("[" + Joined(Items(heap, kids)) + "]", List(ItemDocs(heap, kids)))
    decreases kids, 1
  {
    if kids != [] {
      ItemsRead(heap, kids);
      hide Items, ItemDocs, Joined, ReadItems, ReadsAs, Spelled;
      Bracketed(Joined(Items(heap, kids)), ItemDocs(heap, kids));
    } else {
      EmptyBrackets();
    }
  }

  lemma EmptyBrackets()
    ensures ReadsAs("[" + "" + "]", List([])) && ReadsAs("{" + "" + "}", Record([]))
  {
    assert "[" + "" + "]" == "[]" && "{" + "" + "}" == "{}";
    hide ReadItems, ReadFields;
    forall rest: string ensures ("[]" + rest)[2..] == rest && ("{}" + rest)[2..] == rest { }
  }

  lemma Wrapped(open: string, inner: string, close: string, rest: string)
    requires |open| == 1 && |close| == 1 && inner != []
    ensures var all, end := open + inner + close + rest, close + rest;
      && |all| > 1 && all[0] == open[0] && all[1] == inner[0] && all[1..] == inner + end
      && end[0] == close[0] && end[1..] == rest
  {
  }

  lemma Bracketed(inner: string, docs: seq<Doc>)
    requires inner != [] && inner[0] != ']'
    requires forall rest :: rest != [] && rest[0] == ']' ==> ReadItems(inner + rest) == Got(docs, rest)
    ensures ReadsAs("[" + inner + "]", List(docs))
  {
    hide ReadItems;
    var s := "[" + inner + "]";
    forall rest | Ends(rest) ensures ReadDoc(s + rest) == Got(List(docs), rest) {
      Wrapped("[", inner, "]", rest);
    }
  }

  lemma Braced(inner: string, fields: seq<(string, Doc)>)
    requires inner != [] && inner[0] != '}'
    requires forall rest :: rest != [] && rest[0] == '}' ==> ReadFields(inner + rest) == Got(fields, rest)
    ensures ReadsAs("{" + inner + "}", Record(fields))
  {
    hide ReadFields;
    var s := "{" + inner + "}";
    forall rest | Ends(rest) ensures ReadDoc(s + rest) == Got(Record(fields), rest) {
      Wrapped("{", inner, "}", rest);
    }
  }

  /** The items read as their documents, up to a closing bracket. */
  lemma {:induction false} ItemsRead(heap: Heap, outs: seq<Out>)
    requires AllSpelled(heap, outs) && outs != []
    ensures var s := Joined(Items(heap, outs));
      && s != [] && s[0] != ']'
      && forall rest :: rest != [] && rest[0] == ']' ==> ReadItems(s + rest) == Got(ItemDocs(heap, outs), rest)
    decreases outs, 0
  {
    TextReads(heap, outs[0]);
    var first, doc := ItemText(heap, outs[0]), ItemDoc(heap, outs[0]);
    var more, docs := Items(heap, outs[1..]), ItemDocs(heap, outs[1..]);
    if |outs| > 1 {
      ItemsRead(heap, outs[1..]);
      ItemsSome(heap, outs[1..]);
    } else {
      assert more == [] && docs == [];
    }
    assert Items(heap, outs) == [first] + more && ItemDocs(heap, outs) == [doc] + docs;
    hide Items, ItemDocs, Joined, ReadDoc, Spelled, ItemText, ItemDoc, ReadsAs, ReadItems;
    ItemReads(first, doc, more, docs);
  }

  lemma JoinThree(first: string, more: string, rest: string)
    ensures first + "," + more + rest == first + ("," + (more + rest))
  {
  }

  /** An item in front of others. */
  lemma ItemReads(first: string, doc: Doc, more: seq<string>, docs: seq<Doc>)
    requires ReadsAs(first, doc) && (more == [] <==> docs == [])
    requires more != [] ==>
      forall rest :: rest != [] && rest[0] == ']' ==> ReadItems(Joined(more) + rest) == Got(docs, rest)
    ensures var s := Joined([first] + more);
      && s != [] && s[0] != ']'
      && forall rest :: rest != [] && rest[0] == ']' ==> ReadItems(s + rest) == Got([doc] + docs, rest)
  {
    JoinedMore(first, more);
    hide Joined, ReadDoc;
    var s := Joined([first] + more);
    forall rest | rest != [] && rest[0] == ']' ensures ReadItems(s + rest) == Got([doc] + docs, rest) {
      var tail := if more == [] then rest else "," + (Joined(more) + rest);
      JoinThree(first, Joined(more), rest);
      assert ReadDoc(first + tail) == Got(doc, tail);
      if more != [] {
        assert tail[1..] == Joined(more) + rest;
      } else {
        assert [doc] + docs == [doc];
      }
    }
  }

  lemma JoinedMore(first: string, more: seq<string>)
    ensures Joined([first] + more) == if more == [] then first else first + "," + Joined(more)
  {
    assert ([first] + more)[1..] == more;
  }

  lemma ItemsSome(heap: Heap, outs: seq<Out>)
    requires outs != []
    ensures Items(heap, outs) != []
  {
    hide Text;
  }

  lemma {:induction false} ObjectReads(heap: Heap, keys: seq<string>, kids: seq<Out>)
    requires AllSpelled(heap, kids) && |keys| == |kids| && KeysSpelled(keys)
    ensures ReadsAs("{" + Joined(Fields(heap, keys, kids)) + "}", Record(FieldDocs(heap, keys, kids)))
    decreases kids, 1
  {
    FieldsRead(heap, keys, kids);
    if Fields(heap, keys, kids) != [] {
      hide Fields, FieldDocs, Joined, ReadFields, ReadsAs, Spelled, KeysSpelled;
      Braced(Joined(Fields(heap, keys, kids)), FieldDocs(heap, keys, kids));
    } else {
      hide Fields, FieldDocs, ReadFields, ReadsAs, Spelled, KeysSpelled;
      EmptyBrackets();
    }
  }

  /** The fields read as their documents, up to a closing brace. */
  lemma {:induction false} FieldsRead(heap: Heap, keys: seq<string>, outs: seq<Out>)
    requires AllSpelled(heap, outs) && |keys| == |outs| && KeysSpelled(keys)
    ensures Fields(heap, keys, outs) == [] <==> FieldDocs(heap, keys, outs) == []
    ensures Fields(heap, keys, outs) != [] ==>
      var s := Joined(Fields(heap, keys, outs));
      && s != [] && s[0] != '}'
      && forall rest :: rest != [] && rest[0] == '}' ==> ReadFields(s + rest) == Got(FieldDocs(heap, keys, outs), rest)
    decreases outs, 0
  {
    if outs != [] {
      TextReads(heap, outs[0]);
      FieldsRead(heap, keys[1..], outs[1..]);
      var text, more, docs := Text(heap, outs[0]), Fields(heap, keys[1..], outs[1..]),
        FieldDocs(heap, keys[1..], outs[1..]);
      var doc := DocOf(heap, outs[0]);
      assert IsWord(keys[0]);
      if text.None? {
        assert Fields(heap, keys, outs) == [] + more && [] + more == more;
        assert FieldDocs(heap, keys, outs) == [] + docs && [] + docs == docs;
      } else {
        assert Fields(heap, keys, outs) == [keys[0] + ":" + text.value] + more;
        assert FieldDocs(heap, keys, outs) == [(keys[0], doc.value)] + docs;
        hide Fields, FieldDocs, Text, DocOf, Spelled, KeysSpelled;
        FieldReads(keys[0], text.value, doc.value, more, docs);
      }
    }
  }

  /** A field in front of others. */
  lemma FieldReads(key: string, text: string, doc: Doc, more: seq<string>, docs: seq<(string, Doc)>)
    requires IsWord(key) && ReadsAs(text, doc) && (more == [] <==> docs == [])
    requires more != [] ==>
      forall rest :: rest != [] && rest[0] == '}' ==> ReadFields(Joined(more) + rest) == Got(docs, rest)
    ensures var s := Joined([key + ":" + text] + more);
      && s != [] && s[0] != '}'
      && forall rest :: rest != [] && rest[0] == '}' ==> ReadFields(s + rest) == Got([(key, doc)] + docs, rest)
  {
    var field := key + ":" + text;
    JoinedMore(field, more);
    var s := Joined([field] + more);
    assert key[0] != '}';
    hide Joined, ReadDoc, IsWord;
    assert s[0] == key[0];
    forall rest | rest != [] && rest[0] == '}' ensures ReadFields(s + rest) == Got([(key, doc)] + docs, rest) {
      FieldStep(key, text, doc, more, docs, rest);
    }
  }

  lemma FieldText(key: string, text: string, more: string, rest: string)
    ensures key + ":" + text + rest == key + (":" + (text + rest))
    ensures key + ":" + text + "," + more + rest == key + (":" + (text + ("," + (more + rest))))
  {
    var end := more + rest;
    assert key + ":" + text + "," + more + rest == key + ":" + text + "," + end;
  }

  lemma FieldStep(key: string, text: string, doc: Doc, more: seq<string>, docs: seq<(string, Doc)>, rest: string)
    requires IsWord(key) && ReadsAs(text, doc) && (more == [] <==> docs == []) && rest != [] && rest[0] == '}'
    requires more != [] ==> ReadFields(Joined(more) + rest) == Got(docs, rest)
    ensures ReadFields(Joined([key + ":" + text] + more) + rest) == Got([(key, doc)] + docs, rest)
  {
    var field := key + ":" + text;
    JoinedMore(field, more);
    var tail := if more == [] then rest else "," + (Joined(more) + rest);
    hide Joined, ReadDoc;
    FieldText(key, text, Joined(more), rest);
    KeyReads(key, text, doc, tail);
    hide IsWord, ReadsAs, WordLen;
    if more != [] {
      assert tail[1..] == Joined(more) + rest;
    } else {
      assert [(key, doc)] + docs == [(key, doc)];
    }
  }

  lemma KeyReads(key: string, text: string, doc: Doc, tail: string)
    requires IsWord(key) && ReadsAs(text, doc) && Ends(tail)
    ensures var s := key + (":" + (text + tail));
      && WordLen(s) == |key| && |key| > 0 && |key| < |s| && s[|key|] == ':' && s[..|key|] == key
      && ReadDoc(s[|key| + 1..]) == Got(doc, tail)
  {
    var colon := ":" + (text + tail);
    WordStops(key, colon);
    var s := key + colon;
    assert s[|key|..] == colon && s[|key|] == colon[0];
    assert s[|key| + 1..] == text + tail;
  }

  // ---------- Console arguments ----------

  /** All texts and keys of the object graph are words. */
  predicate WordsIn(heap: Heap) {
    forall r :: r in heap ==> ValuesSpelled(heap[r].values) && (heap[r].Obj? ==> KeysSpelled(heap[r].keys))
  }

  predicate ValueSpelled(v: Value) {
    v.Leaf? && v.text.Some? ==> IsWord(v.text.value)
  }

  predicate ValuesSpelled(vs: seq<Value>) {
    forall i :: 0 <= i < |vs| ==> ValueSpelled(vs[i])
  }

  lemma {:induction false} PrintedIsSpelled(heap: Heap, v: Value, out: Out)
    requires Closed(heap) && WordsIn(heap) && ValueSpelled(v) && Prints(heap, v, out)
    ensures Spelled(heap, out)
    decreases out
  {
    if out.Expanded? {
      var values := heap[out.r].values;
      assert ValuesSpelled(values);
      forall i | 0 <= i < |out.kids| ensures Spelled(heap, out.kids[i]) {
        assert ValueSpelled(values[i]);
        PrintedIsSpelled(heap, values[i], out.kids[i]);
      }
    }
  }

  /** The text of any walk reads back as the tree of what it printed. */
  lemma WalkReads(heap: Heap, v: Value)
    requires Closed(heap) && InHeap(heap, v) && WordsIn(heap) && ValueSpelled(v)
    ensures var out := Walk(heap, v, []).0;
      && (Text(heap, out).Some? <==> DocOf(heap, out).Some?)
      && (Text(heap, out).Some? ==> ReadDoc(Text(heap, out).value) == Got(DocOf(heap, out).value, []))
  {
    var out := Walk(heap, v, []).0;
    WalkPrints(heap, v, []);
    hide Walk;
    PrintedIsSpelled(heap, v, out);
    TextReads(heap, out);
    hide Text, DocOf;
    if Text(heap, out).Some? {
      var s := Text(heap, out).value;
      assert s + [] == s && Ends([]);
      assert ReadDoc(s + []) == Got(DocOf(heap, out).value, []);
    }
  }

  /** What an argument that is no object reads as. */
  function ArgumentDoc(arg: Argument): Option<Doc> {
    match arg
    case Undefined => Some(Word("\"undefined\""))
    case Failure(Some(stack), _) => Some(Word(stack))
    case Failure(None, text) => Some(Word(text))
    case Ordinary(Leaf(Some(text))) => Some(Word(text))
    case Ordinary(Leaf(None)) => Some(Word("null"))
    case Ordinary(Link(_)) => None
  }

  predicate ArgumentSpelled(arg: Argument) {
    match arg
    case Undefined => true
    case Failure(stack, text) => (if stack.Some? then IsWord(stack.value) else IsWord(text))
    case Ordinary(v) => ValueSpelled(v)
  }

  lemma MassagedSpelled(arg: Argument)
    requires ArgumentSpelled(arg)
    ensures ValueSpelled(Massaged(arg))
  {
    FixedWords();
  }

  lemma ArgumentKid(heap: Heap, arg: Argument, out: Out)
    requires Prints(heap, Massaged(arg), out)
    ensures ArgumentDoc(arg).Some? ==> ItemDoc(heap, out) == ArgumentDoc(arg).value
    ensures ArgumentDoc(arg).None? ==> arg.Ordinary? && Prints(heap, arg.value, out)
  {
  }

  /**
    A console message reads back as a list with one item for each argument: "undefined", the stack
    of an error or its text if it has none, the text of a plain value, `null` for one JSON leaves
    out, and for an object the tree the walk printed for it.
   */
  lemma ArgumentsRead(heap: Heap, root: Ref, args: seq<Argument>)
    requires Closed(heap) && root !in heap && WordsIn(heap)
    requires forall i :: 0 <= i < |args| ==> InHeap(heap, Massaged(args[i])) && ArgumentSpelled(args[i])
    ensures Closed(heap[root := Arr(MassagedAll(args))])
    ensures var all := heap[root := Arr(MassagedAll(args))];
      var out := Walk(all, Link(root), []).0;
      && out.Expanded? && |out.kids| == |args| && Text(all, out).Some?
      && ReadDoc(Text(all, out).value) == Got(List(ItemDocs(all, out.kids)), [])
      && forall i :: 0 <= i < |args| ==>
           && Prints(all, Massaged(args[i]), out.kids[i])
           && (ArgumentDoc(args[i]).Some? ==> ItemDocs(all, out.kids)[i] == ArgumentDoc(args[i]).value)
           && (args[i].Ordinary? && args[i].value.Link? ==>
                 DocOf(all, out.kids[i]) == Some(ItemDocs(all, out.kids)[i]))
  {
    var all, values := heap[root := Arr(MassagedAll(args))], MassagedAll(args);
    ClosedWithRoot(heap, root, args);
    forall i | 0 <= i < |values| ensures ValueSpelled(values[i]) { MassagedSpelled(args[i]); }
    assert WordsIn(all);
    WalkReads(all, Link(root));
    var out := Walk(all, Link(root), []).0;
    WalkPrints(all, Link(root), []);
    assert out.Expanded? && out.r == root;
    assert Text(all, out).Some? && DocOf(all, out) == Some(List(ItemDocs(all, out.kids)));
    hide Walk, Text, ReadDoc, ItemDocs;
    forall i | 0 <= i < |args|
      ensures Prints(all, Massaged(args[i]), out.kids[i])
      ensures ArgumentDoc(args[i]).Some? ==> ItemDocs(all, out.kids)[i] == ArgumentDoc(args[i]).value
      ensures args[i].Ordinary? && args[i].value.Link? ==> DocOf(all, out.kids[i]) == Some(ItemDocs(all, out.kids)[i])
    {
      assert values[i] == Massaged(args[i]);
      ItemAt(all, out.kids, i);
      ArgumentKid(all, args[i], out.kids[i]);
    }
  }
}
