/**
 * The demo UI's tree renderer: `_normalize_id` reads an element reference,
 * and `model_to_markdown` renders a flat element list as an indented
 * Markdown list, every element under its owner. `add_line` keeps a
 * visiting set and writes a marker line for a key already on its path, but
 * `model_to_markdown` never reaches that branch: every element on an
 * ownership cycle has a parent key, so none of them is a root, and the
 * walk from the roots never enters the cycle. Such elements are left out
 * of the text (`MarkdownCycleDropped`).
 *
 * The elements are dicts (`List[dict]`), so they are given as `Obj`s. The
 * `id_map` dict becomes a `map` (its key order is never observed), `order`,
 * `roots` and the children lists are sequences. The nested `add_line`
 * closure becomes the class `TreeWriter`, whose fields are the variables
 * the closure shares with its caller.
 */
module Frontend {
  import opened Json
  import opened PyText

  /** `_normalize_id(value)`: None stays None, a dict gives `str` of its
      "@id" (None when that is missing or None), anything else its `str`. */
  function NormalizeId(value: Json): (r: Option<string>)
    ensures value.JNull? ==> r == None
    ensures value.JStr? ==> r == Some(value.s)
    ensures value.JObj? ==> (r.Some? <==> Lookup(value.members, "@id").Some? && !Lookup(value.members, "@id").value.JNull?)
  {
    match value
    case JNull => None
    case JObj(ms) => if Get(ms, "@id") != JNull then Some(Str(Get(ms, "@id"))) else None
    case _ => Some(Str(value))
  }

  /** A reference `{"@id": id, ...}` and the bare id `id` name the same
      element. */
  lemma NormalizeIdReference(ms: Obj, id: string)
    requires Lookup(ms, "@id") == Some(JStr(id))
    ensures NormalizeId(JObj(ms)) == NormalizeId(JStr(id)) == Some(id)
  {
  }

  // ---------------------------------------------------------------------
  // Keys: `id_map` and `order`

  /** `f"__idx_{i}"`, the key of an element whose id is missing or taken. */
  function FallbackKey(i: nat): string {
    "__idx_" + Digits(i)
  }

  /** Different positions give different fallback keys. */
  lemma FallbackKeyInjective(i: nat, j: nat)
    requires FallbackKey(i) == FallbackKey(j)
    ensures i == j
  {
    assert FallbackKey(i)[6..] == Digits(i);
    assert FallbackKey(j)[6..] == Digits(j);
    DigitsRoundTrip(i);
    DigitsRoundTrip(j);
  }

  /** The two structures the first loop builds. */
  datatype Keyed = Keyed(idMap: map<string, Obj>, order: seq<string>)

  /** The key of the `i`-th element given the keys taken so far: its
      normalised id, unless that is missing, empty or taken. */
  function KeyFor(elem: Obj, i: nat, idMap: map<string, Obj>): string {
    var eid := NormalizeId(Get(elem, "@id"));
    if eid.None? || eid.value == "" || eid.value in idMap then FallbackKey(i) else eid.value
  }

  /** The first loop of `model_to_markdown` over `elements`. */
  function KeyAll(elements: seq<Obj>): Keyed {
    if elements == [] then Keyed(map[], [])
    else
      var k := KeyAll(elements[..|elements| - 1]);
      var eid := KeyFor(elements[|elements| - 1], |elements| - 1, k.idMap);
      Keyed(k.idMap[eid := elements[|elements| - 1]], k.order + [eid])
  }

  /** One key per element, and the keys of `id_map` are exactly those in
      `order`. */
  lemma {:induction false} KeyAllShape(elements: seq<Obj>)
    ensures var k := KeyAll(elements);
      |k.order| == |elements| &&
      (forall i :: 0 <= i < |k.order| ==> k.order[i] in k.idMap) &&
      (forall key :: key in k.idMap ==> key in k.order)
  {
    if elements != [] {
      KeyAllShape(elements[..|elements| - 1]);
    }
  }

  /** No normalised id has the form of a fallback key. */
  predicate NoFallbackIds(elements: seq<Obj>) {
    forall i :: 0 <= i < |elements| ==>
      var eid := NormalizeId(Get(elements[i], "@id"));
      eid.None? || !StartsWith(eid.value, "__idx_")
  }

  /** A key that is new to `id_map`, or the fallback key of the next
      position, is not among the keys taken before. */
  lemma FreshKey(idMap: map<string, Obj>, order: seq<string>, eid: string)
    requires forall i :: 0 <= i < |order| ==> order[i] in idMap
    requires forall i :: 0 <= i < |order| ==> KeyForm(order[i], i)
    requires eid == FallbackKey(|order|) || eid !in idMap
    ensures eid !in order
  {
    forall i | 0 <= i < |order| ensures order[i] != eid {
      if eid == FallbackKey(|order|) {
        if order[i] == FallbackKey(i) {
          if order[i] == eid { FallbackKeyInjective(i, |order|); }
        } else {
          assert eid[..6] == "__idx_";
        }
      }
    }
  }

  /** An element's key is its fallback key, or its own id, new to `id_map`;
      the latter has the form of a fallback key only if the id does. */
  lemma KeyForShape(elem: Obj, i: nat, idMap: map<string, Obj>)
    requires NormalizeId(Get(elem, "@id")).None? || !StartsWith(NormalizeId(Get(elem, "@id")).value, "__idx_")
    ensures KeyFor(elem, i, idMap) == FallbackKey(i) ||
      (KeyFor(elem, i, idMap) !in idMap && !StartsWith(KeyFor(elem, i, idMap), "__idx_"))
  {
  }

  /** `key`, at position `i`, is the fallback key of `i` or does not look
      like any fallback key. */
  predicate KeyForm(key: string, i: nat) {
    key == FallbackKey(i) || !StartsWith(key, "__idx_")
  }

  /** Every key of `order` is bound to the element at its position. */
  predicate KeysBound(idMap: map<string, Obj>, order: seq<string>, elements: seq<Obj>)
    requires |order| == |elements|
  {
    forall i :: 0 <= i < |order| ==> order[i] in idMap && idMap[order[i]] == elements[i]
  }

  /** Binding a key that is not yet in `order` keeps the earlier bindings. */
  lemma KeysBoundSnoc(idMap: map<string, Obj>, order: seq<string>, elements: seq<Obj>, key: string, x: Obj)
    requires |order| == |elements| && KeysBound(idMap, order, elements) && key !in order
    ensures KeysBound(idMap[key := x], order + [key], elements + [x])
  {
    var order', elements' := order + [key], elements + [x];
    forall i | 0 <= i < |order'| ensures order'[i] in idMap[key := x] && idMap[key := x][order'[i]] == elements'[i] {
      if i < |order| {
        assert order'[i] == order[i] != key;
      }
    }
  }

  /** When no element's id looks like a fallback key, every element gets a
      key of its own and `id_map` maps it back to that element: nothing is
      overwritten. */
  lemma {:induction false} KeyAllDistinct(elements: seq<Obj>)
    requires NoFallbackIds(elements)
    ensures var k := KeyAll(elements);
      |k.order| == |elements| && Distinct(k.order) && KeysBound(k.idMap, k.order, elements) &&
      forall i :: 0 <= i < |elements| ==> KeyForm(k.order[i], i)
  {
    if elements != [] {
      var init := elements[..|elements| - 1];
      var x := elements[|elements| - 1];
      assert init + [x] == elements;
      assert NoFallbackIds(init) by {
        forall i | 0 <= i < |init| ensures init[i] == elements[i] { }
      }
      KeyAllDistinct(init);
      KeyAllShape(init);
      KeyAllLast(elements);
      KeyedSnoc(KeyAll(init), init, x);
    }
  }

  /** The first loop's last turn. */
  lemma KeyAllLast(elements: seq<Obj>)
    requires elements != []
    ensures var k := KeyAll(elements[..|elements| - 1]);
      var eid := KeyFor(elements[|elements| - 1], |elements| - 1, k.idMap);
      KeyAll(elements) == Keyed(k.idMap[eid := elements[|elements| - 1]], k.order + [eid])
  {
  }

  /** One more turn of the first loop keeps the keys distinct, bound and of
      their form, when the new element's id does not look like a fallback
      key. */
  lemma KeyedSnoc(k: Keyed, init: seq<Obj>, x: Obj)
    requires |k.order| == |init| && Distinct(k.order) && KeysBound(k.idMap, k.order, init)
    requires forall i :: 0 <= i < |init| ==> KeyForm(k.order[i], i)
    requires NormalizeId(Get(x, "@id")).None? || !StartsWith(NormalizeId(Get(x, "@id")).value, "__idx_")
    ensures var eid := KeyFor(x, |init|, k.idMap);
      var order' := k.order + [eid];
      Distinct(order') && KeysBound(k.idMap[eid := x], order', init + [x]) &&
      forall i :: 0 <= i < |order'| ==> KeyForm(order'[i], i)
  {
    var n := |init|;
    KeyForShape(x, n, k.idMap);
    var eid := KeyFor(x, n, k.idMap);
    FreshKey(k.idMap, k.order, eid);
    DistinctSnoc(k.order, eid);
    KeysBoundSnoc(k.idMap, k.order, init, eid, x);
    var order' := k.order + [eid];
    forall i | 0 <= i < |order'| ensures KeyForm(order'[i], i) {
      if i < n {
        assert order'[i] == k.order[i];
      }
    }
  }

  /** The ids of the first two elements below collide: the second element's
      fallback key is the first element's own id, so it replaces the first
      element in `id_map` and `order` holds that key twice. */
  lemma FallbackCollision()
    ensures var k := KeyAll([[Member("@id", JStr("__idx_1"))], []]);
      k.order == ["__idx_1", "__idx_1"] && k.idMap == map["__idx_1" := []]
  {
    var first: Obj := [Member("@id", JStr("__idx_1"))];
    var es: seq<Obj> := [first, []];
    assert es[..1] == [first] && [first][..0] == [];
    assert KeyAll([]) == Keyed(map[], []);
    assert Get(first, "@id") == JStr("__idx_1");
    assert KeyFor(first, 0, map[]) == "__idx_1";
    var k1 := KeyAll([first]);
    assert k1 == Keyed(map["__idx_1" := first], ["__idx_1"]);
    assert DigitChar(1) == '1';
    assert FallbackKey(1) == "__idx_1";
    assert Get([], "@id") == JNull;
    assert KeyFor([], 1, k1.idMap) == "__idx_1";
  }

  // ---------------------------------------------------------------------
  // Ownership: `children` and `roots`

  /** The key of the parent of `eid`: the normalised owner when that is a
      non-empty key of `id_map` other than `eid` itself. */
  function ParentKey(idMap: map<string, Obj>, eid: string): (r: Option<string>)
    requires eid in idMap
  {
    var ownerId := NormalizeId(Get(idMap[eid], "owner"));
    if ownerId.Some? && ownerId.value != "" && ownerId.value in idMap && ownerId.value != eid then ownerId else None
  }

  /** The keys of `order`, in order, whose parent is `p`. */
  function Kids(idMap: map<string, Obj>, order: seq<string>, p: string): (r: seq<string>)
    requires forall i :: 0 <= i < |order| ==> order[i] in idMap
  {
    if order == [] then []
    else
      Kids(idMap, order[..|order| - 1], p) +
        (if ParentKey(idMap, order[|order| - 1]) == Some(p) then [order[|order| - 1]] else [])
  }

  /** The keys of `order`, in order, that have no parent. */
  function Roots(idMap: map<string, Obj>, order: seq<string>): (r: seq<string>)
    requires forall i :: 0 <= i < |order| ==> order[i] in idMap
  {
    if order == [] then []
    else
      Roots(idMap, order[..|order| - 1]) +
        (if ParentKey(idMap, order[|order| - 1]).None? then [order[|order| - 1]] else [])
  }

  /** One more key: it joins the list of its parent, or the roots. */
  lemma LinkStep(idMap: map<string, Obj>, order: seq<string>, j: nat)
    requires forall i :: 0 <= i < |order| ==> order[i] in idMap
    requires j < |order|
    ensures var parent := ParentKey(idMap, order[j]);
      (forall p :: Kids(idMap, order[..j + 1], p) ==
         Kids(idMap, order[..j], p) + (if parent == Some(p) then [order[j]] else [])) &&
      Roots(idMap, order[..j + 1]) == Roots(idMap, order[..j]) + (if parent.None? then [order[j]] else [])
  {
    assert order[..j + 1][..j] == order[..j];
  }

  /** The second loop's state after `j` keys, and after one more. */
  lemma LinkAdvance(idMap: map<string, Obj>, order: seq<string>, j: nat,
                    children: map<string, seq<string>>, roots: seq<string>,
                    children': map<string, seq<string>>, roots': seq<string>)
    requires forall i :: 0 <= i < |order| ==> order[i] in idMap
    requires j < |order| && children.Keys == idMap.Keys
    requires forall p :: p in children ==> children[p] == Kids(idMap, order[..j], p)
    requires roots == Roots(idMap, order[..j])
    requires var parent := ParentKey(idMap, order[j]);
      if parent.Some? then children' == children[parent.value := children[parent.value] + [order[j]]] && roots' == roots
      else children' == children && roots' == roots + [order[j]]
    ensures children'.Keys == idMap.Keys && roots' == Roots(idMap, order[..j + 1])
    ensures forall p :: p in children' ==> children'[p] == Kids(idMap, order[..j + 1], p)
  {
    LinkStep(idMap, order, j);
  }

  /** The `children` dict: a list for every key of `id_map`. */
  function ChildrenMap(idMap: map<string, Obj>, order: seq<string>): (r: map<string, seq<string>>)
    requires forall i :: 0 <= i < |order| ==> order[i] in idMap
  {
    map p | p in idMap :: Kids(idMap, order, p)
  }

  lemma {:induction false} KidsMembers(idMap: map<string, Obj>, order: seq<string>, p: string, x: string)
    requires forall i :: 0 <= i < |order| ==> order[i] in idMap
    ensures x in Kids(idMap, order, p) <==> x in order && ParentKey(idMap, x) == Some(p)
  {
    if order != [] {
      KidsMembers(idMap, order[..|order| - 1], p, x);
      assert order == order[..|order| - 1] + [order[|order| - 1]];
    }
  }

  lemma {:induction false} RootsMembers(idMap: map<string, Obj>, order: seq<string>, x: string)
    requires forall i :: 0 <= i < |order| ==> order[i] in idMap
    ensures x in Roots(idMap, order) <==> x in order && ParentKey(idMap, x).None?
  {
    if order != [] {
      RootsMembers(idMap, order[..|order| - 1], x);
      assert order == order[..|order| - 1] + [order[|order| - 1]];
    }
  }

  /** Every key is a root or the child of one parent, never both; the parent
      is another key of `id_map` and the one its normalised owner names. */
  lemma Ownership(idMap: map<string, Obj>, order: seq<string>, x: string, p: string, q: string)
    requires forall i :: 0 <= i < |order| ==> order[i] in idMap
    requires x in order
    ensures x in Roots(idMap, order) <==> forall p' :: p' in idMap ==> x !in Kids(idMap, order, p')
    ensures x in Kids(idMap, order, p) ==>
      p in idMap && p != x && p != "" && NormalizeId(Get(idMap[x], "owner")) == Some(p)
    ensures x in Kids(idMap, order, p) && x in Kids(idMap, order, q) ==> p == q
  {
    RootsMembers(idMap, order, x);
    KidsMembers(idMap, order, p, x);
    KidsMembers(idMap, order, q, x);
    if x !in Roots(idMap, order) {
      var parent := ParentKey(idMap, x).value;
      KidsMembers(idMap, order, parent, x);
    } else {
      forall p' | p' in idMap ensures x !in Kids(idMap, order, p') {
        KidsMembers(idMap, order, p', x);
      }
    }
  }

  // ---------------------------------------------------------------------
  // Rendering

  /** `"  " * depth`. */
  function Pad(depth: nat): (r: string)
    ensures |r| == 2 * depth && forall i :: 0 <= i < |r| ==> r[i] == ' '
  {
    seq(2 * depth, _ => ' ')
  }

  /** `(value or "").strip()`: a falsy value reads as "", a string is
      stripped, and anything else has no `strip`. */
  function Text(value: Json): (r: Result<string>)
    ensures r.Err? <==> Truthy(value) && !value.JStr?
    ensures r.Err? ==> r.error == AttributeError
    ensures r.Ok? ==> Trimmed(r.value)
  {
    if !Truthy(value) then Ok("")
    else if value.JStr? then (StripTrimmed(value.s); Ok(Strip(value.s)))
    else Err(AttributeError)
  }

  /** The text after "- " on an element's line, from its stripped name and
      type. */
  function Caption(name: string, etype: string): string {
    (if name == "" then "(unnamed)" else name) + (if etype != "" then " (" + etype + ")" else "")
  }

  /** The caption of an element, or the exception reading its name or type
      raises. */
  function Label(elem: Obj): (r: Result<string>)
    ensures r.Ok? <==> Text(Get(elem, "name")).Ok? && Text(Get(elem, "@type")).Ok?
  {
    match Text(Get(elem, "name"))
    case Err(e) => Err(e)
    case Ok(name) =>
      match Text(Get(elem, "@type"))
      case Err(e) => Err(e)
      case Ok(etype) => Ok(Caption(name, etype))
  }

  /** A caption starts with the name, or with "(unnamed)" when the name is
      blank, and so never with a blank; the type follows in parentheses only
      when it is not blank. */
  lemma CaptionShape(name: string, etype: string)
    requires Trimmed(name)
    ensures var c := Caption(name, etype);
      |c| > 0 && !IsSpace(c[0]) &&
      (name != "" ==> |c| >= |name| && c[..|name|] == name) &&
      (name == "" ==> |c| >= 9 && c[..9] == "(unnamed)") &&
      (etype == "" <==> c == (if name == "" then "(unnamed)" else name))
  {
    var shown := if name == "" then "(unnamed)" else name;
    var detail := if etype != "" then " (" + etype + ")" else "";
    assert Caption(name, etype) == shown + detail;
    assert (shown + detail)[..|shown|] == shown;
    assert (shown + detail)[0] == shown[0];
    if etype == "" {
      assert shown + detail == shown;
    } else {
      assert |shown + detail| > |shown|;
    }
  }

  /** The line marking a key met again while it is being rendered. */
  function CycleLine(depth: nat, id: string): string {
    Pad(depth) + "- [cycle detected at " + id + "]"
  }

  /** The line of an element. */
  function ElementLine(depth: nat, caption: string): string {
    Pad(depth) + "- " + caption
  }

  /** `add_line(cur_id, depth)` with `visiting` the keys on the current
      path: the lines it appends. */
  function Lines(idMap: map<string, Obj>, children: map<string, seq<string>>, cur: string, depth: nat,
                 visiting: set<string>): Result<seq<string>>
    decreases idMap.Keys - visiting, 1, 0
  {
    if cur in visiting then Ok([CycleLine(depth, cur)])
    else if cur !in idMap then Err(KeyError)
    else NodeLines(idMap, children, cur, depth, visiting)
  }

  /** `add_line` past the cycle check: the element's line, then its
      children one level deeper with `cur` on the path. */
  function NodeLines(idMap: map<string, Obj>, children: map<string, seq<string>>, cur: string, depth: nat,
                     visiting: set<string>): Result<seq<string>>
    requires cur in idMap && cur !in visiting
    decreases idMap.Keys - visiting, 0, 0
  {
    match Label(idMap[cur])
    case Err(e) => Err(e)
    case Ok(caption) =>
      Shrinks(idMap.Keys, visiting, cur);
      var kids := if cur in children then children[cur] else [];
      match LinesOf(idMap, children, kids, depth + 1, visiting + {cur})
      case Err(e) => Err(e)
      case Ok(ls) => Ok([ElementLine(depth, caption)] + ls)
  }

  /** `add_line` on each key of `ids` in turn, from the same `visiting`. */
  function LinesOf(idMap: map<string, Obj>, children: map<string, seq<string>>, ids: seq<string>, depth: nat,
                   visiting: set<string>): Result<seq<string>>
    decreases idMap.Keys - visiting, 2, |ids|
  {
    if ids == [] then Ok([])
    else
      match LinesOf(idMap, children, ids[..|ids| - 1], depth, visiting)
      case Err(e) => Err(e)
      case Ok(a) =>
        match Lines(idMap, children, ids[|ids| - 1], depth, visiting)
        case Err(e) => Err(e)
        case Ok(b) => Ok(a + b)
  }

  lemma {:induction false} LinesOfErrExtends(idMap: map<string, Obj>, children: map<string, seq<string>>,
                                             ids: seq<string>, depth: nat, visiting: set<string>, n: nat)
    requires n <= |ids| && LinesOf(idMap, children, ids[..n], depth, visiting).Err?
    ensures LinesOf(idMap, children, ids, depth, visiting) == LinesOf(idMap, children, ids[..n], depth, visiting)
    decreases |ids| - n
  {
    if n == |ids| {
      assert ids[..n] == ids;
    } else {
      assert ids[..n + 1][..n] == ids[..n];
      LinesOfErrExtends(idMap, children, ids, depth, visiting, n + 1);
    }
  }

  /** Every line starts with `2 * depth` spaces, then at least two more
      characters. */
  predicate Indented(lines: seq<string>, depth: nat) {
    forall line :: line in lines ==> |line| >= 2 * depth + 2 && line[..2 * depth] == Pad(depth)
  }

  lemma IndentedDeeper(lines: seq<string>, depth: nat)
    requires Indented(lines, depth + 1)
    ensures Indented(lines, depth)
  {
    forall line | line in lines ensures |line| >= 2 * depth + 2 && line[..2 * depth] == Pad(depth) {
      assert line[..2 * depth] == line[..2 * (depth + 1)][..2 * depth];
    }
  }

  lemma IndentedConcat(a: seq<string>, b: seq<string>, depth: nat)
    requires Indented(a, depth) && Indented(b, depth)
    ensures Indented(a + b, depth)
  {
    forall line | line in a + b ensures line in a || line in b { }
  }

  lemma LineIndented(depth: nat, rest: string)
    requires |rest| >= 2
    ensures Indented([Pad(depth) + rest], depth)
  {
    var line := Pad(depth) + rest;
    assert line[..2 * depth] == Pad(depth);
  }

  /** Every line `add_line(cur, depth)` appends starts with `2 * depth`
      spaces; the lines of the children sit one level deeper. */
  lemma {:induction false} LinesIndented(idMap: map<string, Obj>, children: map<string, seq<string>>, cur: string,
                                         depth: nat, visiting: set<string>)
    requires Lines(idMap, children, cur, depth, visiting).Ok?
    ensures Indented(Lines(idMap, children, cur, depth, visiting).value, depth)
    decreases idMap.Keys - visiting, 1, 0
  {
    if cur in visiting {
      LinesCycle(idMap, children, cur, depth, visiting);
      CycleLineIndented(depth, cur);
    } else {
      LinesNode(idMap, children, cur, depth, visiting);
      Shrinks(idMap.Keys, visiting, cur);
      var kids := if cur in children then children[cur] else [];
      var ls := LinesOf(idMap, children, kids, depth + 1, visiting + {cur}).value;
      LinesOfIndented(idMap, children, kids, depth + 1, visiting + {cur});
      IndentedDeeper(ls, depth);
      var caption := Label(idMap[cur]).value;
      ElementLineIndented(depth, caption);
      IndentedConcat([ElementLine(depth, caption)], ls, depth);
    }
  }

  lemma CycleLineIndented(depth: nat, cur: string)
    ensures Indented([CycleLine(depth, cur)], depth)
  {
    LineIndented(depth, "- [cycle detected at " + cur + "]");
    assert CycleLine(depth, cur) == Pad(depth) + ("- [cycle detected at " + cur + "]");
  }

  lemma ElementLineIndented(depth: nat, caption: string)
    ensures Indented([ElementLine(depth, caption)], depth)
  {
    LineIndented(depth, "- " + caption);
    assert ElementLine(depth, caption) == Pad(depth) + ("- " + caption);
  }

  lemma {:induction false} LinesOfIndented(idMap: map<string, Obj>, children: map<string, seq<string>>,
                                           ids: seq<string>, depth: nat, visiting: set<string>)
    requires LinesOf(idMap, children, ids, depth, visiting).Ok?
    ensures Indented(LinesOf(idMap, children, ids, depth, visiting).value, depth)
    decreases idMap.Keys - visiting, 2, |ids|
  {
    if ids != [] {
      var init := ids[..|ids| - 1];
      LinesOfIndented(idMap, children, init, depth, visiting);
      LinesIndented(idMap, children, ids[|ids| - 1], depth, visiting);
      IndentedConcat(LinesOf(idMap, children, init, depth, visiting).value,
                     Lines(idMap, children, ids[|ids| - 1], depth, visiting).value, depth);
    }
  }

  /** The first line `add_line` appends: the cycle marker exactly when the
      key is already on the path, and otherwise the element's own line,
      followed by the lines of its children one level deeper. */
  lemma LinesHead(idMap: map<string, Obj>, children: map<string, seq<string>>, cur: string, depth: nat,
                  visiting: set<string>)
    requires Lines(idMap, children, cur, depth, visiting).Ok?
    ensures cur in visiting ==> Lines(idMap, children, cur, depth, visiting).value == [CycleLine(depth, cur)]
    ensures cur !in visiting ==>
      cur in idMap && Label(idMap[cur]).Ok? &&
      var kids := if cur in children then children[cur] else [];
      LinesOf(idMap, children, kids, depth + 1, visiting + {cur}).Ok? &&
      Lines(idMap, children, cur, depth, visiting).value ==
        [ElementLine(depth, Label(idMap[cur]).value)] + LinesOf(idMap, children, kids, depth + 1, visiting + {cur}).value
  {
  }

  lemma LinesCycle(idMap: map<string, Obj>, children: map<string, seq<string>>, cur: string, depth: nat,
                   visiting: set<string>)
    requires cur in visiting
    ensures Lines(idMap, children, cur, depth, visiting) == Ok([CycleLine(depth, cur)])
  {
  }

  lemma LinesMissing(idMap: map<string, Obj>, children: map<string, seq<string>>, cur: string, depth: nat,
                     visiting: set<string>)
    requires cur !in visiting && cur !in idMap
    ensures Lines(idMap, children, cur, depth, visiting) == Err(KeyError)
  {
  }

  lemma LinesNode(idMap: map<string, Obj>, children: map<string, seq<string>>, cur: string, depth: nat,
                  visiting: set<string>)
    requires cur !in visiting && cur in idMap
    ensures Label(idMap[cur]).Err? ==> Lines(idMap, children, cur, depth, visiting) == Err(Label(idMap[cur]).error)
    ensures Label(idMap[cur]).Ok? ==>
      var kids := if cur in children then children[cur] else [];
      var r := LinesOf(idMap, children, kids, depth + 1, visiting + {cur});
      Lines(idMap, children, cur, depth, visiting) ==
        if r.Err? then Err(r.error) else Ok([ElementLine(depth, Label(idMap[cur]).value)] + r.value)
  {
  }

  /** Adding a key of `keys` to the path leaves fewer keys off it. */
  lemma Shrinks(keys: set<string>, visiting: set<string>, cur: string)
    requires cur in keys && cur !in visiting
    ensures keys - (visiting + {cur}) < keys - visiting
  {
    assert cur in keys - visiting;
  }

  /** Removing the key again gives back the path as it was. */
  lemma Restored(visiting: set<string>, cur: string)
    requires cur !in visiting
    ensures (visiting + {cur}) - {cur} == visiting
  {
  }

  /** `"\n".join(lines)`. */
  function JoinLines(lines: seq<string>): string {
    if lines == [] then ""
    else if |lines| == 1 then lines[0]
    else JoinLines(lines[..|lines| - 1]) + "\n" + lines[|lines| - 1]
  }

  /** What `model_to_markdown(elements)` returns, or the exception it
      raises. */
  function Markdown(elements: seq<Obj>): Result<string> {
    var k := KeyAll(elements);
    KeyAllShape(elements);
    match LinesOf(k.idMap, ChildrenMap(k.idMap, k.order), Roots(k.idMap, k.order), 0, {})
    case Err(e) => Err(e)
    case Ok(lines) => Ok(JoinLines(lines))
  }

  /** No elements, no text. */
  lemma MarkdownEmpty()
    ensures Markdown([]) == Ok("")
  {
  }

  /** Two elements that own each other are both dropped: neither is a
      root, so nothing is rendered. */
  lemma MarkdownCycleDropped()
    ensures Markdown([[Member("@id", JStr("a")), Member("owner", JStr("b"))],
                      [Member("@id", JStr("b")), Member("owner", JStr("a"))]]) == Ok("")
  {
    var a: Obj := [Member("@id", JStr("a")), Member("owner", JStr("b"))];
    var b: Obj := [Member("@id", JStr("b")), Member("owner", JStr("a"))];
    var es: seq<Obj> := [a, b];
    assert es[..1] == [a] && [a][..0] == [];
    assert Get(a, "@id") == JStr("a") && Get(a, "owner") == JStr("b");
    assert Get(b, "@id") == JStr("b") && Get(b, "owner") == JStr("a");
    assert NormalizeId(JStr("a")) == Some("a") && NormalizeId(JStr("b")) == Some("b");
    assert KeyAll([a]) == Keyed(map["a" := a], ["a"]);
    var idMap := map["a" := a, "b" := b];
    assert KeyAll(es) == Keyed(idMap, ["a", "b"]);
    assert ParentKey(idMap, "a") == Some("b");
    assert ParentKey(idMap, "b") == Some("a");
    assert ["a", "b"][..1] == ["a"] && ["a"][..0] == [];
    assert Roots(idMap, ["a"]) == [];
    assert Roots(idMap, ["a", "b"]) == [];
  }

  lemma AppendAssoc(a: seq<string>, b: seq<string>, c: seq<string>)
    ensures a + b + c == a + (b + c)
  {
  }

  /** The variables `add_line` shares with `model_to_markdown`. */
  class TreeWriter {
    const idMap: map<string, Obj>
    const children: map<string, seq<string>>
    var lines: seq<string>
    var visiting: set<string>

    constructor(idMap: map<string, Obj>, children: map<string, seq<string>>)
      ensures this.idMap == idMap && this.children == children && lines == [] && visiting == {}
    {
      this.idMap := idMap;
      this.children := children;
      lines := [];
      visiting := {};
    }

    /** `add_line(cur_id, depth)`: appends the lines of the subtree under
        `curId` and leaves `visiting` as it found it; on an exception,
        reports what was raised. */
    method AddLine(curId: string, depth: nat) returns (o: Outcome)
      modifies this
      decreases idMap.Keys - visiting, 1
      ensures match Lines(idMap, children, curId, depth, old(visiting))
        case Ok(ls) => o == Done && lines == old(lines) + ls && visiting == old(visiting)
        case Err(e) => o == Raised(e)
    {
      if curId in visiting {
        LinesCycle(idMap, children, curId, depth, visiting);
        lines := lines + [CycleLine(depth, curId)];
        return Done;
      }
      ghost var v0 := visiting;
      visiting := visiting + {curId};
      if curId !in idMap {
        LinesMissing(idMap, children, curId, depth, v0);
        return Raised(KeyError);
      }
      var caption := Label(idMap[curId]);
      LinesNode(idMap, children, curId, depth, v0);
      if caption.Err? {
        return Raised(caption.error);
      }
      ghost var lines0 := lines;
      lines := lines + [ElementLine(depth, caption.value)];
      Shrinks(idMap.Keys, v0, curId);
      var kids := if curId in children then children[curId] else [];
      o := AddChildren(kids, depth + 1);
      if o.Raised? {
        return;
      }
      ghost var ls := LinesOf(idMap, children, kids, depth + 1, v0 + {curId}).value;
      AppendAssoc(lines0, [ElementLine(depth, caption.value)], ls);
      visiting := visiting - {curId};
      Restored(v0, curId);
    }

    /** The loop of `add_line` over the children of the current key, each
        one level deeper; `model_to_markdown` runs the same loop over the
        roots at depth 0. */
    method AddChildren(kids: seq<string>, depth: nat) returns (o: Outcome)
      modifies this
      decreases idMap.Keys - visiting, 2
      ensures match LinesOf(idMap, children, kids, depth, old(visiting))
        case Ok(ls) => o == Done && lines == old(lines) + ls && visiting == old(visiting)
        case Err(e) => o == Raised(e)
    {
      ghost var v := visiting;
      ghost var lines0 := lines;
      ghost var acc: seq<string> := [];
      var j := 0;
      while j < |kids|
        invariant 0 <= j <= |kids|
        invariant visiting == v
        invariant LinesOf(idMap, children, kids[..j], depth, v) == Ok(acc)
        invariant lines == lines0 + acc
      {
        assert kids[..j + 1][..j] == kids[..j];
        o := AddLine(kids[j], depth);
        if o.Raised? {
          LinesOfErrExtends(idMap, children, kids, depth, v, j + 1);
          return;
        }
        AppendAssoc(lines0, acc, Lines(idMap, children, kids[j], depth, v).value);
        acc := acc + Lines(idMap, children, kids[j], depth, v).value;
        j := j + 1;
      }
      assert kids[..j] == kids;
      return Done;
    }
  }

  /** The first loop of `model_to_markdown`: the key of every element and
      the element under every key. */
  method KeyElements(elements: seq<Obj>) returns (idMap: map<string, Obj>, order: seq<string>)
    ensures KeyAll(elements) == Keyed(idMap, order)
  {
    idMap := map[];
    order := [];
    var i := 0;
    while i < |elements|
      invariant 0 <= i <= |elements|
      invariant KeyAll(elements[..i]) == Keyed(idMap, order)
    {
      assert elements[..i + 1][..i] == elements[..i];
      var eid := NormalizeId(Get(elements[i], "@id"));
      var key: string;
      if eid.None? || eid.value == "" || eid.value in idMap {
        key := FallbackKey(i);
      } else {
        key := eid.value;
      }
      idMap := idMap[key := elements[i]];
      order := order + [key];
      i := i + 1;
    }
    assert elements[..i] == elements;
  }

  /** The second loop of `model_to_markdown`: every key goes to the list of
      its parent, or to the roots. */
  method LinkOwners(idMap: map<string, Obj>, order: seq<string>) returns (children: map<string, seq<string>>, roots: seq<string>)
    requires forall i :: 0 <= i < |order| ==> order[i] in idMap
    ensures children == ChildrenMap(idMap, order) && roots == Roots(idMap, order)
  {
    children := map p | p in idMap :: [];
    roots := [];
    var j := 0;
    while j < |order|
      invariant 0 <= j <= |order|
      invariant children.Keys == idMap.Keys
      invariant forall p :: p in children ==> children[p] == Kids(idMap, order[..j], p)
      invariant roots == Roots(idMap, order[..j])
    {
      ghost var children0, roots0 := children, roots;
      var eid := order[j];
      var ownerId := NormalizeId(Get(idMap[eid], "owner"));
      if ownerId.Some? && ownerId.value != "" && ownerId.value in idMap && ownerId.value != eid {
        children := children[ownerId.value := children[ownerId.value] + [eid]];
      } else {
        roots := roots + [eid];
      }
      LinkAdvance(idMap, order, j, children0, roots0, children, roots);
      j := j + 1;
    }
    assert order[..j] == order;
  }

  /** `model_to_markdown(elements)`. */
  method ModelToMarkdown(elements: seq<Obj>) returns (r: Result<string>)
    ensures r == Markdown(elements)
  {
    var idMap, order := KeyElements(elements);
    KeyAllShape(elements);
    var children, roots := LinkOwners(idMap, order);
    var w := new TreeWriter(idMap, children);
    ghost var tree := LinesOf(idMap, children, roots, 0, {});
    var o := w.AddChildren(roots, 0);
    MarkdownKeyed(elements, idMap, order);
    if o.Raised? {
      return Err(o.error);
    }
    assert w.lines == [] + tree.value == tree.value;
    return Ok(JoinLines(w.lines));
  }

  /** The text in terms of the two maps the first loops build. */
  lemma MarkdownKeyed(elements: seq<Obj>, idMap: map<string, Obj>, order: seq<string>)
    requires KeyAll(elements) == Keyed(idMap, order)
    requires forall i :: 0 <= i < |order| ==> order[i] in idMap
    ensures Markdown(elements) ==
      match LinesOf(idMap, ChildrenMap(idMap, order), Roots(idMap, order), 0, {})
      case Err(e) => Err(e)
      case Ok(lines) => Ok(JoinLines(lines))
  {
  }
}
