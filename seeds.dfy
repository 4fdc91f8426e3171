/**
 * The demo seeder: `build_change_list` flattens the element tree of a YAML
 * seed file into the DataVersion list of one commit, linking every child
 * to its parent through an `owner` reference, and `parse_project` pushes
 * such a list for the branch named "main".
 *
 * `uuid4` is replaced by a supply of ids: the n-th id drawn is
 * `supply(n)`. The REST calls are parameters (the reply to the project
 * creation) or results (the commits pushed).
 */
module Seeds {
  import opened Json

  /** One DataVersion of the change list, before it is written as a dict. */
  datatype Entry = Entry(id: string, name: Json, kind: Json, owner: Option<string>)

  /** `{"@id": id}`. */
  function IdRef(id: string): Json {
    JObj([Member("@id", JStr(id))])
  }

  /** The payload: name and type, and the owner when there is a parent. */
  function Payload(e: Entry): Json {
    JObj([Member("name", e.name), Member("@type", e.kind)] +
      (if e.owner.Some? then [Member("owner", IdRef(e.owner.value))] else []))
  }

  /** The DataVersion dict appended to the change list. */
  function EntryJson(e: Entry): Json {
    JObj([Member("@type", JStr("DataVersion")), Member("identity", IdRef(e.id)), Member("payload", Payload(e))])
  }

  function Jsons(es: seq<Entry>): (r: seq<Json>)
    ensures |r| == |es| && forall i :: 0 <= i < |es| ==> r[i] == EntryJson(es[i])
  {
    seq(|es|, i requires 0 <= i < |es| => EntryJson(es[i]))
  }

  /** A payload holds exactly `name` and `@type`, plus `owner` for a child,
      in that order. */
  lemma PayloadKeys(e: Entry)
    ensures Keys(Payload(e).members) == ["name", "@type"] + (if e.owner.Some? then ["owner"] else [])
  {
    var ks := Keys(Payload(e).members);
    var want := ["name", "@type"] + (if e.owner.Some? then ["owner"] else []);
    assert |ks| == |want|;
    forall i | 0 <= i < |ks| ensures ks[i] == want[i] {
    }
  }

  /** The payload's values are the element's name and type, and the
      parent's id as owner. */
  lemma PayloadValues(e: Entry)
    ensures Lookup(Payload(e).members, "name") == Some(e.name)
    ensures Lookup(Payload(e).members, "@type") == Some(e.kind)
    ensures Lookup(Payload(e).members, "owner") == if e.owner.Some? then Some(IdRef(e.owner.value)) else None
  {
    var ms := Payload(e).members;
    var rest := ms[1..];
    var tail := rest[1..];
    assert ms[0].key == "name" && rest[0].key == "@type";
    assert Lookup(ms, "@type") == Lookup(rest, "@type");
    assert Lookup(ms, "owner") == Lookup(rest, "owner") == Lookup(tail, "owner");
    if e.owner.Some? {
      assert tail[0].key == "owner";
    } else {
      assert tail == [];
    }
  }

  /** The dict determines the entry: nothing is lost in writing it. */
  lemma EntryJsonInjective(a: Entry, b: Entry)
    requires EntryJson(a) == EntryJson(b)
    ensures a == b
  {
    var pa := Payload(a).members;
    var pb := Payload(b).members;
    assert EntryJson(a).members[1].value == IdRef(a.id);
    assert EntryJson(a).members[2].value == Payload(a);
    assert pa == pb;
    assert pa[0].value == a.name && pa[1].value == a.kind;
    if a.owner.Some? {
      assert |pb| == 3;
      assert pa[2].value == IdRef(a.owner.value);
    } else {
      assert |pb| == 2;
    }
  }

  lemma JsonsConcat(a: seq<Entry>, b: seq<Entry>)
    ensures Jsons(a + b) == Jsons(a) + Jsons(b)
  {
  }

  /** The position of key `k` in a dict, or -1. */
  function KeyIndex(ms: Obj, k: string): (r: int)
    ensures -1 <= r < |ms|
    ensures r == -1 <==> !HasKey(ms, k)
    ensures r >= 0 ==> ms[r].key == k && Lookup(ms, k) == Some(ms[r].value)
  {
    if ms == [] then -1
    else if ms[0].key == k then 0
    else
      assert Keys(ms) == [ms[0].key] + Keys(ms[1..]);
      var r := KeyIndex(ms[1..], k);
      if r == -1 then -1 else r + 1
  }

  /** `element.get("children", [])`. */
  function Children(ms: Obj): (r: Json)
    ensures r == if HasKey(ms, "children") then Lookup(ms, "children").value else JArr([])
  {
    var i := KeyIndex(ms, "children");
    if i >= 0 then ms[i].value else JArr([])
  }

  /** What a (partial) run has produced: the entries, the `id_map` dict, and
      how many ids it has drawn so far. */
  datatype Built = Built(entries: seq<Entry>, idMap: map<Json, string>, used: nat)

  /** `build_change_list(elements, owner_id, id_map)` on any value: a list
      is walked; anything else is iterated as Python would, which yields no
      element for an empty string or dict and raises TypeError otherwise
      (a character or a key cannot be indexed by "name"; a number or None
      cannot be iterated). */
  function ChangeList(elements: Json, owner: Option<string>, idMap: map<Json, string>, used: nat,
                      supply: nat -> string): Result<Built>
    decreases elements
  {
    match elements
    case JArr(items) => Items(items, owner, idMap, used, supply)
    case _ =>
      var xs := Iterate(elements);
      if xs.Ok? && xs.value == [] then Ok(Built([], idMap, used)) else Err(TypeError)
  }

  /** The loop over the elements of a list. */
  function Items(items: seq<Json>, owner: Option<string>, idMap: map<Json, string>, used: nat,
                 supply: nat -> string): Result<Built>
    decreases items
  {
    if items == [] then Ok(Built([], idMap, used))
    else
      match Items(items[..|items| - 1], owner, idMap, used, supply)
      case Err(e) => Err(e)
      case Ok(b) =>
        match Element(items[|items| - 1], owner, b.idMap, b.used, supply)
        case Err(e) => Err(e)
        case Ok(b') => Ok(Built(b.entries + b'.entries, b'.idMap, b'.used))
  }

  /** One pass of the loop body: draw an id, record it under the name, write
      the entry, then the entries of the children with this id as owner. */
  function Element(x: Json, owner: Option<string>, idMap: map<Json, string>, used: nat,
                   supply: nat -> string): Result<Built>
    decreases x
  {
    match x
    case JObj(ms) =>
      var id := supply(used);
      (match Lookup(ms, "name")
       case None => Err(KeyError)
       case Some(name) =>
         if !Hashable(name) then Err(TypeError)
         else
           match Lookup(ms, "type")
           case None => Err(KeyError)
           case Some(kind) =>
             var entry := Entry(id, name, kind, owner);
             var i := KeyIndex(ms, "children");
             var children := if i >= 0 then ms[i].value else JArr([]);
             if !Truthy(children) then Ok(Built([entry], idMap[name := id], used + 1))
             else
               assert i >= 0 && ms[i] in ms;
               match ChangeList(children, Some(id), idMap[name := id], used + 1, supply)
               case Err(e) => Err(e)
               case Ok(b) => Ok(Built([entry] + b.entries, b.idMap, b.used)))
    case _ => Err(TypeError)
  }

  /** The element's entry, followed by the entries of its children when it
      has any. */
  lemma ElementOf(x: Json, owner: Option<string>, idMap: map<Json, string>, used: nat, supply: nat -> string)
    requires x.JObj? && Lookup(x.members, "name").Some? && Hashable(Lookup(x.members, "name").value)
    requires Lookup(x.members, "type").Some?
    ensures var name := Lookup(x.members, "name").value;
      var entry := Entry(supply(used), name, Lookup(x.members, "type").value, owner);
      var children := Children(x.members);
      var m := idMap[name := supply(used)];
      Element(x, owner, idMap, used, supply) ==
        if !Truthy(children) then Ok(Built([entry], m, used + 1))
        else if ChangeList(children, Some(supply(used)), m, used + 1, supply).Err? then
          Err(ChangeList(children, Some(supply(used)), m, used + 1, supply).error)
        else
          var b := ChangeList(children, Some(supply(used)), m, used + 1, supply).value;
          Ok(Built([entry] + b.entries, b.idMap, b.used))
  {
  }

  /** One more turn of the loop over a list. */
  lemma ItemsNext(items: seq<Json>, owner: Option<string>, idMap: map<Json, string>, used: nat,
                  supply: nat -> string, i: nat, b: Built)
    requires i < |items| && Items(items[..i], owner, idMap, used, supply) == Ok(b)
    ensures Items(items[..i + 1], owner, idMap, used, supply) ==
      match Element(items[i], owner, b.idMap, b.used, supply)
      case Err(e) => Err(e)
      case Ok(b') => Ok(Built(b.entries + b'.entries, b'.idMap, b'.used))
  {
    assert items[..i + 1][..i] == items[..i];
  }

  lemma {:induction false} ItemsErrExtends(items: seq<Json>, owner: Option<string>, idMap: map<Json, string>,
                                           used: nat, supply: nat -> string, n: nat)
    requires n <= |items| && Items(items[..n], owner, idMap, used, supply).Err?
    ensures Items(items, owner, idMap, used, supply) == Items(items[..n], owner, idMap, used, supply)
    decreases |items| - n
  {
    if n == |items| {
      assert items[..n] == items;
    } else {
      assert items[..n + 1][..n] == items[..n];
      ItemsErrExtends(items, owner, idMap, used, supply, n + 1);
    }
  }

  // ---------------------------------------------------------------------
  // Properties of the change list

  /** Every entry draws one id, in the order of the entries. */
  predicate IdsDrawn(b: Built, used: nat, supply: nat -> string) {
    b.used == used + |b.entries| && forall k :: 0 <= k < |b.entries| ==> b.entries[k].id == supply(used + k)
  }

  /** Every entry is owned by the caller's owner or by an entry before it. */
  predicate OwnedBefore(es: seq<Entry>, owner: Option<string>) {
    forall k :: 0 <= k < |es| ==>
      es[k].owner == owner || exists j :: 0 <= j < k && es[k].owner == Some(es[j].id)
  }

  /** `id_map` after assigning each entry's id to its name, in order. */
  function Assigned(m: map<Json, string>, es: seq<Entry>): map<Json, string> {
    if es == [] then m else Assigned(m, es[..|es| - 1])[es[|es| - 1].name := es[|es| - 1].id]
  }

  /** The number of elements in a tree, nested children included. */
  function Nodes(x: Json): nat
    decreases x
  {
    match x
    case JObj(ms) =>
      var i := KeyIndex(ms, "children");
      var children := if i >= 0 then ms[i].value else JArr([]);
      if Truthy(children) && children.JArr? then 1 + NodesOf(children.items) else 1
    case _ => 0
  }

  function NodesOf(items: seq<Json>): nat
    decreases items
  {
    if items == [] then 0 else NodesOf(items[..|items| - 1]) + Nodes(items[|items| - 1])
  }

  lemma IdsDrawnConcat(a: Built, b: Built, used: nat, supply: nat -> string)
    requires IdsDrawn(a, used, supply) && IdsDrawn(b, a.used, supply)
    ensures IdsDrawn(Built(a.entries + b.entries, b.idMap, b.used), used, supply)
  {
  }

  lemma OwnedBeforeConcat(a: seq<Entry>, b: seq<Entry>, owner: Option<string>)
    requires OwnedBefore(a, owner) && OwnedBefore(b, owner)
    ensures OwnedBefore(a + b, owner)
  {
    var c := a + b;
    forall k | 0 <= k < |c| && c[k].owner != owner
      ensures exists j :: 0 <= j < k && c[k].owner == Some(c[j].id)
    {
      if k < |a| {
        var j :| 0 <= j < k && a[k].owner == Some(a[j].id);
        assert c[j] == a[j];
      } else {
        var j :| 0 <= j < k - |a| && b[k - |a|].owner == Some(b[j].id);
        assert c[j + |a|] == b[j];
      }
    }
  }

  /** An element's entry is owned by the caller's owner; those of its
      children by it or by each other. */
  lemma OwnedBeforeCons(e: Entry, rest: seq<Entry>, owner: Option<string>)
    requires OwnedBefore(rest, Some(e.id)) && e.owner == owner
    ensures OwnedBefore([e] + rest, owner)
  {
    var c := [e] + rest;
    forall k | 1 <= k < |c| && c[k].owner != owner
      ensures exists j :: 0 <= j < k && c[k].owner == Some(c[j].id)
    {
      if c[k].owner != Some(e.id) {
        var j :| 0 <= j < k - 1 && rest[k - 1].owner == Some(rest[j].id);
        assert c[j + 1] == rest[j];
      } else {
        assert c[0].id == e.id;
      }
    }
  }

  lemma {:induction false} AssignedConcat(m: map<Json, string>, a: seq<Entry>, b: seq<Entry>)
    ensures Assigned(m, a + b) == Assigned(Assigned(m, a), b)
    decreases |b|
  {
    if b == [] {
      assert a + b == a;
    } else {
      assert (a + b)[..|a + b| - 1] == a + b[..|b| - 1];
      AssignedConcat(m, a, b[..|b| - 1]);
    }
  }

  lemma AssignedCons(m: map<Json, string>, e: Entry, rest: seq<Entry>)
    ensures Assigned(m, [e] + rest) == Assigned(m[e.name := e.id], rest)
  {
    AssignedConcat(m, [e], rest);
    assert [e][..0] == [];
  }

  /** What every successful run guarantees: one id drawn per entry, in
      order; owners that come first; and `id_map` assigned entry by entry. */
  predicate Facts(b: Built, owner: Option<string>, idMap: map<Json, string>, used: nat, supply: nat -> string) {
    IdsDrawn(b, used, supply) && OwnedBefore(b.entries, owner) && b.idMap == Assigned(idMap, b.entries)
  }

  lemma FactsConcat(a: Built, b: Built, owner: Option<string>, idMap: map<Json, string>, used: nat, supply: nat -> string)
    requires Facts(a, owner, idMap, used, supply) && Facts(b, owner, a.idMap, a.used, supply)
    ensures Facts(Built(a.entries + b.entries, b.idMap, b.used), owner, idMap, used, supply)
  {
    IdsDrawnConcat(a, b, used, supply);
    OwnedBeforeConcat(a.entries, b.entries, owner);
    AssignedConcat(idMap, a.entries, b.entries);
  }

  lemma FactsCons(e: Entry, c: Built, owner: Option<string>, idMap: map<Json, string>, used: nat, supply: nat -> string)
    requires e.id == supply(used) && e.owner == owner
    requires Facts(c, Some(e.id), idMap[e.name := e.id], used + 1, supply)
    ensures Facts(Built([e] + c.entries, c.idMap, c.used), owner, idMap, used, supply)
  {
    OwnedBeforeCons(e, c.entries, owner);
    AssignedCons(idMap, e, c.entries);
    IdsDrawnCons(e, c, used, supply);
  }

  lemma IdsDrawnCons(e: Entry, c: Built, used: nat, supply: nat -> string)
    requires e.id == supply(used) && IdsDrawn(c, used + 1, supply)
    ensures IdsDrawn(Built([e] + c.entries, c.idMap, c.used), used, supply)
  {
    var es := [e] + c.entries;
    forall k | 0 <= k < |es| ensures es[k].id == supply(used + k) {
      if k > 0 {
        assert es[k] == c.entries[k - 1];
      }
    }
  }

  /** The change list of a run that succeeds: its ids, its owners, its
      length and the `id_map` it leaves. */
  lemma {:induction false} ChangeListFacts(elements: Json, owner: Option<string>, idMap: map<Json, string>,
                                           used: nat, supply: nat -> string)
    requires ChangeList(elements, owner, idMap, used, supply).Ok?
    ensures Facts(ChangeList(elements, owner, idMap, used, supply).value, owner, idMap, used, supply)
    ensures |ChangeList(elements, owner, idMap, used, supply).value.entries| ==
      (if elements.JArr? then NodesOf(elements.items) else 0)
    decreases elements, 1
  {
    if elements.JArr? {
      ItemsFacts(elements.items, owner, idMap, used, supply);
    }
  }

  lemma {:induction false} ItemsFacts(items: seq<Json>, owner: Option<string>, idMap: map<Json, string>,
                                      used: nat, supply: nat -> string)
    requires Items(items, owner, idMap, used, supply).Ok?
    ensures Facts(Items(items, owner, idMap, used, supply).value, owner, idMap, used, supply)
    ensures |Items(items, owner, idMap, used, supply).value.entries| == NodesOf(items)
    decreases items
  {
    if items != [] {
      var init := items[..|items| - 1];
      var a := Items(init, owner, idMap, used, supply).value;
      ItemsFacts(init, owner, idMap, used, supply);
      ElementFacts(items[|items| - 1], owner, a.idMap, a.used, supply);
      var b := Element(items[|items| - 1], owner, a.idMap, a.used, supply).value;
      FactsConcat(a, b, owner, idMap, used, supply);
    }
  }

  lemma {:induction false} ElementFacts(x: Json, owner: Option<string>, idMap: map<Json, string>,
                                        used: nat, supply: nat -> string)
    requires Element(x, owner, idMap, used, supply).Ok?
    ensures Facts(Element(x, owner, idMap, used, supply).value, owner, idMap, used, supply)
    ensures |Element(x, owner, idMap, used, supply).value.entries| == Nodes(x)
    ensures Element(x, owner, idMap, used, supply).value.entries[0].owner == owner
    decreases x, 0
  {
    ElementHead(x, owner, idMap, used, supply);
    ElementOf(x, owner, idMap, used, supply);
    NodesUnfold(x);
    var ms := x.members;
    var id := supply(used);
    var name := Lookup(ms, "name").value;
    var entry := Entry(id, name, Lookup(ms, "type").value, owner);
    var children := Children(ms);
    var m := idMap[name := id];
    var c := if Truthy(children) then ChangeList(children, Some(id), m, used + 1, supply).value
      else Built([], m, used + 1);
    if Truthy(children) {
      ChangeListFacts(children, Some(id), m, used + 1, supply);
    }
    FactsCons(entry, c, owner, idMap, used, supply);
    assert Element(x, owner, idMap, used, supply).value == Built([entry] + c.entries, c.idMap, c.used);
  }

  /** A dict counts itself and, when it has a truthy list of children, the
      elements of that list. */
  lemma NodesUnfold(x: Json)
    requires x.JObj?
    ensures var children := Children(x.members);
      Nodes(x) == if Truthy(children) && children.JArr? then 1 + NodesOf(children.items) else 1
  {
  }

  /** Within the entries, a name maps to the id of its last entry. */
  lemma {:induction false} AssignedLastWins(m: map<Json, string>, es: seq<Entry>, k: nat)
    requires k < |es| && forall j :: k < j < |es| ==> es[j].name != es[k].name
    ensures es[k].name in Assigned(m, es) && Assigned(m, es)[es[k].name] == es[k].id
  {
    if k < |es| - 1 {
      AssignedLastWins(m, es[..|es| - 1], k);
    }
  }

  /** A name no entry carries keeps what `id_map` held before. */
  lemma {:induction false} AssignedUntouched(m: map<Json, string>, es: seq<Entry>, key: Json)
    requires forall j :: 0 <= j < |es| ==> es[j].name != key
    ensures (key in Assigned(m, es) <==> key in m) && (key in m ==> Assigned(m, es)[key] == m[key])
  {
    if es != [] {
      AssignedUntouched(m, es[..|es| - 1], key);
    }
  }

  /** A successful element starts with its own entry. */
  lemma ElementHead(x: Json, owner: Option<string>, idMap: map<Json, string>, used: nat,
                    supply: nat -> string)
    requires Element(x, owner, idMap, used, supply).Ok?
    ensures x.JObj? && Lookup(x.members, "name").Some? && Lookup(x.members, "type").Some?
    ensures Hashable(Lookup(x.members, "name").value)
    ensures var es := Element(x, owner, idMap, used, supply).value.entries;
      |es| > 0 && es[0] == Entry(supply(used), Lookup(x.members, "name").value, Lookup(x.members, "type").value, owner)
  {
    ElementOf(x, owner, idMap, used, supply);
  }

  /** A successful run over `items` is a successful run over all but the
      last, followed by the last element. */
  lemma ItemsSnoc(items: seq<Json>, owner: Option<string>, idMap: map<Json, string>, used: nat,
                  supply: nat -> string)
    requires Items(items, owner, idMap, used, supply).Ok? && items != []
    ensures var init := items[..|items| - 1];
      Items(init, owner, idMap, used, supply).Ok? &&
      var a := Items(init, owner, idMap, used, supply).value;
      Element(items[|items| - 1], owner, a.idMap, a.used, supply).Ok? &&
      Items(items, owner, idMap, used, supply).value.entries ==
        a.entries + Element(items[|items| - 1], owner, a.idMap, a.used, supply).value.entries
  {
  }

  /** `es[k]` is the entry written for the element `x` under `owner`. */
  predicate EntryAt(es: seq<Entry>, k: nat, x: Json, owner: Option<string>)
  {
    k < |es| && x.JObj? && es[k].owner == owner &&
    Lookup(x.members, "name") == Some(es[k].name) && Lookup(x.members, "type") == Some(es[k].kind)
  }

  /** Preorder: the entry of the `n`-th top-level item comes right after the
      entries of the items before it, with the caller's owner and the item's
      name and type. */
  lemma {:induction false} ItemsPreorder(items: seq<Json>, owner: Option<string>, idMap: map<Json, string>,
                                         used: nat, supply: nat -> string, n: nat)
    requires Items(items, owner, idMap, used, supply).Ok? && n < |items|
    ensures EntryAt(Items(items, owner, idMap, used, supply).value.entries, NodesOf(items[..n]), items[n], owner)
    decreases |items|
  {
    if n < |items| - 1 {
      ItemsPreorder(items[..|items| - 1], owner, idMap, used, supply, n);
      ItemsKeep(items, owner, idMap, used, supply, n);
    } else {
      ItemsLast(items, owner, idMap, used, supply);
    }
  }

  /** Appending an item keeps the entries already written in place. */
  lemma ItemsKeep(items: seq<Json>, owner: Option<string>, idMap: map<Json, string>,
                  used: nat, supply: nat -> string, n: nat)
    requires Items(items, owner, idMap, used, supply).Ok? && n < |items| - 1
    requires var init := items[..|items| - 1];
      Items(init, owner, idMap, used, supply).Ok? &&
      EntryAt(Items(init, owner, idMap, used, supply).value.entries, NodesOf(init[..n]), init[n], owner)
    ensures EntryAt(Items(items, owner, idMap, used, supply).value.entries, NodesOf(items[..n]), items[n], owner)
  {
    var init := items[..|items| - 1];
    ItemsSnoc(items, owner, idMap, used, supply);
    var a := Items(init, owner, idMap, used, supply).value;
    var b := Element(items[|items| - 1], owner, a.idMap, a.used, supply).value;
    assert init[..n] == items[..n] && init[n] == items[n];
    EntryAtAppend(a.entries, b.entries, NodesOf(init[..n]), items[n], owner);
  }

  /** The last item's entry follows the entries of all the items before it. */
  lemma ItemsLast(items: seq<Json>, owner: Option<string>, idMap: map<Json, string>,
                  used: nat, supply: nat -> string)
    requires Items(items, owner, idMap, used, supply).Ok? && items != []
    ensures EntryAt(Items(items, owner, idMap, used, supply).value.entries, NodesOf(items[..|items| - 1]),
                    items[|items| - 1], owner)
  {
    var init := items[..|items| - 1];
    ItemsSnoc(items, owner, idMap, used, supply);
    var a := Items(init, owner, idMap, used, supply).value;
    var b := Element(items[|items| - 1], owner, a.idMap, a.used, supply).value;
    ItemsFacts(init, owner, idMap, used, supply);
    ElementHead(items[|items| - 1], owner, a.idMap, a.used, supply);
    EntryAtJoin(a.entries, b.entries, items[|items| - 1], owner);
  }

  lemma EntryAtAppend(a: seq<Entry>, b: seq<Entry>, k: nat, x: Json, owner: Option<string>)
    requires EntryAt(a, k, x, owner)
    ensures EntryAt(a + b, k, x, owner)
  {
    assert (a + b)[k] == a[k];
  }

  lemma EntryAtJoin(a: seq<Entry>, b: seq<Entry>, x: Json, owner: Option<string>)
    requires x.JObj? && |b| > 0 && b[0].owner == owner
    requires Lookup(x.members, "name") == Some(b[0].name) && Lookup(x.members, "type") == Some(b[0].kind)
    ensures EntryAt(a + b, |a|, x, owner)
  {
    assert (a + b)[|a|] == b[0];
  }

  // ---------------------------------------------------------------------
  // The imperative seeder

  /** One commit pushed: `push_commit(project_id, branch_id, change)`. */
  datatype Push = Push(projectId: Json, branchId: Json, change: seq<Json>)

  class Seeder {
    /** The ids `uuid4` returns, in order. */
    const supply: nat -> string
    /** The `id_map` dict the recursive calls share. */
    var idMap: map<Json, string>
    /** How many ids have been drawn. */
    var used: nat

    constructor(supply: nat -> string)
      ensures this.supply == supply && idMap == map[] && used == 0
    {
      this.supply := supply;
      idMap := map[];
      used := 0;
    }

    /** `build_change_list(elements, owner_id, id_map)`: on success the
        change list, with `id_map` and the id supply advanced as the
        specification says; on an exception what was raised (the shared
        `id_map` then holds whatever was assigned before it). */
    method BuildChangeList(elements: Json, owner: Option<string>) returns (r: Result<seq<Json>>)
      modifies this
      decreases elements, 1
      ensures match ChangeList(elements, owner, old(idMap), old(used), supply)
        case Ok(b) => r == Ok(Jsons(b.entries)) && idMap == b.idMap && used == b.used
        case Err(e) => r == Err(e)
    {
      if !elements.JArr? {
        var xs := Iterate(elements);
        if xs.Err? || xs.value != [] {
          return Err(TypeError);
        }
        return Ok([]);
      }
      var items := elements.items;
      var change: seq<Json> := [];
      ghost var entries: seq<Entry> := [];
      ghost var idMap0 := idMap;
      ghost var used0 := used;
      var i := 0;
      while i < |items|
        invariant 0 <= i <= |items|
        invariant Items(items[..i], owner, idMap0, used0, supply) == Ok(Built(entries, idMap, used))
        invariant change == Jsons(entries)
      {
        ghost var before := Built(entries, idMap, used);
        ItemsNext(items, owner, idMap0, used0, supply, i, before);
        var more := BuildElement(items[i], owner);
        if more.Err? {
          ItemsErrExtends(items, owner, idMap0, used0, supply, i + 1);
          return Err(more.error);
        }
        ghost var added := Element(items[i], owner, before.idMap, before.used, supply).value.entries;
        JsonsConcat(entries, added);
        change := change + more.value;
        entries := entries + added;
        i := i + 1;
      }
      assert items[..i] == items;
      return Ok(change);
    }

    /** One pass of the loop of `build_change_list` for `element`. */
    method BuildElement(element: Json, owner: Option<string>) returns (r: Result<seq<Json>>)
      modifies this
      decreases element, 0
      ensures match Element(element, owner, old(idMap), old(used), supply)
        case Ok(b) => r == Ok(Jsons(b.entries)) && idMap == b.idMap && used == b.used
        case Err(e) => r == Err(e)
    {
      if !element.JObj? {
        return Err(TypeError);
      }
      ghost var spec := Element(element, owner, idMap, used, supply);
      var elementId := supply(used);
      var name := Lookup(element.members, "name");
      if name.None? {
        assert spec == Err(KeyError);
        return Err(KeyError);
      }
      if !Hashable(name.value) {
        assert spec == Err(TypeError);
        return Err(TypeError);
      }
      idMap := idMap[name.value := elementId];
      used := used + 1;
      var kind := Lookup(element.members, "type");
      if kind.None? {
        assert spec == Err(KeyError);
        return Err(KeyError);
      }
      var entry := Entry(elementId, name.value, kind.value, owner);
      var change := [EntryJson(entry)];
      assert change == Jsons([entry]);
      var c := KeyIndex(element.members, "children");
      var children := if c >= 0 then element.members[c].value else JArr([]);
      ElementOf(element, owner, old(idMap), old(used), supply);
      if Truthy(children) {
        ghost var inner := ChangeList(children, Some(elementId), idMap, used, supply);
        var sub := BuildChangeList(children, Some(elementId));
        if sub.Err? {
          return Err(sub.error);
        }
        JsonsConcat([entry], inner.value.entries);
        change := change + sub.value;
      }
      return Ok(change);
    }

    /** `parse_project(data)` with `response` the reply to the project
        creation (None when the request failed): the commits pushed, one per
        branch named "main", and how the call ended. */
    method ParseProject(data: Json, response: Option<Json>) returns (o: Outcome, pushes: seq<Push>)
      modifies this
      ensures match Index(data, "name")
        case Err(e) => o == Raised(e) && pushes == []
        case Ok(_) =>
          if response.None? || !Truthy(response.value) then o == Done && pushes == []
          else
            match ProjectIds(response.value)
            case Err(e) => o == Raised(e) && pushes == []
            case Ok(ids) =>
              match Index(data, "branches")
              case Err(e) => o == Raised(e) && pushes == []
              case Ok(branches) =>
                (Iterate(branches).Err? ==> o == Raised(Iterate(branches).error) && pushes == []) &&
                (Iterate(branches).Ok? ==>
                   var run := MainPushes(Iterate(branches).value, ids.0, ids.1, old(used), supply);
                   o == run.outcome && pushes == run.pushes)
    {
      pushes := [];
      var name := Index(data, "name");
      if name.Err? {
        return Raised(name.error), [];
      }
      if response.None? || !Truthy(response.value) {
        return Done, [];
      }
      var ids := ProjectIds(response.value);
      if ids.Err? {
        return Raised(ids.error), [];
      }
      var branchesValue := Index(data, "branches");
      if branchesValue.Err? {
        return Raised(branchesValue.error), [];
      }
      var branches := Iterate(branchesValue.value);
      if branches.Err? {
        return Raised(branches.error), [];
      }
      var bs := branches.value;
      ghost var used0 := used;
      var i := 0;
      while i < |bs|
        invariant 0 <= i <= |bs|
        invariant MainPushes(bs[..i], ids.value.0, ids.value.1, used0, supply) == Run(Done, pushes, used)
      {
        MainPushesSnoc(bs, ids.value.0, ids.value.1, used0, supply, i);
        var branchName := Index(bs[i], "name");
        if branchName.Err? {
          MainPushesStops(bs, ids.value.0, ids.value.1, used0, supply, i + 1);
          return Raised(branchName.error), pushes;
        }
        if branchName.value == JStr("main") {
          var elements := Index(bs[i], "elements");
          if elements.Err? {
            MainPushesStops(bs, ids.value.0, ids.value.1, used0, supply, i + 1);
            return Raised(elements.error), pushes;
          }
          idMap := map[];
          var change := BuildChangeList(elements.value, None);
          if change.Err? {
            MainPushesStops(bs, ids.value.0, ids.value.1, used0, supply, i + 1);
            return Raised(change.error), pushes;
          }
          pushes := pushes + [Push(ids.value.0, ids.value.1, change.value)];
        }
        i := i + 1;
      }
      assert bs[..i] == bs;
      return Done, pushes;
    }
  }

  /** `response["@id"]` and `response["defaultBranch"]["@id"]`. */
  function ProjectIds(response: Json): Result<(Json, Json)> {
    match Index(response, "@id")
    case Err(e) => Err(e)
    case Ok(projectId) =>
      match Index(response, "defaultBranch")
      case Err(e) => Err(e)
      case Ok(branch) =>
        match Index(branch, "@id")
        case Err(e) => Err(e)
        case Ok(branchId) => Ok((projectId, branchId))
  }

  /** How a run of the branch loop ended, the commits it pushed, and the ids
      drawn. */
  datatype Run = Run(outcome: Outcome, pushes: seq<Push>, used: nat)

  /** The branch loop of `parse_project`: each branch named "main" gets a
      change list built with a new `id_map`, pushed to the default branch. */
  function MainPushes(bs: seq<Json>, projectId: Json, branchId: Json, used: nat, supply: nat -> string): Run {
    if bs == [] then Run(Done, [], used)
    else MainStep(MainPushes(bs[..|bs| - 1], projectId, branchId, used, supply), bs[|bs| - 1], projectId, branchId, supply)
  }

  /** One pass of the branch loop over `b`, after the passes that led to
      `run`. */
  function MainStep(run: Run, b: Json, projectId: Json, branchId: Json, supply: nat -> string): Run {
    if run.outcome.Raised? then run
    else
      match Index(b, "name")
      case Err(e) => Run(Raised(e), run.pushes, run.used)
      case Ok(name) =>
        if name != JStr("main") then run
        else
          match Index(b, "elements")
          case Err(e) => Run(Raised(e), run.pushes, run.used)
          case Ok(elements) =>
            match ChangeList(elements, None, map[], run.used, supply)
            case Err(e) => Run(Raised(e), run.pushes, run.used)
            case Ok(built) => Run(Done, run.pushes + [Push(projectId, branchId, Jsons(built.entries))], built.used)
  }

  lemma MainPushesSnoc(bs: seq<Json>, projectId: Json, branchId: Json, used: nat, supply: nat -> string, i: nat)
    requires i < |bs|
    ensures MainPushes(bs[..i + 1], projectId, branchId, used, supply) ==
      MainStep(MainPushes(bs[..i], projectId, branchId, used, supply), bs[i], projectId, branchId, supply)
  {
    assert bs[..i + 1][..i] == bs[..i];
  }

  lemma {:induction false} MainPushesStops(bs: seq<Json>, projectId: Json, branchId: Json, used: nat,
                                           supply: nat -> string, n: nat)
    requires n <= |bs| && MainPushes(bs[..n], projectId, branchId, used, supply).outcome.Raised?
    ensures MainPushes(bs, projectId, branchId, used, supply) == MainPushes(bs[..n], projectId, branchId, used, supply)
    decreases |bs| - n
  {
    if n == |bs| {
      assert bs[..n] == bs;
    } else {
      assert bs[..n + 1][..n] == bs[..n];
      MainPushesStops(bs, projectId, branchId, used, supply, n + 1);
    }
  }

  /** The branches named "main". */
  function MainCount(bs: seq<Json>): nat {
    if bs == [] then 0
    else MainCount(bs[..|bs| - 1]) + (if Index(bs[|bs| - 1], "name") == Ok(JStr("main")) then 1 else 0)
  }

  /** Only branches named "main" get a commit, each exactly one when the
      run ends normally, all to the project's default branch. */
  lemma {:induction false} MainPushesOnly(bs: seq<Json>, projectId: Json, branchId: Json, used: nat, supply: nat -> string)
    ensures var run := MainPushes(bs, projectId, branchId, used, supply);
      |run.pushes| <= MainCount(bs) &&
      (run.outcome == Done ==> |run.pushes| == MainCount(bs)) &&
      forall k :: 0 <= k < |run.pushes| ==> run.pushes[k].projectId == projectId && run.pushes[k].branchId == branchId
  {
    if bs != [] {
      MainPushesOnly(bs[..|bs| - 1], projectId, branchId, used, supply);
      MainStepOnly(MainPushes(bs[..|bs| - 1], projectId, branchId, used, supply), bs[|bs| - 1], projectId, branchId, supply);
    }
  }

  /** One pass adds at most one commit, exactly one for a "main" branch
      when it ends normally, and to the default branch. */
  lemma MainStepOnly(run: Run, b: Json, projectId: Json, branchId: Json, supply: nat -> string)
    requires forall k :: 0 <= k < |run.pushes| ==> run.pushes[k].projectId == projectId && run.pushes[k].branchId == branchId
    ensures var main := if Index(b, "name") == Ok(JStr("main")) then 1 else 0;
      var r := MainStep(run, b, projectId, branchId, supply);
      |run.pushes| <= |r.pushes| <= |run.pushes| + main &&
      (r.outcome == Done ==> run.outcome == Done && |r.pushes| == |run.pushes| + main) &&
      forall k :: 0 <= k < |r.pushes| ==> r.pushes[k].projectId == projectId && r.pushes[k].branchId == branchId
  {
  }
}
