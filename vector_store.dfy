/**
 * The vector store that holds one document per model element: the
 * element's JSON text, its `@id` as document id and its owner's `@id` as
 * metadata. Chroma itself is left abstract: the collection is a list of
 * documents with distinct ids, kept in insertion order, and the similarity
 * search is a function parameter.
 */
module VectorStore {
  import opened Json
  import JsonSanitize

  /** `json.loads` raises `JSONDecodeError`, a ValueError. */
  const ParseError: Error := ValueError("Expecting value")

  /** A stored document: id, page content and the `owner_id` metadata
      (JNull when the element has no owner). */
  datatype Doc = Doc(id: Json, content: string, ownerId: Json)

  function Ids(docs: seq<Doc>): (r: seq<Json>)
    ensures |r| == |docs| && forall i :: 0 <= i < |docs| ==> r[i] == docs[i].id
  {
    if docs == [] then [] else [docs[0].id] + Ids(docs[1..])
  }

  /** `vector_store.get(ids=[id])`: the stored document with that id. */
  function FindDoc(docs: seq<Doc>, id: Json): (r: Option<Doc>)
    ensures r.Some? <==> id in Ids(docs)
    ensures r.Some? ==> r.value in docs && r.value.id == id
  {
    if docs == [] then None
    else if docs[0].id == id then Some(docs[0])
    else
      assert Ids(docs) == [docs[0].id] + Ids(docs[1..]);
      FindDoc(docs[1..], id)
  }

  /** Adding a document whose id is stored already replaces that document in
      place; a new id goes to the end. */
  function Upsert(docs: seq<Doc>, d: Doc): (r: seq<Doc>)
    ensures forall k :: k in Ids(r) <==> k in Ids(docs) || k == d.id
    ensures Distinct(Ids(docs)) ==> Distinct(Ids(r))
  {
    if docs == [] then [d]
    else
      assert Ids(docs) == [docs[0].id] + Ids(docs[1..]);
      DistinctCons(docs[0].id, Ids(docs[1..]));
      if docs[0].id == d.id then
        assert Ids([d] + docs[1..]) == [d.id] + Ids(docs[1..]);
        [d] + docs[1..]
      else
        var rest := Upsert(docs[1..], d);
        assert Ids([docs[0]] + rest) == [docs[0].id] + Ids(rest);
        DistinctCons(docs[0].id, Ids(rest));
        [docs[0]] + rest
  }

  /** After an upsert the new document is found under its id and every
      other id finds what it found before. */
  lemma {:induction false} UpsertFind(docs: seq<Doc>, d: Doc, k: Json)
    ensures FindDoc(Upsert(docs, d), k) == if k == d.id then Some(d) else FindDoc(docs, k)
  {
    if docs != [] && docs[0].id != d.id {
      var r := Upsert(docs, d);
      assert r[1..] == Upsert(docs[1..], d);
      UpsertFind(docs[1..], d, k);
    }
  }

  /** `add_documents`: one upsert per document, in order. */
  function UpsertAll(docs: seq<Doc>, ds: seq<Doc>): (r: seq<Doc>)
    ensures Distinct(Ids(docs)) ==> Distinct(Ids(r))
    ensures forall k :: k in Ids(r) <==> k in Ids(docs) || k in Ids(ds)
    decreases |ds|
  {
    if ds == [] then docs
    else
      assert Ids(ds) == [ds[0].id] + Ids(ds[1..]);
      UpsertAll(Upsert(docs, ds[0]), ds[1..])
  }

  /** Ids that are not added keep their documents. */
  lemma {:induction false} UpsertAllUntouched(docs: seq<Doc>, ds: seq<Doc>, k: Json)
    requires k !in Ids(ds)
    ensures FindDoc(UpsertAll(docs, ds), k) == FindDoc(docs, k)
    decreases |ds|
  {
    if ds != [] {
      assert Ids(ds) == [ds[0].id] + Ids(ds[1..]);
      UpsertFind(docs, ds[0], k);
      UpsertAllUntouched(Upsert(docs, ds[0]), ds[1..], k);
    }
  }

  /** The last document added under an id is the one stored. */
  lemma {:induction false} UpsertAllLast(docs: seq<Doc>, ds: seq<Doc>, j: int)
    requires 0 <= j < |ds|
    requires forall j' :: j < j' < |ds| ==> ds[j'].id != ds[j].id
    ensures FindDoc(UpsertAll(docs, ds), ds[j].id) == Some(ds[j])
    decreases |ds|
  {
    var k := ds[j].id;
    UpsertFind(docs, ds[0], k);
    if j > 0 {
      assert ds[1..][j - 1] == ds[j];
      forall j' | j - 1 < j' < |ds[1..]| ensures ds[1..][j'].id != k {
        assert ds[1..][j'] == ds[j' + 1];
      }
      UpsertAllLast(Upsert(docs, ds[0]), ds[1..], j - 1);
    } else {
      forall j' | 0 <= j' < |ds[1..]| ensures Ids(ds[1..])[j'] != k {
        assert ds[1..][j'] == ds[j' + 1];
      }
      UpsertAllUntouched(Upsert(docs, ds[0]), ds[1..], k);
    }
  }

  /** The document `add_elements` builds for one sanitised element:
      `element["@id"]` raises KeyError when the id is missing, and
      `element.get("owner", {}).get("@id")` raises AttributeError on an owner
      that is not a dict. */
  function ToDocument(codec: JsonCodec, e: Obj): (r: Result<Doc>)
    ensures r.Ok? <==> HasKey(e, "@id") && (HasKey(e, "owner") ==> Lookup(e, "owner").value.JObj?)
    ensures !HasKey(e, "@id") ==> r == Err(KeyError)
    ensures HasKey(e, "@id") && !r.Ok? ==> r == Err(AttributeError)
    ensures r.Ok? ==> r.value.id == Lookup(e, "@id").value && r.value.content == codec.dumps(JObj(e))
    ensures r.Ok? && !HasKey(e, "owner") ==> r.value.ownerId == JNull
    ensures r.Ok? && HasKey(e, "owner") ==> r.value.ownerId == Get(Lookup(e, "owner").value.members, "@id")
  {
    var content := codec.dumps(JObj(e));
    match Lookup(e, "@id")
    case None => Err(KeyError)
    case Some(id) =>
      match Lookup(e, "owner")
      case None => Ok(Doc(id, content, JNull))
      case Some(owner) =>
        if owner.JObj? then Ok(Doc(id, content, Get(owner.members, "@id"))) else Err(AttributeError)
  }

  /** The documents for a list of sanitised elements; the first element
      that has no document stops the loop with its error. */
  function Documents(codec: JsonCodec, es: seq<Obj>): (r: Result<seq<Doc>>)
    ensures r.Ok? <==> forall i :: 0 <= i < |es| ==> ToDocument(codec, es[i]).Ok?
    ensures r.Ok? ==> |r.value| == |es|
    ensures r.Ok? ==> forall i :: 0 <= i < |es| ==> r.value[i] == ToDocument(codec, es[i]).value
    ensures r.Err? ==> r.error == KeyError || r.error == AttributeError
  {
    if es == [] then Ok([])
    else
      var init := es[..|es| - 1];
      match Documents(codec, init)
      case Err(e) => DocumentsSnocFails(codec, es, init); Err(e)
      case Ok(ds) =>
        match ToDocument(codec, es[|es| - 1])
        case Err(e) => Err(e)
        case Ok(d) => DocumentsSnoc(codec, es, init, ds, d); Ok(ds + [d])
  }

  /** A document for every element but the last, and one for the last. */
  lemma DocumentsSnoc(codec: JsonCodec, es: seq<Obj>, init: seq<Obj>, ds: seq<Doc>, d: Doc)
    requires es != [] && init == es[..|es| - 1] && |ds| == |init|
    requires forall i :: 0 <= i < |init| ==> ToDocument(codec, init[i]).Ok? && ds[i] == ToDocument(codec, init[i]).value
    requires ToDocument(codec, es[|es| - 1]) == Ok(d)
    ensures forall i :: 0 <= i < |es| ==> ToDocument(codec, es[i]).Ok? && (ds + [d])[i] == ToDocument(codec, es[i]).value
  {
    forall i | 0 <= i < |es|
      ensures ToDocument(codec, es[i]).Ok? && (ds + [d])[i] == ToDocument(codec, es[i]).value
    {
      if i < |init| {
        assert init[i] == es[i];
      }
    }
  }

  /** An element without a document among all but the last is one of the
      whole list. */
  lemma DocumentsSnocFails(codec: JsonCodec, es: seq<Obj>, init: seq<Obj>)
    requires es != [] && init == es[..|es| - 1]
    requires !forall i :: 0 <= i < |init| ==> ToDocument(codec, init[i]).Ok?
    ensures !forall i :: 0 <= i < |es| ==> ToDocument(codec, es[i]).Ok?
  {
    var i :| 0 <= i < |init| && !ToDocument(codec, init[i]).Ok?;
    assert init[i] == es[i];
  }

  /** Once a prefix has no documents, the whole list fails with the same
      error. */
  lemma {:induction false} DocumentsErrExtends(codec: JsonCodec, es: seq<Obj>, n: nat)
    requires n <= |es| && Documents(codec, es[..n]).Err?
    ensures Documents(codec, es) == Documents(codec, es[..n])
    decreases |es| - n
  {
    if n < |es| {
      assert es[..n + 1][..n] == es[..n];
      DocumentsErrExtends(codec, es, n + 1);
    } else {
      assert es[..n] == es;
    }
  }

  /** The stored documents whose `owner_id` is `id` and whose content is not
      empty, in store order. */
  function ChildDocs(docs: seq<Doc>, id: Json): (r: seq<Doc>)
    ensures forall d :: d in r <==> d in docs && d.ownerId == id && d.content != ""
  {
    if docs == [] then []
    else if docs[0].ownerId == id && docs[0].content != "" then [docs[0]] + ChildDocs(docs[1..], id)
    else ChildDocs(docs[1..], id)
  }

  /** `[json.loads(c) for c in contents]`. */
  function ParseAll(codec: JsonCodec, contents: seq<string>): (r: Result<seq<Json>>)
    ensures r.Ok? <==> forall i :: 0 <= i < |contents| ==> codec.loads(contents[i]).Some?
    ensures r.Err? ==> r.error == ParseError
    ensures r.Ok? ==> |r.value| == |contents|
    ensures r.Ok? ==> forall i :: 0 <= i < |contents| ==> Some(r.value[i]) == codec.loads(contents[i])
  {
    if contents == [] then Ok([])
    else
      match codec.loads(contents[0])
      case None => Err(ParseError)
      case Some(j) =>
        match ParseAll(codec, contents[1..])
        case Err(e) => Err(e)
        case Ok(rest) => Ok([j] + rest)
  }

  function Contents(ds: seq<Doc>): (r: seq<string>)
    ensures |r| == |ds| && forall i :: 0 <= i < |ds| ==> r[i] == ds[i].content
  {
    seq(|ds|, i requires 0 <= i < |ds| => ds[i].content)
  }

  /** The children of `id`: the parsed contents of its child documents. */
  function Children(docs: seq<Doc>, codec: JsonCodec, id: Json): Result<seq<Json>> {
    ParseAll(codec, Contents(ChildDocs(docs, id)))
  }

  /** The `owner_id` stored with the document `id`, JNull without one. */
  function StoredOwner(docs: seq<Doc>, id: Json): Json {
    match FindDoc(docs, id)
    case Some(d) => d.ownerId
    case None => JNull
  }

  /** The owner element: looked up only for a truthy stored `owner_id`,
      parsed only when its document has content, kept only when truthy. */
  function Owner(docs: seq<Doc>, codec: JsonCodec, id: Json): (r: Result<Option<Json>>)
    ensures !Truthy(StoredOwner(docs, id)) ==> r == Ok(None)
    ensures FindDoc(docs, StoredOwner(docs, id)).None? ==> r == Ok(None)
    ensures r == Ok(None) || r == Err(ParseError) ||
      (r.Ok? && Truthy(r.value.value) &&
       FindDoc(docs, StoredOwner(docs, id)).Some? &&
       codec.loads(FindDoc(docs, StoredOwner(docs, id)).value.content) == r.value)
  {
    var ownerId := StoredOwner(docs, id);
    if !Truthy(ownerId) then Ok(None)
    else
      match FindDoc(docs, ownerId)
      case None => Ok(None)
      case Some(od) =>
        if od.content == "" then Ok(None)
        else
          match codec.loads(od.content)
          case None => Err(ParseError)
          case Some(owner) => if Truthy(owner) then Ok(Some(owner)) else Ok(None)
  }

  /** The children followed by the owner, when there is one. */
  function Combined(docs: seq<Doc>, codec: JsonCodec, id: Json): Result<seq<Json>> {
    match Children(docs, codec, id)
    case Err(e) => Err(e)
    case Ok(children) =>
      match Owner(docs, codec, id)
      case Err(e) => Err(e)
      case Ok(owner) => if owner.Some? then Ok(children + [owner.value]) else Ok(children)
  }

  /** `el.get("@id")` for a dict. */
  function IdOf(el: Json): Json {
    if el.JObj? then Get(el.members, "@id") else JNull
  }

  function IdsOf(els: seq<Json>): (r: seq<Json>)
    ensures |r| == |els| && forall i :: 0 <= i < |els| ==> r[i] == IdOf(els[i])
  {
    seq(|els|, i requires 0 <= i < |els| => IdOf(els[i]))
  }

  /** The first occurrences of the values of `s`, in order. */
  function Uniq(s: seq<Json>): (r: seq<Json>)
    ensures Distinct(r)
    ensures forall x :: x in r <==> x in s
  {
    if s == [] then []
    else
      var u := Uniq(s[..|s| - 1]);
      assert forall x :: x in s <==> x in s[..|s| - 1] || x == s[|s| - 1] by {
        assert s == s[..|s| - 1] + [s[|s| - 1]];
      }
      if s[|s| - 1] in u then u
      else
        DistinctSnoc(u, s[|s| - 1]);
        u + [s[|s| - 1]]
  }

  /** The position of the element with id `k` in a list of elements with
      distinct ids. */
  function PositionOf(acc: seq<Json>, k: Json): (r: nat)
    requires k in IdsOf(acc)
    ensures r < |acc| && IdOf(acc[r]) == k
    ensures forall j :: 0 <= j < r ==> IdOf(acc[j]) != k
  {
    PositionFrom(acc, k, 0)
  }

  /** The first position at or after `i` holding an element with id `k`. */
  function PositionFrom(acc: seq<Json>, k: Json, i: nat): (r: nat)
    requires i <= |acc| && exists j :: i <= j < |acc| && IdOf(acc[j]) == k
    ensures i <= r < |acc| && IdOf(acc[r]) == k
    ensures forall j :: i <= j < r ==> IdOf(acc[j]) != k
    decreases |acc| - i
  {
    if IdOf(acc[i]) == k then i else PositionFrom(acc, k, i + 1)
  }

  /** `unique_by_id[el.get("@id")] = el` on the dict kept as a list of its
      values: an id already present keeps its position and takes the new
      element, a new id goes to the end. */
  function DedupStep(acc: seq<Json>, el: Json): (r: seq<Json>)
    ensures IdsOf(r) == if IdOf(el) in IdsOf(acc) then IdsOf(acc) else IdsOf(acc) + [IdOf(el)]
    ensures forall j :: 0 <= j < |r| ==> r[j] == el || r[j] in acc
  {
    if IdOf(el) in IdsOf(acc) then
      var p := PositionOf(acc, IdOf(el));
      var r := acc[p := el];
      assert IdsOf(r) == IdsOf(acc);
      r
    else
      var r := acc + [el];
      assert IdsOf(r) == IdsOf(acc) + [IdOf(el)];
      r
  }

  /** The loop over `combined` that fills `unique_by_id`, and its values:
      `el.get` raises AttributeError on an element that is not a dict, and
      a list or dict id cannot be a key. */
  function Dedup(els: seq<Json>): (r: Result<seq<Json>>)
    ensures r.Ok? ==> IdsOf(r.value) == Uniq(IdsOf(els))
  {
    if els == [] then Ok([])
    else
      var init := els[..|els| - 1];
      var last := els[|els| - 1];
      assert IdsOf(els)[..|els| - 1] == IdsOf(init);
      match Dedup(init)
      case Err(e) => Err(e)
      case Ok(acc) =>
        if !last.JObj? then Err(AttributeError)
        else if !Hashable(IdOf(last)) then Err(TypeError)
        else Ok(DedupStep(acc, last))
  }

  /** The loop fails exactly when some element is not a dict or has an id
      that cannot be a key. */
  lemma {:induction false} DedupOk(els: seq<Json>)
    ensures Dedup(els).Ok? <==> forall i :: 0 <= i < |els| ==> Keyable(els[i])
  {
    if els != [] {
      DedupOk(els[..|els| - 1]);
      DedupLast(els);
      KeyableSnoc(els);
    }
  }

  /** A dict whose id can be a key. */
  predicate Keyable(el: Json) {
    el.JObj? && Hashable(IdOf(el))
  }

  predicate AllKeyable(els: seq<Json>) {
    forall i :: 0 <= i < |els| ==> Keyable(els[i])
  }

  /** Every element of a non-empty list can be keyed exactly when every
      element but the last can, and the last can. */
  lemma KeyableSnoc(els: seq<Json>)
    requires els != []
    ensures AllKeyable(els) <==> AllKeyable(els[..|els| - 1]) && Keyable(els[|els| - 1])
  {
    var init := els[..|els| - 1];
    assert forall i :: 0 <= i < |init| ==> init[i] == els[i];
  }

  /** The loop over a non-empty list succeeds exactly when it succeeds on
      all but the last element and the last one can be keyed. */
  lemma DedupLast(els: seq<Json>)
    requires els != []
    ensures Dedup(els).Ok? <==>
      Dedup(els[..|els| - 1]).Ok? && Keyable(els[|els| - 1])
  {
  }

  /** Every kept element is an element of the input. */
  lemma {:induction false} DedupFrom(els: seq<Json>)
    requires Dedup(els).Ok?
    ensures forall j :: 0 <= j < |Dedup(els).value| ==> Dedup(els).value[j] in els
  {
    if els != [] {
      var init := els[..|els| - 1];
      DedupFrom(init);
      var r := Dedup(els).value;
      forall j | 0 <= j < |r| ensures r[j] in els {
        if r[j] != els[|els| - 1] {
          var i :| 0 <= i < |init| && init[i] == r[j];
          assert els[i] == r[j];
        }
      }
    }
  }

  /** Every element whose id is kept is the last element of the input with
      that id ("last value wins"). */
  lemma {:induction false} DedupLastWins(els: seq<Json>, i: int)
    requires Dedup(els).Ok? && 0 <= i < |els|
    requires forall i' :: i < i' < |els| ==> IdOf(els[i']) != IdOf(els[i])
    ensures els[i] in Dedup(els).value
  {
    var init := els[..|els| - 1];
    DedupUnfold(els);
    if i == |els| - 1 {
      DedupStepHas(Dedup(init).value, els[i]);
    } else {
      assert init[i] == els[i];
      DedupLastWins(init, i);
      DedupStepKeeps(Dedup(init).value, els[|els| - 1], els[i]);
    }
  }

  /** One more turn of the loop. */
  lemma DedupUnfold(els: seq<Json>)
    requires els != [] && Dedup(els).Ok?
    ensures Dedup(els[..|els| - 1]).Ok?
    ensures Dedup(els).value == DedupStep(Dedup(els[..|els| - 1]).value, els[|els| - 1])
  {
  }

  /** The stored element is in the dict afterwards. */
  lemma DedupStepHas(acc: seq<Json>, el: Json)
    ensures el in DedupStep(acc, el)
  {
    var r := DedupStep(acc, el);
    if IdOf(el) in IdsOf(acc) {
      var p := PositionOf(acc, IdOf(el));
      assert r[p] == el;
    } else {
      assert r[|r| - 1] == el;
    }
  }

  /** A stored element with another id stays in the dict. */
  lemma DedupStepKeeps(acc: seq<Json>, el: Json, x: Json)
    requires x in acc && IdOf(x) != IdOf(el)
    ensures x in DedupStep(acc, el)
  {
    var r := DedupStep(acc, el);
    var q :| 0 <= q < |acc| && acc[q] == x;
    if IdOf(el) in IdsOf(acc) {
      var p := PositionOf(acc, IdOf(el));
      assert r == acc[p := el];
      assert r[q] == x;
    } else {
      assert r[q] == x;
    }
  }

  /** The result of `related_elements(id)`. */
  function Related(docs: seq<Doc>, codec: JsonCodec, id: Json): Result<seq<Json>> {
    match Combined(docs, codec, id)
    case Err(e) => Err(e)
    case Ok(combined) => Dedup(combined)
  }

  /** The ids in the result are pairwise distinct and appear in the order of
      their first occurrence among the children and the owner. */
  lemma RelatedDistinct(docs: seq<Doc>, codec: JsonCodec, id: Json)
    requires Related(docs, codec, id).Ok?
    ensures Distinct(IdsOf(Related(docs, codec, id).value))
    ensures IdsOf(Related(docs, codec, id).value) == Uniq(IdsOf(Combined(docs, codec, id).value))
  {
  }

  /** Every child document of `id` reaches the result: its parsed content,
      or a later child with the same id. */
  lemma RelatedHasChildren(docs: seq<Doc>, codec: JsonCodec, id: Json, d: Doc)
    requires Related(docs, codec, id).Ok?
    requires d in docs && d.ownerId == id && d.content != ""
    ensures codec.loads(d.content).Some?
    ensures IdOf(codec.loads(d.content).value) in IdsOf(Related(docs, codec, id).value)
  {
    var cs := ChildDocs(docs, id);
    var i :| 0 <= i < |cs| && cs[i] == d;
    var children := Children(docs, codec, id).value;
    assert Some(children[i]) == codec.loads(d.content);
    var combined := Combined(docs, codec, id).value;
    assert combined[i] == children[i];
    assert IdOf(children[i]) in IdsOf(combined);
  }

  /** Without a truthy stored `owner_id`, or when that owner is not stored,
      the result holds the children only; in particular an id that is not in
      the store can still have children. */
  lemma RelatedChildrenOnly(docs: seq<Doc>, codec: JsonCodec, id: Json)
    requires Related(docs, codec, id).Ok?
    requires !Truthy(StoredOwner(docs, id)) || FindDoc(docs, StoredOwner(docs, id)).None?
    ensures Related(docs, codec, id) == Dedup(Children(docs, codec, id).value)
  {
  }

  /** An element of the result is a child of `id` or its owner. */
  lemma RelatedFromChildrenOrOwner(docs: seq<Doc>, codec: JsonCodec, id: Json, e: Json)
    requires Related(docs, codec, id).Ok?
    requires e in Related(docs, codec, id).value
    ensures e in Children(docs, codec, id).value || Owner(docs, codec, id) == Ok(Some(e))
  {
    DedupFrom(Combined(docs, codec, id).value);
    var r := Related(docs, codec, id).value;
    var j :| 0 <= j < |r| && r[j] == e;
    assert e in Combined(docs, codec, id).value;
  }

  /** Every item is a JSON object. */
  predicate AllObjects(xs: seq<Json>) {
    forall i :: 0 <= i < |xs| ==> xs[i].JObj?
  }

  /** The store after `add_elements(elements)`, or the error it raises:
      sanitising raises for a value that is not a list of dicts (even an
      empty one), a falsy input adds nothing, otherwise one document per
      sanitised element is added. */
  function AddResult(codec: JsonCodec, docs: seq<Doc>, elements: Json): (r: Result<seq<Doc>>)
    ensures Iterate(elements).Err? ==> r == Err(TypeError)
    ensures Iterate(elements).Ok? && !AllObjects(Iterate(elements).value) ==> r == Err(AttributeError)
    ensures Iterate(elements).Ok? && !Truthy(elements) ==> r == Ok(docs)
    ensures Iterate(elements).Ok? && AllObjects(Iterate(elements).value) && Truthy(elements) ==>
      (Documents(codec, JsonSanitize.SanitizeAll(Iterate(elements).value)).Err? ==>
         r == Err(Documents(codec, JsonSanitize.SanitizeAll(Iterate(elements).value)).error)) &&
      (Documents(codec, JsonSanitize.SanitizeAll(Iterate(elements).value)).Ok? ==>
         r == Ok(UpsertAll(docs, Documents(codec, JsonSanitize.SanitizeAll(Iterate(elements).value)).value)))
    ensures Distinct(Ids(docs)) && r.Ok? ==> Distinct(Ids(r.value))
  {
    match Iterate(elements)
    case Err(e) => Err(e)
    case Ok(xs) =>
      if !AllObjects(xs) then Err(AttributeError)
      else if !Truthy(elements) then Ok(docs)
      else
        match Documents(codec, JsonSanitize.SanitizeAll(xs))
        case Err(e) => Err(e)
        case Ok(ds) => Ok(UpsertAll(docs, ds))
  }

  /** Each added document is found under the `@id` of its sanitised element,
      holding that element's JSON text. */
  lemma AddResultFinds(codec: JsonCodec, docs: seq<Doc>, elements: Json, i: int)
    requires AddResult(codec, docs, elements).Ok? && Truthy(elements)
    requires 0 <= i < |Iterate(elements).value|
    requires var xs := Iterate(elements).value;
      forall i' :: i < i' < |xs| ==>
        Lookup(JsonSanitize.SanitizeAll(xs)[i'], "@id") != Lookup(JsonSanitize.SanitizeAll(xs)[i], "@id")
    ensures var e := JsonSanitize.SanitizeAll(Iterate(elements).value)[i];
      HasKey(e, "@id") &&
      FindDoc(AddResult(codec, docs, elements).value, Lookup(e, "@id").value) == Some(ToDocument(codec, e).value)
  {
    var xs := Iterate(elements).value;
    var es := JsonSanitize.SanitizeAll(xs);
    AddResultUpserts(codec, docs, elements);
    var ds := Documents(codec, es).value;
    forall i' | i < i' < |ds| ensures ds[i'].id != ds[i].id {
      assert ds[i'] == ToDocument(codec, es[i']).value;
    }
    UpsertAllLast(docs, ds, i);
  }

  /** A successful non-empty add upserts the documents of the sanitised
      elements. */
  lemma AddResultUpserts(codec: JsonCodec, docs: seq<Doc>, elements: Json)
    requires AddResult(codec, docs, elements).Ok? && Truthy(elements)
    ensures Iterate(elements).Ok?
    ensures Documents(codec, JsonSanitize.SanitizeAll(Iterate(elements).value)).Ok?
    ensures AddResult(codec, docs, elements).value ==
      UpsertAll(docs, Documents(codec, JsonSanitize.SanitizeAll(Iterate(elements).value)).value)
  {
  }

  class VectorDB {
    /** The collection's documents, in insertion order. */
    var docs: seq<Doc>
    const codec: JsonCodec
    /** `similarity_search(prompt, k)`: the ranking by embeddings. */
    const search: (seq<Doc>, string, nat) -> seq<Doc>

    predicate Valid()
      reads this
    {
      Distinct(Ids(docs))
    }

    /** A store opened on its persisted collection. */
    constructor(persisted: seq<Doc>, codec: JsonCodec, search: (seq<Doc>, string, nat) -> seq<Doc>)
      requires Distinct(Ids(persisted))
      ensures Valid() && docs == persisted && this.codec == codec && this.search == search
    {
      docs := persisted;
      this.codec := codec;
      this.search := search;
    }

    /** The document-building loop of `add_elements`. */
    method BuildDocuments(es: seq<Obj>) returns (r: Result<seq<Doc>>)
      ensures r == Documents(codec, es)
    {
      var documents: seq<Doc> := [];
      var i := 0;
      while i < |es|
        invariant 0 <= i <= |es|
        invariant Documents(codec, es[..i]) == Ok(documents)
      {
        assert es[..i + 1][..i] == es[..i];
        var doc := ToDocument(codec, es[i]);
        if doc.Err? {
          DocumentsErrExtends(codec, es, i + 1);
          return Err(doc.error);
        }
        documents := documents + [doc.value];
        i := i + 1;
      }
      assert es[..i] == es;
      return Ok(documents);
    }

    /** `add_elements(elements)`. */
    method AddElements(elements: Json) returns (o: Outcome)
      requires Valid()
      modifies this`docs
      ensures Valid()
      ensures match AddResult(codec, old(docs), elements)
        case Err(e) => o == Raised(e) && docs == old(docs)
        case Ok(d) => o == Done && docs == d
    {
      var sanitized := JsonSanitize.Sanitize(elements);
      if sanitized.Err? {
        return Raised(sanitized.error);
      }
      if !Truthy(elements) {
        return Done;
      }
      var documents := BuildDocuments(sanitized.value);
      if documents.Err? {
        return Raised(documents.error);
      }
      docs := UpsertAll(docs, documents.value);
      return Done;
    }

    /** `remove_all_elements()`: delete every stored id. */
    method RemoveAllElements()
      modifies this`docs
      ensures Valid() && docs == [] && Ids(docs) == []
    {
      docs := [];
    }

    /** `query(prompt, k)`. */
    method Query(prompt: string, k: nat) returns (r: seq<Doc>)
      ensures r == search(docs, prompt, k)
    {
      r := search(docs, prompt, k);
    }

    /** `related_elements(element_id)`: the children, then the owner, then
        the loop that keeps one element per `@id`. */
    method RelatedElements(id: Json) returns (r: Result<seq<Json>>)
      ensures r == Related(docs, codec, id)
    {
      var children := ParseAll(codec, Contents(ChildDocs(docs, id)));
      if children.Err? {
        return Err(children.error);
      }
      var owner := Owner(docs, codec, id);
      if owner.Err? {
        return Err(owner.error);
      }
      var combined := children.value;
      if owner.value.Some? {
        combined := combined + [owner.value.value];
      }
      assert Combined(docs, codec, id) == Ok(combined);
      r := DedupById(combined);
    }
  }

  /** The loop of `related_elements` that keeps one element per `@id`. */
  method DedupById(els: seq<Json>) returns (r: Result<seq<Json>>)
    ensures r == Dedup(els)
  {
    var unique: seq<Json> := [];
    var i := 0;
    while i < |els|
      invariant 0 <= i <= |els|
      invariant Dedup(els[..i]) == Ok(unique)
    {
      assert els[..i + 1][..i] == els[..i];
      var el := els[i];
      if !el.JObj? {
        DedupErrExtends(els, i + 1);
        return Err(AttributeError);
      }
      if !Hashable(IdOf(el)) {
        DedupErrExtends(els, i + 1);
        return Err(TypeError);
      }
      unique := DedupStep(unique, el);
      i := i + 1;
    }
    assert els[..i] == els;
    return Ok(unique);
  }

  /** Once a prefix fails, the whole loop fails with the same error. */
  lemma {:induction false} DedupErrExtends(els: seq<Json>, n: nat)
    requires n <= |els| && Dedup(els[..n]).Err?
    ensures Dedup(els) == Dedup(els[..n])
    decreases |els| - n
  {
    if n < |els| {
      assert els[..n + 1][..n] == els[..n];
      DedupErrExtends(els, n + 1);
    } else {
      assert els[..n] == els;
    }
  }
}
