/**
 * The context manager fills the vector store with the client's current
 * elements and answers a change request with the best-matching elements,
 * each followed by its children and owner when those are not already in
 * the context.
 */
module ContextManager {
  import opened Json
  import opened SysmlClient
  import opened VectorStore

  /** The number of documents `create_context` asks the similarity search for. */
  const QuerySize: nat := 5

  /** The parsed page contents of the documents, in query order; a content
      that does not parse is skipped. */
  function BaseElements(codec: JsonCodec, docs: seq<Doc>): (r: seq<Json>)
    ensures |r| <= |docs|
    ensures forall e :: e in r ==> exists d :: d in docs && codec.loads(d.content) == Some(e)
  {
    if docs == [] then []
    else
      var rest := BaseElements(codec, docs[1..]);
      assert forall e :: e in rest ==> exists d :: d in docs && codec.loads(d.content) == Some(e) by {
        forall e | e in rest ensures exists d :: d in docs && codec.loads(d.content) == Some(e) {
          var d :| d in docs[1..] && codec.loads(d.content) == Some(e);
          assert d in docs;
        }
      }
      match codec.loads(docs[0].content)
      case None => rest
      case Some(e) => [e] + rest
  }

  /** Parsing works document by document: the base elements of a
      concatenation are those of each part, in query order. */
  lemma {:induction false} BaseElementsConcat(codec: JsonCodec, a: seq<Doc>, b: seq<Doc>)
    ensures BaseElements(codec, a + b) == BaseElements(codec, a) + BaseElements(codec, b)
    decreases |a|
  {
    if a == [] {
      assert a + b == b;
    } else {
      assert (a + b)[1..] == a[1..] + b;
      BaseElementsConcat(codec, a[1..], b);
      var rest := BaseElements(codec, a[1..]);
      if codec.loads(a[0].content).Some? {
        var e := codec.loads(a[0].content).value;
        assert [e] + (rest + BaseElements(codec, b)) == ([e] + rest) + BaseElements(codec, b);
      }
    }
  }

  /** A document contributes its parse, or nothing when its content does
      not parse. */
  lemma BaseElementsOne(codec: JsonCodec, d: Doc)
    ensures codec.loads(d.content).Some? ==> BaseElements(codec, [d]) == [codec.loads(d.content).value]
    ensures codec.loads(d.content).None? ==> BaseElements(codec, [d]) == []
  {
    assert [d][1..] == [];
  }

  /** `{e.get("@id") for e in base if isinstance(e, dict)}`; an id that is a
      list or a dict cannot be a set member. */
  function SeenIds(base: seq<Json>): (r: Result<set<Json>>)
    ensures r.Ok? <==> forall i :: 0 <= i < |base| && base[i].JObj? ==> Hashable(IdOf(base[i]))
    ensures r.Err? ==> r.error == TypeError
    ensures r.Ok? ==> forall x :: x in r.value <==> exists i :: 0 <= i < |base| && base[i].JObj? && IdOf(base[i]) == x
  {
    if base == [] then Ok({})
    else
      match SeenIds(base[1..])
      case Err(e) => Err(e)
      case Ok(rest) =>
        assert forall i :: 1 <= i < |base| ==> base[i] == base[1..][i - 1];
        assert forall x :: x in rest ==> exists i :: 0 <= i < |base| && base[i].JObj? && IdOf(base[i]) == x by {
          forall x | x in rest ensures exists i :: 0 <= i < |base| && base[i].JObj? && IdOf(base[i]) == x {
            var i :| 0 <= i < |base[1..]| && base[1..][i].JObj? && IdOf(base[1..][i]) == x;
            assert base[i + 1] == base[1..][i];
          }
        }
        if !base[0].JObj? then Ok(rest)
        else if !Hashable(IdOf(base[0])) then Err(TypeError)
        else Ok(rest + {IdOf(base[0])})
  }

  /** The inner loop over the related elements of one base element: an
      element with a truthy id not seen yet is appended and its id marked
      seen. Testing a truthy list or dict id for set membership raises. */
  function AddRelated(rs: seq<Json>, seen: set<Json>, acc: seq<Json>): Result<(seq<Json>, set<Json>)>
    decreases |rs|
  {
    if rs == [] then Ok((acc, seen))
    else
      var rid := IdOf(rs[0]);
      if !Truthy(rid) then AddRelated(rs[1..], seen, acc)
      else if !Hashable(rid) then Err(TypeError)
      else if rid in seen then AddRelated(rs[1..], seen, acc)
      else AddRelated(rs[1..], seen + {rid}, acc + [rs[0]])
  }

  /** The id a base element is expanded by: none for a non-dict. */
  function ExpansionId(elem: Json): Json {
    if elem.JObj? then IdOf(elem) else JNull
  }

  /** `related_elements(id) or []`, with an exception counted as no related
      elements. */
  function RelatedOrEmpty(docs: seq<Doc>, codec: JsonCodec, id: Json): seq<Json> {
    match Related(docs, codec, id)
    case Ok(rs) => rs
    case Err(_) => []
  }

  /** The outer loop over the base elements. */
  function Expand(docs: seq<Doc>, codec: JsonCodec, bases: seq<Json>, seen: set<Json>, acc: seq<Json>)
    : Result<(seq<Json>, set<Json>)>
    decreases |bases|
  {
    if bases == [] then Ok((acc, seen))
    else
      var id := ExpansionId(bases[0]);
      if !Truthy(id) then Expand(docs, codec, bases[1..], seen, acc)
      else
        match AddRelated(RelatedOrEmpty(docs, codec, id), seen, acc)
        case Err(e) => Err(e)
        case Ok(next) => Expand(docs, codec, bases[1..], next.1, next.0)
  }

  /** What a loop appends to `acc`: elements with truthy ids that were not in
      `seen`, pairwise distinct, all of them in the new seen set. */
  predicate Extends(acc: seq<Json>, seen: set<Json>, acc': seq<Json>, seen': set<Json>) {
    |acc| <= |acc'| && acc'[..|acc|] == acc && seen <= seen' &&
    (forall j :: |acc| <= j < |acc'| ==> Truthy(IdOf(acc'[j])) && IdOf(acc'[j]) !in seen && IdOf(acc'[j]) in seen') &&
    (forall j, k :: |acc| <= j < k < |acc'| ==> IdOf(acc'[j]) != IdOf(acc'[k]))
  }

  lemma ExtendsTrans(a: seq<Json>, s: set<Json>, b: seq<Json>, t: set<Json>, c: seq<Json>, u: set<Json>)
    requires Extends(a, s, b, t) && Extends(b, t, c, u)
    ensures Extends(a, s, c, u)
  {
    assert c[..|a|] == c[..|b|][..|a|];
    forall j, k | |a| <= j < k < |c| ensures IdOf(c[j]) != IdOf(c[k]) {
      if j < |b| && k >= |b| {
        assert c[j] == b[j];
      } else if j < |b| && k < |b| {
        assert c[j] == b[j] && c[k] == b[k];
      }
    }
    forall j | |a| <= j < |c| ensures Truthy(IdOf(c[j])) && IdOf(c[j]) !in s && IdOf(c[j]) in u {
      if j < |b| {
        assert c[j] == b[j];
      }
    }
  }

  lemma {:induction false} AddRelatedExtends(rs: seq<Json>, seen: set<Json>, acc: seq<Json>)
    requires AddRelated(rs, seen, acc).Ok?
    ensures var r := AddRelated(rs, seen, acc).value; Extends(acc, seen, r.0, r.1)
    decreases |rs|
  {
    var r := AddRelated(rs, seen, acc).value;
    if rs == [] {
      assert acc[..|acc|] == acc;
    } else {
      var rid := IdOf(rs[0]);
      if !Truthy(rid) || rid in seen {
        AddRelatedExtends(rs[1..], seen, acc);
      } else {
        var acc1 := acc + [rs[0]];
        var seen1 := seen + {rid};
        AddRelatedExtends(rs[1..], seen1, acc1);
        assert acc1[..|acc|] == acc;
        assert Extends(acc, seen, acc1, seen1);
        ExtendsTrans(acc, seen, acc1, seen1, r.0, r.1);
      }
    }
  }

  lemma {:induction false} ExpandExtends(docs: seq<Doc>, codec: JsonCodec, bases: seq<Json>, seen: set<Json>, acc: seq<Json>)
    requires Expand(docs, codec, bases, seen, acc).Ok?
    ensures var r := Expand(docs, codec, bases, seen, acc).value; Extends(acc, seen, r.0, r.1)
    decreases |bases|
  {
    var r := Expand(docs, codec, bases, seen, acc).value;
    if bases == [] {
      assert acc[..|acc|] == acc;
    } else {
      var id := ExpansionId(bases[0]);
      if !Truthy(id) {
        ExpandExtends(docs, codec, bases[1..], seen, acc);
      } else {
        var rs := RelatedOrEmpty(docs, codec, id);
        var next := AddRelated(rs, seen, acc).value;
        AddRelatedExtends(rs, seen, acc);
        ExpandExtends(docs, codec, bases[1..], next.1, next.0);
        ExtendsTrans(acc, seen, next.0, next.1, r.0, r.1);
      }
    }
  }

  /** A base element that is not a dict or has no truthy id triggers no
      expansion. */
  lemma ExpandSkips(docs: seq<Doc>, codec: JsonCodec, b: Json, bases: seq<Json>, seen: set<Json>, acc: seq<Json>)
    requires !b.JObj? || !Truthy(Get(b.members, "@id"))
    ensures Expand(docs, codec, [b] + bases, seen, acc) == Expand(docs, codec, bases, seen, acc)
  {
    assert ([b] + bases)[1..] == bases;
  }

  /** Every id in `seen` is the id of some element of `acc`. */
  predicate Covered(acc: seq<Json>, seen: set<Json>) {
    forall x :: x in seen ==> exists j :: 0 <= j < |acc| && IdOf(acc[j]) == x
  }

  /** Every element of `rs` with a truthy id has its id in `seen`. */
  predicate AllSeen(rs: seq<Json>, seen: set<Json>) {
    forall k :: 0 <= k < |rs| && Truthy(IdOf(rs[k])) ==> IdOf(rs[k]) in seen
  }

  /** The related elements of `b` are all seen, if `b` is expanded. */
  predicate Expanded(docs: seq<Doc>, codec: JsonCodec, b: Json, seen: set<Json>) {
    Truthy(ExpansionId(b)) ==> AllSeen(RelatedOrEmpty(docs, codec, ExpansionId(b)), seen)
  }

  /** The related elements of every base element with a truthy id are all
      seen. */
  predicate Reached(docs: seq<Doc>, codec: JsonCodec, bases: seq<Json>, seen: set<Json>) {
    forall b :: b in bases ==> Expanded(docs, codec, b, seen)
  }

  /** `e` is a related element of some base element with a truthy id. */
  predicate FromRelated(docs: seq<Doc>, codec: JsonCodec, bases: seq<Json>, e: Json) {
    exists i :: 0 <= i < |bases| && Truthy(ExpansionId(bases[i])) &&
      e in RelatedOrEmpty(docs, codec, ExpansionId(bases[i]))
  }

  /** After the inner loop every related element with a truthy id is seen,
      and every seen id still belongs to an element of the list. */
  lemma {:induction false} AddRelatedCovers(rs: seq<Json>, seen: set<Json>, acc: seq<Json>)
    requires AddRelated(rs, seen, acc).Ok? && Covered(acc, seen)
    ensures var r := AddRelated(rs, seen, acc).value; Covered(r.0, r.1) && AllSeen(rs, r.1)
    decreases |rs|
  {
    if rs != [] {
      var r := AddRelated(rs, seen, acc).value;
      var rid := IdOf(rs[0]);
      if !Truthy(rid) || rid in seen {
        AddRelatedCovers(rs[1..], seen, acc);
        AddRelatedExtends(rs[1..], seen, acc);
      } else {
        var acc1 := acc + [rs[0]];
        var seen1 := seen + {rid};
        forall x | x in seen1 ensures exists j :: 0 <= j < |acc1| && IdOf(acc1[j]) == x {
          if x == rid {
            assert IdOf(acc1[|acc|]) == x;
          } else {
            var j :| 0 <= j < |acc| && IdOf(acc[j]) == x;
            assert acc1[j] == acc[j];
          }
        }
        AddRelatedCovers(rs[1..], seen1, acc1);
        AddRelatedExtends(rs[1..], seen1, acc1);
      }
      forall k | 0 <= k < |rs| && Truthy(IdOf(rs[k])) ensures IdOf(rs[k]) in r.1 {
        if k > 0 {
          assert rs[k] == rs[1..][k - 1];
        }
      }
    }
  }

  /** The inner loop appends only elements of `rs`. */
  lemma {:induction false} AddRelatedFrom(rs: seq<Json>, seen: set<Json>, acc: seq<Json>)
    requires AddRelated(rs, seen, acc).Ok?
    ensures var r := AddRelated(rs, seen, acc).value;
      forall j :: |acc| <= j < |r.0| ==> r.0[j] in rs
    decreases |rs|
  {
    if rs != [] {
      var r := AddRelated(rs, seen, acc).value;
      var rid := IdOf(rs[0]);
      if !Truthy(rid) || rid in seen {
        AddRelatedFrom(rs[1..], seen, acc);
      } else {
        var acc1 := acc + [rs[0]];
        var seen1 := seen + {rid};
        AddRelatedFrom(rs[1..], seen1, acc1);
        AddRelatedExtends(rs[1..], seen1, acc1);
        assert r.0[|acc|] == acc1[|acc|];
      }
    }
  }

  /** The outer loop keeps every seen id backed by an element of the list,
      and leaves the related elements of every expanded base element seen. */
  lemma {:induction false} ExpandCovers(docs: seq<Doc>, codec: JsonCodec, bases: seq<Json>, seen: set<Json>, acc: seq<Json>)
    requires Expand(docs, codec, bases, seen, acc).Ok? && Covered(acc, seen)
    ensures var r := Expand(docs, codec, bases, seen, acc).value;
      Covered(r.0, r.1) && Reached(docs, codec, bases, r.1)
    decreases |bases|
  {
    if bases != [] {
      var r := Expand(docs, codec, bases, seen, acc).value;
      var id := ExpansionId(bases[0]);
      if !Truthy(id) {
        ExpandCovers(docs, codec, bases[1..], seen, acc);
      } else {
        var rs := RelatedOrEmpty(docs, codec, id);
        var next := AddRelated(rs, seen, acc).value;
        AddRelatedCovers(rs, seen, acc);
        ExpandCovers(docs, codec, bases[1..], next.1, next.0);
        ExpandExtends(docs, codec, bases[1..], next.1, next.0);
        AllSeenGrows(rs, next.1, r.1);
      }
      ReachedCons(docs, codec, bases, r.1);
    }
  }

  lemma AllSeenGrows(rs: seq<Json>, seen: set<Json>, seen': set<Json>)
    requires AllSeen(rs, seen) && seen <= seen'
    ensures AllSeen(rs, seen')
  {
  }

  lemma ReachedCons(docs: seq<Doc>, codec: JsonCodec, bases: seq<Json>, seen: set<Json>)
    requires bases != [] && Reached(docs, codec, bases[1..], seen)
    requires Expanded(docs, codec, bases[0], seen)
    ensures Reached(docs, codec, bases, seen)
  {
    assert bases == [bases[0]] + bases[1..];
  }

  lemma FromRelatedTail(docs: seq<Doc>, codec: JsonCodec, bases: seq<Json>, e: Json)
    requires bases != [] && FromRelated(docs, codec, bases[1..], e)
    ensures FromRelated(docs, codec, bases, e)
  {
    var i :| 0 <= i < |bases[1..]| && Truthy(ExpansionId(bases[1..][i])) &&
      e in RelatedOrEmpty(docs, codec, ExpansionId(bases[1..][i]));
    assert bases[i + 1] == bases[1..][i];
  }

  /** The outer loop appends only related elements of the base elements it
      expands. */
  lemma {:induction false} ExpandFrom(docs: seq<Doc>, codec: JsonCodec, bases: seq<Json>, seen: set<Json>, acc: seq<Json>)
    requires Expand(docs, codec, bases, seen, acc).Ok?
    ensures var r := Expand(docs, codec, bases, seen, acc).value;
      forall j :: |acc| <= j < |r.0| ==> FromRelated(docs, codec, bases, r.0[j])
    decreases |bases|
  {
    if bases != [] {
      var r := Expand(docs, codec, bases, seen, acc).value;
      var id := ExpansionId(bases[0]);
      if !Truthy(id) {
        ExpandFrom(docs, codec, bases[1..], seen, acc);
        forall j | |acc| <= j < |r.0| ensures FromRelated(docs, codec, bases, r.0[j]) {
          FromRelatedTail(docs, codec, bases, r.0[j]);
        }
      } else {
        var rs := RelatedOrEmpty(docs, codec, id);
        var next := AddRelated(rs, seen, acc).value;
        AddRelatedFrom(rs, seen, acc);
        AddRelatedExtends(rs, seen, acc);
        ExpandFrom(docs, codec, bases[1..], next.1, next.0);
        ExpandExtends(docs, codec, bases[1..], next.1, next.0);
        forall j | |acc| <= j < |r.0| ensures FromRelated(docs, codec, bases, r.0[j]) {
          if j < |next.0| {
            assert r.0[j] == next.0[j] && next.0[j] in rs;
          } else {
            FromRelatedTail(docs, codec, bases, r.0[j]);
          }
        }
      }
    }
  }

  /** The enriched list `create_context` builds for a query. */
  function Enriched(docs: seq<Doc>, codec: JsonCodec, found: seq<Doc>): Result<seq<Json>> {
    var base := BaseElements(codec, found);
    match SeenIds(base)
    case Err(e) => Err(e)
    case Ok(seen) =>
      match Expand(docs, codec, base, seen, base)
      case Err(e) => Err(e)
      case Ok(r) => Ok(r.0)
  }

  /** `[json.dumps(e) for e in enriched]`. */
  function DumpAll(codec: JsonCodec, es: seq<Json>): (r: seq<string>)
    ensures |r| == |es| && forall i :: 0 <= i < |es| ==> r[i] == codec.dumps(es[i])
  {
    seq(|es|, i requires 0 <= i < |es| => codec.dumps(es[i]))
  }

  /** The enriched list starts with the parsed base elements in query order;
      every element after them has a truthy id that is neither the id of a
      base dict nor the id of another appended element. Duplicate base
      elements are kept. */
  lemma EnrichedShape(docs: seq<Doc>, codec: JsonCodec, found: seq<Doc>)
    requires Enriched(docs, codec, found).Ok?
    ensures var base := BaseElements(codec, found);
      var e := Enriched(docs, codec, found).value;
      |base| <= |e| && e[..|base|] == base &&
      (forall j :: |base| <= j < |e| ==> Truthy(IdOf(e[j]))) &&
      (forall j, i :: |base| <= j < |e| && 0 <= i < |base| && base[i].JObj? ==> IdOf(e[j]) != IdOf(base[i])) &&
      (forall j, k :: |base| <= j < k < |e| ==> IdOf(e[j]) != IdOf(e[k]))
  {
    var base := BaseElements(codec, found);
    var seen := SeenIds(base).value;
    ExpandExtends(docs, codec, base, seen, base);
    var e := Enriched(docs, codec, found).value;
    forall j, i | |base| <= j < |e| && 0 <= i < |base| && base[i].JObj? ensures IdOf(e[j]) != IdOf(base[i]) {
      assert IdOf(base[i]) in seen;
    }
  }

  /** Every related element with a truthy id of a base element with a
      truthy id is in the context: it was appended, or an element with the
      same id (a base dict or an earlier related element) already was. */
  lemma EnrichedComplete(docs: seq<Doc>, codec: JsonCodec, found: seq<Doc>, b: Json, x: Json)
    requires Enriched(docs, codec, found).Ok?
    requires b in BaseElements(codec, found) && Truthy(ExpansionId(b))
    requires x in RelatedOrEmpty(docs, codec, ExpansionId(b)) && Truthy(IdOf(x))
    ensures exists e :: e in Enriched(docs, codec, found).value && IdOf(e) == IdOf(x)
  {
    var base := BaseElements(codec, found);
    var seen := SeenIds(base).value;
    ExpandCovers(docs, codec, base, seen, base);
    var r := Expand(docs, codec, base, seen, base).value;
    var rs := RelatedOrEmpty(docs, codec, ExpansionId(b));
    var k :| 0 <= k < |rs| && rs[k] == x;
    assert Expanded(docs, codec, b, r.1);
    assert IdOf(x) in r.1;
    var j :| 0 <= j < |r.0| && IdOf(r.0[j]) == IdOf(x);
    assert r.0[j] in r.0;
  }

  /** Conversely, every element after the base elements is a related
      element of some base element with a truthy id. */
  lemma EnrichedFromRelated(docs: seq<Doc>, codec: JsonCodec, found: seq<Doc>)
    requires Enriched(docs, codec, found).Ok?
    ensures var base := BaseElements(codec, found);
      var e := Enriched(docs, codec, found).value;
      forall j :: |base| <= j < |e| ==> FromRelated(docs, codec, base, e[j])
  {
    var base := BaseElements(codec, found);
    var seen := SeenIds(base).value;
    ExpandFrom(docs, codec, base, seen, base);
  }

  class ContextManager {
    const client: SysMLClient
    const vectorDb: VectorDB

    constructor Init(client: SysMLClient, vectorDb: VectorDB)
      ensures this.client == client && this.vectorDb == vectorDb
    {
      this.client := client;
      this.vectorDb := vectorDb;
    }

    /** `ContextManager(client)` on an opened store: empty the store, then
        load exactly the client's current elements into it. An exception
        ends the construction. */
    static method New(client: SysMLClient, db: VectorDB) returns (r: Result<ContextManager>)
      requires db.Valid()
      modifies db`docs
      ensures db.Valid()
      ensures client.projectId.None? || client.commitId.None? ==> r == Err(AttributeError) && db.docs == []
      ensures client.projectId.Some? && client.commitId.Some? ==>
        match AddResult(db.codec, [], client.remote.getProjectElements(client.projectId.value, client.commitId.value))
        case Err(e) => r == Err(e) && db.docs == []
        case Ok(d) => r.Ok? && db.docs == d && r.value.client == client && r.value.vectorDb == db
    {
      db.RemoveAllElements();
      var elements := client.GetAllElements();
      if elements.Err? {
        return Err(elements.error);
      }
      var o := db.AddElements(elements.value);
      if o.Raised? {
        return Err(o.error);
      }
      var cm := new ContextManager.Init(client, db);
      return Ok(cm);
    }

    /** The parse loop: a document whose content does not parse is logged
        and skipped. */
    method ParseBase(found: seq<Doc>) returns (base: seq<Json>)
      ensures base == BaseElements(vectorDb.codec, found)
    {
      base := [];
      var i := 0;
      while i < |found|
        invariant 0 <= i <= |found|
        invariant base == BaseElements(vectorDb.codec, found[..i])
      {
        assert found[..i + 1] == found[..i] + [found[i]];
        BaseElementsConcat(vectorDb.codec, found[..i], [found[i]]);
        BaseElementsOne(vectorDb.codec, found[i]);
        var parsed := vectorDb.codec.loads(found[i].content);
        if parsed.Some? {
          base := base + [parsed.value];
        }
        i := i + 1;
      }
      assert found[..i] == found;
    }

    /** `create_context(query)`. */
    method CreateContext(query: string) returns (r: Result<seq<string>>)
      ensures var found := vectorDb.search(vectorDb.docs, query, QuerySize);
        match Enriched(vectorDb.docs, vectorDb.codec, found)
        case Err(e) => r == Err(e)
        case Ok(enriched) => r == Ok(DumpAll(vectorDb.codec, enriched))
    {
      var found := vectorDb.Query(query, QuerySize);
      var base := ParseBase(found);
      var seenIds := SeenIds(base);
      if seenIds.Err? {
        return Err(seenIds.error);
      }
      var seen := seenIds.value;
      var enriched := base;
      var docs := vectorDb.docs;
      var codec := vectorDb.codec;
      ghost var goal := Expand(docs, codec, base, seen, base);
      var i := 0;
      while i < |base|
        invariant 0 <= i <= |base|
        invariant Expand(docs, codec, base[i..], seen, enriched) == goal
      {
        assert base[i..][1..] == base[i + 1..];
        var elemId := ExpansionId(base[i]);
        if Truthy(elemId) {
          var related := vectorDb.RelatedElements(elemId);
          var rs := if related.Ok? then related.value else [];
          assert rs == RelatedOrEmpty(docs, codec, elemId);
          ghost var inner := AddRelated(rs, seen, enriched);
          var j := 0;
          while j < |rs|
            invariant 0 <= j <= |rs|
            invariant AddRelated(rs[j..], seen, enriched) == inner
          {
            assert rs[j..][1..] == rs[j + 1..];
            var rid := IdOf(rs[j]);
            if Truthy(rid) {
              if !Hashable(rid) {
                return Err(TypeError);
              }
              if rid !in seen {
                enriched := enriched + [rs[j]];
                seen := seen + {rid};
              }
            }
            j := j + 1;
          }
          assert inner == Ok((enriched, seen));
        }
        i := i + 1;
      }
      var context := DumpAll(codec, enriched);
      return Ok(context);
    }
  }
}
