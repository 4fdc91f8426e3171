/**
 * `sanitize`: drop the empty-valued fields of every element dict, keeping
 * one output dict per input element.
 */
module JsonSanitize {
  import opened Json

  /** The values `sanitize` removes: None, "", [] and {} (JSON has no tuples,
      so the empty tuple of the source's list never occurs). `False` and `0`
      are not among them: Python's `in` compares with `==`. */
  predicate IsEmptyValue(v: Json) {
    v == JNull || v == JStr("") || v == JArr([]) || v == JObj([])
  }

  /** The dict comprehension that filters one element, in insertion order. */
  function SanitizeElement(ms: Obj): (r: Obj)
    ensures forall m :: m in r <==> m in ms && !IsEmptyValue(m.value)
    ensures |r| <= |ms|
  {
    if ms == [] then []
    else if IsEmptyValue(ms[0].value) then SanitizeElement(ms[1..])
    else [ms[0]] + SanitizeElement(ms[1..])
  }

  /** Keys are only ever removed, so a dict stays a dict. */
  lemma {:induction false} SanitizeKeys(ms: Obj)
    ensures forall k :: k in Keys(SanitizeElement(ms)) ==> k in Keys(ms)
    ensures KeysDistinct(ms) ==> KeysDistinct(SanitizeElement(ms))
  {
    if ms != [] {
      SanitizeKeys(ms[1..]);
      var rest := SanitizeElement(ms[1..]);
      assert Keys(ms) == [ms[0].key] + Keys(ms[1..]);
      DistinctCons(ms[0].key, Keys(ms[1..]));
      if !IsEmptyValue(ms[0].value) {
        assert Keys([ms[0]] + rest) == [ms[0].key] + Keys(rest);
        DistinctCons(ms[0].key, Keys(rest));
      }
    }
  }

  /** A key reads the same after sanitising when its value is non-empty, and
      is missing when its value was empty or it was missing already. */
  lemma {:induction false} SanitizeLookup(ms: Obj, k: string)
    requires KeysDistinct(ms)
    ensures Lookup(SanitizeElement(ms), k) ==
      match Lookup(ms, k)
      case Some(v) => if IsEmptyValue(v) then None else Some(v)
      case None => None
  {
    if ms != [] {
      assert Keys(ms) == [ms[0].key] + Keys(ms[1..]);
      DistinctCons(ms[0].key, Keys(ms[1..]));
      SanitizeLookup(ms[1..], k);
      SanitizeKeys(ms[1..]);
      var rest := SanitizeElement(ms[1..]);
      if !IsEmptyValue(ms[0].value) {
        assert Keys([ms[0]] + rest) == [ms[0].key] + Keys(rest);
        assert ([ms[0]] + rest)[1..] == rest;
      }
      if ms[0].key == k && IsEmptyValue(ms[0].value) {
        assert !HasKey(rest, k);
      }
    }
  }

  /** Sanitising twice changes nothing more. */
  lemma {:induction false} SanitizeElementIdempotent(ms: Obj)
    ensures SanitizeElement(SanitizeElement(ms)) == SanitizeElement(ms)
  {
    if ms != [] {
      SanitizeElementIdempotent(ms[1..]);
      if !IsEmptyValue(ms[0].value) {
        var rest := SanitizeElement(ms[1..]);
        assert ([ms[0]] + rest)[1..] == rest;
      }
    }
  }

  /** The filter keeps the order of the fields it keeps. */
  lemma {:induction false} SanitizeConcat(a: Obj, b: Obj)
    ensures SanitizeElement(a + b) == SanitizeElement(a) + SanitizeElement(b)
  {
    if a == [] {
      assert a + b == b;
    } else {
      assert (a + b)[0] == a[0];
      assert (a + b)[1..] == a[1..] + b;
      SanitizeConcat(a[1..], b);
    }
  }

  /** The sanitised form of each element of a list of dicts. */
  function SanitizeAll(xs: seq<Json>): (r: seq<Obj>)
    ensures |r| == |xs|
    ensures forall i :: 0 <= i < |xs| && xs[i].JObj? ==> r[i] == SanitizeElement(xs[i].members)
  {
    seq(|xs|, i requires 0 <= i < |xs| => if xs[i].JObj? then SanitizeElement(xs[i].members) else [])
  }

  /** `sanitize(elements)`: iterating the input raises TypeError when it is
      not iterable; `.items()` raises AttributeError on an element that is
      not a dict. Otherwise element i of the result is element i of the
      input with its empty fields removed. */
  method Sanitize(elements: Json) returns (r: Result<seq<Obj>>)
    ensures Iterate(elements).Err? ==> r == Err(TypeError)
    ensures Iterate(elements).Ok? ==>
      var xs := Iterate(elements).value;
      (r.Ok? <==> forall i :: 0 <= i < |xs| ==> xs[i].JObj?) &&
      (r.Err? ==> r.error == AttributeError) &&
      (r.Ok? ==> |r.value| == |xs|) &&
      (r.Ok? ==> forall i :: 0 <= i < |xs| ==> r.value[i] == SanitizeElement(xs[i].members)) &&
      (r.Ok? ==> r.value == SanitizeAll(xs))
  {
    var it := Iterate(elements);
    if it.Err? {
      return Err(it.error);
    }
    var xs := it.value;
    var filtered: seq<Obj> := [];
    var i := 0;
    while i < |xs|
      invariant 0 <= i <= |xs|
      invariant |filtered| == i
      invariant forall j :: 0 <= j < i ==> xs[j].JObj? && filtered[j] == SanitizeElement(xs[j].members)
    {
      if !xs[i].JObj? {
        return Err(AttributeError);
      }
      filtered := filtered + [SanitizeElement(xs[i].members)];
      i := i + 1;
    }
    return Ok(filtered);
  }
}
