/**
 * Python values as they arrive from JSON (REST responses, YAML seeds, tool
 * arguments) and the Python exceptions the modelled code can raise.
 *
 * A Python dict keeps insertion order, so an object is an ordered list of
 * members. `JNull` is Python's `None`, whether it was a JSON `null` or the
 * result of a failed lookup.
 */
module Json {

  datatype Option<+T> = None | Some(value: T)

  /** The Python exceptions the modelled code raises or catches. */
  datatype Error =
    | KeyError
    | TypeError
    | AttributeError
    | ValueError(message: string)
    | NotImplementedError
    | OSError(message: string)

  datatype Result<+T> = Ok(value: T) | Err(error: Error)

  /** The outcome of a Python call that returns None: it returned, or it raised. */
  datatype Outcome = Done | Raised(error: Error)

  datatype Json =
    | JNull
    | JBool(b: bool)
    | JInt(i: int)
    | JStr(s: string)
    | JArr(items: seq<Json>)
    | JObj(members: seq<Member>)

  datatype Member = Member(key: string, value: Json)

  type Obj = seq<Member>

  /** Python's `json.dumps` and `json.loads`, which belong to the standard
      library and are parameters of the model. `loads` yields None where
      Python raises a decoding error. */
  datatype JsonCodec = JsonCodec(dumps: Json -> string, loads: string -> Option<Json>)

  /** Python truthiness of a JSON value. */
  predicate Truthy(j: Json) {
    match j
    case JNull => false
    case JBool(b) => b
    case JInt(i) => i != 0
    case JStr(s) => s != ""
    case JArr(items) => items != []
    case JObj(ms) => ms != []
  }

  /** Lists and dicts cannot be set members or dict keys in Python. */
  predicate Hashable(j: Json) {
    !j.JArr? && !j.JObj?
  }

  /** No element occurs twice. */
  predicate Distinct<T(==)>(s: seq<T>) {
    forall i, j :: 0 <= i < j < |s| ==> s[i] != s[j]
  }

  lemma DistinctCons<T>(x: T, s: seq<T>)
    ensures Distinct([x] + s) <==> x !in s && Distinct(s)
  {
    var t := [x] + s;
    if x !in s && Distinct(s) {
      forall i, j | 0 <= i < j < |t| ensures t[i] != t[j] {
        assert t[j] == s[j - 1];
        if i > 0 { assert t[i] == s[i - 1]; }
      }
    }
    if Distinct(t) {
      forall i, j | 0 <= i < j < |s| ensures s[i] != s[j] {
        assert s[i] == t[i + 1] && s[j] == t[j + 1];
      }
      forall j | 0 <= j < |s| ensures s[j] != x {
        assert s[j] == t[j + 1] && x == t[0];
      }
    }
  }

  lemma DistinctSnoc<T>(s: seq<T>, x: T)
    ensures Distinct(s + [x]) <==> x !in s && Distinct(s)
  {
    var t := s + [x];
    if x !in s && Distinct(s) {
      forall i, j | 0 <= i < j < |t| ensures t[i] != t[j] {
        assert t[i] == s[i];
        if j < |s| { assert t[j] == s[j]; }
      }
    }
    if Distinct(t) {
      forall i, j | 0 <= i < j < |s| ensures s[i] != s[j] {
        assert s[i] == t[i] && s[j] == t[j];
      }
      forall i | 0 <= i < |s| ensures s[i] != x {
        assert s[i] == t[i] && x == t[|s|];
      }
    }
  }

  function Keys(ms: Obj): (ks: seq<string>)
    ensures |ks| == |ms|
    ensures forall i :: 0 <= i < |ms| ==> ks[i] == ms[i].key
  {
    if ms == [] then [] else [ms[0].key] + Keys(ms[1..])
  }

  predicate HasKey(ms: Obj, k: string) {
    k in Keys(ms)
  }

  /** A Python dict never holds a key twice. */
  predicate KeysDistinct(ms: Obj) {
    Distinct(Keys(ms))
  }

  /** `d[k]` for a dict `d`, None where Python raises KeyError. */
  function Lookup(ms: Obj, k: string): (r: Option<Json>)
    ensures r.Some? <==> HasKey(ms, k)
  {
    if ms == [] then None
    else if ms[0].key == k then Some(ms[0].value)
    else
      assert Keys(ms) == [ms[0].key] + Keys(ms[1..]);
      Lookup(ms[1..], k)
  }

  /** In a dict, the value found for a key is the one stored with it. */
  lemma {:induction false} LookupMember(ms: Obj, m: Member)
    requires KeysDistinct(ms) && m in ms
    ensures Lookup(ms, m.key) == Some(m.value)
  {
    assert Keys(ms) == [ms[0].key] + Keys(ms[1..]);
    DistinctCons(ms[0].key, Keys(ms[1..]));
    if ms[0] != m {
      assert m in ms[1..];
      assert m.key in Keys(ms[1..]);
      LookupMember(ms[1..], m);
    }
  }

  lemma {:induction false} LookupFound(ms: Obj, k: string)
    requires HasKey(ms, k)
    ensures Member(k, Lookup(ms, k).value) in ms
  {
    assert Keys(ms) == [ms[0].key] + Keys(ms[1..]);
    if ms[0].key != k { LookupFound(ms[1..], k); }
  }

  /** `d.get(k)`: the value, or None when the key is missing. */
  function Get(ms: Obj, k: string): Json {
    match Lookup(ms, k)
    case Some(v) => v
    case None => JNull
  }

  /** `d[k] = v`: an existing key keeps its position and takes the new value,
      a new key goes to the end. */
  function Put(ms: Obj, k: string, v: Json): (r: Obj)
    ensures Keys(r) == if HasKey(ms, k) then Keys(ms) else Keys(ms) + [k]
  {
    if ms == [] then [Member(k, v)]
    else if ms[0].key == k then
      assert Keys([Member(k, v)] + ms[1..]) == [k] + Keys(ms[1..]);
      [Member(k, v)] + ms[1..]
    else
      var r := [ms[0]] + Put(ms[1..], k, v);
      assert r[1..] == Put(ms[1..], k, v);
      assert Keys(r) == [ms[0].key] + Keys(r[1..]);
      assert Keys(ms) == [ms[0].key] + Keys(ms[1..]);
      r
  }

  /** A new key is appended after the existing members. */
  lemma {:induction false} PutAppends(ms: Obj, k: string, v: Json)
    requires !HasKey(ms, k)
    ensures Put(ms, k, v) == ms + [Member(k, v)]
  {
    if ms != [] {
      assert ms[0].key != k && !HasKey(ms[1..], k) by {
        assert Keys(ms) == [ms[0].key] + Keys(ms[1..]);
      }
      PutAppends(ms[1..], k, v);
      calc {
        Put(ms, k, v);
        [ms[0]] + Put(ms[1..], k, v);
        [ms[0]] + (ms[1..] + [Member(k, v)]);
        { assert ms == [ms[0]] + ms[1..]; }
        ms + [Member(k, v)];
      }
    }
  }

  /** After `d[k] = v`, `d[k]` is `v` and every other key reads as before. */
  lemma {:induction false} PutLookup(ms: Obj, k: string, v: Json, k': string)
    ensures Lookup(Put(ms, k, v), k') == if k' == k then Some(v) else Lookup(ms, k')
  {
    if ms != [] && ms[0].key != k {
      var r := Put(ms, k, v);
      assert r[1..] == Put(ms[1..], k, v);
      PutLookup(ms[1..], k, v, k');
    }
  }

  lemma PutKeysDistinct(ms: Obj, k: string, v: Json)
    requires KeysDistinct(ms)
    ensures KeysDistinct(Put(ms, k, v))
  {
    if !HasKey(ms, k) {
      DistinctSnoc(Keys(ms), k);
    }
  }

  /** `d.pop(k)`: the dict without the member for `k`. */
  function Remove(ms: Obj, k: string): (r: Obj)
    ensures !HasKey(r, k)
    ensures forall k' :: k' != k ==> Lookup(r, k') == Lookup(ms, k')
    ensures forall m :: m in r ==> m in ms
    ensures forall k' :: k' in Keys(r) ==> k' in Keys(ms)
    ensures KeysDistinct(ms) ==> KeysDistinct(r)
  {
    if ms == [] then []
    else
      var rest := Remove(ms[1..], k);
      assert Keys(ms) == [ms[0].key] + Keys(ms[1..]);
      assert KeysDistinct(ms) ==> KeysDistinct(ms[1..]) by { DistinctCons(ms[0].key, Keys(ms[1..])); }
      if ms[0].key == k then rest
      else
        assert Keys([ms[0]] + rest) == [ms[0].key] + Keys(rest);
        assert KeysDistinct(ms) ==> KeysDistinct([ms[0]] + rest) by {
          DistinctCons(ms[0].key, Keys(ms[1..]));
          DistinctCons(ms[0].key, Keys(rest));
        }
        [ms[0]] + rest
  }

  /** `x[k]` for a string key `k` and any value `x`: only a dict can be
      indexed by a string; a missing key raises KeyError. */
  function Index(x: Json, k: string): (r: Result<Json>)
    ensures r.Ok? <==> x.JObj? && HasKey(x.members, k)
    ensures r.Ok? ==> Lookup(x.members, k) == Some(r.value)
    ensures r.Err? ==> r.error == (if x.JObj? then KeyError else TypeError)
  {
    match x
    case JObj(ms) => (match Lookup(ms, k) case Some(v) => Ok(v) case None => Err(KeyError))
    case _ => Err(TypeError)
  }

  /** Python `s.startswith(p)`. */
  predicate StartsWith(s: string, p: string) {
    |p| <= |s| && s[..|p|] == p
  }

  /** A string that starts with `p` starts with every prefix of `p`. */
  lemma StartsWithPrefix(s: string, p: string, q: string)
    requires StartsWith(s, p) && StartsWith(p, q)
    ensures StartsWith(s, q)
  {
    assert s[..|q|] == s[..|p|][..|q|];
  }

  /** Python `s.endswith(p)`. */
  predicate EndsWith(s: string, p: string) {
    |p| <= |s| && s[|s| - |p|..] == p
  }

  predicate OccursAt(s: string, p: string, i: int) {
    0 <= i <= |s| - |p| && s[i..i + |p|] == p
  }

  /** Python `p in s` for strings: a substring test. */
  predicate Contains(s: string, p: string) {
    exists i | 0 <= i <= |s| - |p| :: OccursAt(s, p, i)
  }

  /** Python `k in x` for a string `k`: key membership for a dict, element
      membership for a list, substring for a string; other values raise. */
  function In(k: string, x: Json): (r: Result<bool>)
    ensures r.Err? <==> x.JNull? || x.JBool? || x.JInt?
    ensures x.JObj? ==> r == Ok(HasKey(x.members, k))
  {
    match x
    case JObj(ms) => Ok(HasKey(ms, k))
    case JArr(items) => Ok(JStr(k) in items)
    case JStr(s) => Ok(Contains(s, k))
    case _ => Err(TypeError)
  }

  /** The values a Python `for` loop visits when it iterates over `x`: a
      list's items, a dict's keys, a string's characters. */
  function Iterate(x: Json): (r: Result<seq<Json>>)
    ensures r.Err? <==> x.JNull? || x.JBool? || x.JInt?
    ensures x.JArr? ==> r == Ok(x.items)
    ensures r.Ok? ==> (|r.value| == 0 <==> !Truthy(x))
  {
    match x
    case JArr(items) => Ok(items)
    case JObj(ms) => Ok(seq(|ms|, i requires 0 <= i < |ms| => JStr(ms[i].key)))
    case JStr(s) => Ok(seq(|s|, i requires 0 <= i < |s| => JStr([s[i]])))
    case _ => Err(TypeError)
  }
}
