/**
 * A parsed JSON document as Python's `json.loads` returns it (objects keep
 * their key order), with the parts of Python's semantics the sync service
 * relies on: truthiness, `in`, subscription, `len()` and iteration.
 */
module Json {
  import opened Wrappers

  datatype Json =
    | JNull
    | JBool(b: bool)
    | JNum(n: real)
    | JStr(s: string)
    | JArr(items: seq<Json>)
    | JObj(fields: seq<(string, Json)>)

  /** `key in obj`. */
  predicate Has(fields: seq<(string, Json)>, key: string) {
    exists i :: 0 <= i < |fields| && fields[i].0 == key
  }

  /** `obj[key]`: a repeated key keeps its last value, as `json.loads` does. */
  function Get(fields: seq<(string, Json)>, key: string): (r: Option<Json>)
    ensures r.Some? <==> Has(fields, key)
    decreases |fields|
  {
    if fields == [] then None
    else
      var rest := Get(fields[1..], key);
      if rest.Some? then rest
      else if fields[0].0 == key then Some(fields[0].1)
      else
        assert !Has(fields[1..], key);
        assert forall i :: 1 <= i < |fields| ==> fields[i] == fields[1..][i - 1];
        None
  }

  /** Python truthiness: null, false, 0, and empty strings, lists and dicts are false. */
  predicate Truthy(j: Json) {
    match j
    case JNull => false
    case JBool(b) => b
    case JNum(n) => n != 0.0
    case JStr(s) => s != ""
    case JArr(items) => items != []
    case JObj(fields) => fields != []
  }

  /**
   * The keys of the dict `json.loads` builds from an object: each key once,
   * where it first appears (a repeated key only replaces the value).
   */
  function Keys(fields: seq<(string, Json)>): (r: seq<string>)
    ensures |r| <= |fields|
    ensures forall k :: k in r <==> Has(fields, k)
    ensures forall i, j :: 0 <= i < j < |r| ==> r[i] != r[j]
    decreases |fields|
  {
    if fields == [] then []
    else
      var init := fields[..|fields| - 1];
      var k := fields[|fields| - 1].0;
      var r := Keys(init);
      assert forall x :: Has(fields, x) <==> Has(init, x) || x == k by {
        forall x | Has(init, x) ensures Has(fields, x) {
          var i :| 0 <= i < |init| && init[i].0 == x;
          assert fields[i] == init[i];
        }
        forall x | Has(fields, x) && x != k ensures Has(init, x) {
          var i :| 0 <= i < |fields| && fields[i].0 == x;
          assert init[i] == fields[i];
        }
      }
      if k in r then r else r + [k]
  }

  /** The keys are listed in order of first appearance: each key occurs before every occurrence of a later one. */
  lemma {:induction false} KeysInOrder(fields: seq<(string, Json)>)
    ensures forall i, j :: 0 <= i < j < |Keys(fields)| ==> FirstBefore(fields, Keys(fields)[i], Keys(fields)[j])
    decreases |fields|
  {
    if fields != [] {
      var init, last := fields[..|fields| - 1], fields[|fields| - 1];
      var r := Keys(init);
      KeysInOrder(init);
      assert fields == init + [last];
      forall i, j | 0 <= i < j < |r| ensures FirstBefore(fields, r[i], r[j]) {
        FirstBeforeExtend(init, last, r[i], r[j]);
      }
      if last.0 !in r {
        forall i | 0 <= i < |r| ensures FirstBefore(fields, r[i], last.0) {
          FirstBeforeNew(init, last, r[i]);
        }
        assert Keys(fields) == r + [last.0];
      }
    }
  }

  /** Key `a` occurs in the object before every occurrence of key `b`. */
  ghost predicate FirstBefore(fields: seq<(string, Json)>, a: string, b: string) {
    exists p :: 0 <= p < |fields| && fields[p].0 == a && forall q :: 0 <= q < |fields| && fields[q].0 == b ==> p < q
  }

  lemma FirstBeforeExtend(fields: seq<(string, Json)>, last: (string, Json), a: string, b: string)
    requires FirstBefore(fields, a, b)
    ensures FirstBefore(fields + [last], a, b)
  {
    var f := fields + [last];
    var p :| 0 <= p < |fields| && fields[p].0 == a && forall q :: 0 <= q < |fields| && fields[q].0 == b ==> p < q;
    assert f[p].0 == a;
    forall q | 0 <= q < |f| && f[q].0 == b ensures p < q {
      if q < |fields| {
        assert fields[q] == f[q];
      }
    }
  }

  lemma FirstBeforeNew(fields: seq<(string, Json)>, last: (string, Json), a: string)
    requires Has(fields, a) && !Has(fields, last.0)
    ensures FirstBefore(fields + [last], a, last.0)
  {
    var f := fields + [last];
    var p :| 0 <= p < |fields| && fields[p].0 == a;
    assert f[p].0 == a;
    assert forall q :: 0 <= q < |f| && f[q].0 == last.0 ==> p < q;
  }

  /** `len(x)`: the number of items, characters or distinct keys; numbers, booleans and null have none. */
  function Length(j: Json): Result<nat> {
    match j
    case JArr(items) => Ok(|items|)
    case JStr(s) => Ok(|s|)
    case JObj(fields) => Ok(|Keys(fields)|)
    case _ => Err(NoLength)
  }

  const NoLength := "TypeError: object has no len()"
  const NotIterable := "TypeError: object is not iterable"

  /**
   * `for t in x`: a list yields its items, a string its characters (as
   * one-character strings), a dict its distinct keys; anything else raises.
   */
  function Iterate(j: Json): (r: Result<seq<Json>>)
    ensures r.Ok? <==> j.JArr? || j.JStr? || j.JObj?
    ensures r.Ok? ==> Ok(|r.value|) == Length(j)
    ensures j.JArr? ==> r == Ok(j.items)
  {
    match j
    case JArr(items) => Ok(items)
    case JStr(s) => Ok(seq(|s|, i requires 0 <= i < |s| => JStr([s[i]])))
    case JObj(fields) =>
      var keys := Keys(fields);
      Ok(seq(|keys|, i requires 0 <= i < |keys| => JStr(keys[i])))
    case _ => Err(NotIterable)
  }

  /** An iterable is empty exactly when it is falsy. */
  lemma IterateEmptyIffFalsy(j: Json)
    requires Iterate(j).Ok?
    ensures Iterate(j).value == [] <==> !Truthy(j)
  {
    if j.JObj? && j.fields != [] {
      assert Has(j.fields, j.fields[0].0);
    }
  }

  /** A key repeated in the text is one key of the dict: `{"a": 1, "a": 2}` has length 1 and value 2. */
  lemma RepeatedKeyCountedOnce(k: string, v: Json, w: Json)
    ensures Length(JObj([(k, v), (k, w)])) == Ok(1)
    ensures Get([(k, v), (k, w)], k) == Some(w)
  {
    var f := [(k, v), (k, w)];
    assert f[..1] == [(k, v)];
    assert f[..1][..0] == [];
    assert Keys(f[..1]) == [k];
  }
}
