/**
 * Decoded JSON request bodies as the Python handlers see them, together with
 * the three Python operations the handlers apply to them without type checks:
 * `dict.get(key, default)`, truthiness, and `for x in v` iteration.
 */
module JsonValues {
  import opened Wrappers

  /**
   * A decoded JSON value. An object keeps its members in document order;
   * numbers are mathematical reals (both Python `int` and `float` results).
   */
  datatype Json =
    | JNull
    | JBool(b: bool)
    | JNum(n: real)
    | JStr(s: string)
    | JArr(items: seq<Json>)
    | JObj(members: seq<(string, Json)>)

  /** The exceptions Python raises when a handler meets a wrongly typed value. */
  datatype PyError =
    | AttributeError   // `.get` called on a value that is not a dict
    | TypeError        // `for` over null, a boolean or a number

  /** True iff some member of `ms` has key `k`. */
  predicate HasKey(ms: seq<(string, Json)>, k: string) {
    exists i :: 0 <= i < |ms| && ms[i].0 == k
  }

  /**
   * The value a Python dict decoded from `ms` holds under `k`: when a key is
   * repeated, the last occurrence wins (see `LookupLastWins`).
   */
  function Lookup(ms: seq<(string, Json)>, k: string): (r: Option<Json>)
    ensures r.Some? <==> HasKey(ms, k)
  {
    if |ms| == 0 then None
    else if ms[|ms| - 1].0 == k then Some(ms[|ms| - 1].1)
    else
      var r := Lookup(ms[..|ms| - 1], k);
      assert forall i :: 0 <= i < |ms| - 1 ==> ms[..|ms| - 1][i] == ms[i];
      r
  }

  /** A found value is the one of the last member with that key. */
  lemma {:induction false} LookupLastWins(ms: seq<(string, Json)>, k: string)
    ensures Lookup(ms, k).Some? ==>
              exists i :: 0 <= i < |ms| && ms[i] == (k, Lookup(ms, k).value)
                          && forall j :: i < j < |ms| ==> ms[j].0 != k
    decreases |ms|
  {
    if |ms| > 0 && ms[|ms| - 1].0 != k {
      var front := ms[..|ms| - 1];
      LookupLastWins(front, k);
      if Lookup(ms, k).Some? {
        var i :| 0 <= i < |front| && front[i] == (k, Lookup(front, k).value)
                 && forall j :: i < j < |front| ==> front[j].0 != k;
        assert ms[i] == front[i];
        assert forall j :: i < j < |ms| ==> ms[j].0 != k by {
          forall j | i < j < |ms|
            ensures ms[j].0 != k
          {
            if j < |front| {
              assert ms[j] == front[j];
            }
          }
        }
      }
    }
  }

  /** In an object whose member `i` has a key no other member has, lookup finds that member. */
  lemma LookupUniqueKey(ms: seq<(string, Json)>, i: nat)
    requires i < |ms|
    requires forall j :: 0 <= j < |ms| && j != i ==> ms[j].0 != ms[i].0
    ensures Lookup(ms, ms[i].0) == Some(ms[i].1)
  {
    assert HasKey(ms, ms[i].0);
    LookupLastWins(ms, ms[i].0);
  }

  /** Python's `v.get(k, default)`: only a dict has `.get`; it yields the dict's value, or `default` for a missing key. */
  function Get(v: Json, k: string, default: Json): (r: Result<Json, PyError>)
    ensures r.Err? <==> !v.JObj?
    ensures r.Err? ==> r.error == AttributeError
    ensures v.JObj? && !HasKey(v.members, k) ==> r == Ok(default)
    ensures v.JObj? && HasKey(v.members, k) ==> r.Ok? && Lookup(v.members, k) == Some(r.value)
  {
    match v
    case JObj(ms) => Ok(Lookup(ms, k).GetOr(default))
    case _ => Err(AttributeError)
  }

  /** Python truthiness of a decoded value. */
  predicate Truthy(v: Json) {
    match v
    case JNull => false
    case JBool(b) => b
    case JNum(n) => n != 0.0
    case JStr(s) => s != ""
    case JArr(xs) => xs != []
    case JObj(ms) => ms != []
  }

  /** The keys of a dict decoded from `ms`, each once. */
  function DistinctKeys(ms: seq<(string, Json)>): (ks: seq<string>)
    ensures forall k :: k in ks <==> HasKey(ms, k)
    ensures forall a, b :: 0 <= a < b < |ks| ==> ks[a] != ks[b]
    ensures |ks| == 0 <==> |ms| == 0
  {
    if |ms| == 0 then []
    else
      var front := DistinctKeys(ms[..|ms| - 1]);
      var k := ms[|ms| - 1].0;
      assert forall i :: 0 <= i < |ms| - 1 ==> ms[..|ms| - 1][i] == ms[i];
      if k in front then front else front + [k]
  }

  /**
   * The elements `for x in v` visits: a list's items, a string's one-character
   * strings, a dict's keys; iterating null, a boolean or a number raises.
   */
  function Iterate(v: Json): (r: Result<seq<Json>, PyError>)
    ensures r.Err? <==> (v.JNull? || v.JBool? || v.JNum?)
    ensures r.Err? ==> r.error == TypeError
    ensures v.JArr? ==> r == Ok(v.items)
    ensures r.Ok? ==> (|r.value| == 0 <==> !Truthy(v))
    ensures r.Ok? && !v.JArr? ==> forall x :: x in r.value ==> x.JStr?
  {
    match v
    case JArr(xs) => Ok(xs)
    case JStr(s) => Ok(seq(|s|, i requires 0 <= i < |s| => JStr([s[i]])))
    case JObj(ms) =>
      var ks := DistinctKeys(ms);
      Ok(seq(|ks|, i requires 0 <= i < |ks| => JStr(ks[i])))
    case _ => Err(TypeError)
  }
}
