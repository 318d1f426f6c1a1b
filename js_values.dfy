/**
  JavaScript values as the redux store, the REST client and the reducers
  see them. An object is a list of (key, value) pairs in insertion order,
  because the order of Object.keys / Object.values is observable; reading
  a key that is absent gives `undefined`.
*/
module JsValues {
  import opened Wrappers

  datatype Json =
    | JUndefined
    | JNull
    | JBool(b: bool)
    | JNum(n: int)
    | JStr(s: string)
    | JArr(items: seq<Json>)
    | JObj(fields: seq<(string, Json)>)

  type Fields = seq<(string, Json)>

  /** JavaScript truthiness: undefined, null, false, 0 and "" are falsy; arrays and objects are truthy. */
  predicate Truthy(j: Json)
  {
    match j
    case JUndefined => false
    case JNull => false
    case JBool(b) => b
    case JNum(n) => n != 0
    case JStr(s) => s != ""
    case JArr(_) => true
    case JObj(_) => true
  }

  function Keys<V>(f: seq<(string, V)>): seq<string>
  {
    seq(|f|, i requires 0 <= i < |f| => f[i].0)
  }

  predicate HasKey<V>(f: seq<(string, V)>, k: string)
  {
    exists i :: 0 <= i < |f| && f[i].0 == k
  }

  /** No key occurs twice, as in every JavaScript object. */
  predicate UniqueKeys<V>(f: seq<(string, V)>)
  {
    forall i, j :: 0 <= i < j < |f| ==> f[i].0 != f[j].0
  }

  /** Position of key `k`, or -1. */
  function IndexOfKey<V>(f: seq<(string, V)>, k: string): (r: int)
    ensures -1 <= r < |f|
    ensures r == -1 <==> !HasKey(f, k)
    ensures r >= 0 ==> f[r].0 == k && forall i :: 0 <= i < r ==> f[i].0 != k
  {
    if |f| == 0 then -1
    else if f[0].0 == k then 0
    else
      var r := IndexOfKey(f[1..], k);
      assert forall i :: 1 <= i < |f| ==> f[i] == f[1..][i - 1];
      if r == -1 then -1 else r + 1
  }

  /** `obj[k]` on the field list of an object. */
  function Lookup(f: Fields, k: string): Json
  {
    var i := IndexOfKey(f, k);
    if i == -1 then JUndefined else f[i].1
  }

  /** `j[k]`, undefined for anything that is not an object. */
  function Get(j: Json, k: string): Json
  {
    if j.JObj? then Lookup(j.fields, k) else JUndefined
  }

  /** The field list `obj[k] = v` leaves: the entry rewritten in place, or appended. */
  function Written(f: Fields, k: string, v: Json): Fields
  {
    var i := IndexOfKey(f, k);
    if i == -1 then f + [(k, v)] else f[i := (k, v)]
  }

  lemma WrittenLookupOther(f: Fields, k: string, v: Json, k2: string)
    requires k2 != k
    ensures Lookup(Written(f, k, v), k2) == Lookup(f, k2)
  {
    var i := IndexOfKey(f, k);
    var r := Written(f, k, v);
    var a := IndexOfKey(f, k2);
    if a == -1 {
      assert forall m :: 0 <= m < |f| ==> f[m].0 != k2;
      assert forall m :: 0 <= m < |r| ==> r[m].0 != k2 by {
        forall m | 0 <= m < |r|
          ensures r[m].0 != k2
        {
          if m < |f| && m != i {
            assert r[m] == f[m];
          }
        }
      }
    } else {
      assert r[a] == f[a];
      assert forall m :: 0 <= m < a ==> r[m] == f[m] || r[m].0 == k;
    }
  }

  lemma WrittenLookupSelf(f: Fields, k: string, v: Json)
    ensures Lookup(Written(f, k, v), k) == v
    ensures HasKey(Written(f, k, v), k)
  {
    var i := IndexOfKey(f, k);
    var r := Written(f, k, v);
    if i == -1 {
      assert forall m :: 0 <= m < |f| ==> r[m] == f[m] && f[m].0 != k;
      assert r[|f|].0 == k;
    } else {
      assert forall m :: 0 <= m < i ==> r[m] == f[m];
      assert r[i].0 == k;
    }
  }

  lemma WrittenKeys(f: Fields, k: string, v: Json)
    ensures HasKey(f, k) ==> Keys(Written(f, k, v)) == Keys(f)
    ensures !HasKey(f, k) ==> Keys(Written(f, k, v)) == Keys(f) + [k]
    ensures forall k2 :: HasKey(f, k2) ==> HasKey(Written(f, k, v), k2)
  {
    var r := Written(f, k, v);
    forall k2 | HasKey(f, k2)
      ensures HasKey(r, k2)
    {
      var m :| 0 <= m < |f| && f[m].0 == k2;
      assert r[m].0 == k2;
    }
  }

  lemma WrittenUnique(f: Fields, k: string, v: Json)
    ensures UniqueKeys(f) ==> UniqueKeys(Written(f, k, v))
    ensures forall e :: e in Written(f, k, v) ==> e in f || e == (k, v)
  {
  }

  /** `obj[k] = v`: an existing key keeps its place, a new key goes last. */
  function Put(f: Fields, k: string, v: Json): (r: Fields)
    ensures Lookup(r, k) == v
    ensures forall k2 :: k2 != k ==> Lookup(r, k2) == Lookup(f, k2)
    ensures HasKey(f, k) ==> Keys(r) == Keys(f)
    ensures !HasKey(f, k) ==> Keys(r) == Keys(f) + [k]
    ensures UniqueKeys(f) ==> UniqueKeys(r)
    ensures forall e :: e in r ==> e in f || e == (k, v)
    ensures HasKey(r, k)
    ensures forall k2 :: HasKey(f, k2) ==> HasKey(r, k2)
  {
    forall k2 | k2 != k
      ensures Lookup(Written(f, k, v), k2) == Lookup(f, k2)
    {
      WrittenLookupOther(f, k, v, k2);
    }
    WrittenLookupSelf(f, k, v);
    WrittenKeys(f, k, v);
    WrittenUnique(f, k, v);
    Written(f, k, v)
  }

  /** Reading the key at a known first position, as for an object literal. */
  lemma LookupAt(f: Fields, k: string, i: int)
    requires 0 <= i < |f| && f[i].0 == k
    requires forall m :: 0 <= m < i ==> f[m].0 != k
    ensures Lookup(f, k) == f[i].1
  {
    var r := IndexOfKey(f, k);
    assert r != -1 by {
      assert HasKey(f, k);
    }
  }

  /** Reading the keys of a two-key object literal. */
  lemma GetOfTwo(a: string, x: Json, b: string, y: Json)
    requires a != b
    ensures Get(JObj([(a, x), (b, y)]), a) == x
    ensures Get(JObj([(a, x), (b, y)]), b) == y
  {
    LookupAt([(a, x), (b, y)], a, 0);
    LookupAt([(a, x), (b, y)], b, 1);
  }

  /** Reading the keys of a three-key object literal. */
  lemma GetOfThree(a: string, x: Json, b: string, y: Json, c: string, z: Json)
    requires a != b && a != c && b != c
    ensures Get(JObj([(a, x), (b, y), (c, z)]), a) == x
    ensures Get(JObj([(a, x), (b, y), (c, z)]), b) == y
    ensures Get(JObj([(a, x), (b, y), (c, z)]), c) == z
  {
    LookupAt([(a, x), (b, y), (c, z)], a, 0);
    LookupAt([(a, x), (b, y), (c, z)], b, 1);
    LookupAt([(a, x), (b, y), (c, z)], c, 2);
  }

  /** The fields of `{...j}`: an object's own fields, nothing for anything else. */
  function Spread(j: Json): Fields
  {
    if j.JObj? then j.fields else []
  }

  /** `{...a, ...b}` as field lists: every field of `b`, in order, written over `a`. */
  function Merge(a: Fields, b: Fields): (r: Fields)
    ensures forall k :: HasKey(b, k) ==> HasKey(r, k)
    ensures forall k :: HasKey(a, k) ==> HasKey(r, k)
    decreases |b|
  {
    if |b| == 0 then a
    else
      var r := Merge(Put(a, b[0].0, b[0].1), b[1..]);
      assert forall k :: HasKey(b, k) ==> k == b[0].0 || HasKey(b[1..], k) by {
        forall k | HasKey(b, k) && k != b[0].0
          ensures HasKey(b[1..], k)
        {
          var m :| 0 <= m < |b| && b[m].0 == k;
          assert b[1..][m - 1] == b[m];
        }
      }
      r
  }

  /** `{...a, ...b}` read back: a key of `b` gives `b`'s value, any other key `a`'s. */
  lemma {:induction false} MergeLookup(a: Fields, b: Fields, k: string)
    requires UniqueKeys(b)
    ensures Lookup(Merge(a, b), k) == if HasKey(b, k) then Lookup(b, k) else Lookup(a, k)
    decreases |b|
  {
    if |b| > 0 {
      var p := Put(a, b[0].0, b[0].1);
      var rest := b[1..];
      assert forall m :: 0 <= m < |rest| ==> rest[m] == b[m + 1];
      assert UniqueKeys(rest);
      MergeLookup(p, rest, k);
      if k == b[0].0 {
        assert !HasKey(rest, k);
        LookupAt(b, k, 0);
      } else {
        assert HasKey(b, k) <==> HasKey(rest, k) by {
          if HasKey(rest, k) {
            var m :| 0 <= m < |rest| && rest[m].0 == k;
            assert b[m + 1].0 == k;
          }
          if HasKey(b, k) {
            var m :| 0 <= m < |b| && b[m].0 == k;
            assert rest[m - 1].0 == k;
          }
        }
        if HasKey(rest, k) {
          var m := IndexOfKey(rest, k);
          LookupAt(b, k, m + 1);
        }
      }
    }
  }

  /** ASCII `toLowerCase` of one character: `A`..`Z` become `a`..`z`, anything else is kept. */
  function LowerChar(c: char): char
  {
    if 'A' <= c <= 'Z' then (c as int + 32) as char else c
  }

  /** `s.toLowerCase()`, character by character. */
  function Lower(s: string): string
  {
    seq(|s|, i requires 0 <= i < |s| => LowerChar(s[i]))
  }

  /** The elements of an array; anything that is not an array has none. */
  function Items(j: Json): seq<Json>
  {
    if j.JArr? then j.items else []
  }

  /** `s.indexOf(x)`: the first position holding `x`, or -1. */
  function IndexOf(s: seq<Json>, x: Json): (r: int)
    ensures -1 <= r < |s|
    ensures r == -1 <==> x !in s
    ensures r >= 0 ==> s[r] == x && x !in s[..r]
  {
    if |s| == 0 then -1
    else if s[0] == x then 0
    else
      var r := IndexOf(s[1..], x);
      assert forall i :: 1 <= i < |s| ==> s[i] == s[1..][i - 1];
      assert r >= 0 ==> s[..r + 1] == [s[0]] + s[1..][..r];
      if r == -1 then -1 else r + 1
  }

  /** `s.splice(i, 1)`. */
  function RemoveAt(s: seq<Json>, i: nat): (r: seq<Json>)
    requires i < |s|
    ensures multiset(r) == multiset(s) - multiset{s[i]}
    ensures |r| == |s| - 1
    ensures forall k :: 0 <= k < |r| ==> r[k] == if k < i then s[k] else s[k + 1]
  {
    assert s == s[..i] + [s[i]] + s[i + 1..];
    s[..i] + s[i + 1..]
  }

  /**
    `r` is `s` without the first occurrence of `x`, the other elements in
    their order; `s` itself when `x` does not occur.
  */
  predicate RemovedFirst(s: seq<Json>, x: Json, r: seq<Json>)
  {
    if x in s then
      exists i :: 0 <= i < |s| && s[i] == x && x !in s[..i] && r == s[..i] + s[i + 1..]
    else r == s
  }

  /** Splicing out the index found by indexOf removes the first occurrence. */
  lemma RemoveFirstFound(s: seq<Json>, x: Json)
    requires x in s
    ensures RemovedFirst(s, x, RemoveAt(s, IndexOf(s, x)))
  {
    var i := IndexOf(s, x);
    assert s[i] == x && x !in s[..i];
  }

  /** The decimal digits of a natural number. */
  function NatString(n: nat): (r: string)
    ensures |r| >= 1
    ensures forall i :: 0 <= i < |r| ==> '0' <= r[i] <= '9'
  {
    var d := ['0', '1', '2', '3', '4', '5', '6', '7', '8', '9'][n % 10];
    if n < 10 then [d] else NatString(n / 10) + [d]
  }

  /** The string a value becomes when used as a property key. */
  function Key(j: Json): string
    decreases j, 1
  {
    match j
    case JUndefined => "undefined"
    case JNull => "null"
    case JBool(b) => if b then "true" else "false"
    case JNum(n) => if n < 0 then "-" + NatString(-n) else NatString(n)
    case JStr(s) => s
    case JArr(items) => JoinKeys(j, items)
    case JObj(_) => "[object Object]"
  }

  /** Array-to-string: the elements joined by commas, with null and undefined as empty strings. */
  function JoinKeys(parent: Json, items: seq<Json>): string
    requires forall i :: 0 <= i < |items| ==> items[i] < parent
    decreases parent, 0, |items|
  {
    if |items| == 0 then ""
    else
      var head := if items[0].JNull? || items[0].JUndefined? then "" else Key(items[0]);
      if |items| == 1 then head else head + "," + JoinKeys(parent, items[1..])
  }

  /** `obj[id]` for an arbitrary value used as the key. */
  function GetAt(j: Json, id: Json): Json
  {
    Get(j, Key(id))
  }
}
