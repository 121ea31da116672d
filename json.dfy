/**
 * JSON values as the Python code sees them after `response.json()` or before
 * `json=`: objects keep their insertion order (Python dicts do), so a payload
 * built by successive `d[k] = v` statements is a sequence of key/value pairs.
 * Floating-point numbers are not modelled.
 */
module Json {
  import opened Wrappers

  datatype Json =
    | JNull
    | JBool(b: bool)
    | JInt(i: int)
    | JStr(s: string)
    | JArr(items: seq<Json>)
    | JObj(fields: seq<(string, Json)>)

  type Fields = seq<(string, Json)>

  const EmptyObject: Json := JObj([])

  function Keys(fs: Fields): (ks: seq<string>)
    ensures |ks| == |fs|
    ensures forall i :: 0 <= i < |fs| ==> ks[i] == fs[i].0
  {
    seq(|fs|, i requires 0 <= i < |fs| => fs[i].0)
  }

  /** Where `key` first occurs in ks at or after position i, or |ks| when it
      does not. */
  function IndexFrom(ks: seq<string>, key: string, i: nat): nat
    decreases |ks| - i
  {
    if i >= |ks| then |ks|
    else if ks[i] == key then i
    else IndexFrom(ks, key, i + 1)
  }

  /** Where `key` first occurs in ks, or |ks| when it does not occur. */
  function IndexOf(ks: seq<string>, key: string): nat {
    IndexFrom(ks, key, 0)
  }

  lemma {:induction false} IndexFromFirst(ks: seq<string>, key: string, i: nat)
    requires i <= |ks|
    ensures i <= IndexFrom(ks, key, i) <= |ks|
    ensures IndexFrom(ks, key, i) < |ks| ==> ks[IndexFrom(ks, key, i)] == key
    ensures forall j :: i <= j < IndexFrom(ks, key, i) ==> ks[j] != key
    decreases |ks| - i
  {
    if i < |ks| && ks[i] != key {
      IndexFromFirst(ks, key, i + 1);
    }
  }

  lemma IndexOfFirst(ks: seq<string>, key: string)
    ensures IndexOf(ks, key) <= |ks|
    ensures IndexOf(ks, key) < |ks| ==> ks[IndexOf(ks, key)] == key
    ensures forall j :: 0 <= j < IndexOf(ks, key) ==> ks[j] != key
  {
    IndexFromFirst(ks, key, 0);
  }

  /** The first occurrence is the only position with those properties. */
  lemma IndexOfIs(ks: seq<string>, key: string, n: nat)
    requires n <= |ks| && (n < |ks| ==> ks[n] == key)
    requires forall j :: 0 <= j < n ==> ks[j] != key
    ensures IndexOf(ks, key) == n
  {
    IndexOfFirst(ks, key);
  }

  /** `d.get(key)`: the value stored under the first occurrence of key. */
  function Get(fs: Fields, key: string): Option<Json> {
    var i := IndexOf(Keys(fs), key);
    if i < |fs| then Some(fs[i].1) else None
  }

  lemma GetFindsKey(fs: Fields, key: string)
    ensures Get(fs, key).Some? <==> key in Keys(fs)
  {
    IndexOfFirst(Keys(fs), key);
  }

  /** Once the key list of an object is known, a lookup is a search in that
      list alone (which Dafny evaluates when the list is a literal). */
  lemma GetByKeyList(fs: Fields, ks: seq<string>, key: string)
    requires Keys(fs) == ks
    ensures IndexOf(ks, key) <= |ks|
    ensures Get(fs, key) == if IndexOf(ks, key) < |ks| then Some(fs[IndexOf(ks, key)].1) else None
  {
    IndexOfFirst(ks, key);
  }

  /** A key whose first occurrence is at position i reads the value stored there. */
  lemma GetAt(fs: Fields, key: string, i: nat)
    requires i < |fs| && fs[i].0 == key
    requires forall j :: 0 <= j < i ==> fs[j].0 != key
    ensures Get(fs, key) == Some(fs[i].1)
  {
    IndexOfFirst(Keys(fs), key);
  }

  /** A key that occurs nowhere reads nothing. */
  lemma GetAbsent(fs: Fields, key: string)
    requires forall j :: 0 <= j < |fs| ==> fs[j].0 != key
    ensures Get(fs, key) == None
  {
    IndexOfFirst(Keys(fs), key);
  }

  /** The object that holds vs[i] under ks[i], in that order: how a record
      serialises its fields. */
  function Zip(ks: seq<string>, vs: seq<Json>): (fs: Fields)
    requires |ks| == |vs|
    ensures |fs| == |ks|
    ensures forall i :: 0 <= i < |ks| ==> fs[i] == (ks[i], vs[i])
  {
    seq(|ks|, i requires 0 <= i < |ks| => (ks[i], vs[i]))
  }

  /** Reading a key of such an object is a search in the key list alone. */
  lemma GetZip(ks: seq<string>, vs: seq<Json>, key: string)
    requires |ks| == |vs|
    ensures IndexOf(ks, key) <= |ks|
    ensures Get(Zip(ks, vs), key) == if IndexOf(ks, key) < |ks| then Some(vs[IndexOf(ks, key)]) else None
  {
    IndexOfFirst(ks, key);
    assert Keys(Zip(ks, vs)) == ks;
  }

  /** No key of ks at or after position i occurs twice; written so that Dafny
      can evaluate it on a literal key list. */
  predicate NoDupFrom(ks: seq<string>, i: nat)
    decreases |ks| - i
  {
    i >= |ks| || (IndexFrom(ks, ks[i], i + 1) == |ks| && NoDupFrom(ks, i + 1))
  }

  lemma {:induction false} NoDupDistinct(ks: seq<string>, i: nat, a: nat, b: nat)
    requires NoDupFrom(ks, i) && i <= a < b < |ks|
    ensures ks[a] != ks[b]
    decreases |ks| - i
  {
    if a == i {
      IndexFromFirst(ks, ks[i], i + 1);
    } else {
      NoDupDistinct(ks, i + 1, a, b);
    }
  }

  /** In an object built from a duplicate-free key list, the i-th key reads the
      i-th value. */
  lemma GetZipAt(ks: seq<string>, vs: seq<Json>, i: nat)
    requires |ks| == |vs| && NoDupFrom(ks, 0) && i < |ks|
    ensures Get(Zip(ks, vs), ks[i]) == Some(vs[i])
  {
    assert Keys(Zip(ks, vs)) == ks;
    forall j | 0 <= j < i
      ensures ks[j] != ks[i]
    {
      NoDupDistinct(ks, 0, j, i);
    }
    IndexOfIs(ks, ks[i], i);
  }

  lemma IndexOfAppend(ks1: seq<string>, ks2: seq<string>, key: string)
    ensures IndexOf(ks1 + ks2, key) == if key in ks1 then IndexOf(ks1, key) else |ks1| + IndexOf(ks2, key)
  {
    IndexOfFirst(ks1, key);
    IndexOfFirst(ks2, key);
    var ks := ks1 + ks2;
    if key in ks1 {
      IndexOfIs(ks, key, IndexOf(ks1, key));
    } else {
      var n := |ks1| + IndexOf(ks2, key);
      assert forall j :: |ks1| <= j < n ==> ks[j] == ks2[j - |ks1|];
      IndexOfIs(ks, key, n);
    }
  }

  lemma GetAppend(a: Fields, b: Fields, key: string)
    ensures Get(a + b, key) == if key in Keys(a) then Get(a, key) else Get(b, key)
  {
    KeysAppend(a, b);
    IndexOfAppend(Keys(a), Keys(b), key);
    IndexOfFirst(Keys(a), key);
    IndexOfFirst(Keys(b), key);
    var i := IndexOf(Keys(a + b), key);
    var k := IndexOf(Keys(a), key);
    var m := IndexOf(Keys(b), key);
    if key in Keys(a) {
      assert k < |a|;
      assert i == k;
      assert (a + b)[k] == a[k];
      assert Get(a + b, key) == Get(a, key);
    } else {
      assert i == |a| + m;
      if m < |b| {
        assert (a + b)[|a| + m] == b[m];
      }
      assert Get(a + b, key) == Get(b, key);
    }
  }

  lemma {:induction false} KeysAppend(a: Fields, b: Fields)
    ensures Keys(a + b) == Keys(a) + Keys(b)
  {
    if a != [] {
      assert (a + b)[1..] == a[1..] + b;
      KeysAppend(a[1..], b);
    } else {
      assert a + b == b;
    }
  }

  lemma GetSingle(key: string, v: Json, k: string)
    ensures Get([(key, v)], k) == if k == key then Some(v) else None
  {
    assert Keys([(key, v)]) == [key];
    IndexOfFirst([key], k);
  }

  lemma GetTriple(k1: string, v1: Json, k2: string, v2: Json, k3: string, v3: Json, k: string)
    ensures Get([(k1, v1), (k2, v2), (k3, v3)], k) ==
      if k == k1 then Some(v1) else if k == k2 then Some(v2) else if k == k3 then Some(v3) else None
  {
    var ks := [k1, k2, k3];
    assert Keys([(k1, v1), (k2, v2), (k3, v3)]) == ks;
    var n := if k == k1 then 0 else if k == k2 then 1 else if k == k3 then 2 else 3;
    IndexOfIs(ks, k, n);
  }

  /** `d[key] = v`: an existing key keeps its position and takes the new
      value; a new key goes at the end. */
  function Put(fs: Fields, key: string, v: Json): (r: Fields)
    ensures |r| == if key in Keys(fs) then |fs| else |fs| + 1
  {
    IndexOfFirst(Keys(fs), key);
    var i := IndexOf(Keys(fs), key);
    if i < |fs| then fs[i := (key, v)] else fs + [(key, v)]
  }

  /** After `d[key] = v`, key reads v and every other key reads what it read before. */
  lemma GetPut(fs: Fields, key: string, v: Json)
    ensures forall k :: Get(Put(fs, key, v), k) == if k == key then Some(v) else Get(fs, k)
  {
    var ks := Keys(fs);
    IndexOfFirst(ks, key);
    var i := IndexOf(ks, key);
    var r := Put(fs, key, v);
    forall k
      ensures Get(r, k) == if k == key then Some(v) else Get(fs, k)
    {
      IndexOfFirst(ks, k);
      var j := IndexOf(ks, k);
      if i < |fs| {
        assert Keys(r) == ks;
        if j < |fs| {
          assert r[j] == if j == i then (key, v) else fs[j];
          assert j == i <==> k == key;
        }
      } else {
        assert Keys(r) == ks + [key];
        IndexOfAppend(ks, [key], k);
        IndexOfFirst([key], k);
        if k in ks {
          assert r[j] == fs[j];
        }
      }
    }
  }

  /** A new key is appended to the key order. */
  lemma KeysPutNew(fs: Fields, key: string, v: Json)
    requires Get(fs, key).None?
    ensures Keys(Put(fs, key, v)) == Keys(fs) + [key]
  {
    GetFindsKey(fs, key);
    IndexOfFirst(Keys(fs), key);
  }

  /** Assigning a key the object does not hold appends it. */
  lemma PutNew(fs: Fields, key: string, v: Json)
    requires key !in Keys(fs)
    ensures Put(fs, key, v) == fs + [(key, v)]
  {
    IndexOfFirst(Keys(fs), key);
  }

  /** Python truthiness of a parsed JSON value. */
  predicate Truthy(j: Json) {
    match j
    case JNull => false
    case JBool(b) => b
    case JInt(i) => i != 0
    case JStr(s) => s != ""
    case JArr(items) => items != []
    case JObj(fields) => fields != []
  }

  /** Wraps a string list the way `json=` serialises a Python list of str. */
  function Strings(xs: seq<string>): (r: seq<Json>)
    ensures |r| == |xs|
    ensures forall i :: 0 <= i < |xs| ==> r[i] == JStr(xs[i])
  {
    if xs == [] then [] else [JStr(xs[0])] + Strings(xs[1..])
  }

  /** A JSON string or null, as an Optional[str] field is serialised. */
  function OptStrJson(o: Option<string>): Json {
    match o
    case None => JNull
    case Some(s) => JStr(s)
  }
}
