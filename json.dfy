/**
 * The already-decoded request body: a value as Python's json module hands it
 * to the handler. An object is a Python dict, so its fields are kept in
 * insertion order; a dict never holds a key twice (DistinctKeys).
 */
module Json {
  import opened Wrappers

  datatype Json =
    | JNull
    | JBool(b: bool)
    | JInt(i: int)
    | JFloat(r: real)  // the exact value of the double the parser produced
    | JString(s: string)
    | JArray(items: seq<Json>)
    | JObject(fields: seq<(string, Json)>)

  type Fields = seq<(string, Json)>

  predicate HasKey(fields: Fields, key: string) {
    exists i :: 0 <= i < |fields| && fields[i].0 == key
  }

  /** No key occurs twice, as in every Python dict. */
  predicate DistinctKeys(fields: Fields) {
    forall i, j :: 0 <= i < j < |fields| ==> fields[i].0 != fields[j].0
  }

  /** Every object nested in the value is a proper dict. */
  predicate Valid(j: Json) {
    match j
    case JArray(items) => forall i :: 0 <= i < |items| ==> Valid(items[i])
    case JObject(fields) =>
      DistinctKeys(fields) && forall i :: 0 <= i < |fields| ==> Valid(fields[i].1)
    case _ => true
  }

  /**
   * Dict lookup: the value stored under `key`, or None when the key is absent.
   * The value returned is that of the first field with the key (the only one
   * in a proper dict).
   */
  function Get(fields: Fields, key: string): (r: Option<Json>)
    ensures r.None? <==> !HasKey(fields, key)
    ensures r.Some? ==>
      exists i :: 0 <= i < |fields| && fields[i] == (key, r.value) &&
        forall j :: 0 <= j < i ==> fields[j].0 != key
  {
    if |fields| == 0 then None
    else if fields[0].0 == key then Some(fields[0].1)
    else
      var r := Get(fields[1..], key);
      assert forall i :: 0 <= i < |fields| - 1 ==> fields[1..][i] == fields[i + 1];
      r
  }

  /** In a proper dict, looking up a field's key yields that field's value. */
  lemma GetMember(fields: Fields, key: string, v: Json)
    requires DistinctKeys(fields)
    requires (key, v) in fields
    ensures Get(fields, key) == Some(v)
  {
  }

  /** A field whose key is before every other occurrence of that key is the one looked up. */
  lemma {:induction false} GetAt(pre: Fields, key: string, v: Json, post: Fields)
    requires !HasKey(pre, key)
    ensures Get(pre + [(key, v)] + post, key) == Some(v)
  {
    var s := pre + [(key, v)] + post;
    if pre != [] {
      assert s[0] == pre[0];
      assert s[1..] == pre[1..] + [(key, v)] + post;
      assert !HasKey(pre[1..], key) by {
        forall i | 0 <= i < |pre| - 1 ensures pre[1..][i].0 != key {
          assert pre[1..][i] == pre[i + 1];
        }
      }
      GetAt(pre[1..], key, v, post);
    }
  }

  /** Inserting a field under another key anywhere leaves a lookup unchanged. */
  lemma {:induction false} GetSkip(pre: Fields, k: string, v: Json, post: Fields, key: string)
    requires k != key
    ensures Get(pre + [(k, v)] + post, key) == Get(pre + post, key)
  {
    var s, t := pre + [(k, v)] + post, pre + post;
    if pre == [] {
      assert s[1..] == t;
    } else {
      assert s[0] == t[0] == pre[0];
      assert s[1..] == pre[1..] + [(k, v)] + post;
      assert t[1..] == pre[1..] + post;
      GetSkip(pre[1..], k, v, post, key);
    }
  }
}
