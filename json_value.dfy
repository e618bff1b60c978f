/** The values `json.load` returns, and what Python's `in`, `[]` with a string
    key and `for` do on them. */
module PyJson {
  import opened Wrappers

  /** A parsed JSON document. An object keeps its members in document order,
      one member per key, as the parsed dictionary does. */
  datatype Json =
    | JNull
    | JBool(b: bool)
    | JNum(x: real)
    | JStr(s: string)
    | JArr(items: seq<Json>)
    | JObj(members: seq<(string, Json)>)

  /** The exceptions the modelled operations can raise on such values. */
  datatype PyError = TypeError | KeyError

  function Keys(members: seq<(string, Json)>): (ks: seq<string>)
    ensures |ks| == |members| && forall i :: 0 <= i < |members| ==> ks[i] == members[i].0
  {
    seq(|members|, i requires 0 <= i < |members| => members[i].0)
  }

  /** The value stored under `key`, if any. */
  function Lookup(members: seq<(string, Json)>, key: string): (r: Option<Json>)
    ensures r.Some? <==> key in Keys(members)
    ensures r.Some? ==> (key, r.value) in members
  {
    if members == [] then None
    else if members[0].0 == key then Some(members[0].1)
    else
      var rest := Lookup(members[1..], key);
      assert Keys(members) == [members[0].0] + Keys(members[1..]);
      rest
  }

  /** Python's `p in s` on strings: `p` occurs in `s` as a contiguous piece. */
  predicate Occurs(p: string, s: string)
  {
    (|p| <= |s| && s[..|p|] == p) || (s != [] && Occurs(p, s[1..]))
  }

  /** `key in container`: a key of an object, an element of a list, a piece of
      a string; on any other value the test raises `TypeError`. */
  function In(key: string, container: Json): (r: Result<bool, PyError>)
    ensures r.Ok? <==> container.JObj? || container.JArr? || container.JStr?
    ensures container.JObj? ==> r == Ok(key in Keys(container.members))
    ensures container.JArr? ==> r == Ok(JStr(key) in container.items)
  {
    match container
    case JObj(members) => Ok(key in Keys(members))
    case JArr(items) => Ok(JStr(key) in items)
    case JStr(s) => Ok(Occurs(key, s))
    case _ => Err(TypeError)
  }

  /** `container[key]` with a string key: an object's member, `KeyError` when
      it is absent, `TypeError` on every other value. */
  function GetItem(container: Json, key: string): (r: Result<Json, PyError>)
    ensures r.Ok? <==> container.JObj? && key in Keys(container.members)
    ensures r.Ok? ==> (key, r.value) in container.members
    ensures r == Err(KeyError) <==> container.JObj? && key !in Keys(container.members)
  {
    match container
    case JObj(members) =>
      (match Lookup(members, key)
       case Some(v) => Ok(v)
       case None => Err(KeyError))
    case _ => Err(TypeError)
  }

  /** What `for x in v` visits: a list's elements, an object's keys, a
      string's characters; other values are not iterable. */
  function Iterate(v: Json): (r: Result<seq<Json>, PyError>)
    ensures r.Ok? <==> v.JObj? || v.JArr? || v.JStr?
    ensures v.JArr? ==> r == Ok(v.items)
    ensures v.JObj? ==>
      r.Ok? && |r.value| == |v.members| && forall i :: 0 <= i < |v.members| ==> r.value[i] == JStr(v.members[i].0)
    ensures v.JStr? ==>
      r.Ok? && |r.value| == |v.s| && forall i :: 0 <= i < |v.s| ==> r.value[i] == JStr([v.s[i]])
  {
    match v
    case JArr(items) => Ok(items)
    case JObj(members) => Ok(seq(|members|, i requires 0 <= i < |members| => JStr(members[i].0)))
    case JStr(s) => Ok(seq(|s|, i requires 0 <= i < |s| => JStr([s[i]])))
    case _ => Err(TypeError)
  }

  /** A key that can be read with `[]` passes the `in` test. */
  lemma GetItemImpliesIn(container: Json, key: string)
    requires GetItem(container, key).Ok?
    ensures In(key, container) == Ok(true)
  {
  }

  /** A string contains every piece of it. */
  lemma {:induction false} OccursAt(p: string, s: string, k: nat)
    requires k + |p| <= |s| && s[k..k + |p|] == p
    ensures Occurs(p, s)
    decreases k
  {
    if k > 0 {
      assert s[1..][k - 1..k - 1 + |p|] == s[k..k + |p|];
      OccursAt(p, s[1..], k - 1);
    } else {
      assert s[..|p|] == s[k..k + |p|];
    }
  }
}
