/**
  The JSON values that the prompt templates are built from, and the two ways the
  properties of this model inspect them: reading the value at a path of object keys
  (`Get`) and replacing it (`Put`).

  An object keeps its members in insertion order: the host serializer writes
  integer-like keys first, in ascending order, and every other key in insertion order,
  and no key of the templates here is integer-like. The serializer itself is not modelled: every function that
  produces text takes it as a parameter of type `Stringify`.
*/
module JsonValues {
  import opened Wrappers

  datatype Json =
    | JNull
    | JBool(b: bool)
    | JNum(mantissa: int, scale: nat)   // the decimal number mantissa / 10^scale
    | JStr(s: string)
    | JArr(items: seq<Json>)
    | JObj(members: seq<Member>)

  datatype Member = Member(key: string, value: Json)

  /** The host's serializer (JSON.stringify with an indentation of two spaces). */
  type Stringify = Json -> string

  /** A sequence of object keys leading from a value to one of its leaves. */
  type Path = seq<string>

  /**
    The serializer tells apart two values that differ in one string leaf only, as
    JSON.stringify does: it writes every string leaf, quoted and escaped, in place.
  */
  ghost predicate SeparatesStringLeaves(stringify: Stringify)
  {
    forall j: Json, p: Path, s: string ::
      Get(j, p).Some? && Get(j, p).value.JStr? && stringify(Put(j, p, JStr(s))) == stringify(j)
      ==> Get(j, p).value.s == s
  }

  /** Under such a serializer, rewriting a string leaf to another string leaves a trace in the text. */
  lemma SeparatedLeaf(stringify: Stringify, j: Json, p: Path, s1: string, s2: string)
    requires SeparatesStringLeaves(stringify)
    requires Get(j, p) == Some(JStr(s1))
    requires stringify(Put(j, p, JStr(s2))) == stringify(j)
    ensures s1 == s2
  {
  }

  /** The value of the first member whose key is `k`, as property access on an object reads it. */
  function Lookup(ms: seq<Member>, k: string): (r: Option<Json>)
    ensures r.Some? ==> exists i :: 0 <= i < |ms| && ms[i] == Member(k, r.value)
    ensures r.None? ==> forall i :: 0 <= i < |ms| ==> ms[i].key != k
  {
    if ms == [] then None
    else if ms[0].key == k then Some(ms[0].value)
    else Lookup(ms[1..], k)
  }

  /** `ms` with the value of its first member keyed `k` replaced by `v`. */
  function Replace(ms: seq<Member>, k: string, v: Json): (r: seq<Member>)
    ensures |r| == |ms|
    ensures forall i :: 0 <= i < |ms| ==> r[i].key == ms[i].key
  {
    if ms == [] then []
    else if ms[0].key == k then [Member(k, v)] + ms[1..]
    else [ms[0]] + Replace(ms[1..], k, v)
  }

  /** The value found by following `path` from `j`, or None where the path leads nowhere. */
  function Get(j: Json, path: Path): Option<Json>
    decreases |path|
  {
    if path == [] then Some(j)
    else match j
      case JObj(ms) =>
        (match Lookup(ms, path[0])
         case Some(child) => Get(child, path[1..])
         case None => None)
      case _ => None
  }

  /** `j` with the value at `path` replaced by `v`; `j` itself where the path leads nowhere. */
  function Put(j: Json, path: Path, v: Json): Json
    decreases |path|
  {
    if path == [] then v
    else match j
      case JObj(ms) =>
        (match Lookup(ms, path[0])
         case Some(child) => JObj(Replace(ms, path[0], Put(child, path[1..], v)))
         case None => j)
      case _ => j
  }

  /** Lookup finds the member at index `i` when no earlier member has its key. */
  lemma {:induction false} LookupAt(ms: seq<Member>, i: nat)
    requires i < |ms|
    requires forall j :: 0 <= j < i ==> ms[j].key != ms[i].key
    ensures Lookup(ms, ms[i].key) == Some(ms[i].value)
  {
    if i > 0 {
      LookupAt(ms[1..], i - 1);
    }
  }

  /** Replace changes exactly the member at index `i` when no earlier member has its key. */
  lemma {:induction false} ReplaceAt(ms: seq<Member>, i: nat, v: Json)
    requires i < |ms|
    requires forall j :: 0 <= j < i ==> ms[j].key != ms[i].key
    ensures Replace(ms, ms[i].key, v) == ms[i := Member(ms[i].key, v)]
  {
    if i > 0 {
      ReplaceAt(ms[1..], i - 1, v);
      assert ms[i := Member(ms[i].key, v)] == [ms[0]] + ms[1..][i - 1 := Member(ms[i].key, v)];
    }
  }

  /** A path that starts at the member at index `i` continues in that member's value. */
  lemma GetUnder(ms: seq<Member>, i: nat, rest: Path)
    requires i < |ms|
    requires forall j :: 0 <= j < i ==> ms[j].key != ms[i].key
    ensures Get(JObj(ms), [ms[i].key] + rest) == Get(ms[i].value, rest)
  {
    var path := [ms[i].key] + rest;
    assert path[0] == ms[i].key && path[1..] == rest;
    LookupAt(ms, i);
  }

  /** Writing along a path that starts at the member at index `i` rewrites that member alone. */
  lemma PutUnder(ms: seq<Member>, i: nat, rest: Path, v: Json)
    requires i < |ms|
    requires forall j :: 0 <= j < i ==> ms[j].key != ms[i].key
    ensures Put(JObj(ms), [ms[i].key] + rest, v) == JObj(ms[i := Member(ms[i].key, Put(ms[i].value, rest, v))])
  {
    var path := [ms[i].key] + rest;
    assert path[0] == ms[i].key && path[1..] == rest;
    LookupAt(ms, i);
    ReplaceAt(ms, i, Put(ms[i].value, rest, v));
  }

  /** A path through the member that sits between `lead` and `trail` continues in that member's value. */
  lemma GetAmong(lead: seq<Member>, key: string, x: Json, trail: seq<Member>, rest: Path)
    requires forall j :: 0 <= j < |lead| ==> lead[j].key != key
    ensures Get(JObj(lead + [Member(key, x)] + trail), [key] + rest) == Get(x, rest)
  {
    var ms := lead + [Member(key, x)] + trail;
    assert forall j :: 0 <= j < |lead| ==> ms[j] == lead[j];
    GetUnder(ms, |lead|, rest);
  }

  /** Writing through the member that sits between `lead` and `trail` rewrites that member alone. */
  lemma PutAmong(lead: seq<Member>, key: string, x: Json, trail: seq<Member>, rest: Path, v: Json)
    requires forall j :: 0 <= j < |lead| ==> lead[j].key != key
    ensures Put(JObj(lead + [Member(key, x)] + trail), [key] + rest, v)
         == JObj(lead + [Member(key, Put(x, rest, v))] + trail)
  {
    var ms := lead + [Member(key, x)] + trail;
    assert forall j :: 0 <= j < |lead| ==> ms[j] == lead[j];
    PutUnder(ms, |lead|, rest, v);
    assert ms[|lead| := Member(key, Put(x, rest, v))] == lead + [Member(key, Put(x, rest, v))] + trail;
  }

  /** After replacing the value under `k`, looking `k` up finds the new value. */
  lemma {:induction false} LookupReplace(ms: seq<Member>, k: string, v: Json)
    requires Lookup(ms, k).Some?
    ensures Lookup(Replace(ms, k, v), k) == Some(v)
  {
    if ms[0].key != k {
      LookupReplace(ms[1..], k, v);
    }
  }

  /** Replacing the value under `k` by the value already there changes nothing. */
  lemma {:induction false} ReplaceLookup(ms: seq<Member>, k: string)
    requires Lookup(ms, k).Some?
    ensures Replace(ms, k, Lookup(ms, k).value) == ms
  {
    if ms[0].key != k {
      ReplaceLookup(ms[1..], k);
    }
  }

  /** Reading back a path just written gives the value written. */
  lemma {:induction false} GetPut(j: Json, path: Path, v: Json)
    requires Get(j, path).Some?
    ensures Get(Put(j, path, v), path) == Some(v)
    decreases |path|
  {
    if path != [] {
      var child := Lookup(j.members, path[0]).value;
      LookupReplace(j.members, path[0], Put(child, path[1..], v));
      GetPut(child, path[1..], v);
    }
  }

  /** Writing back the value read at a path gives the original value. */
  lemma {:induction false} PutGet(j: Json, path: Path)
    requires Get(j, path).Some?
    ensures Put(j, path, Get(j, path).value) == j
    decreases |path|
  {
    if path != [] {
      var child := Lookup(j.members, path[0]).value;
      PutGet(child, path[1..]);
      ReplaceLookup(j.members, path[0]);
    }
  }
}
