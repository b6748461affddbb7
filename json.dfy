/** Parsed JSON documents as the source manipulates them: Python dicts, lists and
    scalars. An object keeps its fields in document order, as a Python dict
    does; a key is looked up at its first occurrence. */
module Json {
  import opened Wrappers

  datatype Json =
    | JNull
    | JBool(b: bool)
    | JNum(n: int)
    | JStr(s: string)
    | JArr(items: seq<Json>)
    | JObj(fields: seq<Field>)

  datatype Field = Field(key: string, value: Json)

  /** Python truthiness: None, False, 0, "", [] and {} are falsy. */
  function Truthy(j: Json): (t: bool)
    ensures !t <==> j in {JNull, JBool(false), JNum(0), JStr([]), JArr([]), JObj([])}
  {
    match j
    case JNull => false
    case JBool(b) => b
    case JNum(n) => n != 0
    case JStr(s) => s != []
    case JArr(xs) => xs != []
    case JObj(fs) => fs != []
  }

  const EmptyObject: Json := JObj([])

  /** Position of the first field named k. */
  function IndexOf(fs: seq<Field>, k: string): (r: Option<nat>)
    ensures r.Some? ==> r.value < |fs| && fs[r.value].key == k
    ensures r.Some? ==> forall j :: 0 <= j < r.value ==> fs[j].key != k
    ensures r.None? ==> forall j :: 0 <= j < |fs| ==> fs[j].key != k
  {
    if |fs| == 0 then None
    else if fs[0].key == k then Some(0)
    else match IndexOf(fs[1..], k)
      case None => None
      case Some(i) => Some(i + 1)
  }

  /** Field i is the one a lookup of its key finds. */
  predicate FirstAt(fs: seq<Field>, i: nat)
    requires i < |fs|
  {
    IndexOf(fs, fs[i].key) == Some(i)
  }

  /** The value of dict[k], if the key is present. */
  function Get(fs: seq<Field>, k: string): (r: Option<Json>)
    ensures r.Some? <==> IndexOf(fs, k).Some?
    ensures r.Some? ==> r.value == fs[IndexOf(fs, k).value].value
  {
    match IndexOf(fs, k)
    case None => None
    case Some(i) => Some(fs[i].value)
  }

  /** Python's j[k] on a parsed document: defined only on an object holding k
      (anything else raises KeyError or TypeError). */
  function Member(j: Json, k: string): (r: Option<Json>)
    ensures j.JObj? ==> r == Get(j.fields, k)
    ensures !j.JObj? ==> r.None?
  {
    if j.JObj? then Get(j.fields, k) else None
  }

  /** `del d[k]`: the dict without the key k. */
  function RemoveKey(fs: seq<Field>, k: string): (r: seq<Field>)
    ensures forall j :: 0 <= j < |r| ==> r[j].key != k
    ensures |r| <= |fs|
  {
    if |fs| == 0 then []
    else (if fs[0].key == k then [] else [fs[0]]) + RemoveKey(fs[1..], k)
  }

  /** Two equal key sequences give equal lookups. */
  lemma IndexOfSameKeys(fs: seq<Field>, gs: seq<Field>, k: string)
    requires |fs| == |gs|
    requires forall j :: 0 <= j < |fs| ==> fs[j].key == gs[j].key
    ensures IndexOf(fs, k) == IndexOf(gs, k)
  {
  }

  /** Writing a new value over field i keeps every key where it was. */
  lemma IndexOfUpdate(fs: seq<Field>, i: nat, v: Json, k: string)
    requires i < |fs|
    ensures IndexOf(fs[i := Field(fs[i].key, v)], k) == IndexOf(fs, k)
  {
    IndexOfSameKeys(fs, fs[i := Field(fs[i].key, v)], k);
  }

  /** Deleting key k leaves the lookup of every other key as it was. */
  lemma {:induction false} GetRemoveKey(fs: seq<Field>, k: string, k': string)
    requires k' != k
    ensures Get(RemoveKey(fs, k), k') == Get(fs, k')
  {
    if |fs| > 0 {
      GetRemoveKey(fs[1..], k, k');
      var rest := RemoveKey(fs[1..], k);
      if fs[0].key == k {
        assert RemoveKey(fs, k) == rest;
      } else {
        assert RemoveKey(fs, k) == [fs[0]] + rest;
        assert ([fs[0]] + rest)[1..] == rest;
      }
    }
  }

  /** A key that is absent is not removed from anything. */
  lemma {:induction false} RemoveAbsentKey(fs: seq<Field>, k: string)
    requires forall j :: 0 <= j < |fs| ==> fs[j].key != k
    ensures RemoveKey(fs, k) == fs
  {
    if |fs| > 0 {
      RemoveAbsentKey(fs[1..], k);
      assert [fs[0]] + fs[1..] == fs;
    }
  }

  /** The items of j[k] when j is an object whose field k holds a list. */
  function ArrayMember(j: Json, k: string): (r: Option<seq<Json>>)
    ensures r.Some? <==> Member(j, k).Some? && Member(j, k).value.JArr?
    ensures r.Some? ==> Member(j, k) == Some(JArr(r.value))
  {
    match Member(j, k)
    case Some(JArr(xs)) => Some(xs)
    case _ => None
  }

  /** j with the list at j[k] replaced by xs, the field keeping its place. */
  function SetArrayMember(j: Json, k: string, xs: seq<Json>): (r: Json)
    requires ArrayMember(j, k).Some?
    ensures r.JObj? && |r.fields| == |j.fields|
  {
    var i := IndexOf(j.fields, k).value;
    JObj(j.fields[i := Field(k, JArr(xs))])
  }

  lemma ArrayMemberSet(j: Json, k: string, xs: seq<Json>)
    requires ArrayMember(j, k).Some?
    ensures ArrayMember(SetArrayMember(j, k, xs), k) == Some(xs)
  {
    IndexOfUpdate(j.fields, IndexOf(j.fields, k).value, JArr(xs), k);
  }

  lemma SetArrayMemberTwice(j: Json, k: string, xs: seq<Json>, ys: seq<Json>)
    requires ArrayMember(j, k).Some?
    ensures ArrayMember(SetArrayMember(j, k, xs), k).Some?
    ensures SetArrayMember(SetArrayMember(j, k, xs), k, ys) == SetArrayMember(j, k, ys)
  {
    IndexOfUpdate(j.fields, IndexOf(j.fields, k).value, JArr(xs), k);
  }

  lemma SetArrayMemberSame(j: Json, k: string)
    requires ArrayMember(j, k).Some?
    ensures SetArrayMember(j, k, ArrayMember(j, k).value) == j
  {
  }

  /** Replacing j[k] leaves every other member as it was. */
  lemma MemberSetArrayMember(j: Json, k: string, xs: seq<Json>, k': string)
    requires ArrayMember(j, k).Some? && k' != k
    ensures Member(SetArrayMember(j, k, xs), k') == Member(j, k')
  {
    IndexOfUpdate(j.fields, IndexOf(j.fields, k).value, JArr(xs), k');
  }

  /** Type-strict structural equality of parsed documents: objects by key,
      regardless of field order; arrays by position; scalars exactly, with
      their types (true and 1 differ). */
  ghost predicate Equiv(a: Json, b: Json)
    decreases a
  {
    match a
    case JArr(xs) =>
      && b.JArr?
      && |xs| == |b.items|
      && forall i :: 0 <= i < |xs| ==> Equiv(xs[i], b.items[i])
    case JObj(af) =>
      && b.JObj?
      && forall k ::
          && (IndexOf(af, k).None? <==> IndexOf(b.fields, k).None?)
          && (IndexOf(af, k).Some? && IndexOf(b.fields, k).Some? ==>
                Equiv(af[IndexOf(af, k).value].value, b.fields[IndexOf(b.fields, k).value].value))
    case _ => a == b
  }

  lemma {:induction false} EquivReflexive(a: Json)
    ensures Equiv(a, a)
    decreases a
  {
    match a
    case JArr(xs) =>
      forall i | 0 <= i < |xs| ensures Equiv(xs[i], xs[i]) {
        EquivReflexive(xs[i]);
      }
    case JObj(af) =>
      forall k | IndexOf(af, k).Some? ensures Equiv(af[IndexOf(af, k).value].value, af[IndexOf(af, k).value].value) {
        EquivReflexive(af[IndexOf(af, k).value].value);
      }
    case _ =>
  }
}
