/** Sample values handed to the schema inference: what JSON.parse produces. */
module JsonValue {

  datatype Option<+T> = None | Some(value: T)

  /** A JSON value. An object keeps its entries in the order Object.entries
      reports them. A number is opaque: the inference never computes with it. */
  datatype Json =
    | JNull
    | JString(str: string)
    | JNumber(num: real)
    | JBool(flag: bool)
    | JObject(entries: seq<(string, Json)>)
    | JArray(items: seq<Json>)

  /** The entries of one object, as Object.entries lists them. */
  type Entries = seq<(string, Json)>

  /** No key occurs twice among the entries of one object. */
  predicate DistinctKeys(es: Entries) {
    forall i, j :: 0 <= i < j < |es| ==> es[i].0 != es[j].0
  }

  /** Every object inside the value, at any depth, has distinct keys: what a
      parsed JSON text always satisfies. */
  predicate WellFormed(v: Json) {
    match v
    case JObject(es) => DistinctKeys(es) && forall i :: 0 <= i < |es| ==> WellFormed(es[i].1)
    case JArray(items) => forall i :: 0 <= i < |items| ==> WellFormed(items[i])
    case _ => true
  }

  /** The entries of an object that a parsed JSON text may hold. */
  predicate WellFormedEntries(es: Entries) {
    DistinctKeys(es) && forall i :: 0 <= i < |es| ==> WellFormed(es[i].1)
  }

  /** The value stored under a key, if any. */
  function Lookup(es: Entries, key: string): (r: Option<Json>)
    ensures r.None? <==> forall i :: 0 <= i < |es| ==> es[i].0 != key
    ensures r.Some? ==> exists i :: 0 <= i < |es| && es[i] == (key, r.value)
  {
    if es == [] then None
    else if es[0].0 == key then Some(es[0].1)
    else Lookup(es[1..], key)
  }

  // Sizes, the termination measure of the inference. Scalars weigh nothing,
  // each array or object adds one to the weight of what it holds.

  function Size(v: Json): nat {
    match v
    case JObject(es) => 1 + EntriesSize(es)
    case JArray(items) => 1 + ValuesSize(items)
    case _ => 0
  }

  function ValuesSize(vs: seq<Json>): nat {
    if vs == [] then 0 else Size(vs[0]) + ValuesSize(vs[1..])
  }

  function EntrySize(e: (string, Json)): nat {
    Size(e.1)
  }

  function EntriesSize(es: Entries): nat {
    if es == [] then 0 else EntrySize(es[0]) + EntriesSize(es[1..])
  }

  function ObjectsSize(objs: seq<Entries>): nat {
    if objs == [] then 0 else EntriesSize(objs[0]) + ObjectsSize(objs[1..])
  }

  lemma {:induction false} ValuesSizeAppend(a: seq<Json>, b: seq<Json>)
    ensures ValuesSize(a + b) == ValuesSize(a) + ValuesSize(b)
  {
    if a != [] {
      assert (a + b)[1..] == a[1..] + b;
      ValuesSizeAppend(a[1..], b);
    } else {
      assert a + b == b;
    }
  }

  lemma {:induction false} EntriesSizeAppend(a: Entries, b: Entries)
    ensures EntriesSize(a + b) == EntriesSize(a) + EntriesSize(b)
  {
    if a != [] {
      assert (a + b)[1..] == a[1..] + b;
      EntriesSizeAppend(a[1..], b);
    } else {
      assert a + b == b;
    }
  }

  lemma {:induction false} ObjectsSizeAppend(a: seq<Entries>, b: seq<Entries>)
    ensures ObjectsSize(a + b) == ObjectsSize(a) + ObjectsSize(b)
  {
    if a != [] {
      assert (a + b)[1..] == a[1..] + b;
      ObjectsSizeAppend(a[1..], b);
    } else {
      assert a + b == b;
    }
  }

  /** No element of a sequence weighs more than the whole sequence. */
  lemma {:induction false} ValueSizeBound(vs: seq<Json>, i: nat)
    requires i < |vs|
    ensures Size(vs[i]) <= ValuesSize(vs)
  {
    if i > 0 {
      ValueSizeBound(vs[1..], i - 1);
    }
  }
}
