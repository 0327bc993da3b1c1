/** The acceptance half of the repository's round-trip test: the inferred
    schema accepts the sample it was inferred from. It is proved for samples
    where no "uniform kind" choice takes a representative out of several
    arrays or objects. */
module RoundTrip {
  import opened JsonValue
  import opened Valibot
  import opened Inference
  import opened MergeProperties
  import opened BranchProperties

  /** Wherever the inference goes from the value, a "uniform kind" choice of
      kind "object" is made over one value only. Follows the recursion of
      Infer branch by branch. */
  ghost predicate SafeValue(v: Json)
    decreases Size(v), 0, 0
  {
    match v
    case JArray(items) => SafeValues(items)
    case JObject(es) =>
      assert ObjectsSize([es]) == EntriesSize(es) by {
        assert [es][1..] == [];
      }
      SafeObjects([es])
    case _ => true
  }

  /** The same condition for the values at one position: an array's elements
      or the values gathered under one key. */
  ghost predicate SafeValues(vs: seq<Json>)
    decreases ValuesSize(vs), 3, 0
  {
    if vs == [] then true
    else if AllObjects(vs) then
      MergeCondition(vs);
      SafeObjects(EntriesOf(vs))
    else if SameKind(vs) then
      ValueSizeBound(vs, 0);
      (TypeOf(vs[0]) == "object" ==> |vs| == 1) && SafeValue(vs[0])
    else
      forall i :: 0 <= i < |vs| ==> (ValueSizeBound(vs, i); SafeValue(vs[i]))
  }

  /** The condition for every key of a merge. */
  ghost predicate SafeObjects(objects: seq<Entries>)
    decreases ObjectsSize(objects), 6, 0
  {
    forall k :: k in AllKeys(objects) ==> SafeValues(Gather(objects, k))
  }

  lemma {:induction false} ValuesForWellFormed(es: Entries, key: string)
    requires forall i :: 0 <= i < |es| ==> WellFormed(es[i].1)
    ensures forall x :: x in ValuesFor(es, key) ==> WellFormed(x)
  {
    if es != [] {
      ValuesForWellFormed(es[..|es| - 1], key);
    }
  }

  lemma {:induction false} GatherWellFormed(objects: seq<Entries>, key: string)
    requires forall j :: 0 <= j < |objects| ==> WellFormedEntries(objects[j])
    ensures forall x :: x in Gather(objects, key) ==> WellFormed(x)
  {
    if objects != [] {
      GatherWellFormed(objects[..|objects| - 1], key);
      ValuesForWellFormed(objects[|objects| - 1], key);
    }
  }

  lemma {:induction false} ValuesForHolds(es: Entries, i: nat)
    requires i < |es|
    ensures es[i].1 in ValuesFor(es, es[i].0)
  {
    if i < |es| - 1 {
      ValuesForHolds(es[..|es| - 1], i);
    }
  }

  /** The value an object holds under a key is among the key's gathered values. */
  lemma {:induction false} GatherHolds(objects: seq<Entries>, j: nat, key: string)
    requires j < |objects| && Lookup(objects[j], key).Some?
    ensures Lookup(objects[j], key).value in Gather(objects, key)
  {
    if j < |objects| - 1 {
      GatherHolds(objects[..|objects| - 1], j, key);
    } else {
      var es := objects[j];
      var i :| 0 <= i < |es| && es[i] == (key, Lookup(es, key).value);
      ValuesForHolds(es, i);
    }
  }

  /** Values the round trip is stated for: at least one, each a parsed JSON
      value, and the condition holds for the list. */
  ghost predicate SafeSample(vs: seq<Json>) {
    vs != [] && (forall i :: 0 <= i < |vs| ==> WellFormed(vs[i])) && SafeValues(vs)
  }

  /** Objects the round trip is stated for. */
  ghost predicate SafeMerge(objects: seq<Entries>) {
    (forall j :: 0 <= j < |objects| ==> WellFormedEntries(objects[j])) && SafeObjects(objects)
  }

  // The lemmas below call each other along the recursion of the inference.
  // Termination: 16 * weight + rank, the weight as for the inference.

  /** Under the condition, the inferred schema accepts the sample. */
  lemma InferAccepts(v: Json)
    requires WellFormed(v) && SafeValue(v)
    ensures Accepts(Infer(v).schema, v)
    decreases 16 * Size(v)
  {
    match v
    case JArray(items) =>
      if items != [] {
        HandleArrayCases(items);
        BranchesAccepted(items);
      }
    case JObject(es) =>
      assert ObjectsSize([es]) == EntriesSize(es) by {
        assert [es][1..] == [];
      }
      MergeAccepts([es]);
      assert [es][0] == es;
    case _ =>
  }

  /** The element rule accepts every value it was computed from, branch by
      branch. */
  lemma BranchesAccepted(vs: seq<Json>)
    requires SafeSample(vs)
    ensures AllObjects(vs) ==> AcceptsAll(Object(MergeObjects(EntriesOf(vs)).fields), vs)
    ensures !AllObjects(vs) && SameKind(vs) ==> AcceptsAll(Infer(vs[0]).schema, vs)
    ensures !AllObjects(vs) && !SameKind(vs) ==> AcceptsAll(CreateUnion(vs).schema, vs)
    decreases 16 * ValuesSize(vs) + 4
  {
    if AllObjects(vs) {
      MergedElementsAccepted(vs);
    } else if SameKind(vs) {
      RepresentativeAccepted(vs);
    } else {
      UnionAccepts(vs);
    }
  }

  /** All values objects: the merged object schema accepts each of them. */
  lemma MergedElementsAccepted(vs: seq<Json>)
    requires SafeSample(vs) && AllObjects(vs)
    ensures AcceptsAll(Object(MergeObjects(EntriesOf(vs)).fields), vs)
    decreases 16 * ValuesSize(vs) + 3
  {
    var objects := EntriesOf(vs);
    MergeCondition(vs);
    forall j | 0 <= j < |objects| ensures WellFormedEntries(objects[j]) {
      assert WellFormed(vs[j]);
    }
    MergeAccepts(objects);
    forall i | 0 <= i < |vs| ensures Accepts(Object(MergeObjects(objects).fields), vs[i]) {
      assert vs[i] == JObject(objects[i]);
    }
  }

  /** One kind, not all objects: the first value's schema accepts every value.
      A scalar kind fixes the schema; kind "object" occurs with one value only. */
  lemma RepresentativeAccepted(vs: seq<Json>)
    requires SafeSample(vs) && !AllObjects(vs) && SameKind(vs)
    ensures AcceptsAll(Infer(vs[0]).schema, vs)
    decreases 16 * ValuesSize(vs) + 3
  {
    ValueSizeBound(vs, 0);
    if TypeOf(vs[0]) == "object" {
      InferAccepts(vs[0]);
    } else {
      forall i | 0 <= i < |vs| ensures Accepts(Infer(vs[0]).schema, vs[i]) {
        ScalarRepresentative(vs[0], vs[i]);
      }
    }
  }

  /** A scalar's schema accepts every scalar of its kind. */
  lemma ScalarRepresentative(a: Json, b: Json)
    requires TypeOf(a) == TypeOf(b) && TypeOf(a) != "object"
    ensures Accepts(Infer(a).schema, b)
  {
  }

  /** Several kinds: every value passes its own branch of the union. */
  lemma UnionAccepts(vs: seq<Json>)
    requires SafeSample(vs) && !AllObjects(vs) && !SameKind(vs)
    ensures AcceptsAll(CreateUnion(vs).schema, vs)
    decreases 16 * ValuesSize(vs) + 3
  {
    CreateUnionSchema(vs);
    forall i | 0 <= i < |vs| ensures Accepts(CreateUnion(vs).schema, vs[i]) {
      ValueSizeBound(vs, i);
      InferAccepts(vs[i]);
      assert BranchSchemas(vs)[i] == Infer(vs[i]).schema;
    }
  }

  /** The merged object schema accepts every object of the merge. */
  lemma MergeAccepts(objects: seq<Entries>)
    requires SafeMerge(objects)
    ensures forall j :: 0 <= j < |objects| ==> AcceptsFields(MergeObjects(objects).fields, objects[j])
    decreases 16 * ObjectsSize(objects) + 8
  {
    forall j | 0 <= j < |objects|
      ensures AcceptsFields(MergeObjects(objects).fields, objects[j])
    {
      ObjectAccepted(objects, j);
    }
  }

  lemma ObjectAccepted(objects: seq<Entries>, j: nat)
    requires SafeMerge(objects) && j < |objects|
    ensures AcceptsFields(MergeObjects(objects).fields, objects[j])
    decreases 16 * ObjectsSize(objects) + 7
  {
    forall i | 0 <= i < |MergeObjects(objects).fields|
      ensures AcceptsEntry(MergeObjects(objects).fields[i].1, Lookup(objects[j], MergeObjects(objects).fields[i].0))
    {
      FieldAccepts(objects, i, j);
    }
  }

  /** One field of the merged schema accepts what one object holds under its
      key, or its absence. */
  lemma FieldAccepts(objects: seq<Entries>, i: nat, j: nat)
    requires SafeMerge(objects) && i < |AllKeys(objects)| && j < |objects|
    ensures AcceptsEntry(MergeObjects(objects).fields[i].1, Lookup(objects[j], AllKeys(objects)[i]))
    decreases 16 * ObjectsSize(objects) + 6
  {
    var key := AllKeys(objects)[i];
    FieldShape(objects, i);
    match Lookup(objects[j], key)
    case None =>
      MissingKeyOptional(objects, i, j);
    case Some(x) =>
      PresentValueAccepted(objects, key, j);
  }

  /** The field of a key is the key's value schema, possibly made optional. */
  lemma FieldShape(objects: seq<Entries>, i: nat)
    requires i < |AllKeys(objects)|
    ensures var c := KeyValueSchema(objects, AllKeys(objects)[i]).schema;
      MergeObjects(objects).fields[i].1 in {c, Optional(c)}
  {
    MergeKeysAt(objects, AllKeys(objects), i);
  }

  /** A key some object lacks gets an optional field. */
  lemma MissingKeyOptional(objects: seq<Entries>, i: nat, j: nat)
    requires forall j :: 0 <= j < |objects| ==> DistinctKeys(objects[j])
    requires i < |AllKeys(objects)| && j < |objects|
    requires Lookup(objects[j], AllKeys(objects)[i]).None?
    ensures MergeObjects(objects).fields[i].1.Optional?
  {
    var key := AllKeys(objects)[i];
    MergeKeysAt(objects, AllKeys(objects), i);
    HasKeyLookup(objects[j], key);
    GatherCount(objects, key);
    HoldersAll(objects, key);
  }

  /** The key's value schema accepts the value any object holds under it. */
  lemma PresentValueAccepted(objects: seq<Entries>, key: string, j: nat)
    requires SafeMerge(objects) && j < |objects| && Lookup(objects[j], key).Some?
    ensures Accepts(KeyValueSchema(objects, key).schema, Lookup(objects[j], key).value)
    decreases 16 * ObjectsSize(objects) + 5
  {
    var vs := Gather(objects, key);
    GatherHolds(objects, j, key);
    AllKeysMember(objects, key);
    assert HasKey(objects[j], key) by {
      HasKeyLookup(objects[j], key);
    }
    GatherWellFormed(objects, key);
    KeyValueCases(objects, key);
    BranchesAccepted(vs);
  }
}
