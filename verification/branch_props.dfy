/** How handleArray and the per-key step of mergeObjectSchemas choose between
    merging, a representative element and a union. */
module BranchProperties {
  import opened JsonValue
  import opened Valibot
  import opened Text
  import opened Inference

  /** All the values have the kind of the first one. */
  predicate SameKind(vs: seq<Json>)
    requires vs != []
  {
    forall i :: 0 <= i < |vs| ==> TypeOf(vs[i]) == TypeOf(vs[0])
  }

  /** Every value is a plain object. */
  predicate AllObjects(vs: seq<Json>) {
    forall i :: 0 <= i < |vs| ==> vs[i].JObject?
  }

  /** The entries of values that are all plain objects. */
  function EntriesOf(vs: seq<Json>): seq<Entries>
    requires AllObjects(vs)
  {
    seq(|vs|, i requires 0 <= i < |vs| => vs[i].entries)
  }

  /** getUniqueTypes(values).size === 1 holds exactly when the values are
      not empty and all have one kind. */
  lemma UniformKind(vs: seq<Json>)
    ensures |UniqueTypes(vs)| == 1 <==> vs != [] && SameKind(vs)
  {
    var u := UniqueTypes(vs);
    if vs != [] {
      var t := TypeOf(vs[0]);
      assert t in u;
      if SameKind(vs) {
        assert u == {t};
      }
      if |u| == 1 {
        assert |u - {t}| == 0;
        assert u == {t};
        forall i | 0 <= i < |vs| ensures TypeOf(vs[i]) == t {
          assert TypeOf(vs[i]) in u;
        }
      }
    } else {
      assert u == {};
    }
  }

  /** An array and an object are one kind for the classifier, so a mix of
      them takes the "uniform kind" branch. */
  lemma ArraysAndObjectsShareKind(items: seq<Json>, entries: Entries)
    ensures |UniqueTypes([JArray(items), JObject(entries)])| == 1
  {
    UniformKind([JArray(items), JObject(entries)]);
  }

  /** The merge branch is taken exactly for a non-empty list of plain objects:
      one null or array among the values blocks it. */
  lemma MergeCondition(vs: seq<Json>)
    ensures (|PlainObjects(vs)| > 0 && |PlainObjects(vs)| == |vs|) <==>
            (vs != [] && forall i :: 0 <= i < |vs| ==> vs[i].JObject?)
    ensures (|PlainObjects(vs)| > 0 && |PlainObjects(vs)| == |vs|) ==> PlainObjects(vs) == EntriesOf(vs)
  {
  }

  lemma ObjectsAreOneKind(vs: seq<Json>)
    requires vs != [] && forall i :: 0 <= i < |vs| ==> vs[i].JObject?
    ensures SameKind(vs)
  {
  }

  /** Mapping the inference over the values infers every value on its own. */
  lemma {:induction false} InferEachMaps(vs: seq<Json>)
    ensures forall i :: 0 <= i < |vs| ==> InferEach(vs)[i] == Infer(vs[i])
  {
    if vs != [] {
      InferEachMaps(vs[1..]);
      assert forall i :: 1 <= i < |vs| ==> vs[i] == vs[1..][i - 1];
    }
  }

  /** The branch schemas of a union, in value order. */
  function BranchSchemas(vs: seq<Json>): seq<Schema> {
    seq(|vs|, i requires 0 <= i < |vs| => Infer(vs[i]).schema)
  }

  /** The branch codes of a union, in value order. */
  function BranchCodes(vs: seq<Json>): seq<string> {
    seq(|vs|, i requires 0 <= i < |vs| => Infer(vs[i]).code)
  }

  /** createUnionSchema: exactly one branch per value, in value order, each the
      value's own schema (no deduplication, no flattening). */
  lemma CreateUnionSchema(vs: seq<Json>)
    ensures CreateUnion(vs).schema == Union(BranchSchemas(vs))
  {
    var rs := InferEach(vs);
    InferEachMaps(vs);
    assert SchemasOf(rs) == BranchSchemas(vs);
  }

  /** The union's code lists the branch codes, in value order, separated by
      ", " inside `v.union([...])`. */
  lemma CreateUnionCode(vs: seq<Json>)
    ensures CreateUnion(vs).code == "v.union([" + Join(BranchCodes(vs), ", ") + "])"
  {
    var rs := InferEach(vs);
    InferEachMaps(vs);
    assert CodesOf(rs) == BranchCodes(vs);
  }

  /** handleArray, case by case: the empty-array policy, the merge of plain
      objects, the first element standing for a one-kind array, and the union. */
  lemma HandleArrayCases(arr: seq<Json>)
    ensures arr == [] ==> HandleArray(arr) == Inferred(Array(String), "v.array(v.string())")
    ensures arr != [] && (forall i :: 0 <= i < |arr| ==> arr[i].JObject?) ==>
      var merged := MergeObjects(EntriesOf(arr));
      HandleArray(arr) == Inferred(Array(Object(merged.fields)), "v.array(v.object({\n" + Join(merged.lines, ",\n") + "\n}))")
    ensures arr != [] && (exists i :: 0 <= i < |arr| && !arr[i].JObject?) && SameKind(arr) ==>
      HandleArray(arr) == Inferred(Array(Infer(arr[0]).schema), "v.array(" + Infer(arr[0]).code + ")")
    ensures arr != [] && !SameKind(arr) ==>
      HandleArray(arr) == Inferred(Array(CreateUnion(arr).schema), "v.array(" + CreateUnion(arr).code + ")")
  {
    MergeCondition(arr);
    UniformKind(arr);
    if arr != [] && forall i :: 0 <= i < |arr| ==> arr[i].JObject? {
      ObjectsAreOneKind(arr);
    }
  }

  /** The schema of one key's gathered values, case by case. */
  lemma KeyValueCases(objects: seq<Entries>, key: string)
    ensures var vs := Gather(objects, key);
      && (vs == [] ==> KeyValueSchema(objects, key) == Infer(JNull))
      && (vs != [] && (forall i :: 0 <= i < |vs| ==> vs[i].JObject?) ==>
            var merged := MergeObjects(EntriesOf(vs));
            KeyValueSchema(objects, key) == Inferred(Object(merged.fields), "v.object({\n" + Join(merged.lines, ",\n") + "\n})"))
      && (vs != [] && (exists i :: 0 <= i < |vs| && !vs[i].JObject?) && SameKind(vs) ==>
            KeyValueSchema(objects, key) == Infer(vs[0]))
      && (vs != [] && !SameKind(vs) ==> KeyValueSchema(objects, key) == CreateUnion(vs))
  {
    var vs := Gather(objects, key);
    MergeCondition(vs);
    UniformKind(vs);
    if vs != [] && forall i :: 0 <= i < |vs| ==> vs[i].JObject? {
      ObjectsAreOneKind(vs);
    }
  }

  /** In the "uniform kind" branch only the first element matters: two arrays
      that take it and start with the same element get the same result. */
  lemma RepresentativeDecides(a: seq<Json>, b: seq<Json>)
    requires a != [] && b != [] && a[0] == b[0]
    requires SameKind(a) && SameKind(b)
    requires exists i :: 0 <= i < |a| && !a[i].JObject?
    requires exists i :: 0 <= i < |b| && !b[i].JObject?
    ensures HandleArray(a) == HandleArray(b)
  {
    HandleArrayCases(a);
    HandleArrayCases(b);
  }

  /** The schema both handleArray (for an array's elements) and the key step
      of mergeObjectSchemas (for a key's gathered values) give a non-empty
      list of values. */
  ghost function ElementSchema(vs: seq<Json>): Schema
    requires vs != []
  {
    if AllObjects(vs) then Object(MergeObjects(EntriesOf(vs)).fields)
    else if SameKind(vs) then Infer(vs[0]).schema
    else CreateUnion(vs).schema
  }

  /** Arrays and keys follow one element rule: a non-empty array is an array
      of ElementSchema of its elements, and a key with gathered values gets
      ElementSchema of those values. */
  lemma SharedElementRule(arr: seq<Json>, objects: seq<Entries>, key: string)
    ensures arr != [] ==> HandleArray(arr).schema == Array(ElementSchema(arr))
    ensures Gather(objects, key) != [] ==>
      KeyValueSchema(objects, key).schema == ElementSchema(Gather(objects, key))
  {
    HandleArrayCases(arr);
    KeyValueCases(objects, key);
  }
}
