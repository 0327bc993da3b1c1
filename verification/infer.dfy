/** Schema inference from one sample value (src/jsonToValibotSchema.ts).
    Every routine returns the schema and the valibot source text that builds
    it, computed side by side. */
module Inference {
  import opened JsonValue
  import opened Valibot
  import opened Text

  /** The `{schema, code}` pair every routine returns. */
  datatype Inferred = Inferred(schema: Schema, code: string)

  /** What mergeObjectSchemas returns: the field record, in key order, and
      one code line per field. */
  datatype Merged = Merged(fields: seq<(string, Schema)>, lines: seq<string>)

  /** The declaration text put in front of an object reached through the
      entry point. */
  const Prelude := "import * as v from \"valibot\";\nconst schema = "

  /** The kind the classifier gives a value: null has its own kind, and
      arrays and objects share the kind "object". */
  function TypeOf(v: Json): (r: string)
    ensures r == "object" <==> v.JObject? || v.JArray?
    ensures r == "null" <==> v.JNull?
  {
    match v
    case JNull => "null"
    case JString(_) => "string"
    case JNumber(_) => "number"
    case JBool(_) => "boolean"
    case JObject(_) => "object"
    case JArray(_) => "object"
  }

  /** getUniqueTypes: the set of kinds among the items. */
  function UniqueTypes(items: seq<Json>): (r: set<string>)
    ensures forall k :: k in r <==> exists i :: 0 <= i < |items| && TypeOf(items[i]) == k
  {
    if items == [] then {}
    else
      var rest := UniqueTypes(items[1..]);
      assert forall i :: 1 <= i < |items| ==> items[i] == items[1..][i - 1];
      {TypeOf(items[0])} + rest
  }

  /** The filter that keeps the plain objects among the values (not null,
      not arrays): their entries, in order. */
  function PlainObjects(vs: seq<Json>): (r: seq<Entries>)
    ensures |r| <= |vs| && ObjectsSize(r) + |r| <= ValuesSize(vs)
    ensures |r| == |vs| <==> forall i :: 0 <= i < |vs| ==> vs[i].JObject?
    ensures |r| == |vs| ==> forall i :: 0 <= i < |vs| ==> vs[i] == JObject(r[i])
  {
    if vs == [] then []
    else
      var rest := PlainObjects(vs[1..]);
      assert forall i :: 1 <= i < |vs| ==> vs[i] == vs[1..][i - 1];
      if vs[0].JObject? then
        var r := [vs[0].entries] + rest;
        assert r[0] == vs[0].entries && r[1..] == rest;
        r
      else
        assert |rest| <= |vs| - 1;
        rest
  }

  /** The values one object holds under a key, in entry order: what the
      inner loop over one object's entries appends to the key's list. */
  function ValuesFor(es: Entries, key: string): (r: seq<Json>)
    ensures ValuesSize(r) <= EntriesSize(es)
    ensures |r| <= |es|
  {
    if es == [] then []
    else
      var last := es[|es| - 1];
      var front := ValuesFor(es[..|es| - 1], key);
      assert es == es[..|es| - 1] + [last];
      EntriesSizeAppend(es[..|es| - 1], [last]);
      if last.0 == key then
        ValuesSizeAppend(front, [last.1]);
        front + [last.1]
      else front
  }

  /** The dictionary's list for a key: the values gathered under it across
      the objects, in object order. */
  function Gather(objects: seq<Entries>, key: string): (r: seq<Json>)
    ensures ValuesSize(r) <= ObjectsSize(objects)
  {
    if objects == [] then []
    else
      var last := objects[|objects| - 1];
      var front := Gather(objects[..|objects| - 1], key);
      assert objects == objects[..|objects| - 1] + [last];
      ObjectsSizeAppend(objects[..|objects| - 1], [last]);
      ValuesSizeAppend(front, ValuesFor(last, key));
      front + ValuesFor(last, key)
  }

  /** Adding a key to the insertion-ordered key set: appended when new,
      otherwise the set is unchanged. */
  function Insert(keys: seq<string>, key: string): (r: seq<string>)
    ensures keys <= r && key in r && |r| <= |keys| + 1
  {
    if key in keys then keys else keys + [key]
  }

  /** The keys of one object added to the key set, in entry order. */
  function AddKeys(keys: seq<string>, es: Entries): (r: seq<string>)
    ensures keys <= r && |r| <= |keys| + |es|
  {
    if es == [] then keys
    else Insert(AddKeys(keys, es[..|es| - 1]), es[|es| - 1].0)
  }

  /** The key set after the loops over all objects: every key, in
      first-seen order. */
  function AllKeys(objects: seq<Entries>): (r: seq<string>)
    ensures objects != [] ==> AllKeys(objects[..|objects| - 1]) <= r
  {
    if objects == [] then []
    else AddKeys(AllKeys(objects[..|objects| - 1]), objects[|objects| - 1])
  }

  /** The valibot schema of the shape the value has, at its top level. */
  predicate KindMatches(v: Json, s: Schema) {
    match v
    case JNull => s == Nullable(String)
    case JString(_) => s == String
    case JNumber(_) => s == Number
    case JBool(_) => s == Boolean
    case JArray(_) => s.Array?
    case JObject(_) => s.Object?
  }

  // The four routines call each other. Termination: (weight, rank, length),
  // where the weight is Size / ValuesSize / ObjectsSize of the argument.

  /** jsonToValibotSchema. */
  function Infer(v: Json): (r: Inferred)
    decreases Size(v), 0, 0
    ensures KindMatches(v, r.schema)
  {
    match v
    case JNull => Inferred(Nullable(String), "v.nullable(v.string())")
    case JString(_) => Inferred(String, "v.string()")
    case JNumber(_) => Inferred(Number, "v.number()")
    case JBool(_) => Inferred(Boolean, "v.boolean()")
    case JArray(items) => HandleArray(items)
    case JObject(es) =>
      assert ObjectsSize([es]) == EntriesSize(es) by {
        assert [es][1..] == [];
      }
      var merged := MergeObjects([es]);
      Inferred(Object(merged.fields), Prelude + "v.object({\n" + Join(merged.lines, ",\n") + "\n})")
  }

  /** The inference applied to each value on its own, in order. */
  function InferEach(values: seq<Json>): (r: seq<Inferred>)
    decreases ValuesSize(values), 1, |values|
    ensures |r| == |values|
  {
    if values == [] then []
    else
      ValueSizeBound(values, 0);
      [Infer(values[0])] + InferEach(values[1..])
  }

  function SchemasOf(rs: seq<Inferred>): seq<Schema> {
    seq(|rs|, i requires 0 <= i < |rs| => rs[i].schema)
  }

  function CodesOf(rs: seq<Inferred>): seq<string> {
    seq(|rs|, i requires 0 <= i < |rs| => rs[i].code)
  }

  /** createUnionSchema: one branch per value, in order. */
  function CreateUnion(values: seq<Json>): (r: Inferred)
    decreases ValuesSize(values), 2, 0
    ensures r.schema.Union? && |r.schema.options| == |values|
  {
    var schemas := InferEach(values);
    Inferred(Union(SchemasOf(schemas)), "v.union([" + Join(CodesOf(schemas), ", ") + "])")
  }

  /** handleArray: the schema of an array from its elements. */
  function HandleArray(arr: seq<Json>): (r: Inferred)
    decreases ValuesSize(arr), 3, 0
    ensures r.schema.Array?
  {
    if |arr| == 0 then Inferred(Array(String), "v.array(v.string())")
    else
      var objectItems := PlainObjects(arr);
      if |objectItems| > 0 && |objectItems| == |arr| then
        var merged := MergeObjects(objectItems);
        Inferred(Array(Object(merged.fields)), "v.array(v.object({\n" + Join(merged.lines, ",\n") + "\n}))")
      else if |UniqueTypes(arr)| == 1 then
        ValueSizeBound(arr, 0);
        var result := Infer(arr[0]);
        Inferred(Array(result.schema), "v.array(" + result.code + ")")
      else
        Inferred(Array(CreateUnion(arr).schema), "v.array(" + CreateUnion(arr).code + ")")
  }

  /** The schema of one key's gathered values, before the optional wrapper
      (the if-chain in mergeObjectSchemas). */
  function KeyValueSchema(objects: seq<Entries>, key: string): (r: Inferred)
    decreases ObjectsSize(objects), 3, 0
    ensures !r.schema.Optional?
  {
    var values := Gather(objects, key);
    var nestedObjects := PlainObjects(values);
    if |nestedObjects| > 0 && |nestedObjects| == |values| then
      var merged := MergeObjects(nestedObjects);
      Inferred(Object(merged.fields), "v.object({\n" + Join(merged.lines, ",\n") + "\n})")
    else if |values| == 0 then
      Infer(JNull)
    else if |UniqueTypes(values)| == 1 then
      ValueSizeBound(values, 0);
      Infer(values[0])
    else
      CreateUnion(values)
  }

  /** The schema entry and the code line of one key: optional exactly when
      fewer values than objects were gathered for it. */
  function MergeField(objects: seq<Entries>, key: string): (r: (Schema, string))
    decreases ObjectsSize(objects), 4, 0
    ensures r.0.Optional? <==> |Gather(objects, key)| < |objects|
  {
    var result := KeyValueSchema(objects, key);
    if |Gather(objects, key)| < |objects| then
      (Optional(result.schema), "  " + key + ": v.optional(" + result.code + ")")
    else
      (result.schema, "  " + key + ": " + result.code)
  }

  /** The per-key loop of mergeObjectSchemas over the given keys, in order. */
  function MergeKeys(objects: seq<Entries>, keys: seq<string>): (r: Merged)
    decreases ObjectsSize(objects), 5, |keys|
    ensures |r.fields| == |keys| && |r.lines| == |keys|
    ensures forall i :: 0 <= i < |keys| ==> r.fields[i].0 == keys[i]
  {
    if keys == [] then Merged([], [])
    else
      var front := MergeKeys(objects, keys[..|keys| - 1]);
      var key := keys[|keys| - 1];
      var field := MergeField(objects, key);
      Merged(front.fields + [(key, field.0)], front.lines + [field.1])
  }

  /** mergeObjectSchemas. */
  function MergeObjects(objects: seq<Entries>): (r: Merged)
    decreases ObjectsSize(objects), 6, 0
    ensures |r.fields| == |AllKeys(objects)| && |r.lines| == |AllKeys(objects)|
    ensures forall i :: 0 <= i < |r.fields| ==> r.fields[i].0 == AllKeys(objects)[i]
  {
    MergeKeys(objects, AllKeys(objects))
  }
}
