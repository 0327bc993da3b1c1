/** The two halves of a result agree where the root is the only object that
    reaches jsonToValibotSchema (every other object is met in a whole-list
    merge): the code text is the valibot source of the schema built beside
    it, with the declaration prelude in front when the root is an object. */
module CodeAgreement {
  import opened JsonValue
  import opened Valibot
  import opened Text
  import opened Inference
  import opened MergeProperties
  import opened BranchProperties

  /** No object other than the root reaches jsonToValibotSchema: follows the
      recursion of Infer branch by branch. */
  ghost predicate PlainValue(v: Json)
    decreases Size(v), 0
  {
    match v
    case JArray(items) => PlainValues(items)
    case JObject(es) =>
      assert ObjectsSize([es]) == EntriesSize(es) by {
        assert [es][1..] == [];
      }
      PlainMerge([es])
    case _ => true
  }

  /** The same condition for the values at one position. */
  ghost predicate PlainValues(vs: seq<Json>)
    decreases ValuesSize(vs), 3
  {
    if vs == [] then true
    else if AllObjects(vs) then
      MergeCondition(vs);
      PlainMerge(EntriesOf(vs))
    else if SameKind(vs) then
      ValueSizeBound(vs, 0);
      !vs[0].JObject? && PlainValue(vs[0])
    else
      forall i :: 0 <= i < |vs| ==> !vs[i].JObject? && (ValueSizeBound(vs, i); PlainValue(vs[i]))
  }

  /** The condition for every key of a merge. */
  ghost predicate PlainMerge(objects: seq<Entries>)
    decreases ObjectsSize(objects), 6
  {
    forall k :: k in AllKeys(objects) ==> PlainValues(Gather(objects, k))
  }

  ghost predicate PlainSample(vs: seq<Json>) {
    vs != [] && PlainValues(vs)
  }

  // Termination: 16 * weight + rank, as for the acceptance lemmas.

  /** The code of a result is the source of its schema; an object gets the
      prelude in front. */
  lemma InferCode(v: Json)
    requires PlainValue(v)
    ensures Infer(v).code == (if v.JObject? then Prelude else "") + SourceOf(Infer(v).schema)
    decreases 16 * Size(v)
  {
    match v
    case JNull => NullCode();
    case JString(_) =>
    case JNumber(_) =>
    case JBool(_) =>
    case JArray(items) => ArrayCode(items);
    case JObject(es) => ObjectCode(es);
  }

  lemma NullCode()
    ensures Infer(JNull).code == SourceOf(Infer(JNull).schema)
  {
    assert "v.nullable(v.string())" == "v.nullable(" + "v.string()" + ")";
  }

  lemma ArrayCode(items: seq<Json>)
    requires PlainValues(items)
    ensures HandleArray(items).code == SourceOf(HandleArray(items).schema)
    decreases 16 * ValuesSize(items) + 5
  {
    if items == [] {
      assert "v.array(v.string())" == "v.array(" + "v.string()" + ")";
    } else {
      BranchesCode(items);
      if AllObjects(items) {
        ArrayMergedCode(items);
      } else if SameKind(items) {
        ArrayRepresentativeCode(items);
      } else {
        ArrayUnionCode(items);
      }
    }
  }

  lemma ArrayMergedCode(items: seq<Json>)
    requires items != [] && AllObjects(items)
    requires MergeObjects(EntriesOf(items)).lines == FieldSources(MergeObjects(EntriesOf(items)).fields)
    ensures HandleArray(items).code == SourceOf(HandleArray(items).schema)
  {
    var m := MergeObjects(EntriesOf(items));
    MergeCondition(items);
    assert HandleArray(items) == Inferred(Array(Object(m.fields)), "v.array(v.object({\n" + Join(m.lines, ",\n") + "\n}))");
    MergedArrayPrints(HandleArray(items), m.fields, m.lines);
  }

  /** The result handleArray builds from merged objects prints its schema
      when the merged lines are the field lines. */
  lemma MergedArrayPrints(r: Inferred, fields: seq<(string, Schema)>, lines: seq<string>)
    requires r == Inferred(Array(Object(fields)), "v.array(v.object({\n" + Join(lines, ",\n") + "\n}))")
    requires lines == FieldSources(fields)
    ensures r.code == SourceOf(r.schema)
  {
    ArrayOfObjectCode(Join(lines, ",\n"));
  }

  lemma ArrayRepresentativeCode(items: seq<Json>)
    requires items != [] && !AllObjects(items) && SameKind(items)
    requires Infer(items[0]).code == SourceOf(Infer(items[0]).schema)
    ensures HandleArray(items).code == SourceOf(HandleArray(items).schema)
  {
    MergeCondition(items);
    UniformKind(items);
  }

  lemma ArrayUnionCode(items: seq<Json>)
    requires items != [] && !AllObjects(items) && !SameKind(items)
    requires CreateUnion(items).code == SourceOf(CreateUnion(items).schema)
    ensures HandleArray(items).code == SourceOf(HandleArray(items).schema)
  {
    MergeCondition(items);
    UniformKind(items);
  }

  lemma ObjectCode(es: Entries)
    requires PlainMerge([es])
    ensures Infer(JObject(es)).code == Prelude + SourceOf(Infer(JObject(es)).schema)
    decreases 16 * EntriesSize(es) + 9
  {
    assert ObjectsSize([es]) == EntriesSize(es) by {
      assert [es][1..] == [];
    }
    MergeCode([es]);
    var m := MergeObjects([es]);
    assert Infer(JObject(es)) == Inferred(Object(m.fields), Prelude + "v.object({\n" + Join(m.lines, ",\n") + "\n})");
    RootObjectPrints(Infer(JObject(es)), m.fields, m.lines);
  }

  /** The result built for an object passed to the entry point is the prelude
      followed by the source of its schema. */
  lemma RootObjectPrints(r: Inferred, fields: seq<(string, Schema)>, lines: seq<string>)
    requires r == Inferred(Object(fields), Prelude + "v.object({\n" + Join(lines, ",\n") + "\n})")
    requires lines == FieldSources(fields)
    ensures r.code == Prelude + SourceOf(r.schema)
  {
    var j := Join(lines, ",\n");
    assert Prelude + "v.object({\n" + j + "\n})" == Prelude + ("v.object({\n" + j + "\n})");
  }

  /** The result built for a key of merged objects prints its schema. */
  lemma NestedObjectPrints(r: Inferred, fields: seq<(string, Schema)>, lines: seq<string>)
    requires r == Inferred(Object(fields), "v.object({\n" + Join(lines, ",\n") + "\n})")
    requires lines == FieldSources(fields)
    ensures r.code == SourceOf(r.schema)
  {
  }

  /** The code handleArray writes for an array of merged objects is the array
      of the object's source. */
  lemma ArrayOfObjectCode(j: string)
    ensures "v.array(v.object({\n" + j + "\n}))" == "v.array(" + ("v.object({\n" + j + "\n})") + ")"
  {
    assert "v.array(v.object({\n" == "v.array(" + "v.object({\n";
    assert "\n}))" == "\n})" + ")";
  }

  /** The element rule, branch by branch: merged lines are the field lines of
      the merged fields, and the other branches print their schema. */
  lemma BranchesCode(vs: seq<Json>)
    requires PlainSample(vs)
    ensures AllObjects(vs) ==>
      MergeObjects(EntriesOf(vs)).lines == FieldSources(MergeObjects(EntriesOf(vs)).fields)
    ensures !AllObjects(vs) && SameKind(vs) ==> Infer(vs[0]).code == SourceOf(Infer(vs[0]).schema)
    ensures !AllObjects(vs) && !SameKind(vs) ==> CreateUnion(vs).code == SourceOf(CreateUnion(vs).schema)
    decreases 16 * ValuesSize(vs) + 4
  {
    if AllObjects(vs) {
      MergeCondition(vs);
      MergeCode(EntriesOf(vs));
    } else if SameKind(vs) {
      ValueSizeBound(vs, 0);
      InferCode(vs[0]);
    } else {
      UnionCode(vs);
    }
  }

  /** No branch an object: the union's code prints its branches. */
  lemma UnionCode(vs: seq<Json>)
    requires PlainSample(vs) && !AllObjects(vs) && !SameKind(vs)
    ensures CreateUnion(vs).code == SourceOf(CreateUnion(vs).schema)
    decreases 16 * ValuesSize(vs) + 3
  {
    CreateUnionSchema(vs);
    CreateUnionCode(vs);
    forall i | 0 <= i < |vs| ensures BranchCodes(vs)[i] == SourcesOf(BranchSchemas(vs))[i] {
      ValueSizeBound(vs, i);
      InferCode(vs[i]);
    }
    assert BranchCodes(vs) == SourcesOf(BranchSchemas(vs));
  }

  /** The code lines of a merge are the field lines of its fields. */
  lemma MergeCode(objects: seq<Entries>)
    requires PlainMerge(objects)
    ensures MergeObjects(objects).lines == FieldSources(MergeObjects(objects).fields)
    decreases 16 * ObjectsSize(objects) + 8
  {
    var m := MergeObjects(objects);
    forall i | 0 <= i < |m.lines| ensures m.lines[i] == FieldSource(m.fields[i]) {
      LineCode(objects, i);
    }
  }

  /** One key's line declares the key's field. */
  lemma LineCode(objects: seq<Entries>, i: nat)
    requires PlainMerge(objects) && i < |AllKeys(objects)|
    ensures MergeObjects(objects).lines[i] == FieldSource(MergeObjects(objects).fields[i])
    decreases 16 * ObjectsSize(objects) + 7
  {
    var key := AllKeys(objects)[i];
    MergeKeysAt(objects, AllKeys(objects), i);
    KeyValueCode(objects, key);
    FieldLinePrints(key, KeyValueSchema(objects, key), MergeField(objects, key));
  }

  /** A field line, optional or not, declares its field when the value code
      prints the value schema. */
  lemma FieldLinePrints(key: string, c: Inferred, field: (Schema, string))
    requires c.code == SourceOf(c.schema)
    requires field == (Optional(c.schema), "  " + key + ": v.optional(" + c.code + ")") ||
             field == (c.schema, "  " + key + ": " + c.code)
    ensures field.1 == FieldSource((key, field.0))
  {
    OptionalLine(key, c.code);
  }

  /** The line of an optional field declares the optional schema. */
  lemma OptionalLine(key: string, c: string)
    ensures "  " + key + ": v.optional(" + c + ")" == "  " + key + ": " + ("v.optional(" + c + ")")
  {
    assert ": v.optional(" == ": " + "v.optional(";
  }

  /** The code of one key's values prints their schema. */
  lemma KeyValueCode(objects: seq<Entries>, key: string)
    requires PlainMerge(objects) && key in AllKeys(objects)
    ensures KeyValueSchema(objects, key).code == SourceOf(KeyValueSchema(objects, key).schema)
    decreases 16 * ObjectsSize(objects) + 5
  {
    var vs := Gather(objects, key);
    AllKeysMember(objects, key);
    GatherEmpty(objects, key);
    BranchesCode(vs);
    if AllObjects(vs) {
      KeyMergedCode(objects, key);
    } else if SameKind(vs) {
      KeyRepresentativeCode(objects, key);
    } else {
      KeyUnionCode(objects, key);
    }
  }

  lemma KeyMergedCode(objects: seq<Entries>, key: string)
    requires Gather(objects, key) != [] && AllObjects(Gather(objects, key))
    requires var m := MergeObjects(EntriesOf(Gather(objects, key))); m.lines == FieldSources(m.fields)
    ensures KeyValueSchema(objects, key).code == SourceOf(KeyValueSchema(objects, key).schema)
  {
    var vs := Gather(objects, key);
    var m := MergeObjects(EntriesOf(vs));
    MergeCondition(vs);
    assert KeyValueSchema(objects, key) == Inferred(Object(m.fields), "v.object({\n" + Join(m.lines, ",\n") + "\n})");
    NestedObjectPrints(KeyValueSchema(objects, key), m.fields, m.lines);
  }

  lemma KeyRepresentativeCode(objects: seq<Entries>, key: string)
    requires Gather(objects, key) != [] && !AllObjects(Gather(objects, key)) && SameKind(Gather(objects, key))
    requires Infer(Gather(objects, key)[0]).code == SourceOf(Infer(Gather(objects, key)[0]).schema)
    ensures KeyValueSchema(objects, key).code == SourceOf(KeyValueSchema(objects, key).schema)
  {
    MergeCondition(Gather(objects, key));
    UniformKind(Gather(objects, key));
  }

  lemma KeyUnionCode(objects: seq<Entries>, key: string)
    requires Gather(objects, key) != [] && !AllObjects(Gather(objects, key)) && !SameKind(Gather(objects, key))
    requires CreateUnion(Gather(objects, key)).code == SourceOf(CreateUnion(Gather(objects, key)).schema)
    ensures KeyValueSchema(objects, key).code == SourceOf(KeyValueSchema(objects, key).schema)
  {
    MergeCondition(Gather(objects, key));
    UniformKind(Gather(objects, key));
  }
}
