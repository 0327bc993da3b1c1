/** What jsonToValibotSchema makes of the simplest inputs, and the quirks the
    rules produce on small concrete samples. */
module Policies {
  import opened JsonValue
  import opened Valibot
  import opened Text
  import opened Inference
  import opened BranchProperties

  /** null becomes a nullable string: the schema lets through null and every
      string, and nothing else. */
  lemma NullPolicy(w: Json)
    ensures Infer(JNull).code == "v.nullable(v.string())"
    ensures Accepts(Infer(JNull).schema, w) <==> w.JNull? || w.JString?
  {
  }

  /** A string, number or boolean becomes the schema of its kind, which
      accepts exactly the values of that kind. */
  lemma ScalarPolicy(v: Json, w: Json)
    requires v.JString? || v.JNumber? || v.JBool?
    ensures Infer(v).schema == (if v.JString? then String else if v.JNumber? then Number else Boolean)
    ensures Infer(v).code == SourceOf(Infer(v).schema)
    ensures Accepts(Infer(v).schema, w) <==> TypeOf(w) == TypeOf(v)
  {
  }

  /** An empty array becomes an array of strings: it accepts the empty array
      back, and any other array only when all its elements are strings. */
  lemma EmptyArrayPolicy(w: Json)
    ensures Infer(JArray([])).code == "v.array(v.string())"
    ensures Accepts(Infer(JArray([])).schema, w) <==>
      w.JArray? && forall i :: 0 <= i < |w.items| ==> w.items[i].JString?
  {
  }

  /** Every object reached through the entry point carries the declaration
      prelude in front of its code. */
  lemma ObjectCodePrelude(es: Entries)
    ensures Prelude <= Infer(JObject(es)).code
  {
    var merged := MergeObjects([es]);
    var body := "v.object({\n" + Join(merged.lines, ",\n") + "\n})";
    assert Infer(JObject(es)).code == Prelude + body;
  }

  /** An object chosen as the representative of a one-kind array brings the
      prelude into the middle of the array's code: `[{}, []]`. */
  lemma NestedPreludeQuirk()
    ensures HandleArray([JObject([]), JArray([])]).code == "v.array(" + Prelude + "v.object({\n\n})" + ")"
  {
    var arr := [JObject([]), JArray([])];
    assert PlainObjects(arr) == [[]];
    assert UniqueTypes(arr) == {"object"};
    assert MergeObjects([[]]) == Merged([], []);
  }

  /** The first element stands for the whole array: for `[[1], ["a"]]` the
      schema is an array of arrays of numbers, which rejects the sample. */
  lemma RepresentativeQuirk()
    ensures var sample := [JArray([JNumber(1.0)]), JArray([JString("a")])];
      && HandleArray(sample).schema == Array(Array(Number))
      && !Accepts(HandleArray(sample).schema, JArray(sample))
  {
    var sample := [JArray([JNumber(1.0)]), JArray([JString("a")])];
    RepresentativeSchema(sample);
    assert !Accepts(Array(Number), sample[1]) by {
      assert !Accepts(Number, sample[1].items[0]);
    }
  }

  lemma RepresentativeSchema(sample: seq<Json>)
    requires sample == [JArray([JNumber(1.0)]), JArray([JString("a")])]
    ensures HandleArray(sample).schema == Array(Array(Number))
  {
    assert TypeOf(sample[0]) == "object" && TypeOf(sample[1]) == "object";
    assert SameKind(sample);
    assert !sample[0].JObject?;
    RepresentativeOf(sample);
    OneNumberArray();
  }

  /** A one-kind array that is not all objects takes its first element's
      schema. */
  lemma RepresentativeOf(arr: seq<Json>)
    requires arr != [] && SameKind(arr) && !AllObjects(arr)
    ensures HandleArray(arr).schema == Array(Infer(arr[0]).schema)
  {
    HandleArrayCases(arr);
  }

  /** The one-kind choice need not lose the round trip: `[[1], [2]]` takes
      the first array's schema, which accepts both arrays. */
  lemma RepresentativeAccepted()
    ensures var sample := [JArray([JNumber(1.0)]), JArray([JNumber(2.0)])];
      && HandleArray(sample).schema == Array(Array(Number))
      && Accepts(HandleArray(sample).schema, JArray(sample))
  {
    var sample := [JArray([JNumber(1.0)]), JArray([JNumber(2.0)])];
    assert TypeOf(sample[0]) == "object" && TypeOf(sample[1]) == "object";
    assert SameKind(sample);
    assert !sample[0].JObject?;
    RepresentativeOf(sample);
    OneNumberArray();
    assert Accepts(Array(Number), sample[0]) && Accepts(Array(Number), sample[1]);
  }

  /** `[1]` is an array of numbers. */
  lemma OneNumberArray()
    ensures HandleArray([JNumber(1.0)]).schema == Array(Number)
  {
    assert PlainObjects([JNumber(1.0)]) == [];
    assert UniqueTypes([JNumber(1.0)]) == {"number"};
  }

  /** Branches are neither merged nor deduplicated: `[1, "a", 2]` gives a
      union of three branches, two of them the same. */
  lemma UnionKeepsDuplicates()
    ensures HandleArray([JNumber(1.0), JString("a"), JNumber(2.0)]).schema ==
      Array(Union([Number, String, Number]))
  {
    var arr := [JNumber(1.0), JString("a"), JNumber(2.0)];
    assert PlainObjects(arr) == [];
    assert UniqueTypes(arr) == {"number", "string"};
    CreateUnionSchema(arr);
    assert BranchSchemas(arr) == [Number, String, Number];
  }

  /** An object among the branches of a union brings the prelude into the
      union's code: `[{}, 1]`. */
  lemma UnionPreludeQuirk()
    ensures HandleArray([JObject([]), JNumber(1.0)]).code ==
      "v.array(" + ("v.union([" + ((Prelude + "v.object({\n\n})") + ", " + "v.number()") + "])") + ")"
  {
    var arr := [JObject([]), JNumber(1.0)];
    assert PlainObjects(arr) == [[]];
    assert UniqueTypes(arr) == {"object", "number"};
    EmptyObjectCode();
    CreateUnionCode(arr);
    var codes := BranchCodes(arr);
    assert codes == [Prelude + "v.object({\n\n})", "v.number()"];
    assert codes[1..] == ["v.number()"];
  }

  /** `{}` through the entry point: the prelude and an empty field list. */
  lemma EmptyObjectCode()
    ensures Infer(JObject([])).code == Prelude + "v.object({\n\n})"
  {
    assert MergeObjects([[]]) == Merged([], []);
    assert "v.object({\n" + "" + "\n})" == "v.object({\n\n})";
  }
}
