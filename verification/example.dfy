/** A worked sample: `{"a": 1, "b": [{"x": "y"}, {"z": 2}]}`. The key `a`
    is a required number; `b` is a required array of objects whose keys `x`
    and `z` each occur in one element only and so are optional. */
module WorkedExample {
  import opened JsonValue
  import opened Valibot
  import opened Inference
  import MergeProperties

  function Element1(): Entries { [("x", JString("y"))] }
  function Element2(): Entries { [("z", JNumber(2.0))] }
  function Items(): seq<Json> { [JObject(Element1()), JObject(Element2())] }
  function Sample(): Entries { [("a", JNumber(1.0)), ("b", JArray(Items()))] }

  /** The schema of the elements of `b`. */
  function ElementType(): Schema { Object([("x", Optional(String)), ("z", Optional(Number))]) }

  /** The schema inferred for the sample, and its acceptance of the sample. */
  lemma ExampleSchema()
    ensures Infer(JObject(Sample())).schema == Object([("a", Number), ("b", Array(ElementType()))])
    ensures Accepts(Infer(JObject(Sample())).schema, JObject(Sample()))
  {
    RootFields();
    SampleAccepted();
  }

  lemma SampleAccepted()
    ensures Accepts(Object([("a", Number), ("b", Array(ElementType()))]), JObject(Sample()))
  {
    var fields := [("a", Number), ("b", Array(ElementType()))];
    assert AcceptsField(fields[0], Sample());
    ItemsAccepted();
    assert Lookup(Sample(), "b") == Some(JArray(Items()));
    assert AcceptsField(fields[1], Sample());
  }

  lemma ItemsAccepted()
    ensures AcceptsAll(ElementType(), Items())
  {
    var fields := ElementType().fields;
    assert AcceptsField(fields[0], Element1());
    assert AcceptsField(fields[1], Element1());
    assert AcceptsField(fields[0], Element2());
    assert AcceptsField(fields[1], Element2());
    assert Accepts(ElementType(), Items()[0]);
    assert Accepts(ElementType(), Items()[1]);
  }

  // Small evaluation steps of the key collection and the gathering.

  lemma AddKeysOne(keys: seq<string>, e: (string, Json))
    ensures AddKeys(keys, [e]) == Insert(keys, e.0)
  {
    assert [e][..0] == [];
  }

  lemma AddKeysTwo(keys: seq<string>, e1: (string, Json), e2: (string, Json))
    ensures AddKeys(keys, [e1, e2]) == Insert(Insert(keys, e1.0), e2.0)
  {
    assert [e1, e2][..1] == [e1];
    AddKeysOne(keys, e1);
  }

  lemma ValuesForOne(e: (string, Json), key: string)
    ensures ValuesFor([e], key) == if e.0 == key then [e.1] else []
  {
    assert [e][..0] == [];
  }

  lemma ValuesForTwo(e1: (string, Json), e2: (string, Json), key: string)
    ensures ValuesFor([e1, e2], key) ==
      (if e1.0 == key then [e1.1] else []) + (if e2.0 == key then [e2.1] else [])
  {
    assert [e1, e2][..1] == [e1];
    ValuesForOne(e1, key);
  }

  lemma GatherOne(o: Entries, key: string)
    ensures Gather([o], key) == ValuesFor(o, key)
    ensures AllKeys([o]) == AddKeys([], o)
  {
    assert [o][..0] == [];
  }

  lemma GatherTwo(o1: Entries, o2: Entries, key: string)
    ensures Gather([o1, o2], key) == ValuesFor(o1, key) + ValuesFor(o2, key)
    ensures AllKeys([o1, o2]) == AddKeys(AddKeys([], o1), o2)
  {
    assert [o1, o2][..1] == [o1];
    GatherOne(o1, key);
  }

  /** One gathered scalar decides its key: the "uniform kind" branch. */
  lemma ScalarKey(objects: seq<Entries>, key: string, v: Json)
    requires Gather(objects, key) == [v] && !v.JObject?
    ensures KeyValueSchema(objects, key) == Infer(v)
  {
    assert PlainObjects([v]) == [];
    assert UniqueTypes([v]) == {TypeOf(v)};
  }

  /** The two elements merge into one object with both keys optional. */
  lemma ElementsMerged()
    ensures HandleArray(Items()).schema == Array(ElementType())
  {
    assert PlainObjects(Items()) == [Element1(), Element2()];
    ElementFields();
  }

  lemma ElementFields()
    ensures MergeObjects([Element1(), Element2()]).fields == ElementType().fields
  {
    ElementKeys();
    ElementField(0, "x", JString("y"));
    ElementField(1, "z", JNumber(2.0));
  }

  lemma ElementKeys()
    ensures AllKeys([Element1(), Element2()]) == ["x", "z"]
  {
    GatherTwo(Element1(), Element2(), "x");
    AddKeysOne([], Element1()[0]);
    AddKeysOne(["x"], Element2()[0]);
  }

  lemma ElementField(i: nat, key: string, v: Json)
    requires (i, key, v) in {(0, "x", JString("y")), (1, "z", JNumber(2.0))}
    requires AllKeys([Element1(), Element2()]) == ["x", "z"]
    ensures MergeObjects([Element1(), Element2()]).fields[i] == (key, Optional(Infer(v).schema))
  {
    var objects := [Element1(), Element2()];
    GatherTwo(Element1(), Element2(), key);
    ValuesForOne(Element1()[0], key);
    ValuesForOne(Element2()[0], key);
    assert Gather(objects, key) == [v];
    ScalarKey(objects, key, v);
    MergeProperties.MergeKeysAt(objects, ["x", "z"], i);
  }

  /** The root's keys: `a` once, as a number; `b` once, as the array. */
  lemma RootFields()
    ensures MergeObjects([Sample()]).fields == [("a", Number), ("b", Array(ElementType()))]
  {
    RootKeys();
    RootFieldA();
    RootFieldB();
  }

  lemma RootKeys()
    ensures AllKeys([Sample()]) == ["a", "b"]
  {
    GatherOne(Sample(), "a");
    AddKeysTwo([], Sample()[0], Sample()[1]);
  }

  lemma RootFieldA()
    requires AllKeys([Sample()]) == ["a", "b"]
    ensures MergeObjects([Sample()]).fields[0] == ("a", Number)
  {
    GatherOne(Sample(), "a");
    ValuesForTwo(Sample()[0], Sample()[1], "a");
    ScalarKey([Sample()], "a", JNumber(1.0));
    MergeProperties.MergeKeysAt([Sample()], ["a", "b"], 0);
  }

  lemma RootFieldB()
    requires AllKeys([Sample()]) == ["a", "b"]
    ensures MergeObjects([Sample()]).fields[1] == ("b", Array(ElementType()))
  {
    ArrayKey();
    ElementsMerged();
    MergeProperties.MergeKeysAt([Sample()], ["a", "b"], 1);
  }

  lemma ArrayKey()
    ensures Gather([Sample()], "b") == [JArray(Items())]
    ensures KeyValueSchema([Sample()], "b") == HandleArray(Items())
  {
    GatherOne(Sample(), "b");
    ValuesForTwo(Sample()[0], Sample()[1], "b");
    assert PlainObjects([JArray(Items())]) == [];
    assert UniqueTypes([JArray(Items())]) == {"object"};
  }
}
