/** mergeObjectSchemas as the source runs it: nested loops that fill an
    insertion-ordered key set and a dictionary of value lists, then a loop
    that builds the field record and the code lines key by key. */
module ObjectMerge {
  import opened JsonValue
  import opened Valibot
  import opened Text
  import opened Inference

  /** Reading the dictionary: a key without a list reads as the empty list. */
  function Get(valuesByKey: map<string, seq<Json>>, key: string): (r: seq<Json>)
    ensures key in valuesByKey ==> r == valuesByKey[key]
    ensures key !in valuesByKey ==> r == []
  {
    if key in valuesByKey then valuesByKey[key] else []
  }

  /** The collection loops: every key in first-seen order, and the values
      under each. */
  method CollectValues(objects: seq<Entries>) returns (allKeys: seq<string>, valuesByKey: map<string, seq<Json>>)
    ensures allKeys == AllKeys(objects)
    ensures forall k :: k in valuesByKey <==> k in allKeys
    ensures forall k :: Get(valuesByKey, k) == Gather(objects, k)
  {
    allKeys := [];
    valuesByKey := map[];
    var i := 0;
    while i < |objects|
      invariant 0 <= i <= |objects|
      invariant allKeys == AllKeys(objects[..i])
      invariant forall k :: k in valuesByKey <==> k in allKeys
      invariant forall k :: Get(valuesByKey, k) == Gather(objects[..i], k)
    {
      allKeys, valuesByKey := CollectEntries(allKeys, valuesByKey, objects[i]);
      forall k ensures Gather(objects[..i + 1], k) == Gather(objects[..i], k) + ValuesFor(objects[i], k) {
        GatherStep(objects, i, k);
      }
      assert objects[..i + 1][..i] == objects[..i];
      i := i + 1;
    }
    assert objects[..|objects|] == objects;
  }

  /** The inner loop over the entries of one object. */
  method CollectEntries(keys: seq<string>, table: map<string, seq<Json>>, obj: Entries)
    returns (allKeys: seq<string>, valuesByKey: map<string, seq<Json>>)
    requires forall k :: k in table <==> k in keys
    ensures allKeys == AddKeys(keys, obj)
    ensures forall k :: k in valuesByKey <==> k in allKeys
    ensures forall k :: Get(valuesByKey, k) == Get(table, k) + ValuesFor(obj, k)
  {
    allKeys, valuesByKey := keys, table;
    var j := 0;
    while j < |obj|
      invariant 0 <= j <= |obj|
      invariant allKeys == AddKeys(keys, obj[..j])
      invariant forall k :: k in valuesByKey <==> k in allKeys
      invariant forall k :: Get(valuesByKey, k) == Get(table, k) + ValuesFor(obj[..j], k)
    {
      var (key, value) := obj[j];
      AddKeysStep(keys, obj, j);
      if key !in allKeys {
        allKeys := allKeys + [key];
      }
      // Start the key's list if it has none, then append the value.
      PushStep(table, valuesByKey, obj, j);
      valuesByKey := valuesByKey[key := Get(valuesByKey, key) + [value]];
      j := j + 1;
    }
    assert obj[..|obj|] == obj;
  }

  /** The step for one key: the schema of its gathered values. */
  method ResolveValues(objects: seq<Entries>, key: string, values: seq<Json>) returns (result: Inferred)
    requires values == Gather(objects, key)
    decreases ObjectsSize(objects), 0
    ensures result == KeyValueSchema(objects, key)
  {
    var nestedObjects := PlainObjects(values);
    if |nestedObjects| > 0 && |nestedObjects| == |values| {
      var merged := MergeObjectSchemas(nestedObjects);
      result := Inferred(Object(merged.fields), "v.object({\n" + Join(merged.lines, ",\n") + "\n})");
    } else if |values| == 0 {
      result := Infer(JNull);
    } else if |UniqueTypes(values)| == 1 {
      result := Infer(values[0]);
    } else {
      result := CreateUnion(values);
    }
  }

  method MergeObjectSchemas(objects: seq<Entries>) returns (m: Merged)
    decreases ObjectsSize(objects), 1
    ensures m == MergeObjects(objects)
  {
    var allKeys, valuesByKey := CollectValues(objects);

    // One field and one code line per key, in key order.
    var schemaObject: seq<(string, Schema)> := [];
    var codeLines: seq<string> := [];
    for n := 0 to |allKeys|
      invariant Merged(schemaObject, codeLines) == MergeKeys(objects, allKeys[..n])
    {
      var key := allKeys[n];
      MergeKeysStep(objects, allKeys, n);
      var values := Get(valuesByKey, key);
      var isOptional := |values| < |objects|;
      var result := ResolveValues(objects, key, values);
      if isOptional {
        schemaObject := schemaObject + [(key, Optional(result.schema))];
        codeLines := codeLines + ["  " + key + ": v.optional(" + result.code + ")"];
      } else {
        schemaObject := schemaObject + [(key, result.schema)];
        codeLines := codeLines + ["  " + key + ": " + result.code];
      }
    }
    assert allKeys[..|allKeys|] == allKeys;
    m := Merged(schemaObject, codeLines);
  }

  /** The per-key loop over one more key appends that key's field and line. */
  lemma MergeKeysStep(objects: seq<Entries>, keys: seq<string>, n: nat)
    requires n < |keys|
    ensures var front := MergeKeys(objects, keys[..n]);
      var field := MergeField(objects, keys[n]);
      MergeKeys(objects, keys[..n + 1]) == Merged(front.fields + [(keys[n], field.0)], front.lines + [field.1])
  {
    assert keys[..n + 1][..n] == keys[..n];
  }

  /** One push keeps the dictionary equal to the prior values followed by
      the values of the entries read so far. */
  lemma PushStep(table: map<string, seq<Json>>, before: map<string, seq<Json>>, obj: Entries, j: nat)
    requires j < |obj|
    requires forall k :: Get(before, k) == Get(table, k) + ValuesFor(obj[..j], k)
    ensures var after := before[obj[j].0 := Get(before, obj[j].0) + [obj[j].1]];
      forall k :: Get(after, k) == Get(table, k) + ValuesFor(obj[..j + 1], k)
  {
    forall k ensures Get(before[obj[j].0 := Get(before, obj[j].0) + [obj[j].1]], k) == Get(table, k) + ValuesFor(obj[..j + 1], k) {
      PushStepAt(table, before, obj, j, k);
    }
  }

  lemma PushStepAt(table: map<string, seq<Json>>, before: map<string, seq<Json>>, obj: Entries, j: nat, k: string)
    requires j < |obj|
    requires Get(before, k) == Get(table, k) + ValuesFor(obj[..j], k)
    ensures Get(before[obj[j].0 := Get(before, obj[j].0) + [obj[j].1]], k) == Get(table, k) + ValuesFor(obj[..j + 1], k)
  {
    ValuesForStep(obj, j, k);
    if k == obj[j].0 {
      assert Get(table, k) + ValuesFor(obj[..j], k) + [obj[j].1] == Get(table, k) + (ValuesFor(obj[..j], k) + [obj[j].1]);
    }
  }

  lemma AddKeysStep(keys: seq<string>, es: Entries, j: nat)
    requires j < |es|
    ensures AddKeys(keys, es[..j + 1]) == Insert(AddKeys(keys, es[..j]), es[j].0)
  {
    assert es[..j + 1][..j] == es[..j];
  }

  lemma ValuesForStep(es: Entries, j: nat, key: string)
    requires j < |es|
    ensures ValuesFor(es[..j + 1], key) ==
            ValuesFor(es[..j], key) + (if es[j].0 == key then [es[j].1] else [])
  {
    assert es[..j + 1][..j] == es[..j];
  }

  lemma GatherStep(objects: seq<Entries>, i: nat, key: string)
    requires i < |objects|
    ensures Gather(objects[..i + 1], key) == Gather(objects[..i], key) + ValuesFor(objects[i], key)
  {
    assert objects[..i + 1][..i] == objects[..i];
  }
}
