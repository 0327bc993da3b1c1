/** What mergeObjectSchemas promises about the keys it collects, the values it
    gathers under each key and the optional wrapper. */
module MergeProperties {
  import opened JsonValue
  import opened Valibot
  import opened Inference

  /** The object holds an entry under the key. */
  predicate HasKey(es: Entries, key: string) {
    exists i :: 0 <= i < |es| && es[i].0 == key
  }

  /** Holding an entry under a key is what a successful lookup finds. */
  lemma HasKeyLookup(es: Entries, key: string)
    ensures HasKey(es, key) <==> Lookup(es, key).Some?
  {
  }

  /** The keys of the entries, in entry order. */
  function KeysOf(es: Entries): (ks: seq<string>)
    ensures |ks| == |es|
  {
    seq(|es|, i requires 0 <= i < |es| => es[i].0)
  }

  /** Every key the objects hold, object after object, repeats included:
      the order in which the forEach loops meet them. */
  function FlatKeys(objects: seq<Entries>): seq<string> {
    if objects == [] then []
    else FlatKeys(objects[..|objects| - 1]) + KeysOf(objects[|objects| - 1])
  }

  /** Adding keys one by one to an insertion-ordered set. */
  function InsertAll(keys: seq<string>, ks: seq<string>): seq<string> {
    if ks == [] then keys
    else Insert(InsertAll(keys, ks[..|ks| - 1]), ks[|ks| - 1])
  }

  /** The position where a key first occurs. */
  function FirstIndex(ks: seq<string>, key: string): (r: nat)
    requires key in ks
    ensures r < |ks| && ks[r] == key && key !in ks[..r]
  {
    if ks[0] == key then 0
    else
      var r := 1 + FirstIndex(ks[1..], key);
      assert ks[..r] == [ks[0]] + ks[1..][..r - 1];
      r
  }

  /** How many of the objects hold the key. */
  function Holders(objects: seq<Entries>, key: string): (n: nat)
    ensures n <= |objects|
  {
    if objects == [] then 0
    else Holders(objects[..|objects| - 1], key) + (if HasKey(objects[|objects| - 1], key) then 1 else 0)
  }

  lemma FirstIndexUnique(ks: seq<string>, key: string, i: nat)
    requires i < |ks| && ks[i] == key && key !in ks[..i]
    ensures FirstIndex(ks, key) == i
  {
  }

  lemma {:induction false} AddKeysIsInsertAll(keys: seq<string>, es: Entries)
    ensures AddKeys(keys, es) == InsertAll(keys, KeysOf(es))
  {
    if es != [] {
      AddKeysIsInsertAll(keys, es[..|es| - 1]);
      assert KeysOf(es)[..|es| - 1] == KeysOf(es[..|es| - 1]);
    }
  }

  lemma {:induction false} InsertAllAppend(keys: seq<string>, a: seq<string>, b: seq<string>)
    ensures InsertAll(keys, a + b) == InsertAll(InsertAll(keys, a), b)
  {
    if b == [] {
      assert a + b == a;
    } else {
      assert (a + b)[..|a + b| - 1] == a + b[..|b| - 1];
      InsertAllAppend(keys, a, b[..|b| - 1]);
    }
  }

  lemma {:induction false} AllKeysIsInsertAll(objects: seq<Entries>)
    ensures AllKeys(objects) == InsertAll([], FlatKeys(objects))
  {
    if objects != [] {
      var front := objects[..|objects| - 1];
      var last := objects[|objects| - 1];
      AllKeysIsInsertAll(front);
      AddKeysIsInsertAll(AllKeys(front), last);
      InsertAllAppend([], FlatKeys(front), KeysOf(last));
    }
  }

  /** Inserting a sequence of keys into an empty ordered set keeps each key
      once, and in the order of its first occurrence. */
  lemma {:induction false} InsertAllFirstSeen(ks: seq<string>)
    ensures forall k :: k in InsertAll([], ks) <==> k in ks
    ensures forall p, q :: 0 <= p < q < |InsertAll([], ks)| ==> InsertAll([], ks)[p] != InsertAll([], ks)[q]
    ensures forall p, q :: 0 <= p < q < |InsertAll([], ks)| ==>
      FirstIndex(ks, InsertAll([], ks)[p]) < FirstIndex(ks, InsertAll([], ks)[q])
  {
    if ks != [] {
      var front := ks[..|ks| - 1];
      var k := ks[|ks| - 1];
      assert ks == front + [k];
      InsertAllFirstSeen(front);
      var r0 := InsertAll([], front);
      forall x | x in front
        ensures FirstIndex(ks, x) == FirstIndex(front, x)
      {
        var f := FirstIndex(front, x);
        assert ks[..f] == front[..f];
        FirstIndexUnique(ks, x, f);
      }
      if k !in front {
        assert ks[..|ks| - 1] == front;
        FirstIndexUnique(ks, k, |ks| - 1);
      }
    }
  }

  lemma {:induction false} FlatKeysMembers(objects: seq<Entries>, key: string)
    ensures key in FlatKeys(objects) <==> exists j :: 0 <= j < |objects| && HasKey(objects[j], key)
  {
    if objects != [] {
      var front := objects[..|objects| - 1];
      var last := objects[|objects| - 1];
      FlatKeysMembers(front, key);
      if key in KeysOf(last) {
        var i :| 0 <= i < |last| && KeysOf(last)[i] == key;
        assert HasKey(last, key);
      }
      if HasKey(last, key) {
        var i :| 0 <= i < |last| && last[i].0 == key;
        assert KeysOf(last)[i] == key;
      }
      forall j | 0 <= j < |front| ensures objects[j] == front[j] { }
    }
  }

  /** The merged key list: every key of every object exactly once, ordered
      by where each key is first met, object after object. */
  lemma AllKeysFirstSeen(objects: seq<Entries>)
    ensures forall k :: k in AllKeys(objects) <==> exists j :: 0 <= j < |objects| && HasKey(objects[j], k)
    ensures forall p, q :: 0 <= p < q < |AllKeys(objects)| ==> AllKeys(objects)[p] != AllKeys(objects)[q]
    ensures forall p, q :: 0 <= p < q < |AllKeys(objects)| ==>
      && AllKeys(objects)[p] in FlatKeys(objects) && AllKeys(objects)[q] in FlatKeys(objects)
      && FirstIndex(FlatKeys(objects), AllKeys(objects)[p]) < FirstIndex(FlatKeys(objects), AllKeys(objects)[q])
  {
    AllKeysIsInsertAll(objects);
    InsertAllFirstSeen(FlatKeys(objects));
    forall k ensures k in FlatKeys(objects) <==> exists j :: 0 <= j < |objects| && HasKey(objects[j], k) {
      FlatKeysMembers(objects, k);
    }
  }

  /** An object contributes a value under a key exactly when it holds the key. */
  lemma {:induction false} ValuesForEmpty(es: Entries, key: string)
    ensures ValuesFor(es, key) == [] <==> !HasKey(es, key)
  {
    if es != [] {
      var front := es[..|es| - 1];
      ValuesForEmpty(front, key);
      if HasKey(front, key) {
        var i :| 0 <= i < |front| && front[i].0 == key;
        assert es[i].0 == key;
      }
      if HasKey(es, key) && es[|es| - 1].0 != key {
        var i :| 0 <= i < |es| && es[i].0 == key;
        assert front[i].0 == key;
      }
    }
  }

  /** With distinct keys, an object contributes at most the one value it holds. */
  lemma {:induction false} ValuesForDistinct(es: Entries, key: string)
    requires DistinctKeys(es)
    ensures ValuesFor(es, key) == (match Lookup(es, key) case None => [] case Some(x) => [x])
  {
    if es != [] {
      var front := es[..|es| - 1];
      var last := es[|es| - 1];
      assert forall i :: 0 <= i < |front| ==> front[i] == es[i];
      ValuesForDistinct(front, key);
      if last.0 == key {
        assert Lookup(front, key).None?;
        var x := Lookup(es, key).value;
        var i :| 0 <= i < |es| && es[i] == (key, x);
        assert i == |es| - 1;
      } else if Lookup(front, key).Some? {
        var x := Lookup(front, key).value;
        var i :| 0 <= i < |front| && front[i] == (key, x);
        assert es[i] == (key, x);
        var y := Lookup(es, key).value;
        var i' :| 0 <= i' < |es| && es[i'] == (key, y);
      }
    }
  }

  /** No value is gathered for a key exactly when no object holds it. */
  lemma {:induction false} GatherEmpty(objects: seq<Entries>, key: string)
    ensures Gather(objects, key) == [] <==> forall j :: 0 <= j < |objects| ==> !HasKey(objects[j], key)
  {
    if objects != [] {
      var front := objects[..|objects| - 1];
      var last := objects[|objects| - 1];
      GatherEmpty(front, key);
      ValuesForEmpty(last, key);
      assert forall j :: 0 <= j < |front| ==> front[j] == objects[j];
    }
  }

  /** With distinct keys in each object, the number of values gathered for a
      key is the number of objects that hold it. */
  lemma {:induction false} GatherCount(objects: seq<Entries>, key: string)
    requires forall j :: 0 <= j < |objects| ==> DistinctKeys(objects[j])
    ensures |Gather(objects, key)| == Holders(objects, key)
  {
    if objects != [] {
      var front := objects[..|objects| - 1];
      var last := objects[|objects| - 1];
      GatherCount(front, key);
      ValuesForDistinct(last, key);
      if HasKey(last, key) {
        var i :| 0 <= i < |last| && last[i].0 == key;
      }
    }
  }

  /** Every object holds the key exactly when all of them are counted. */
  lemma {:induction false} HoldersAll(objects: seq<Entries>, key: string)
    ensures Holders(objects, key) == |objects| <==> forall j :: 0 <= j < |objects| ==> HasKey(objects[j], key)
  {
    if objects != [] {
      var front := objects[..|objects| - 1];
      HoldersAll(front, key);
      assert forall j :: 0 <= j < |front| ==> front[j] == objects[j];
    }
  }

  /** Field i of the merge over a key list belongs to the i-th key. */
  lemma {:induction false} MergeKeysAt(objects: seq<Entries>, keys: seq<string>, i: nat)
    requires i < |keys|
    ensures MergeKeys(objects, keys).fields[i] == (keys[i], MergeField(objects, keys[i]).0)
    ensures MergeKeys(objects, keys).lines[i] == MergeField(objects, keys[i]).1
  {
    if i < |keys| - 1 {
      MergeKeysAt(objects, keys[..|keys| - 1], i);
    }
  }

  /** Every merged key has at least one gathered value (so the
      branch for a key without values is never taken for it). With distinct keys
      per object it has at most one per object, and the field is optional
      exactly when some object lacks the key; the code line says the same. */
  lemma Optionality(objects: seq<Entries>, i: nat)
    requires forall j :: 0 <= j < |objects| ==> DistinctKeys(objects[j])
    requires i < |AllKeys(objects)|
    ensures 1 <= |Gather(objects, AllKeys(objects)[i])| <= |objects|
    ensures
      var key := AllKeys(objects)[i];
      var c := KeyValueSchema(objects, key);
      var absent := exists j :: 0 <= j < |objects| && !HasKey(objects[j], key);
      && MergeObjects(objects).fields[i] == (key, if absent then Optional(c.schema) else c.schema)
      && MergeObjects(objects).lines[i] ==
         if absent then "  " + key + ": v.optional(" + c.code + ")" else "  " + key + ": " + c.code
  {
    var key := AllKeys(objects)[i];
    AllKeysMember(objects, key);
    GatherEmpty(objects, key);
    GatherCount(objects, key);
    HoldersAll(objects, key);
    MergeKeysAt(objects, AllKeys(objects), i);
    var absent := exists j :: 0 <= j < |objects| && !HasKey(objects[j], key);
    assert |Gather(objects, key)| < |objects| <==> absent;
  }

  lemma AllKeysMember(objects: seq<Entries>, key: string)
    ensures key in AllKeys(objects) <==> exists j :: 0 <= j < |objects| && HasKey(objects[j], key)
  {
    AllKeysIsInsertAll(objects);
    InsertAllFirstSeen(FlatKeys(objects));
    FlatKeysMembers(objects, key);
  }
}
