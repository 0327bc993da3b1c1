# json-to-valibot: schema inference from one JSON sample

This project models `jsonToValibotSchema`. The function takes one parsed JSON
value and infers a valibot schema for it. It returns two things built side by
side: the schema, and the TypeScript source text that constructs the same
schema. The model covers the whole of `src/jsonToValibotSchema.ts`:

- `getUniqueTypes`
- `mergeObjectSchemas`: merges several sample objects into one object schema
  with optional fields.
- `createUnionSchema`
- `handleArray`
- `jsonToValibotSchema`

Modules, one per file:

- `JsonValue` (`json.dfy`): the parsed JSON value, key lookup, and the size
  measure that the recursion decreases.
- `Text` (`text.dfy`): `Array.prototype.join`.
- `Valibot` (`valibot.dfy`): the eight combinators the inference emits. It
  gives each one an acceptance meaning (`Accepts`) and the source text that
  builds it (`SourceOf`).
- `Inference` (`infer.dfy`): the four mutually recursive routines as pure
  functions. Each returns a schema and a code string.
- `ObjectMerge` (`merge.dfy`): `mergeObjectSchemas` as the source writes it.
  Nested loops fill an insertion-ordered key list and a dictionary of value
  lists, then a loop builds the fields and the code lines. The method is
  proved equal to `Inference.MergeObjects`.
- `MergeProperties` (`merge_props.dfy`): key order, the number of values per
  key, and optionality.
- `BranchProperties` (`branch_props.dfy`): how an array, or a key's gathered
  values, chooses between the object merge, a representative element and a
  union.
- `RoundTrip` (`roundtrip.dfy`): under a stated condition on the sample,
  the inferred schema accepts its own sample. This is the acceptance half
  of the repository's end-to-end test. The test also compares the parsed
  output with the sample, and the model does not cover that comparison.
- `CodeAgreement` (`code_agreement.dfy`): under a stated condition on the
  sample, the generated text is the source of the schema built beside it.
- `Policies` (`policies.dfy`): the null and empty-array policies, scalars,
  unions, and the quirks of the code as written.
- `WorkedExample` (`example.dfy`): the sample
  `{"a": 1, "b": [{"x": "y"}, {"z": 2}]}`, computed out.

The code has four behaviours that its end-to-end test, or what it evidently
aims at, would not lead one to expect. The model keeps every one of them:

- **Arrays and objects are one kind.** The kind classifier
  (`getUniqueTypes`) reports "object" for arrays as well as for objects, and
  "null" for null. An array mixing arrays and objects therefore counts as
  one kind, not as a union (`BranchProperties.ArraysAndObjectsShareKind`).
- **The first element decides.** When every element of an array, or every
  value gathered under a key, has one kind and they are not all plain
  objects, the schema is inferred from the first one alone
  (`BranchProperties.RepresentativeDecides`). With the classifier above,
  `[[1], ["a"]]` gets `v.array(v.array(v.number()))`, which rejects
  `["a"]`. So the schema does not accept the sample it came from
  (`Policies.RepresentativeQuirk`). The test's round trip can therefore
  fail where that choice is made among two or more arrays or objects. It
  need not fail: `[[1], [2]]` makes the choice and is still accepted
  (`Policies.RepresentativeAccepted`). `RoundTrip.InferAccepts` proves that
  the schema accepts the sample wherever the choice is never made.
- **Nested objects carry the prelude.** Every object that reaches
  `jsonToValibotSchema` gets the `import`/`const schema =` prelude in front
  of its code. That includes three other ways an object can reach it:
  as the first element of a one-kind array, as the first of a key's one-kind
  gathered values (`[{"k": {}}, {"k": []}]` puts the prelude inside `k`'s
  field line), or as a branch of a union. The prelude then appears inside
  the generated text (`Policies.NestedPreludeQuirk`,
  `Policies.UnionPreludeQuirk`). `CodeAgreement.InferCode` proves that code
  and schema agree for every sample where only the root object takes that
  path.
- **Keys come in first-seen order.** The merged fields and code lines follow
  the insertion order of the key `Set`: a key takes the position of its
  first occurrence, object after object (`MergeProperties.AllKeysFirstSeen`).

## Model

| member | source | states |
|---|---|---|
| Inference.TypeOf | src/jsonToValibotSchema.ts:15 | the kind is "object" iff the value is an array or an object, and "null" iff it is null |
| Inference.UniqueTypes | src/jsonToValibotSchema.ts:14-16 | a kind is in the result iff some item has it; null is "null", arrays and objects are "object" |
| Inference.PlainObjects | src/jsonToValibotSchema.ts:100-102 | the filter keeps every element iff all are plain objects, and then keeps their entries in order; never longer than the input |
| Inference.ValuesFor | src/jsonToValibotSchema.ts:27-32 | one object contributes at most one value per entry, weighing no more than the object; its contents are stated by `MergeProperties.ValuesForEmpty` and `ValuesForDistinct` |
| Inference.Gather | src/jsonToValibotSchema.ts:26-34 | a key's gathered values weigh no more than the objects, which bounds the recursion into them; their contents are stated by `GatherEmpty`, `GatherCount` and `RoundTrip.GatherHolds` |
| Inference.Insert | src/jsonToValibotSchema.ts:28 | adding a key keeps the set as a prefix, makes the key a member, and grows the set by at most one |
| Inference.AddKeys | src/jsonToValibotSchema.ts:27-28 | one object's keys extend the key set without moving the keys already in it, by at most one per entry |
| Inference.AllKeys | src/jsonToValibotSchema.ts:23-28 | the keys of the earlier objects stay a prefix of the key set: a key keeps the position of its first occurrence; `MergeProperties.AllKeysFirstSeen` states its members and order |
| Inference.InferEach | src/jsonToValibotSchema.ts:81 | one result per value; `BranchProperties.InferEachMaps` proves the i-th is the i-th value's own inference |
| Inference.Infer | src/jsonToValibotSchema.ts:129-170 | the schema has the value's top-level shape: nullable(string) for null, the primitive for a scalar, an array schema for an array, an object schema for an object |
| Inference.CreateUnion | src/jsonToValibotSchema.ts:77-86 | a union with exactly one option per value |
| Inference.HandleArray | src/jsonToValibotSchema.ts:88-127 | every array gets an array schema |
| Inference.KeyValueSchema | src/jsonToValibotSchema.ts:44-63 | a key's value schema is never itself optional |
| Inference.MergeField | src/jsonToValibotSchema.ts:41-42 | the field is optional iff fewer values than objects were gathered for the key |
| Inference.MergeKeys | src/jsonToValibotSchema.ts:40-72 | one field and one code line per key, the fields carrying the keys in order |
| Inference.MergeObjects | src/jsonToValibotSchema.ts:18-75 | one field and one line per key of `allKeys`, in `allKeys` order |
| ObjectMerge.Get | src/jsonToValibotSchema.ts:41 | a key with a list reads as its list, a key without one as the empty list; `CollectValues` proves every read equals `Gather` |
| ObjectMerge.CollectValues | src/jsonToValibotSchema.ts:23-34 | after the loops, `allKeys` is every key in first-seen order, the dictionary holds exactly those keys, and each key maps to its values in object and entry order |
| ObjectMerge.CollectEntries | src/jsonToValibotSchema.ts:27-33 | one object's entries add their new keys in entry order and append each value to its key's list |
| ObjectMerge.ResolveValues | src/jsonToValibotSchema.ts:44-63 | the if-chain over a key's values gives that key's value schema and code |
| ObjectMerge.MergeObjectSchemas | src/jsonToValibotSchema.ts:18-75 | the loop-based merge returns exactly the fields and code lines of the merge function |
| MergeProperties.AllKeysFirstSeen | src/jsonToValibotSchema.ts:23-28 | the key list has no duplicates, holds exactly the keys of the objects, and orders them by first occurrence |
| MergeProperties.ValuesForEmpty | src/jsonToValibotSchema.ts:27-32 | an object contributes no value for a key iff it holds no entry under the key |
| MergeProperties.ValuesForDistinct | src/jsonToValibotSchema.ts:27-32 | with distinct keys, an object contributes exactly the value it holds under the key, or nothing |
| MergeProperties.GatherEmpty | src/jsonToValibotSchema.ts:26-34 | no value is gathered for a key iff no object holds it |
| MergeProperties.GatherCount | src/jsonToValibotSchema.ts:29-32 | with distinct keys per object, a key gathers exactly one value per object holding it |
| MergeProperties.Optionality | src/jsonToValibotSchema.ts:41-71 | every key gathers between 1 and the number of objects values; its field is `optional(c)` with line `  key: v.optional(code)` iff some object lacks it, else `c` with line `  key: code` |
| MergeProperties.MergeKeysAt | src/jsonToValibotSchema.ts:65-71 | field i and line i of the merge are those of the i-th key |
| MergeProperties.AllKeysMember | src/jsonToValibotSchema.ts:23-28 | a key is in the key list iff some object holds it |
| BranchProperties.UniformKind | src/jsonToValibotSchema.ts:59 | `getUniqueTypes(values).size === 1` iff the values are non-empty and all have the first one's kind |
| BranchProperties.ArraysAndObjectsShareKind | src/jsonToValibotSchema.ts:15 | an array and an object together count as one kind |
| BranchProperties.MergeCondition | src/jsonToValibotSchema.ts:100-104 | the merge branch is taken iff the values are non-empty and all plain objects, and it then merges their entries in order |
| BranchProperties.InferEachMaps | src/jsonToValibotSchema.ts:81 | the mapped results are each value's own inference, in order |
| BranchProperties.CreateUnionSchema | src/jsonToValibotSchema.ts:81-83 | the union's options are the values' own schemas, in value order, without deduplication or flattening |
| BranchProperties.CreateUnionCode | src/jsonToValibotSchema.ts:81-84 | the union's code is `v.union([` + the branch codes joined by ", " + `])` |
| BranchProperties.HandleArrayCases | src/jsonToValibotSchema.ts:92-126 | the empty array gives array(string); all plain objects give the merged object; one kind, not all objects, gives the first element's schema; several kinds give a union |
| BranchProperties.KeyValueCases | src/jsonToValibotSchema.ts:50-63 | no values gives the null schema; all objects give the merge; one kind gives the first value's result; several kinds give the union |
| BranchProperties.RepresentativeDecides | src/jsonToValibotSchema.ts:114-120 | two one-kind arrays that are not all objects and start with the same element get the same result |
| BranchProperties.SharedElementRule | src/jsonToValibotSchema.ts:104-126 | a non-empty array and a key's non-empty gathered values follow one element rule |
| RoundTrip.InferAccepts | __tests__/parse.test.ts:7-17 | a parsed sample on which no one-kind choice is made among several arrays or objects is accepted by its own inferred schema |
| RoundTrip.BranchesAccepted | src/jsonToValibotSchema.ts:104-126 | for a list satisfying `SafeSample`, the merged object, representative or union schema accepts every value it was inferred from |
| RoundTrip.MergeAccepts | src/jsonToValibotSchema.ts:36-74 | for objects satisfying `SafeMerge`, the merged object schema accepts every object of the merge |
| RoundTrip.FieldAccepts | src/jsonToValibotSchema.ts:65-71 | for objects satisfying `SafeMerge`, each merged field accepts what each object holds under its key, or its absence |
| RoundTrip.MissingKeyOptional | src/jsonToValibotSchema.ts:42 | a key that some object lacks gets an optional field |
| RoundTrip.PresentValueAccepted | src/jsonToValibotSchema.ts:50-63 | for objects satisfying `SafeMerge`, a key's value schema accepts the value any object holds under it |
| RoundTrip.GatherHolds | src/jsonToValibotSchema.ts:26-33 | the value an object holds under a key is among that key's gathered values |
| Text.Join | src/jsonToValibotSchema.ts:55 | the joined text starts with the first part, followed by the separator when there are several |
| Text.JoinAppend | src/jsonToValibotSchema.ts:84 | joining one more part appends the separator and the part |
| CodeAgreement.InferCode | src/jsonToValibotSchema.ts:129-170 | where only the root object reaches the entry point, the code is the valibot source of the schema, with the prelude in front exactly for an object |
| CodeAgreement.ArrayCode | src/jsonToValibotSchema.ts:88-127 | for elements satisfying `PlainValues` (no object below the root reaches the entry point), an array's code is the source of its array schema |
| CodeAgreement.ObjectCode | src/jsonToValibotSchema.ts:161-166 | for a root object whose entries satisfy `PlainMerge`, its code is the prelude followed by the source of its object schema |
| CodeAgreement.BranchesCode | src/jsonToValibotSchema.ts:104-126 | for a list satisfying `PlainSample`, in each branch of the element rule the code lines or code match the schema |
| CodeAgreement.UnionCode | src/jsonToValibotSchema.ts:77-86 | for a list satisfying `PlainSample` (so no branch is an object), a union's code is the source of the union schema |
| CodeAgreement.MergeCode | src/jsonToValibotSchema.ts:65-74 | for objects satisfying `PlainMerge`, the merge's code lines are the source lines of its fields |
| CodeAgreement.LineCode | src/jsonToValibotSchema.ts:65-71 | for objects satisfying `PlainMerge`, line i is `  key: ` + the source of field i, optional included |
| CodeAgreement.KeyValueCode | src/jsonToValibotSchema.ts:50-63 | for objects satisfying `PlainMerge`, a key's value code is the source of its value schema |
| Policies.NullPolicy | src/jsonToValibotSchema.ts:133-138 | null gives `v.nullable(v.string())`, which accepts exactly null and strings |
| Policies.ScalarPolicy | src/jsonToValibotSchema.ts:140-155 | a string, number or boolean gives its primitive, whose code is its source and which accepts exactly the values of that kind |
| Policies.EmptyArrayPolicy | src/jsonToValibotSchema.ts:92-97 | `[]` gives `v.array(v.string())`, which accepts exactly arrays of strings |
| Policies.ObjectCodePrelude | src/jsonToValibotSchema.ts:165 | the code of every object passed to the entry point starts with the prelude |
| Policies.NestedPreludeQuirk | src/jsonToValibotSchema.ts:114-120 | `[{}, []]` takes the one-kind branch, so the prelude lands inside `v.array(...)` |
| Policies.UnionPreludeQuirk | src/jsonToValibotSchema.ts:121-125 | in `[{}, 1]` the object's union branch carries the prelude inside `v.union([...])` |
| Policies.RepresentativeQuirk | src/jsonToValibotSchema.ts:114-120 | `[[1], ["a"]]` gets `array(array(number))`, which does not accept the sample it came from |
| Policies.RepresentativeAccepted | src/jsonToValibotSchema.ts:114-120 | `[[1], [2]]` also takes the one-kind branch, and its `array(array(number))` accepts the sample |
| Policies.UnionKeepsDuplicates | src/jsonToValibotSchema.ts:77-86 | `[1, "a", 2]` gives `array(union([number, string, number]))`: ordered, not deduplicated |
| WorkedExample.ExampleSchema | src/jsonToValibotSchema.ts:18-75 | `{"a": 1, "b": [{"x": "y"}, {"z": 2}]}` gives `{a: number, b: array({x: optional(string), z: optional(number)})}`, which accepts the sample |

## Left out

- valibot itself is not part of this model. `Valibot.Accepts` gives the
  eight combinators their documented acceptance rule: an object schema
  accepts extra keys, and a declared missing key passes only an `optional`
  field. Issue reporting and the output value of `parse` are not modelled.
  This includes its removal of undeclared keys, which the test compares
  against.
- The test's I/O is left out: writing `test.ts`, running it with bun,
  reading its output and deleting the file. Only its acceptance claim is
  modelled, as `RoundTrip.InferAccepts`. `tsup.config.ts` is build
  configuration.
- The `default: throw` branch of `jsonToValibotSchema` (line 168) cannot be
  reached in the model, because the JSON datatype is closed.
- Numbers are opaque reals. The inference only reads their kind, so
  floating-point behaviour plays no part.
- Keys that name a property every JavaScript object inherits are not
  modelled. Examples are `__proto__`, `constructor` and `toString`. For
  such a key, the dictionary lookup at src/jsonToValibotSchema.ts:29 finds
  the inherited value, which is not an array. The append at line 32 then
  throws a TypeError. The model merges such keys like any other.
- `schemaObject` is modelled as an ordered sequence of fields.
  JavaScript's reordering of integer-like property keys is not modelled. The
  code lines, which fix the generated text, do follow first-seen order.
- A `JObject`'s entries are assumed to be in the order `Object.entries`
  reports them already, which puts integer-like keys first. The model does
  not reorder the entries of a parsed object.
- Whether the generated TypeScript compiles is not modelled, including keys
  that need quoting or escaping.
- RoundTrip.InferAccepts: stated only for samples satisfying `SafeValue`,
  because the code's one-kind branch infers from the first element alone
  (see `Policies.RepresentativeQuirk`). `SafeValue` also excludes samples
  whose round trip does hold. Examples are `[[1], [2]]`
  (`Policies.RepresentativeAccepted`) and a key that holds an array in
  each of two objects. The lemma also needs `WellFormed` (no duplicate keys
  in an object), which every parsed JSON text satisfies. It proves
  acceptance only, which is weaker than the test's check that the parsed
  output equals the sample. valibot's `union` returns the output of the
  first option that accepts, and `object` drops undeclared keys. For
  `[[{"a": 1}], [{"a": 1, "b": 2}], 5]`, which satisfies `SafeValue`, the
  first union option `array(object({a}))` accepts `[{"a": 1, "b": 2}]`. The
  parsed output therefore loses `b` and differs from the sample.
- RoundTrip.BranchesAccepted, RoundTrip.MergeAccepts,
  RoundTrip.FieldAccepts and RoundTrip.PresentValueAccepted: stated only
  under `SafeSample` or `SafeMerge`, the conditions `InferAccepts` passes
  down. Without them the claim fails: for the objects
  `[{"k": [1]}, {"k": ["a"]}]` the merged field `k` is `array(number)`,
  which rejects the second object.
- CodeAgreement.InferCode: stated only for samples satisfying `PlainValue`,
  because any other object that reaches `jsonToValibotSchema` puts the
  prelude inside the generated text (see `Policies.NestedPreludeQuirk`).
- CodeAgreement.ArrayCode, CodeAgreement.ObjectCode,
  CodeAgreement.BranchesCode, CodeAgreement.UnionCode,
  CodeAgreement.MergeCode, CodeAgreement.LineCode and
  CodeAgreement.KeyValueCode: stated only under `PlainValues`, `PlainMerge`
  or `PlainSample`, the conditions `InferCode` passes down. For `[{}, []]`
  the array's code differs from the source of its schema
  (`Policies.NestedPreludeQuirk`).
