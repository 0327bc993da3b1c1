/** The valibot combinators the inference emits, with the meaning they give
    a JSON value when the schema parses it. */
module Valibot {
  import opened JsonValue
  import opened Text

  /** `string()`, `number()`, `boolean()`, `nullable(s)`, `array(s)`,
      `object({...})` (fields in declaration order), `optional(s)`, `union([...])`. */
  datatype Schema =
    | String
    | Number
    | Boolean
    | Nullable(inner: Schema)
    | Array(item: Schema)
    | Object(fields: seq<(string, Schema)>)
    | Optional(inner: Schema)
    | Union(options: seq<Schema>)

  /** A present value passes the schema. An object schema ignores keys it does
      not declare; a declared key that is missing passes only an `optional`
      field. */
  predicate Accepts(s: Schema, v: Json)
    decreases s, 0
  {
    match s
    case String => v.JString?
    case Number => v.JNumber?
    case Boolean => v.JBool?
    case Nullable(inner) => v.JNull? || Accepts(inner, v)
    case Array(item) => v.JArray? && AcceptsAll(item, v.items)
    case Object(fields) => v.JObject? && AcceptsFields(fields, v.entries)
    case Optional(inner) => Accepts(inner, v)
    case Union(options) => exists i :: 0 <= i < |options| && Accepts(options[i], v)
  }

  /** Every one of the values passes the schema. */
  predicate AcceptsAll(s: Schema, vs: seq<Json>)
    decreases s, 2
  {
    forall i :: 0 <= i < |vs| ==> Accepts(s, vs[i])
  }

  /** What an object schema asks of an object's entries: each declared field
      accepts what the object holds under its key, or its absence. */
  predicate AcceptsFields(fields: seq<(string, Schema)>, es: Entries)
    decreases fields, 2
  {
    forall i :: 0 <= i < |fields| ==> AcceptsField(fields[i], es)
  }

  /** One declared field against an object's entries. */
  predicate AcceptsField(field: (string, Schema), es: Entries)
    decreases field, 3
  {
    AcceptsEntry(field.1, Lookup(es, field.0))
  }

  /** What an object schema asks of the value under one of its keys. */
  predicate AcceptsEntry(s: Schema, present: Option<Json>)
    decreases s, 1
  {
    match present
    case None => s.Optional?
    case Some(x) => Accepts(s, x)
  }

  /** The valibot source text that builds the schema, with `v` the imported
      valibot namespace: one field line per key, fields joined by ",\n",
      union branches by ", ". */
  function SourceOf(s: Schema): string
    decreases s, 1
  {
    match s
    case String => "v.string()"
    case Number => "v.number()"
    case Boolean => "v.boolean()"
    case Nullable(inner) => "v.nullable(" + SourceOf(inner) + ")"
    case Array(item) => "v.array(" + SourceOf(item) + ")"
    case Object(fields) => "v.object({\n" + Join(FieldSources(fields), ",\n") + "\n})"
    case Optional(inner) => "v.optional(" + SourceOf(inner) + ")"
    case Union(options) => "v.union([" + Join(SourcesOf(options), ", ") + "])"
  }

  /** The line declaring each field: two spaces, the key, a colon and a
      space, the field's schema. */
  function FieldSources(fields: seq<(string, Schema)>): seq<string>
    decreases fields, 0
  {
    seq(|fields|, i requires 0 <= i < |fields| => FieldSource(fields[i]))
  }

  function FieldSource(field: (string, Schema)): string
    decreases field, 0
  {
    "  " + field.0 + ": " + SourceOf(field.1)
  }

  function SourcesOf(options: seq<Schema>): seq<string>
    decreases options, 0
  {
    seq(|options|, i requires 0 <= i < |options| => SourceOf(options[i]))
  }
}
