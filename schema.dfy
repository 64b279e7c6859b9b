/**
 * The response-schema description language both servers hand to the model
 * (an OpenAPI-style subset: string, array and object nodes with enums,
 * items, properties and required lists), what it means for a JSON value to
 * conform to a schema, and the schema's JSON form as the worker writes it.
 */
module Schema {
  import opened Wrappers
  import opened Json

  datatype SchemaNode =
    | StringSchema(description: Option<string>, enumValues: seq<string>)
    | ArraySchema(description: Option<string>, items: SchemaNode)
    | ObjectSchema(properties: seq<Property>, required: seq<string>)

  datatype Property = Property(name: string, schema: SchemaNode)

  function PropertyNames(properties: seq<Property>): (r: seq<string>)
    ensures |r| == |properties|
    ensures forall i :: 0 <= i < |properties| ==> r[i] == properties[i].name
  {
    seq(|properties|, i requires 0 <= i < |properties| => properties[i].name)
  }

  /**
   * A value conforms to a schema when it has the node's type, a string is one of
   * the enum's values (if there is an enum), every array element conforms to the
   * items schema, every required key is present, and every present described
   * property conforms to its schema. Keys the schema does not describe are allowed.
   */
  predicate Conforms(s: SchemaNode, v: Json)
    decreases s, 1
  {
    match s
    case StringSchema(_, enumValues) =>
      v.JStr? && (enumValues == [] || v.s in enumValues)
    case ArraySchema(_, items) =>
      v.JArr? && forall i :: 0 <= i < |v.elems| ==> Conforms(items, v.elems[i])
    case ObjectSchema(properties, required) =>
      && v.JObj?
      && (forall k :: 0 <= k < |required| ==> Get(v, required[k]).Some?)
      && (forall k :: 0 <= k < |properties| ==> PropertyConforms(s, properties[k], v))
  }

  predicate PropertyConforms(s: SchemaNode, p: Property, v: Json)
    requires s.ObjectSchema? && p in s.properties
    decreases s, 0
  {
    var field := Get(v, p.name);
    field.None? || Conforms(p.schema, field.value)
  }

  /** Every key an object schema requires is present. */
  predicate RequiredIn(s: SchemaNode, v: Json)
    requires s.ObjectSchema?
  {
    forall k :: 0 <= k < |s.required| ==> Get(v, s.required[k]).Some?
  }

  /** Every property an object schema describes conforms where present. */
  predicate PropertiesIn(s: SchemaNode, v: Json)
    requires s.ObjectSchema?
  {
    forall k :: 0 <= k < |s.properties| ==> PropertyConforms(s, s.properties[k], v)
  }

  /** An object schema's clause of `Conforms`, by its three parts. */
  lemma ObjectConforms(s: SchemaNode, v: Json)
    requires s.ObjectSchema?
    ensures Conforms(s, v) <==> v.JObj? && RequiredIn(s, v) && PropertiesIn(s, v)
  {
  }

  /** The schema written as the worker's object literal: lower-case type names, keys in source order. */
  function SchemaToJson(s: SchemaNode): (j: Json)
    ensures j.JObj?
    decreases s
  {
    match s
    case StringSchema(description, enumValues) =>
      JObj([("type", JStr("string"))]
           + (if enumValues == [] then [] else [("enum", JArr(seq(|enumValues|, i requires 0 <= i < |enumValues| => JStr(enumValues[i]))))])
           + DescriptionField(description))
    case ArraySchema(description, items) =>
      JObj([("type", JStr("array")), ("items", SchemaToJson(items))] + DescriptionField(description))
    case ObjectSchema(properties, required) =>
      JObj([("type", JStr("object")),
            ("properties", JObj(seq(|properties|, i requires 0 <= i < |properties| => (properties[i].name, SchemaToJson(properties[i].schema))))),
            ("required", JArr(seq(|required|, i requires 0 <= i < |required| => JStr(required[i]))))])
  }

  function DescriptionField(description: Option<string>): seq<(string, Json)>
  {
    if description.Some? then [("description", JStr(description.value))] else []
  }

  /** The `type` keyword of a node: `string`, `array` or `object` by its kind. */
  function TypeName(s: SchemaNode): string
  {
    match s
    case StringSchema(_, _) => "string"
    case ArraySchema(_, _) => "array"
    case ObjectSchema(_, _) => "object"
  }

  function StringsJson(xs: seq<string>): Json
  {
    JArr(seq(|xs|, i requires 0 <= i < |xs| => JStr(xs[i])))
  }

  /**
   * What each keyword of a node's JSON form holds: its kind under `type`; a string node's values under
   * `enum`, present exactly when there are some; an array node's item schema, itself in JSON form,
   * under `items`; an object node's properties, by name and in order, each in JSON form, and its required
   * names; and the description exactly when one is set.
   */
  lemma SchemaToJsonKeywords(s: SchemaNode)
    ensures var j := SchemaToJson(s);
            Get(j, "type") == Some(JStr(TypeName(s)))
    ensures var j := SchemaToJson(s);
            s.StringSchema? ==> Get(j, "enum") == (if s.enumValues == [] then None else Some(StringsJson(s.enumValues)))
    ensures var j := SchemaToJson(s);
            s.ArraySchema? ==> Get(j, "items") == Some(SchemaToJson(s.items))
    ensures var j := SchemaToJson(s);
            !s.ObjectSchema? ==> Get(j, "description") == (if s.description.Some? then Some(JStr(s.description.value)) else None)
    ensures var j := SchemaToJson(s);
            s.ObjectSchema? ==>
              && Get(j, "required") == Some(StringsJson(s.required))
              && Get(j, "description").None?
              && Get(j, "properties").Some? && Get(j, "properties").value.JObj?
              && Keys(Get(j, "properties").value.fields) == PropertyNames(s.properties)
              && forall i :: 0 <= i < |s.properties| ==>
                   Get(j, "properties").value.fields[i].1 == SchemaToJson(s.properties[i].schema)
  {
    match s
    case StringSchema(description, enumValues) => StringKeywords(description, enumValues);
    case ArraySchema(description, items) => ArrayKeywords(description, items);
    case ObjectSchema(properties, required) => ObjectKeywords(properties, required);
  }

  lemma StringKeywords(description: Option<string>, enumValues: seq<string>)
    ensures var j := SchemaToJson(StringSchema(description, enumValues));
            && Get(j, "type") == Some(JStr("string"))
            && Get(j, "enum") == (if enumValues == [] then None else Some(StringsJson(enumValues)))
            && Get(j, "description") == (if description.Some? then Some(JStr(description.value)) else None)
  {
    assert "type"[0] != "enum"[0] && "type"[0] != "description"[0] && "enum"[0] != "description"[0];
    var head := [("type", JStr("string"))];
    var en := if enumValues == [] then [] else [("enum", StringsJson(enumValues))];
    var desc := DescriptionField(description);
    assert SchemaToJson(StringSchema(description, enumValues)).fields == head + en + desc;
    LookupMissing(desc, "type");
    LookupMissing(desc, "enum");
    LookupMissing(en, "type");
    LookupMissing(en, "description");
    LookupMissing(head, "enum");
    LookupMissing(head, "description");
    LookupAppend(head + en, desc, "type");
    LookupAppend(head, en, "type");
    LookupAppend(head + en, desc, "enum");
    LookupAppend(head, en, "enum");
    LookupAppend(head + en, desc, "description");
    LookupAppend(head, en, "description");
  }

  lemma ArrayKeywords(description: Option<string>, items: SchemaNode)
    ensures var j := SchemaToJson(ArraySchema(description, items));
            && Get(j, "type") == Some(JStr("array"))
            && Get(j, "items") == Some(SchemaToJson(items))
            && Get(j, "description") == (if description.Some? then Some(JStr(description.value)) else None)
  {
    assert "items"[0] != "description"[0] && "items"[0] != "type"[0] && "type"[0] != "description"[0];
    var head := [("type", JStr("array")), ("items", SchemaToJson(items))];
    var desc := DescriptionField(description);
    assert SchemaToJson(ArraySchema(description, items)).fields == head + desc;
    LookupMissing(desc, "type");
    LookupMissing(desc, "items");
    LookupMissing(head, "description");
    LookupAppend(head, desc, "type");
    LookupAppend(head, desc, "items");
    LookupAppend(head, desc, "description");
    assert head[..1] == [("type", JStr("array"))];
  }

  lemma ObjectKeywords(properties: seq<Property>, required: seq<string>)
    ensures var j := SchemaToJson(ObjectSchema(properties, required));
            && Get(j, "type") == Some(JStr("object"))
            && Get(j, "required") == Some(StringsJson(required))
            && Get(j, "description").None?
            && Get(j, "properties").Some? && Get(j, "properties").value.JObj?
            && Keys(Get(j, "properties").value.fields) == PropertyNames(properties)
            && forall i :: 0 <= i < |properties| ==>
                 Get(j, "properties").value.fields[i].1 == SchemaToJson(properties[i].schema)
  {
    assert "properties"[0] != "required"[0] && "properties"[0] != "type"[0] && "required"[0] != "type"[0];
    assert "description"[0] != "required"[0] && "description"[0] != "properties"[0] && "description"[0] != "type"[0];
    var fields := SchemaToJson(ObjectSchema(properties, required)).fields;
    var props := JObj(seq(|properties|, i requires 0 <= i < |properties| => (properties[i].name, SchemaToJson(properties[i].schema))));
    assert fields == [("type", JStr("object")), ("properties", props), ("required", StringsJson(required))];
    LookupMissing(fields, "description");
    assert Lookup(fields, "properties") == Lookup(fields[..2], "properties") == Some(props);
    assert Lookup(fields, "type") == Lookup(fields[..2], "type") == Lookup(fields[..1], "type");
  }

  /** A key that no field carries is not found. */
  lemma LookupMissing(fields: seq<(string, Json)>, key: string)
    requires forall i :: 0 <= i < |fields| ==> fields[i].0 != key
    ensures Lookup(fields, key).None?
  {
  }

  /** A key looked up in two runs of fields is found in the later run first. */
  lemma {:induction false} LookupAppend(a: seq<(string, Json)>, b: seq<(string, Json)>, key: string)
    ensures Lookup(a + b, key) == if Lookup(b, key).Some? then Lookup(b, key) else Lookup(a, key)
    decreases |b|
  {
    if b != [] {
      assert (a + b)[..|a + b| - 1] == a + b[..|b| - 1];
      LookupAppend(a, b[..|b| - 1], key);
    } else {
      assert a + b == a;
    }
  }
}
