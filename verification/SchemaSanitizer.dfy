/**
 The schema sanitizer: JSON schemas rewritten without the keywords a narrower dialect rejects. The function is the
 meaning of the in-place edits of a fresh copy, to which the method is proved equal.
 */
module SchemaSanitizer {
  import opened Common

  /** JSON values; an absent key stands for undefined. */
  datatype Json =
    | JNull | JBool(b: bool) | JNum(n: int) | JStr(s: string) | JArr(items: seq<Json>) | JObj(fields: Fields)

  type Fields = map<string, Json>

  const UNSUPPORTED_KEYS: seq<string> := ["$schema", "$id", "$ref", "$defs", "$anchor", "title", "default", "examples"]

  function Unsupported(): set<string> { {"$schema", "$id", "$ref", "$defs", "$anchor", "title", "default", "examples"} }

  predicate Truthy(j: Json) {
    match j
    case JNull => false
    case JBool(b) => b
    case JNum(n) => n != 0
    case JStr(s) => s != ""
    case _ => true
  }

  function Get(j: Json, key: string): Option<Json> {
    if j.JObj? && key in j.fields then Some(j.fields[key]) else None
  }

  /** m[key], if it is there and truthy. */
  function Given(m: Fields, key: string): Option<Json> {
    if key in m && Truthy(m[key]) then Some(m[key]) else None
  }

  // ---------------------------------------------------------------- one node

  predicate IsNullBranch(s: Json) { Get(s, "type") == Some(JStr("null")) }

  /** items.filter(s => s.type !== "null") */
  function NonNull(items: seq<Json>): (branches: seq<Json>)
    ensures forall i :: 0 <= i < |branches| ==> branches[i] in items && !IsNullBranch(branches[i])
    ensures (forall i :: 0 <= i < |items| ==> !IsNullBranch(items[i])) ==> branches == items
  {
    if items == [] then []
    else if IsNullBranch(items[0]) then NonNull(items[1..])
    else [items[0]] + NonNull(items[1..])
  }

  predicate AllConst(branches: seq<Json>) {
    branches != [] && forall i :: 0 <= i < |branches| ==> Get(branches[i], "const").Some?
  }

  function Consts(branches: seq<Json>): (values: seq<Json>)
    requires AllConst(branches)
    ensures |values| == |branches| && forall i :: 0 <= i < |values| ==> Some(values[i]) == Get(branches[i], "const")
  {
    seq(|branches|, i requires 0 <= i < |branches| => Get(branches[i], "const").value)
  }

  function FieldsOf(j: Json): Fields { if j.JObj? then j.fields else map[] }

  function Put(m: Fields, key: string, value: Option<Json>): Fields {
    if value.Some? then m[key := value.value] else m
  }

  /** A union of constants becomes an enumeration; any other union falls back on its first branch that is not null. */
  function FlattenUnion(m: Fields): Fields {
    if "anyOf" !in m || !m["anyOf"].JArr? then m else
    var branches := NonNull(m["anyOf"].items);
    var rest := m - {"anyOf"};
    if AllConst(branches) then
      rest["type" := Given(FieldsOf(branches[0]), "type").GetOr(JStr("string"))]["enum" := JArr(Consts(branches))]
    else if branches != [] then
      var first := FieldsOf(branches[0]);
      var typed := Put(Put(rest, "type", Given(first, "type")), "enum", Given(first, "enum"));
      if Given(typed, "description").None? then Put(typed, "description", Given(first, "description")) else typed
    else if Given(rest, "type").None? then rest["type" := JStr("string")] else rest
  }

  /** The type named after the JavaScript type of a constant. */
  function TypeNameOf(c: Json): string { if c.JStr? then "string" else if c.JBool? then "boolean" else "number" }

  function FlattenConst(m: Fields): Fields {
    if "const" !in m then m else
    var listed := m["enum" := JArr([m["const"]])];
    (if Given(m, "type").None? then listed["type" := JStr(TypeNameOf(m["const"]))] else listed) - {"const"}
  }

  function Flatten(m: Fields): Fields { FlattenConst(FlattenUnion(m - Unsupported())) }

  // ---------------------------------------------------------------- the whole schema

  /** Every property under its own name, but for the one whose assignment sets an object's prototype instead. */
  function SanitizedProperties(props: Json): Fields
    requires props.JObj?
    decreases props, 0
  {
    map k | k in props.fields && k != "__proto__" :: Sanitize(props.fields[k])
  }

  function Sanitize(schema: Json): Json
    decreases schema, 1
  {
    if !schema.JObj? then schema else
    var m := schema.fields;
    var flat := Flatten(m);
    var withProperties :=
      if "properties" in m && m["properties"].JObj? then flat["properties" := JObj(SanitizedProperties(m["properties"]))]
      else flat;
    JObj(if "items" in m && m["items"].JObj? then withProperties["items" := Sanitize(m["items"])] else withProperties)
  }

  lemma FlattenKeeps(m: Fields, key: string)
    requires key !in Unsupported() && key !in {"anyOf", "const", "type", "enum", "description"}
    ensures key in Flatten(m) <==> key in m
    ensures key in m ==> Flatten(m)[key] == m[key]
  {
  }

  // ---------------------------------------------------------------- the edits

  function Elements(keys: seq<string>): set<string> { set k | k in keys }

  lemma ElementsNext(keys: seq<string>, i: nat)
    requires i < |keys|
    ensures Elements(keys[..i + 1]) == Elements(keys[..i]) + {keys[i]} && Elements(keys[..0]) == {}
    ensures Elements(keys[..|keys|]) == Elements(keys)
  {
    assert keys[..i + 1] == keys[..i] + [keys[i]];
    assert keys[..|keys|] == keys;
  }

  lemma UnsupportedKeys()
    ensures Elements(UNSUPPORTED_KEYS) == Unsupported()
  {
    var keys := UNSUPPORTED_KEYS;
    assert keys[0] == "$schema" && keys[1] == "$id" && keys[2] == "$ref" && keys[3] == "$defs" && keys[4] == "$anchor";
    assert keys[5] == "title" && keys[6] == "default" && keys[7] == "examples";
    assert forall k :: k in Unsupported() ==> k in keys;
  }

  method DropUnsupported(schema: Fields) returns (result: Fields)
    ensures result == schema - Unsupported()
  {
    hide Elements;
    result := schema;
    var i := 0;
    ElementsNext(UNSUPPORTED_KEYS, 0);
    UnsupportedKeys();
    while i < |UNSUPPORTED_KEYS|
      invariant 0 <= i <= |UNSUPPORTED_KEYS|
      invariant result == schema - Elements(UNSUPPORTED_KEYS[..i])
    {
      ElementsNext(UNSUPPORTED_KEYS, i);
      result := result - {UNSUPPORTED_KEYS[i]};
      i := i + 1;
    }
  }

  method EditUnion(schema: Fields) returns (result: Fields)
    ensures result == FlattenUnion(schema)
  {
    result := schema;
    if "anyOf" in result && result["anyOf"].JArr? {
      var nonNull := NonNull(result["anyOf"].items);
      if AllConst(nonNull) {
        var enumValues := Consts(nonNull);
        var inferredType := Given(FieldsOf(nonNull[0]), "type").GetOr(JStr("string"));
        result := result - {"anyOf"};
        result := result["type" := inferredType];
        result := result["enum" := JArr(enumValues)];
      } else if |nonNull| > 0 {
        result := result - {"anyOf"};
        var first := FieldsOf(nonNull[0]);
        if Given(first, "type").Some? { result := result["type" := first["type"]]; }
        if Given(first, "enum").Some? { result := result["enum" := first["enum"]]; }
        if Given(first, "description").Some? && Given(result, "description").None? {
          result := result["description" := first["description"]];
        }
      }
    }
    if "anyOf" in result && result["anyOf"].JArr? {
      result := result - {"anyOf"};
      if Given(result, "type").None? { result := result["type" := JStr("string")]; }
    }
  }

  method EditConst(schema: Fields) returns (result: Fields)
    ensures result == FlattenConst(schema)
  {
    result := schema;
    if "const" in result {
      result := result["enum" := JArr([result["const"]])];
      if Given(result, "type").None? {
        result := result["type" := JStr(TypeNameOf(result["const"]))];
      }
      result := result - {"const"};
    }
  }

  method SanitizeSchema(schema: Json) returns (r: Json)
    ensures r == Sanitize(schema)
    decreases schema, 1
  {
    hide Flatten;
    if !schema.JObj? { return schema; }
    var result := DropUnsupported(schema.fields);
    result := EditUnion(result);
    result := EditConst(result);
    FlattenIs(schema.fields);
    FlattenKeeps(schema.fields, "properties");
    FlattenKeeps(schema.fields, "items");
    if "properties" in result && result["properties"].JObj? {
      var sanitized := SanitizeProperties(schema.fields["properties"]);
      result := result["properties" := JObj(sanitized)];
    }
    if "items" in result && result["items"].JObj? {
      var items := SanitizeSchema(schema.fields["items"]);
      result := result["items" := items];
    }
    return JObj(result);
  }

  lemma FlattenIs(m: Fields)
    ensures Flatten(m) == FlattenConst(FlattenUnion(m - Unsupported()))
  {
  }

  method SanitizeProperties(props: Json) returns (sanitized: Fields)
    requires props.JObj?
    ensures sanitized == SanitizedProperties(props)
    decreases props, 0
  {
    sanitized := map[];
    var todo := props.fields.Keys;
    while todo != {}
      invariant todo <= props.fields.Keys
      invariant sanitized == map k | k in props.fields && k !in todo && k != "__proto__" :: Sanitize(props.fields[k])
      decreases |todo|
    {
      var key :| key in todo;
      todo := todo - {key};
      var value := SanitizeSchema(props.fields[key]);
      if key != "__proto__" {
        sanitized := sanitized[key := value];
      }
    }
  }
}
