/**
 Laws of the schema sanitizer: its results are exactly its fixed points, property names are kept, and on the schemas the
 tools are written in it accepts the same values before and after.
 */
module SchemaLaws {
  import opened Common
  import opened SchemaSanitizer

  // ---------------------------------------------------------------- clean schemas

  predicate CleanNode(m: Fields) {
    (forall k :: k in Unsupported() ==> k !in m) && "const" !in m && ("anyOf" in m ==> !m["anyOf"].JArr?)
  }

  /** No unsupported keyword, no constant and no list of alternatives at any node reached through properties and items;
      and no property under the one name an object cannot hold. */
  predicate Clean(schema: Json)
    decreases schema
  {
    schema.JObj? ==>
      var m := schema.fields;
      && CleanNode(m)
      && ("properties" in m && m["properties"].JObj? ==>
           "__proto__" !in m["properties"].fields
           && forall k :: k in m["properties"].fields ==> Clean(m["properties"].fields[k]))
      && ("items" in m && m["items"].JObj? ==> Clean(m["items"]))
  }

  lemma FlattenCleans(m: Fields)
    ensures CleanNode(Flatten(m))
  {
    hide NonNull, AllConst, Given, Consts;
  }

  lemma CleanStays(m: Fields)
    requires CleanNode(m)
    ensures Flatten(m) == m
  {
    assert m - Unsupported() == m;
  }

  /** One node of a sanitized schema. */
  lemma SanitizedNode(m: Fields)
    ensures var s := Sanitize(JObj(m)).fields;
            && CleanNode(s)
            && (forall k :: k !in {"properties", "items"} ==>
                 (k in s <==> k in Flatten(m)) && (k in s ==> s[k] == Flatten(m)[k]))
            && ("properties" in s <==> "properties" in m)
            && ("properties" in m ==>
                 s["properties"] == if m["properties"].JObj? then JObj(SanitizedProperties(m["properties"])) else m["properties"])
            && ("items" in s <==> "items" in m)
            && ("items" in m ==> s["items"] == if m["items"].JObj? then Sanitize(m["items"]) else m["items"])
  {
    hide Flatten, SanitizedProperties;
    FlattenCleans(m);
    FlattenKeeps(m, "properties");
    FlattenKeeps(m, "items");
  }

  lemma {:induction false} SanitizedIsClean(schema: Json)
    ensures Clean(Sanitize(schema))
    decreases schema
  {
    hide Sanitize, CleanNode;
    if schema.JObj? {
      var m := schema.fields;
      SanitizedNode(m);
      StaysObject(schema);
      if "properties" in m && m["properties"].JObj? {
        var props := m["properties"];
        forall k | k in SanitizedProperties(props)
          ensures Clean(SanitizedProperties(props)[k])
        {
          SanitizedIsClean(props.fields[k]);
        }
      }
      if "items" in m && m["items"].JObj? {
        StaysObject(m["items"]);
        SanitizedIsClean(m["items"]);
      }
    } else {
      StaysObject(schema);
    }
  }

  lemma StaysObject(schema: Json)
    ensures schema.JObj? ==> Sanitize(schema).JObj? && Sanitize(schema) == JObj(Sanitize(JObj(schema.fields)).fields)
    ensures !schema.JObj? ==> Sanitize(schema) == schema
  {
  }

  lemma {:induction false} CleanIsFixed(schema: Json)
    requires Clean(schema)
    ensures Sanitize(schema) == schema
    decreases schema
  {
    hide Flatten, CleanNode;
    if schema.JObj? {
      var m := schema.fields;
      CleanStays(m);
      if "properties" in m && m["properties"].JObj? {
        var props := m["properties"];
        forall k | k in props.fields
          ensures Sanitize(props.fields[k]) == props.fields[k]
        {
          CleanIsFixed(props.fields[k]);
        }
        assert SanitizedProperties(props) == props.fields;
      }
      if "items" in m && m["items"].JObj? {
        CleanIsFixed(m["items"]);
      }
    }
  }

  /** The clean schemas are exactly those the sanitizer leaves alone; what it returns is one of them. */
  lemma SanitizeIsIdempotent(schema: Json)
    ensures Sanitize(Sanitize(schema)) == Sanitize(schema)
    ensures Sanitize(schema) == schema <==> Clean(schema)
  {
    hide *;
    SanitizedIsClean(schema);
    CleanIsFixed(Sanitize(schema));
    if Clean(schema) {
      CleanIsFixed(schema);
    }
  }

  /** Every property keeps its name, even one called after a removed keyword; only "__proto__" is lost. */
  lemma PropertyNamesKept(m: Fields)
    requires "properties" in m && m["properties"].JObj?
    ensures var s := Sanitize(JObj(m)).fields;
            && "properties" in s && s["properties"].JObj?
            && s["properties"].fields.Keys == m["properties"].fields.Keys - {"__proto__"}
            && forall k :: k in s["properties"].fields ==> s["properties"].fields[k] == Sanitize(m["properties"].fields[k])
  {
    hide Sanitize;
    SanitizedNode(m);
  }

  // ---------------------------------------------------------------- meaning

  predicate TypeMatches(t: Json, v: Json) {
    match t
    case JStr(name) =>
      (name == "string" && v.JStr?) || ((name == "number" || name == "integer") && v.JNum?)
      || (name == "boolean" && v.JBool?) || (name == "null" && v.JNull?)
      || (name == "object" && v.JObj?) || (name == "array" && v.JArr?)
    case JArr(names) => exists i :: 0 <= i < |names| && names[i].JStr? && TypeMatches(names[i], v)
    case _ => true
  }

  /** Keywords other than those below, and those that only describe. */
  function Others(m: Fields): Fields {
    m - Unsupported() - {"type", "const", "enum", "anyOf", "properties", "items", "description"}
  }

  /** What any further keywords together require of a value. */
  type Further = (Fields, Json) -> bool

  predicate Shallow(m: Fields, v: Json) {
    && ("type" in m ==> TypeMatches(m["type"], v))
    && ("const" in m ==> v == m["const"])
    && ("enum" in m && m["enum"].JArr? ==> v in m["enum"].items)
  }

  /** The values a schema accepts. */
  predicate Accepts(further: Further, schema: Json, v: Json)
    decreases schema
  {
    match schema
    case JBool(b) => b
    case JObj(m) =>
      && Shallow(m, v) && further(Others(m), v)
      && ("anyOf" in m && m["anyOf"].JArr? ==>
           exists i :: 0 <= i < |m["anyOf"].items| && Accepts(further, m["anyOf"].items[i], v))
      && ("properties" in m && m["properties"].JObj? && v.JObj? ==>
           forall k :: k in m["properties"].fields && k in v.fields ==> Accepts(further, m["properties"].fields[k], v.fields[k]))
      && ("items" in m && v.JArr? ==>
           forall i :: 0 <= i < |v.items| ==> Accepts(further, m["items"], v.items[i]))
    case _ => true
  }

  // ---------------------------------------------------------------- the fragment

  /** A typed constant: its type, its value, and descriptions. */
  predicate TypedConst(branch: Json, typeName: string) {
    && branch.JObj? && branch.fields.Keys <= Unsupported() - {"$ref"} + {"type", "const", "description"}
    && "const" in branch.fields && "type" in branch.fields && branch.fields["type"] == JStr(typeName)
  }

  /** A union of constants of one type other than null, on a node that says nothing else about its values' kind. */
  predicate ConstUnion(m: Fields, typeName: string) {
    && "anyOf" in m && m["anyOf"].JArr? && m["anyOf"].items != [] && typeName != "" && typeName != "null"
    && (forall i :: 0 <= i < |m["anyOf"].items| ==> TypedConst(m["anyOf"].items[i], typeName))
    && "type" !in m && "enum" !in m && "const" !in m
  }

  predicate PlainConst(m: Fields) {
    "const" in m && "enum" !in m
    && if "type" in m then SaysSomething(m["type"]) else m["const"].JStr? || m["const"].JBool? || m["const"].JNum?
  }

  /** Primitives, constants, unions of constants, objects and arrays, at every depth; any further keyword may occur. */
  ghost predicate Fragment(schema: Json)
    decreases schema
  {
    schema.JObj? ==>
      var m := schema.fields;
      && "$ref" !in m
      && ("anyOf" in m ==> exists typeName :: ConstUnion(m, typeName))
      && ("const" in m ==> PlainConst(m))
      && ("properties" in m && m["properties"].JObj? ==>
           "__proto__" !in m["properties"].fields
           && forall k :: k in m["properties"].fields ==> Fragment(m["properties"].fields[k]))
      && ("items" in m && m["items"].JObj? ==> Fragment(m["items"]))
  }

  ghost predicate NoneOfNothing(further: Further) { forall v :: further(map[], v) }

  // ---------------------------------------------------------------- one node keeps its meaning

  /** Some alternative of the node, if it has any, accepts the value. */
  predicate SomeBranch(further: Further, m: Fields, v: Json) {
    "anyOf" in m && m["anyOf"].JArr? ==>
      exists i :: 0 <= i < |m["anyOf"].items| && Accepts(further, m["anyOf"].items[i], v)
  }

  predicate KeepsNode(further: Further, m: Fields, v: Json) {
    && Others(Flatten(m)) == Others(m)
    && (Shallow(Flatten(m), v) && SomeBranch(further, Flatten(m), v) <==> Shallow(m, v) && SomeBranch(further, m, v))
  }

  lemma PlainNode(further: Further, m: Fields, v: Json)
    requires "anyOf" !in m && "const" !in m
    ensures KeepsNode(further, m, v)
  {
    assert Flatten(m) == m - Unsupported();
    assert Others(Flatten(m)) == Others(m);
  }

  lemma ConstNode(further: Further, m: Fields, v: Json)
    requires "anyOf" !in m && PlainConst(m)
    ensures KeepsNode(further, m, v)
  {
    var kept := m - Unsupported();
    assert Flatten(m) == FlattenConst(kept);
    assert Others(Flatten(m)) == Others(m);
    assert JArr([m["const"]]).items == [m["const"]];
  }

  lemma BranchMeaning(further: Further, branch: Json, typeName: string, v: Json)
    requires TypedConst(branch, typeName) && NoneOfNothing(further)
    ensures Accepts(further, branch, v) <==> TypeMatches(JStr(typeName), v) && v == branch.fields["const"]
  {
    assert Others(branch.fields) == map[];
  }

  lemma UnionFlattens(m: Fields, typeName: string)
    requires ConstUnion(m, typeName)
    ensures AllConst(m["anyOf"].items)
    ensures Flatten(m) == (m - Unsupported() - {"anyOf"})["type" := JStr(typeName)]["enum" := JArr(Consts(m["anyOf"].items))]
  {
    hide Flatten, FlattenUnion;
    var branches := m["anyOf"].items;
    assert forall i :: 0 <= i < |branches| ==> TypedConst(branches[i], typeName) && !IsNullBranch(branches[i]);
    assert NonNull(branches) == branches;
    assert Given(FieldsOf(branches[0]), "type") == Some(JStr(typeName));
    UnionCut(m);
    ConstantsFlatten(m - Unsupported(), branches);
  }

  /** The union of a node without a constant is all that flattening rewrites. */
  lemma UnionCut(m: Fields)
    requires "anyOf" in m && m["anyOf"].JArr? && "const" !in m
    ensures Flatten(m) == FlattenUnion(m - Unsupported())
    ensures "anyOf" in m - Unsupported() && (m - Unsupported())["anyOf"] == m["anyOf"]
  {
    hide NonNull, Given, AllConst, FieldsOf;
  }

  lemma ConstantsFlatten(m: Fields, branches: seq<Json>)
    requires "anyOf" in m && m["anyOf"].JArr? && NonNull(m["anyOf"].items) == branches && AllConst(branches)
    ensures FlattenUnion(m) == (m - {"anyOf"})["type" := Given(FieldsOf(branches[0]), "type").GetOr(JStr("string"))]
                                              ["enum" := JArr(Consts(branches))]
  {
    hide NonNull, Given, AllConst, FieldsOf;
  }

  lemma BranchesMeaning(further: Further, m: Fields, typeName: string, v: Json)
    requires ConstUnion(m, typeName) && NoneOfNothing(further) && AllConst(m["anyOf"].items)
    ensures SomeBranch(further, m, v) <==> TypeMatches(JStr(typeName), v) && v in Consts(m["anyOf"].items)
  {
    hide Accepts, TypeMatches, NoneOfNothing;
    var branches := m["anyOf"].items;
    forall i | 0 <= i < |branches|
      ensures Accepts(further, branches[i], v) <==> TypeMatches(JStr(typeName), v) && v == Consts(branches)[i]
    {
      BranchMeaning(further, branches[i], typeName, v);
    }
  }

  lemma EnumMeaning(further: Further, m: Fields, rest: Fields, typeName: string, values: seq<Json>, v: Json)
    requires m == rest["type" := JStr(typeName)]["enum" := JArr(values)] && "const" !in rest && "anyOf" !in rest
    ensures Shallow(m, v) && SomeBranch(further, m, v) <==> TypeMatches(JStr(typeName), v) && v in values
  {
    hide Accepts, TypeMatches;
  }

  lemma UnionNode(further: Further, m: Fields, typeName: string, v: Json)
    requires ConstUnion(m, typeName) && NoneOfNothing(further)
    ensures KeepsNode(further, m, v)
  {
    UnionFlattens(m, typeName);
    BranchesMeaning(further, m, typeName, v);
    EnumMeaning(further, Flatten(m), m - Unsupported() - {"anyOf"}, typeName, Consts(m["anyOf"].items), v);
    hide Flatten, Accepts, TypeMatches, SomeBranch, Consts, AllConst;
    assert Others(Flatten(m)) == Others(m);
  }

  lemma NodeKeepsMeaning(further: Further, schema: Json, v: Json)
    requires schema.JObj? && Fragment(schema) && NoneOfNothing(further)
    ensures KeepsNode(further, schema.fields, v)
  {
    hide KeepsNode, PlainConst, ConstUnion;
    var m := schema.fields;
    if "anyOf" in m {
      var typeName :| ConstUnion(m, typeName);
      UnionNode(further, m, typeName, v);
    } else if "const" in m {
      ConstNode(further, m, v);
    } else {
      PlainNode(further, m, v);
    }
  }

  // ---------------------------------------------------------------- the whole schema keeps its meaning

  lemma SanitizedShallow(further: Further, m: Fields, v: Json)
    ensures var s := Sanitize(JObj(m)).fields;
            && Others(s) == Others(Flatten(m)) && (Shallow(s, v) <==> Shallow(Flatten(m), v))
            && (SomeBranch(further, s, v) <==> SomeBranch(further, Flatten(m), v))
  {
    SanitizedNode(m);
    hide Flatten, Accepts, CleanNode, TypeMatches;
    var s := Sanitize(JObj(m)).fields;
    assert Others(s) == Others(Flatten(m));
  }

  /** On the fragment, the sanitized schema accepts exactly the values the original accepts, whatever any further keyword
      means. */
  lemma {:induction false} MeaningKept(further: Further, schema: Json, v: Json)
    requires Fragment(schema) && NoneOfNothing(further)
    ensures Accepts(further, Sanitize(schema), v) <==> Accepts(further, schema, v)
    decreases schema
  {
    hide Flatten, CleanNode, Shallow, ConstUnion, PlainConst;
    if schema.JObj? {
      var m := schema.fields;
      NodeKeepsMeaning(further, schema, v);
      SanitizedShallow(further, m, v);
      SanitizedNode(m);
      StaysObject(schema);
      if "properties" in m && m["properties"].JObj? && v.JObj? {
        var props := m["properties"].fields;
        forall k | k in props && k in v.fields
          ensures Accepts(further, Sanitize(props[k]), v.fields[k]) <==> Accepts(further, props[k], v.fields[k])
        {
          MeaningKept(further, props[k], v.fields[k]);
        }
      }
      if "items" in m && m["items"].JObj? && v.JArr? {
        forall i | 0 <= i < |v.items|
          ensures Accepts(further, Sanitize(m["items"]), v.items[i]) <==> Accepts(further, m["items"], v.items[i])
        {
          MeaningKept(further, m["items"], v.items[i]);
        }
      }
    }
  }

  // ---------------------------------------------------------------- unions with null

  /** The null type, with descriptions. */
  predicate NullType(branch: Json) {
    IsNullBranch(branch) && branch.fields.Keys <= Unsupported() - {"$ref"} + {"type", "description"}
  }

  /** A union of constants of one type and, possibly, null, on a node that requires nothing else. */
  predicate NullableUnion(m: Fields, typeName: string) {
    && "anyOf" in m && m["anyOf"].JArr? && m["anyOf"].items != [] && typeName != "" && typeName != "null"
    && (forall i :: 0 <= i < |m["anyOf"].items| ==>
          TypedConst(m["anyOf"].items[i], typeName) || NullType(m["anyOf"].items[i]))
    && m.Keys <= Unsupported() - {"$ref"} + {"anyOf", "description"}
  }

  lemma NullAccepted(further: Further, branch: Json)
    requires NullType(branch) && NoneOfNothing(further)
    ensures Accepts(further, branch, JNull)
  {
    assert Others(branch.fields) == map[];
  }

  lemma UnionAcceptsNull(further: Further, m: Fields, typeName: string, i: nat)
    requires NullableUnion(m, typeName) && NoneOfNothing(further)
    requires i < |m["anyOf"].items| && IsNullBranch(m["anyOf"].items[i])
    ensures Accepts(further, JObj(m), JNull)
  {
    NullAccepted(further, m["anyOf"].items[i]);
    assert Others(m) == map[];
  }

  /** The type of the sanitized union: that of its constants or, without constants, text. */
  lemma UnionTyped(m: Fields, typeName: string)
    requires NullableUnion(m, typeName)
    ensures "type" in Flatten(m) && Flatten(m)["type"] in {JStr(typeName), JStr("string")}
  {
    var kept := NonNull(m["anyOf"].items);
    assert forall j :: 0 <= j < |kept| ==> TypedConst(kept[j], typeName);
    assert kept != [] ==> AllConst(kept);
  }

  lemma TypeRejectsNull(further: Further, m: Fields, typeName: string)
    requires "type" in m && m["type"] == JStr(typeName) && typeName != "null"
    ensures !Accepts(further, JObj(m), JNull)
  {
  }

  lemma NullIsLost(further: Further, m: Fields, typeName: string, i: nat)
    requires NullableUnion(m, typeName) && NoneOfNothing(further)
    requires i < |m["anyOf"].items| && IsNullBranch(m["anyOf"].items[i])
    ensures Accepts(further, JObj(m), JNull) && !Accepts(further, Sanitize(JObj(m)), JNull)
  {
    hide Flatten, NullableUnion, IsNullBranch, NoneOfNothing, CleanNode, Accepts, Sanitize;
    UnionAcceptsNull(further, m, typeName, i);
    UnionTyped(m, typeName);
    SanitizedNode(m);
    StaysObject(JObj(m));
    NotNull(m, typeName);
    TypeRejectsNull(further, Sanitize(JObj(m)).fields, if Flatten(m)["type"] == JStr("string") then "string" else typeName);
  }

  lemma NotNull(m: Fields, typeName: string)
    requires NullableUnion(m, typeName)
    ensures typeName != "null" && "string" != "null"
  {
    assert "string"[0] != "null"[0];
  }

  /** A union of constants of one type, with or without null, keeps its meaning exactly when null is no branch of it. */
  lemma UnionKeptExactly(further: Further, m: Fields, typeName: string)
    requires NullableUnion(m, typeName) && NoneOfNothing(further)
    ensures (forall v :: Accepts(further, Sanitize(JObj(m)), v) <==> Accepts(further, JObj(m), v))
            <==> (forall i :: 0 <= i < |m["anyOf"].items| ==> !IsNullBranch(m["anyOf"].items[i]))
  {
    var branches := m["anyOf"].items;
    hide Flatten, NoneOfNothing, Accepts, Sanitize;
    if i: nat :| i < |branches| && IsNullBranch(branches[i]) {
      NullIsLost(further, m, typeName, i);
    } else {
      assert forall i :: 0 <= i < |branches| ==> TypedConst(branches[i], typeName);
      assert ConstUnion(m, typeName);
      forall v
        ensures Accepts(further, Sanitize(JObj(m)), v) <==> Accepts(further, JObj(m), v)
      {
        MeaningKept(further, JObj(m), v);
      }
    }
  }

  // ---------------------------------------------------------------- what is dropped and what replaces a union

  /** Eight keywords are dropped; whatever else a schema says, but for the keywords the sanitizer rewrites, stays. */
  lemma KeywordsDropped(m: Fields, key: string)
    ensures var s := Sanitize(JObj(m)).fields;
            && (key in {"$schema", "$id", "$ref", "$defs", "$anchor", "title", "default", "examples"} ==> key !in s)
            && (key !in {"$schema", "$id", "$ref", "$defs", "$anchor", "title", "default", "examples",
                         "anyOf", "const", "type", "enum", "description", "properties", "items"} ==>
                 (key in s <==> key in m) && (key in m ==> s[key] == m[key]))
  {
    hide Flatten, CleanNode;
    SanitizedNode(m);
    FlattenCleans(m);
    CleanKeys(Flatten(m));
    if key !in {"$schema", "$id", "$ref", "$defs", "$anchor", "title", "default", "examples",
                "anyOf", "const", "type", "enum", "description"} {
      FlattenKeeps(m, key);
    }
  }

  lemma CleanKeys(m: Fields)
    requires CleanNode(m)
    ensures forall k :: k in {"$schema", "$id", "$ref", "$defs", "$anchor", "title", "default", "examples"} ==> k !in m
  {
  }

  /** The branch is the first of the union that is not the null type, and some such branch is not a constant. */
  ghost predicate FirstOfOthers(branches: seq<Json>, i: nat) {
    && i < |branches| && Get(branches[i], "type") != Some(JStr("null"))
    && (forall j :: 0 <= j < i ==> Get(branches[j], "type") == Some(JStr("null")))
    && exists j :: 0 <= j < |branches| && Get(branches[j], "type") != Some(JStr("null")) && Get(branches[j], "const").None?
  }

  lemma {:induction false} NonNullStarts(items: seq<Json>, i: nat)
    requires FirstOfOthers(items, i)
    ensures NonNull(items) != [] && NonNull(items)[0] == items[i] && !AllConst(NonNull(items))
  {
    NullsSkipped(items, i);
    var j :| 0 <= j < |items| && Get(items[j], "type") != Some(JStr("null")) && Get(items[j], "const").None?;
    KeptBranch(items, j);
  }

  lemma {:induction false} NullsSkipped(items: seq<Json>, i: nat)
    requires i < |items| && Get(items[i], "type") != Some(JStr("null"))
    requires forall j :: 0 <= j < i ==> Get(items[j], "type") == Some(JStr("null"))
    ensures NonNull(items) != [] && NonNull(items)[0] == items[i]
    decreases i
  {
    if i > 0 {
      NullsSkipped(items[1..], i - 1);
    }
  }

  lemma {:induction false} KeptBranch(items: seq<Json>, j: nat)
    requires j < |items| && Get(items[j], "type") != Some(JStr("null"))
    ensures items[j] in NonNull(items)
  {
    if j > 0 {
      KeptBranch(items[1..], j - 1);
    }
  }

  lemma {:induction false} AllNull(items: seq<Json>)
    requires forall i :: 0 <= i < |items| ==> Get(items[i], "type") == Some(JStr("null"))
    ensures NonNull(items) == []
  {
    if items != [] {
      AllNull(items[1..]);
    }
  }

  /** A value that counts as given. */
  predicate SaysSomething(j: Json) { j != JNull && j != JBool(false) && j != JNum(0) && j != JStr("") }

  /** The keyword after a union was replaced by one of its branches: what the branch says, if it says anything, and what the
      node said otherwise. */
  predicate TakenOver(s: Fields, m: Fields, branch: Json, key: string) {
    if Get(branch, key).Some? && SaysSomething(Get(branch, key).value) then key in s && s[key] == Get(branch, key).value
    else (key in s <==> key in m) && (key in m ==> s[key] == m[key])
  }

  /** A union of anything but constants is replaced by its first branch that is not null: its type and its enumeration are
      taken over, its description only if the node has none of its own. */
  lemma OtherUnionTakesFirst(m: Fields, i: nat)
    requires "anyOf" in m && m["anyOf"].JArr? && "const" !in m && FirstOfOthers(m["anyOf"].items, i)
    ensures var s, branch := Sanitize(JObj(m)).fields, m["anyOf"].items[i];
            && "anyOf" !in s && TakenOver(s, m, branch, "type") && TakenOver(s, m, branch, "enum")
            && if "description" in m && SaysSomething(m["description"])
               then "description" in s && s["description"] == m["description"]
               else TakenOver(s, m, branch, "description")
  {
    var branches := m["anyOf"].items;
    SanitizedNode(m);
    NonNullStarts(branches, i);
    FlattenOther(m, NonNull(branches));
    hide Flatten, CleanNode, NonNull, Sanitize;
  }

  lemma FlattenOther(m: Fields, kept: seq<Json>)
    requires "anyOf" in m && m["anyOf"].JArr? && "const" !in m
    requires kept == NonNull(m["anyOf"].items) && kept != [] && !AllConst(kept)
    ensures var s, branch := Flatten(m), kept[0];
            && "anyOf" !in s && TakenOver(s, m, branch, "type") && TakenOver(s, m, branch, "enum")
            && if "description" in m && SaysSomething(m["description"])
               then "description" in s && s["description"] == m["description"]
               else TakenOver(s, m, branch, "description")
  {
    hide NonNull, AllConst, Flatten;
    UnionCut(m);
    TakesFirst(m - Unsupported(), kept);
  }

  lemma TakesFirst(m: Fields, kept: seq<Json>)
    requires "anyOf" in m && m["anyOf"].JArr?
    requires kept == NonNull(m["anyOf"].items) && kept != [] && !AllConst(kept)
    ensures var s, branch := FlattenUnion(m), kept[0];
            && "anyOf" !in s && TakenOver(s, m, branch, "type") && TakenOver(s, m, branch, "enum")
            && if "description" in m && SaysSomething(m["description"])
               then "description" in s && s["description"] == m["description"]
               else TakenOver(s, m, branch, "description")
  {
    hide NonNull, AllConst;
  }

  /** A union of nothing but null types, or of nothing, becomes text unless the node names a type. */
  lemma NullUnionBecomesText(m: Fields)
    requires "anyOf" in m && m["anyOf"].JArr? && "const" !in m
    requires forall i :: 0 <= i < |m["anyOf"].items| ==> Get(m["anyOf"].items[i], "type") == Some(JStr("null"))
    ensures var s := Sanitize(JObj(m)).fields;
            "anyOf" !in s && "type" in s
            && s["type"] == if "type" in m && SaysSomething(m["type"]) then m["type"] else JStr("string")
  {
    SanitizedNode(m);
    AllNull(m["anyOf"].items);
    UnionCut(m);
  }

  /** A union of constants, null types apart, becomes the list of its values, in order, under the first one's type. */
  lemma ConstUnionListed(m: Fields)
    requires "anyOf" in m && m["anyOf"].JArr? && "const" !in m
    requires AllConst(NonNull(m["anyOf"].items))
    ensures var s, kept := Sanitize(JObj(m)).fields, NonNull(m["anyOf"].items);
            && "anyOf" !in s && "enum" in s && s["enum"].JArr? && |s["enum"].items| == |kept|
            && (forall k :: 0 <= k < |kept| ==> Some(s["enum"].items[k]) == Get(kept[k], "const"))
            && "type" in s
            && s["type"] == if Get(kept[0], "type").Some? && SaysSomething(Get(kept[0], "type").value)
                            then Get(kept[0], "type").value else JStr("string")
  {
    SanitizedNode(m);
    UnionCut(m);
    hide CleanNode, Sanitize, NonNull, Flatten;
  }

  // ---------------------------------------------------------------- tools

  /** A tool object, known by its identity. */
  class Tool {
    var name: string
    var parameters: Json

    constructor (name: string, parameters: Json)
      ensures this.name == name && this.parameters == parameters
    {
      this.name, this.parameters := name, parameters;
    }

    /** What sanitizing it directly gives. */
    function Direct(): SanitizedTool
      reads this
    {
      SanitizedTool(name, Sanitize(JObj(FieldsOf(parameters))))
    }
  }

  datatype SanitizedTool = SanitizedTool(name: string, parameters: Json)

  class ToolCache {
    var cache: map<Tool, SanitizedTool>

    constructor ()
      ensures cache == map[]
    {
      cache := map[];
    }

    /** Every cached form is the direct one: so it is while no cached tool is modified. */
    ghost predicate Agrees()
      reads this, cache.Keys
    {
      forall t :: t in cache ==> cache[t] == t.Direct()
    }

    method SanitizeToolsForGemini(tools: seq<Tool>) returns (out: seq<SanitizedTool>)
      modifies this
      ensures |out| == |tools|
      ensures forall i :: 0 <= i < |tools| ==>
                out[i] == if tools[i] in old(cache) then old(cache)[tools[i]] else tools[i].Direct()
      ensures old(Agrees()) ==> Agrees() && forall i :: 0 <= i < |tools| ==> out[i] == tools[i].Direct()
    {
      hide Sanitize;
      out := [];
      var i := 0;
      while i < |tools|
        invariant 0 <= i <= |tools| && |out| == i
        invariant forall t :: t in old(cache) ==> t in cache && cache[t] == old(cache)[t]
        invariant forall t :: t in cache && t !in old(cache) ==> cache[t] == t.Direct()
        invariant forall j :: 0 <= j < i ==>
          out[j] == if tools[j] in old(cache) then old(cache)[tools[j]] else tools[j].Direct()
      {
        var tool := tools[i];
        if tool in cache {
          out := out + [cache[tool]];
        } else {
          var parameters := SanitizeSchema(JObj(FieldsOf(tool.parameters)));
          var sanitized := SanitizedTool(tool.name, parameters);
          cache := cache[tool := sanitized];
          out := out + [sanitized];
        }
        i := i + 1;
      }
    }
  }
}
