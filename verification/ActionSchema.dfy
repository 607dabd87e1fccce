/**
  Checking an action's parameters against the input schema of its contract, a subset of
  JSON Schema Validation draft 2020-12 (sections 6.1.1, 6.1.2 and 6.5.3).

  Whether a text is an id, a date or a timestamp is left to the given tests.
 */
module ActionSchema {
  import opened Wrappers
  import opened Json
  import opened Text

  datatype Kind =
    | TextKind | UuidKind | DateKind | TimestampKind | IntegerKind | NumberKind
    | BooleanKind | ObjectKind | AnyKind | ArrayKind | NullKind

  /** How type names and formatted texts are read. */
  datatype Formats = Formats(
    kindOf: string -> Option<Kind>,
    isUuid: string -> bool,
    isDate: string -> bool,
    isTimestamp: string -> bool)

  /** The kind a declared type names, if it is supported; case and outer white space do not matter. */
  function KindOf(declared: string): Option<Kind> {
    var name := Lower(Trim(declared));
    if name == "object" then Some(ObjectKind)
    else if name == "array" then Some(ArrayKind)
    else if name == "string" || name == "text" then Some(TextKind)
    else if name == "uuid" then Some(UuidKind)
    else if name == "date" then Some(DateKind)
    else if name == "timestamp" || name == "datetime" then Some(TimestampKind)
    else if name == "integer" || name == "int" || name == "int32" || name == "int64" then Some(IntegerKind)
    else if name == "number" || name == "decimal" || name == "float" || name == "double" then Some(NumberKind)
    else if name == "boolean" || name == "bool" then Some(BooleanKind)
    else if name == "json" then Some(AnyKind)
    else if name == "null" then Some(NullKind)
    else None
  }

  function Standard(isUuid: string -> bool, isDate: string -> bool, isTimestamp: string -> bool): Formats {
    Formats(KindOf, isUuid, isDate, isTimestamp)
  }

  predicate NamesObjects(formats: Formats) {
    formats.kindOf("object") == Some(ObjectKind)
  }

  predicate IsInteger(j: Json) {
    match j
    case Int(n) => true
    case Float(r) => r.Floor as real == r
    case _ => false
  }

  predicate MatchesKind(formats: Formats, value: Json, kind: Kind) {
    match kind
    case TextKind => value.Str?
    case UuidKind => value.Str? && formats.isUuid(value.s)
    case DateKind => value.Str? && formats.isDate(value.s)
    case TimestampKind => value.Str? && formats.isTimestamp(value.s)
    case IntegerKind => IsInteger(value)
    case NumberKind => value.Int? || value.Float?
    case BooleanKind => value.Bool?
    case ObjectKind => value.Obj?
    case AnyKind => true
    case ArrayKind => value.Arr?
    case NullKind => value.Null?
  }

  /** Numbers are compared by value, whichever way they are written; the rest structurally. */
  predicate SameValue(a: Json, b: Json) {
    match (a, b)
    case (Int(n), Float(r)) => n as real == r
    case (Float(r), Int(n)) => r == n as real
    case _ => a == b
  }

  /** The type a schema asks for: its text, its `type`, or an object if it has `properties`. */
  function ExpectedType(schema: Json): Option<string> {
    match schema
    case Str(t) => Some(t)
    case Obj(fields) =>
      if AsStr(Get(schema, "type")).Some? then AsStr(Get(schema, "type"))
      else if "properties" in fields then Some("object")
      else None
    case _ => None
  }

  predicate ExpectsObject(formats: Formats, schema: Json) {
    ExpectedType(schema).Some? && formats.kindOf(ExpectedType(schema).value) == Some(ObjectKind)
  }

  predicate ExpectsArray(formats: Formats, schema: Json) {
    ExpectedType(schema).Some? && formats.kindOf(ExpectedType(schema).value) == Some(ArrayKind)
  }

  /** The declared properties, without which an object is left open. */
  function Properties(schema: Json): Option<map<string, Json>> {
    var properties := Get(schema, "properties");
    if properties.Some? && properties.value.Obj? then Some(properties.value.fields) else None
  }

  /** A type that is supported and matches, or failing a type an enumeration; and the enumeration, if any. */
  predicate TypeAndEnumOk(formats: Formats, value: Json, schema: Json) {
    var t, allowed := ExpectedType(schema), Get(schema, "enum");
    && (if t.Some? then formats.kindOf(t.value).Some? && MatchesKind(formats, value, formats.kindOf(t.value).value) else allowed.Some?)
    && (allowed.Some? ==>
          allowed.value.Arr? && exists i :: 0 <= i < |allowed.value.items| && SameValue(allowed.value.items[i], value))
  }

  /** Only declared fields, and all the fields listed as required. */
  predicate FieldsOk(formats: Formats, value: Json, schema: Json) {
    ExpectsObject(formats, schema) && Properties(schema).Some? ==>
      && value.Obj?
      && (forall name :: name in value.fields ==> name in Properties(schema).value)
      && (forall name :: name in StringSet(schema, "required") ==> name in value.fields)
  }

  predicate Accepts(formats: Formats, value: Json, schema: Json)
    decreases value
  {
    && TypeAndEnumOk(formats, value, schema)
    && FieldsOk(formats, value, schema)
    && (ExpectsObject(formats, schema) && Properties(schema).Some? ==>
          value.Obj? && forall name :: name in Properties(schema).value && name in value.fields ==>
            Accepts(formats, value.fields[name], Properties(schema).value[name]))
    && (ExpectsArray(formats, schema) && Get(schema, "items").Some? ==>
          value.Arr? && forall i :: 0 <= i < |value.items| ==> Accepts(formats, value.items[i], Get(schema, "items").value))
  }

  // ----- what acceptance means at every depth -----

  datatype Step = Field(name: string) | Element(i: nat)

  /** The part of a value, and the schema it answers to, at the end of a path. */
  function Reach(formats: Formats, value: Json, schema: Json, path: seq<Step>): Option<(Json, Json)>
    decreases path
  {
    if path == [] then Some((value, schema))
    else
      match path[0]
      case Field(name) =>
        if ExpectsObject(formats, schema) && Properties(schema).Some? && name in Properties(schema).value && value.Obj? && name in value.fields
        then Reach(formats, value.fields[name], Properties(schema).value[name], path[1..]) else None
      case Element(i) =>
        if ExpectsArray(formats, schema) && Get(schema, "items").Some? && value.Arr? && i < |value.items|
        then Reach(formats, value.items[i], Get(schema, "items").value, path[1..]) else None
  }

  /** What is asked of one part, leaving aside the parts inside it. */
  predicate LocallyOk(formats: Formats, part: (Json, Json)) {
    TypeAndEnumOk(formats, part.0, part.1) && FieldsOk(formats, part.0, part.1)
  }

  ghost predicate PartOk(formats: Formats, value: Json, schema: Json, path: seq<Step>) {
    Reach(formats, value, schema, path).Some? ==> LocallyOk(formats, Reach(formats, value, schema, path).value)
  }

  lemma {:induction false} AcceptedPartsAreOk(formats: Formats, value: Json, schema: Json, path: seq<Step>)
    requires Accepts(formats, value, schema)
    ensures PartOk(formats, value, schema, path)
    decreases path
  {
    if path != [] && Reach(formats, value, schema, path).Some? {
      match path[0] {
        case Field(name) =>
          AcceptedPartsAreOk(formats, value.fields[name], Properties(schema).value[name], path[1..]);
          assert PartOk(formats, value.fields[name], Properties(schema).value[name], path[1..]);
        case Element(i) =>
          AcceptedPartsAreOk(formats, value.items[i], Get(schema, "items").value, path[1..]);
          assert PartOk(formats, value.items[i], Get(schema, "items").value, path[1..]);
      }
    }
  }

  lemma ReachThroughField(formats: Formats, value: Json, schema: Json, name: string, rest: seq<Step>)
    requires ExpectsObject(formats, schema) && Properties(schema).Some? && value.Obj?
    requires name in Properties(schema).value && name in value.fields
    ensures Reach(formats, value, schema, [Field(name)] + rest) == Reach(formats, value.fields[name], Properties(schema).value[name], rest)
  {
    assert ([Field(name)] + rest)[1..] == rest;
  }

  lemma ReachThroughElement(formats: Formats, value: Json, schema: Json, i: nat, rest: seq<Step>)
    requires ExpectsArray(formats, schema) && Get(schema, "items").Some? && value.Arr? && i < |value.items|
    ensures Reach(formats, value, schema, [Element(i)] + rest) == Reach(formats, value.items[i], Get(schema, "items").value, rest)
  {
    assert ([Element(i)] + rest)[1..] == rest;
  }

  lemma {:induction false} OkPartsAreAccepted(formats: Formats, value: Json, schema: Json)
    requires forall path :: PartOk(formats, value, schema, path)
    ensures Accepts(formats, value, schema)
    decreases value
  {
    assert PartOk(formats, value, schema, []);
    if ExpectsObject(formats, schema) && Properties(schema).Some? {
      forall name | name in Properties(schema).value && name in value.fields
        ensures Accepts(formats, value.fields[name], Properties(schema).value[name])
      {
        FieldPartsAreOk(formats, value, schema, name);
        OkPartsAreAccepted(formats, value.fields[name], Properties(schema).value[name]);
      }
    }
    if ExpectsArray(formats, schema) && Get(schema, "items").Some? {
      forall i | 0 <= i < |value.items|
        ensures Accepts(formats, value.items[i], Get(schema, "items").value)
      {
        ElementPartsAreOk(formats, value, schema, i);
        OkPartsAreAccepted(formats, value.items[i], Get(schema, "items").value);
      }
    }
  }

  lemma FieldPartsAreOk(formats: Formats, value: Json, schema: Json, name: string)
    requires forall path :: PartOk(formats, value, schema, path)
    requires ExpectsObject(formats, schema) && Properties(schema).Some? && value.Obj?
    requires name in Properties(schema).value && name in value.fields
    ensures forall path :: PartOk(formats, value.fields[name], Properties(schema).value[name], path)
  {
    forall path
      ensures PartOk(formats, value.fields[name], Properties(schema).value[name], path)
    {
      ReachThroughField(formats, value, schema, name, path);
      assert PartOk(formats, value, schema, [Field(name)] + path);
    }
  }

  lemma ElementPartsAreOk(formats: Formats, value: Json, schema: Json, i: nat)
    requires forall path :: PartOk(formats, value, schema, path)
    requires ExpectsArray(formats, schema) && Get(schema, "items").Some? && value.Arr? && i < |value.items|
    ensures forall path :: PartOk(formats, value.items[i], Get(schema, "items").value, path)
  {
    forall path
      ensures PartOk(formats, value.items[i], Get(schema, "items").value, path)
    {
      ReachThroughElement(formats, value, schema, i, path);
      assert PartOk(formats, value, schema, [Element(i)] + path);
    }
  }

  /**
    A value is accepted exactly when every part reached through `properties` and `items`
    has the type and enumeration asked for, no undeclared field and every required one.
   */
  lemma AcceptsIffAllPartsOk(formats: Formats, value: Json, schema: Json)
    ensures Accepts(formats, value, schema) <==> forall path :: PartOk(formats, value, schema, path)
  {
    if Accepts(formats, value, schema) {
      forall path
        ensures PartOk(formats, value, schema, path)
      {
        AcceptedPartsAreOk(formats, value, schema, path);
      }
    }
    if forall path :: PartOk(formats, value, schema, path) {
      OkPartsAreAccepted(formats, value, schema);
    }
  }

  // ----- the parameters of an action -----

  predicate IsObjectSchema(schema: Json) {
    || (AsStr(Get(schema, "type")).Some? && Lower(AsStr(Get(schema, "type")).value) == "object")
    || (Get(schema, "type").None? && Get(schema, "properties").Some?)
  }

  /** In the shorthand, a parameter is required unless its declaration says otherwise. */
  predicate RequiredByDefault(declaration: Json) {
    var required := AsBool(Get(declaration, "required"));
    required.Some? ==> required.value
  }

  predicate AcceptsDeclared(formats: Formats, parameters: map<string, Json>, declarations: map<string, Json>) {
    && (forall name :: name in parameters ==> name in declarations)
    && (forall name :: name in declarations ==>
          if name in parameters then Accepts(formats, parameters[name], declarations[name])
          else !RequiredByDefault(declarations[name]))
  }

  predicate AcceptsParameters(formats: Formats, schema: Json, parameters: Json) {
    && parameters.Obj?
    && if IsObjectSchema(schema) then
         && Properties(schema).Some?
         && (forall name :: name in parameters.fields ==> name in Properties(schema).value)
         && Accepts(formats, parameters, schema)
       else schema.Obj? && AcceptsDeclared(formats, parameters.fields, schema.fields)
  }

  /** The object schema that a shorthand map stands for. */
  function ObjectSchemaOf(declarations: map<string, Json>, required: seq<Json>): Json {
    Obj(map["type" := Str("object"), "properties" := Obj(declarations), "required" := Arr(required)])
  }

  ghost predicate ListsRequired(declarations: map<string, Json>, required: seq<Json>) {
    && (forall i :: 0 <= i < |required| ==>
          required[i].Str? && required[i].s in declarations && RequiredByDefault(declarations[required[i].s]))
    && (forall name :: name in declarations && RequiredByDefault(declarations[name]) ==> Str(name) in required)
  }

  lemma BuiltFields(declarations: map<string, Json>, required: seq<Json>)
    ensures var schema := ObjectSchemaOf(declarations, required);
            && AsStr(Get(schema, "type")) == Some("object") && Properties(schema) == Some(declarations)
            && Get(schema, "required") == Some(Arr(required)) && Get(schema, "enum").None?
  {
    assert |"type"| == |"enum"| == 4 && |"properties"| == 10 && |"required"| == 8 && "type"[0] != "enum"[0];
  }

  lemma BuiltExpectsObject(formats: Formats, declarations: map<string, Json>, required: seq<Json>)
    requires NamesObjects(formats)
    ensures var schema := ObjectSchemaOf(declarations, required);
            && IsObjectSchema(schema) && ExpectsObject(formats, schema) && !ExpectsArray(formats, schema)
            && ExpectedType(schema) == Some("object")
  {
    BuiltFields(declarations, required);
    assert Lower("object") == "object";
  }

  lemma BuiltRequires(declarations: map<string, Json>, required: seq<Json>, name: string)
    requires ListsRequired(declarations, required)
    ensures name in StringSet(ObjectSchemaOf(declarations, required), "required")
       <==> name in declarations && RequiredByDefault(declarations[name])
  {
    BuiltFields(declarations, required);
    if name in declarations && RequiredByDefault(declarations[name]) {
      assert Str(name) in required;
      var i :| 0 <= i < |required| && required[i] == Str(name);
      assert required[i].s == name;
    }
  }

  lemma BuiltTypeOk(formats: Formats, declarations: map<string, Json>, required: seq<Json>, parameters: Json)
    requires NamesObjects(formats)
    ensures TypeAndEnumOk(formats, parameters, ObjectSchemaOf(declarations, required)) <==> parameters.Obj?
  {
    BuiltFields(declarations, required);
    BuiltExpectsObject(formats, declarations, required);
  }

  lemma BuiltFieldsOk(formats: Formats, declarations: map<string, Json>, required: seq<Json>, parameters: Json)
    requires NamesObjects(formats) && ListsRequired(declarations, required) && parameters.Obj?
    ensures FieldsOk(formats, parameters, ObjectSchemaOf(declarations, required))
       <==> (forall name :: name in parameters.fields ==> name in declarations)
            && (forall name :: name in declarations && RequiredByDefault(declarations[name]) ==> name in parameters.fields)
  {
    BuiltFields(declarations, required);
    BuiltExpectsObject(formats, declarations, required);
    forall name
      ensures name in StringSet(ObjectSchemaOf(declarations, required), "required")
         <==> name in declarations && RequiredByDefault(declarations[name])
    {
      BuiltRequires(declarations, required, name);
    }
  }

  lemma BuiltSchemaAcceptsDeclared(formats: Formats, declarations: map<string, Json>, required: seq<Json>, parameters: Json)
    requires NamesObjects(formats) && ListsRequired(declarations, required) && parameters.Obj?
    ensures Accepts(formats, parameters, ObjectSchemaOf(declarations, required))
       <==> AcceptsDeclared(formats, parameters.fields, declarations)
  {
    BuiltFields(declarations, required);
    BuiltExpectsObject(formats, declarations, required);
    BuiltTypeOk(formats, declarations, required, parameters);
    BuiltFieldsOk(formats, declarations, required, parameters);
  }

  /**
    The shorthand map accepts exactly what the object schema built from it accepts,
    unless the map itself reads as an object schema.
   */
  lemma ShorthandIsObjectSchema(formats: Formats, declarations: map<string, Json>, required: seq<Json>, parameters: Json)
    requires NamesObjects(formats) && ListsRequired(declarations, required) && !IsObjectSchema(Obj(declarations))
    ensures AcceptsParameters(formats, Obj(declarations), parameters)
       <==> AcceptsParameters(formats, ObjectSchemaOf(declarations, required), parameters)
  {
    BuiltFields(declarations, required);
    BuiltExpectsObject(formats, declarations, required);
    if parameters.Obj? {
      BuiltSchemaAcceptsDeclared(formats, declarations, required, parameters);
    }
  }

  /** The type names as they are read name objects. */
  lemma StandardNamesObjects(isUuid: string -> bool, isDate: string -> bool, isTimestamp: string -> bool)
    ensures NamesObjects(Standard(isUuid, isDate, isTimestamp))
  {
    ObjectNamesObjects("object");
  }

  lemma ObjectNamesObjects(t: string)
    requires t == "object"
    ensures KindOf(t) == Some(ObjectKind)
  {
    TrimLeavesTrimmed(t);
    LowerLeavesLower(t);
  }

  // ----- where the closed world ends -----

  /** The map declares a parameter called `type` by the bare text for an object, and none called `properties` as a map. */
  predicate MistakenForSchema(declarations: map<string, Json>) {
    var declared := AsStr(Get(Obj(declarations), "type"));
    declared.Some? && Lower(declared.value) == "object" && Properties(Obj(declarations)).None?
  }

  /**
    Declaring a parameter called `type` as an object by its bare type name, in any case,
    makes the shorthand accept nothing, while the object schema built from the same
    declarations accepts exactly the parameters declared.
   */
  lemma ObjectParameterCalledTypeBreaksShorthand(formats: Formats, declarations: map<string, Json>, required: seq<Json>, parameters: Json)
    requires NamesObjects(formats) && ListsRequired(declarations, required) && MistakenForSchema(declarations)
    ensures !AcceptsParameters(formats, Obj(declarations), parameters)
    ensures AcceptsParameters(formats, ObjectSchemaOf(declarations, required), parameters) <==>
              parameters.Obj? && AcceptsDeclared(formats, parameters.fields, declarations)
  {
    BuiltFields(declarations, required);
    BuiltExpectsObject(formats, declarations, required);
    if parameters.Obj? {
      BuiltSchemaAcceptsDeclared(formats, declarations, required, parameters);
    }
  }

  /** An object is closed exactly when its schema declares properties: without them any object will do. */
  lemma ClosedIffPropertiesDeclared(formats: Formats, schema: Json)
    requires ExpectsObject(formats, schema) && Get(schema, "enum").None?
    ensures Properties(schema).None? ==> forall value: Json :: Accepts(formats, value, schema) <==> value.Obj?
    ensures Properties(schema).Some? ==>
              forall value: Json, name ::
                value.Obj? && name in value.fields && name !in Properties(schema).value ==> !Accepts(formats, value, schema)
  {
  }

  /** Such declarations exist, and the built schema accepts any object at all as their parameter. */
  lemma BrokenShorthandWitness(formats: Formats, value: Json)
    requires NamesObjects(formats) && value.Obj?
    ensures var declarations, parameters := map["type" := Str("object")], map["type" := value];
            && ListsRequired(declarations, [Str("type")]) && MistakenForSchema(declarations)
            && AcceptsDeclared(formats, parameters, declarations)
  {
    assert |"type"| == 4 && |"properties"| == 10 && Lower("object") == "object";
    assert [Str("type")][0] == Str("type");
    ClosedIffPropertiesDeclared(formats, Str("object"));
    assert Accepts(formats, value, Str("object"));
  }
}
