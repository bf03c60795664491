/**
 * The code generator's JSON-schema parser (scripts/v21/json_schema_parser.py):
 * it turns an OCPP message schema into a tree of type descriptors (objects
 * with ordered properties, strings, enums, integers, numbers, booleans,
 * arrays and "any").
 *
 * The parser is modelled as methods (`Parse`, `ParseAsObject`,
 * `ParseProperty`, `ParseType`, `ParseArray` and the helpers they split
 * into) proved against predicates that say which descriptor a schema
 * denotes (`ObjectFor`, `PropertyFor`, `TypeFor`, `ArrayFor`, `ItemFor`).
 * Each method returns a descriptor only when the schema denotes it, and it
 * returns the denoted descriptor whenever one exists that nests objects no
 * deeper than its `fuel`. The uniqueness lemmas show a schema denotes at
 * most one descriptor; other lemmas state what the predicates promise.
 */
module SchemaParser {
  import opened Wrappers
  import opened JsonValues
  import opened PyStr

  /**
   * A type descriptor produced by the parser. The optional bounds hold what
   * `sub_schema.get(...)` returns: `None` for a missing key and for an
   * explicit JSON null alike.
   */
  datatype Descriptor =
    | Object(name: string, properties: seq<(string, Property)>)
    | String(maxLength: Option<Json>)
    | Enum(name: string, variants: Json)
    | Integer(minimum: Option<Json>, maximum: Option<Json>)
    | Number(minimum: Option<Json>, maximum: Option<Json>)
    | Boolean
    | Array(item: Descriptor, minItems: Option<Json>)
    | Any

  /**
   * A property of an object. `default` is `None` when the sub-schema has no
   * "default" key (the source's NOT_SET marker) and `Some(JNull)` for an
   * explicit JSON null.
   */
  datatype Property = Property(typ: Descriptor, required: bool, default: Option<Json>)
  {
    /**
     * `has_default_value`: whether a default was given. An explicit JSON
     * null is a default, unlike a missing key (`NOT_SET`).
     */
    predicate HasDefaultValue(): (b: bool)
      ensures b <==> default != None
      ensures default == Some(JNull) ==> b
    {
      default.Some?
    }
  }

  /** The branch of the if/elif chain of `_parse_as_object` a sub-schema takes. */
  datatype Kind = AnyKind | ObjectKind | StringKind | EnumKind | IntegerKind | BooleanKind | NumberKind | ArrayKind

  // ---------------------------------------------------------------------
  // Sub-schema tests
  // ---------------------------------------------------------------------

  /** `sub_schema["type"]`. */
  function TypeOf(sub: Json): Result<Json> {
    GetItem(sub, "type")
  }

  /** `contains_reference`: whether the sub-schema holds a "$ref" key; fails on anything but an object. */
  function ContainsReference(sub: Json): (r: Result<bool>)
    ensures r.Ok? <==> sub.JObj?
    ensures r == Ok(true) <==> sub.JObj? && "$ref" in Keys(sub.members)
  {
    HasKey(sub, "$ref")
  }

  /** `sub_schema[key]` where a string is needed: fails unless present and a string. */
  function StringAt(sub: Json, key: string): (r: Result<string>)
    ensures r.Ok? <==> GetItem(sub, key).Ok? && GetItem(sub, key).value.JStr?
    ensures r.Ok? ==> GetItem(sub, key) == Ok(JStr(r.value))
  {
    var v :- GetItem(sub, key);
    if v.JStr? then Ok(v.s) else Err
  }

  /** `sub_schema["type"] == t`: fails when there is no "type" key (KeyError). */
  function HasType(sub: Json, t: string): (r: Result<bool>)
    ensures r.Ok? <==> TypeOf(sub).Ok?
    ensures r == Ok(true) <==> TypeOf(sub) == Ok(JStr(t))
  {
    var ty :- TypeOf(sub);
    Ok(ty == JStr(t))
  }

  /** `is_object`: "type" is "object"; fails without "type". */
  function IsObject(sub: Json): (r: Result<bool>)
    ensures r.Ok? <==> TypeOf(sub).Ok?
    ensures r == Ok(true) <==> TypeOf(sub) == Ok(JStr("object"))
  {
    HasType(sub, "object")
  }

  /** `is_string`: type "string" without an "enum" key. */
  function IsString(sub: Json): (r: Result<bool>)
    ensures r.Ok? <==> TypeOf(sub).Ok?
    ensures r == Ok(true) <==> TypeOf(sub) == Ok(JStr("string")) && HasKey(sub, "enum") == Ok(false)
  {
    var isString :- HasType(sub, "string");
    if !isString then Ok(false)
    else
      Ok(!HasKey(sub, "enum").value)
  }

  /** `is_enum`: type "string" with an "enum" key. */
  function IsEnum(sub: Json): (r: Result<bool>)
    ensures r.Ok? <==> TypeOf(sub).Ok?
    ensures r == Ok(true) <==> TypeOf(sub) == Ok(JStr("string")) && HasKey(sub, "enum") == Ok(true)
  {
    var isString :- HasType(sub, "string");
    if !isString then Ok(false)
    else HasKey(sub, "enum")
  }

  /** `is_integer`: "type" is "integer"; fails without "type". */
  function IsInteger(sub: Json): (r: Result<bool>)
    ensures r.Ok? <==> TypeOf(sub).Ok?
    ensures r == Ok(true) <==> TypeOf(sub) == Ok(JStr("integer"))
  {
    HasType(sub, "integer")
  }

  /** `is_boolean`: "type" is "boolean"; fails without "type". */
  function IsBoolean(sub: Json): (r: Result<bool>)
    ensures r.Ok? <==> TypeOf(sub).Ok?
    ensures r == Ok(true) <==> TypeOf(sub) == Ok(JStr("boolean"))
  {
    HasType(sub, "boolean")
  }

  /** `is_number`: "type" is "number"; fails without "type". */
  function IsNumber(sub: Json): (r: Result<bool>)
    ensures r.Ok? <==> TypeOf(sub).Ok?
    ensures r == Ok(true) <==> TypeOf(sub) == Ok(JStr("number"))
  {
    HasType(sub, "number")
  }

  /** `is_array`: "type" is "array"; fails without "type". */
  function IsArray(sub: Json): (r: Result<bool>)
    ensures r.Ok? <==> TypeOf(sub).Ok?
    ensures r == Ok(true) <==> TypeOf(sub) == Ok(JStr("array"))
  {
    HasType(sub, "array")
  }

  /** A string-typed schema is exactly one of a plain string and an enum. */
  lemma StringOrEnum(sub: Json)
    requires TypeOf(sub) == Ok(JStr("string"))
    ensures IsString(sub).Ok? && IsEnum(sub).Ok?
    ensures IsString(sub).value != IsEnum(sub).value
  {
  }

  /** The values of "type" the parser accepts. */
  const SupportedTypes: set<string> := {"object", "string", "integer", "boolean", "number", "array"}

  /** Whether `sub` has a "type" that is one of `SupportedTypes`. */
  predicate HasSupportedType(sub: Json) {
    TypeOf(sub).Ok? && TypeOf(sub).value.JStr? && TypeOf(sub).value.s in SupportedTypes
  }

  /**
   * The branch the chain at lines 28-73 takes for a resolved sub-schema, in
   * the order the source tests them.
   */
  function Classify(sub: Json): (r: Result<Kind>)
    ensures r == Ok(AnyKind) <==> sub == JObj([])
    ensures r == Ok(ObjectKind) <==> sub != JObj([]) && TypeOf(sub) == Ok(JStr("object"))
    ensures r == Ok(StringKind) <==>
              sub != JObj([]) && TypeOf(sub) == Ok(JStr("string")) && HasKey(sub, "enum") == Ok(false)
    ensures r == Ok(EnumKind) <==>
              sub != JObj([]) && TypeOf(sub) == Ok(JStr("string")) && HasKey(sub, "enum") == Ok(true)
    ensures r == Ok(IntegerKind) <==> sub != JObj([]) && TypeOf(sub) == Ok(JStr("integer"))
    ensures r == Ok(BooleanKind) <==> sub != JObj([]) && TypeOf(sub) == Ok(JStr("boolean"))
    ensures r == Ok(NumberKind) <==> sub != JObj([]) && TypeOf(sub) == Ok(JStr("number"))
    ensures r == Ok(ArrayKind) <==> sub != JObj([]) && TypeOf(sub) == Ok(JStr("array"))
    ensures r.Err? <==> sub != JObj([]) && !HasSupportedType(sub)
  {
    if sub == JObj([]) then Ok(AnyKind)
    else
      var isObject :- IsObject(sub);
      if isObject then Ok(ObjectKind)
      else
        // the "type" key exists from here on, so the remaining tests cannot fail
        if IsString(sub).value then Ok(StringKind)
        else if IsEnum(sub).value then Ok(EnumKind)
        else if IsInteger(sub).value then Ok(IntegerKind)
        else if IsBoolean(sub).value then Ok(BooleanKind)
        else if IsNumber(sub).value then Ok(NumberKind)
        else if IsArray(sub).value then Ok(ArrayKind)
        else Err
  }

  // ---------------------------------------------------------------------
  // Leaf descriptors
  // ---------------------------------------------------------------------

  /** `String.from_sub_schema`: refuses a schema whose "type" is not "string". */
  function StringFromSubSchema(sub: Json): (r: Result<Descriptor>)
    ensures r.Ok? <==> Get(sub, "type") == Ok(Some(JStr("string")))
    ensures r.Ok? ==> r.value.String? && GetValue(sub, "maxLength") == Ok(r.value.maxLength)
  {
    var ty :- Get(sub, "type");
    if ty != Some(JStr("string")) then Err
    else
      Ok(String(GetValue(sub, "maxLength").value))
  }

  /** `Integer.from_sub_schema`: refuses a schema whose "type" is not "integer". */
  function IntegerFromSubSchema(sub: Json): (r: Result<Descriptor>)
    ensures r.Ok? <==> Get(sub, "type") == Ok(Some(JStr("integer")))
    ensures r.Ok? ==> r.value.Integer? && GetValue(sub, "minimum") == Ok(r.value.minimum)
                      && GetValue(sub, "maximum") == Ok(r.value.maximum)
  {
    var ty :- Get(sub, "type");
    if ty != Some(JStr("integer")) then Err
    else
      Ok(Integer(GetValue(sub, "minimum").value, GetValue(sub, "maximum").value))
  }

  /** `Number.from_sub_schema`: refuses a schema whose "type" is not "number". */
  function NumberFromSubSchema(sub: Json): (r: Result<Descriptor>)
    ensures r.Ok? <==> Get(sub, "type") == Ok(Some(JStr("number")))
    ensures r.Ok? ==> r.value.Number? && GetValue(sub, "minimum") == Ok(r.value.minimum)
                      && GetValue(sub, "maximum") == Ok(r.value.maximum)
  {
    var ty :- Get(sub, "type");
    if ty != Some(JStr("number")) then Err
    else
      Ok(Number(GetValue(sub, "minimum").value, GetValue(sub, "maximum").value))
  }

  /**
   * `Enum.from_sub_schema`: the name is "javaType" without its last four
   * characters (the "Enum" suffix), the variants are "enum" as given.
   */
  function EnumFromSubSchema(sub: Json): (r: Result<Descriptor>)
    ensures r.Ok? <==> StringAt(sub, "javaType").Ok? && GetItem(sub, "enum").Ok?
    ensures r.Ok? ==> r.value.Enum? && GetItem(sub, "enum") == Ok(r.value.variants)
    ensures r.Ok? ==>
              var javaType := StringAt(sub, "javaType").value;
              && (|javaType| >= 4 ==> r.value.name + javaType[|javaType| - 4..] == javaType)
              && (|javaType| < 4 ==> r.value.name == "")
  {
    var javaType :- StringAt(sub, "javaType");
    var variants :- GetItem(sub, "enum");
    Ok(Enum(DropLast(javaType, 4), variants))
  }

  // ---------------------------------------------------------------------
  // Names
  // ---------------------------------------------------------------------

  /** `s` starts with one of `words`. */
  predicate StartsWithOneOf(s: string, words: seq<string>) {
    exists w :: w in words && w <= s
  }

  /**
   * How many leading characters `pascal_to_camel_case` upper-cases: a whole
   * leading abbreviation (EVSE, OCSP, then AC, DC, EV, then V2X, VPN, APN),
   * otherwise the first character.
   */
  function CapitalizedPrefix(s: string): (k: nat)
    ensures k <= |s|
  {
    if StartsWithOneOf(s, ["evse", "ocsp"]) then 4
    else if StartsWithOneOf(s, ["ac", "dc", "ev"]) then 2
    else if StartsWithOneOf(s, ["v2x", "vpn", "apn"]) then 3
    else if |s| == 0 then 0
    else 1
  }

  /**
   * `pascal_to_camel_case`: upper-cases exactly the `CapitalizedPrefix` and
   * keeps the rest; the longer abbreviation EVSE wins over EV because it is
   * tested first.
   */
  function PascalToCamelCase(input: string): (r: string)
    ensures |r| == |input|
    ensures var k := CapitalizedPrefix(input);
      r == Upper(input[..k]) + input[k..]
  {
    PrefixOfOneOf(input, ["evse", "ocsp"], 4);
    PrefixOfOneOf(input, ["ac", "dc", "ev"], 2);
    PrefixOfOneOf(input, ["v2x", "vpn", "apn"], 3);
    if |input| < 2 then
      Upper(input)
    else if Take(input, 4) in ["evse", "ocsp"] then
      Upper(Take(input, 4)) + Drop(input, 4)
    else if Take(input, 2) in ["ac", "dc", "ev"] then
      Upper(Take(input, 2)) + Drop(input, 2)
    else if Take(input, 3) in ["v2x", "vpn", "apn"] then
      Upper(Take(input, 3)) + Drop(input, 3)
    else
      Upper(Take(input, 1)) + Drop(input, 1)
  }

  /** For words of one length `n`, starting with one of them is the same as the first `n` characters being one. */
  lemma PrefixOfOneOf(s: string, words: seq<string>, n: nat)
    requires forall i :: 0 <= i < |words| ==> |words[i]| == n
    ensures StartsWithOneOf(s, words) <==> Take(s, n) in words
  {
    if StartsWithOneOf(s, words) {
      var w :| w in words && w <= s;
      assert Take(s, n) == w;
    }
  }

  /**
   * Converting twice changes nothing more: lines 32 and 82 both apply the
   * conversion to a nested object's "javaType".
   */
  lemma {:induction false} PascalToCamelCaseIdempotent(s: string)
    ensures PascalToCamelCase(PascalToCamelCase(s)) == PascalToCamelCase(s)
  {
    var r := PascalToCamelCase(s);
    if |s| > 0 {
      var k := CapitalizedPrefix(s);
      assert r[0] == Upper(s[..k])[0] == UpperChar(s[0]);
      UpperCharProperties(s[0]);
      UpperCharProperties(r[0]);
      NoAbbreviationAfterCapital(r);
      assert Upper(r[..1]) == r[..1];
      assert r[..1] + r[1..] == r;
    }
  }

  /** Every abbreviation starts with a lower-case letter, so none begins a string that starts with a capital. */
  lemma NoAbbreviationAfterCapital(r: string)
    requires |r| > 0 && !IsLower(r[0])
    ensures CapitalizedPrefix(r) == 1
  {
    forall w | w in ["evse", "ocsp", "ac", "dc", "ev", "v2x", "vpn", "apn"]
      ensures !(w <= r)
    {
      assert IsLower(w[0]);
    }
  }

  /**
   * The element name lines 46-50 derive from an array's "items.$ref": the
   * last "/"-separated segment, minus a trailing "Enum", then minus a
   * trailing "Type".
   */
  function ItemName(reference: string): (r: string)
    ensures '/' !in r
    ensures var segment := Last(Split(reference, '/'));
      segment == r + StrippedSuffix(segment)
  {
    var segment := Last(Split(reference, '/'));
    var name := if EndsWith(segment, "Enum") then DropLast(segment, 4) else segment;
    var r := if EndsWith(name, "Type") then DropLast(name, 4) else name;
    StrippedSuffixOf(segment, r);
    r
  }

  /**
   * The suffix lines 47-50 remove from a segment: "Enum" if it ends so, and
   * then "Type" if what is left ends so; a "Type" before the end of
   * "EnumType" is kept.
   */
  function StrippedSuffix(segment: string): string {
    if EndsWith(segment, "TypeEnum") then "TypeEnum"
    else if EndsWith(segment, "Enum") then "Enum"
    else if EndsWith(segment, "Type") then "Type"
    else ""
  }

  lemma StrippedSuffixOf(segment: string, r: string)
    requires var name := if EndsWith(segment, "Enum") then DropLast(segment, 4) else segment;
      r == if EndsWith(name, "Type") then DropLast(name, 4) else name
    ensures segment == r + StrippedSuffix(segment)
  {
    EndsWithBoth(segment, "Type", "Enum");
    assert "Type" + "Enum" == "TypeEnum";
    if EndsWith(segment, "Enum") {
      var name := DropLast(segment, 4);
      assert segment == name + "Enum";
      if EndsWith(name, "Type") {
        assert name == r + "Type";
        assert segment == r + ("Type" + "Enum");
      }
    } else if EndsWith(segment, "Type") {
      assert segment == r + "Type";
    } else {
      assert segment == r + "";
    }
  }

  /** `s` ends with `a + b` exactly when it ends with `b` and what precedes that ends with `a`. */
  lemma EndsWithBoth(s: string, a: string, b: string)
    ensures EndsWith(s, a + b) <==> EndsWith(s, b) && EndsWith(DropLast(s, |b|), a)
  {
    if EndsWith(s, b) && EndsWith(DropLast(s, |b|), a) {
      var head := DropLast(s, |b|);
      assert s == head + b;
      assert s[|s| - |a + b|..] == head[|head| - |a|..] + b;
    }
    if EndsWith(s, a + b) {
      assert s[|s| - |b|..] == (a + b)[|a|..];
      assert DropLast(s, |b|)[|s| - |b| - |a|..] == (a + b)[..|a|];
    }
  }

  /** The usual OCPP case: a reference to definition `<base>Type` names the element `<base>`. */
  lemma {:induction false} ItemNameOfDefinition(base: string)
    requires '/' !in base
    requires !EndsWith(base, "Type")
    ensures ItemName("#/definitions/" + base + "Type") == base
  {
    var segment := base + "Type";
    assert "#/definitions/" + base + "Type" == "#/definitions/" + segment;
    assert '/' !in segment by {
      forall i | 0 <= i < |segment| ensures segment[i] != '/' {
        if i < |base| {
          assert segment[i] == base[i];
        }
      }
    }
    SplitDefinition(segment);
    assert !EndsWith(segment, "Enum") by {
      assert segment[|segment| - 4..] == "Type";
    }
    assert segment[..|segment| - 4] == base;
  }

  /** A definition reference splits into "#", "definitions" and the definition's name. */
  lemma SplitDefinition(segment: string)
    requires '/' !in segment
    ensures Split("#/definitions/" + segment, '/') == ["#", "definitions", segment]
  {
    var parts := ["#", "definitions", segment];
    assert Join(parts, '/') == "#/definitions/" + segment by {
      assert Join(parts[2..], '/') == segment;
      assert Join(parts[1..], '/') == "definitions" + ['/'] + segment;
    }
    SplitJoin(parts, '/');
  }

  // ---------------------------------------------------------------------
  // References
  // ---------------------------------------------------------------------

  /** `s[k1][k2]...[kn]`, looked up from the left. */
  function LookupPath(j: Json, keys: seq<string>): Result<Json>
    decreases |keys|
  {
    if |keys| == 0 then Ok(j)
    else
      var next :- GetItem(j, keys[0]);
      LookupPath(next, keys[1..])
  }

  /** What `resolve_reference` returns for `reference`. */
  function Resolve(reference: string, schema: Json): Result<Json> {
    var elements := Split(reference, '/');
    if elements[0] != "#" then Err else LookupPath(schema, elements[1..])
  }

  /**
   * `resolve_reference`: a reference must start with "#"; each further
   * "/"-separated element selects a member, starting from the whole schema.
   */
  method ResolveReference(reference: string, schema: Json) returns (r: Result<Json>)
    ensures Split(reference, '/')[0] != "#" ==> r.Err?
    ensures Split(reference, '/')[0] == "#" ==> r == LookupPath(schema, Split(reference, '/')[1..])
  {
    var elements := Split(reference, '/');
    if elements[0] != "#" {
      return Err;
    }
    var sub := schema;
    for i := 1 to |elements|
      invariant LookupPath(schema, elements[1..]) == LookupPath(sub, elements[i..])
    {
      assert elements[i..][1..] == elements[i + 1..];
      var next := GetItem(sub, elements[i]);
      if next.Err? {
        return Err;
      }
      sub := next.value;
    }
    return Ok(sub);
  }

  /** A reference "#/k1/.../kn" resolves to the schema's member at k1, ..., kn. */
  lemma ResolveJoinedPath(keys: seq<string>, schema: Json)
    requires forall i :: 0 <= i < |keys| ==> '/' !in keys[i]
    ensures Resolve(Join(["#"] + keys, '/'), schema) == LookupPath(schema, keys)
  {
    var parts := ["#"] + keys;
    assert parts[1..] == keys;
    SplitJoin(parts, '/');
  }

  /** The reference "#" alone names the whole schema. */
  lemma ResolveRoot(schema: Json)
    ensures Resolve("#", schema) == Ok(schema)
  {
    ResolveJoinedPath([], schema);
  }

  // ---------------------------------------------------------------------
  // What a schema denotes
  // ---------------------------------------------------------------------

  /** `parent.get("properties", {}).items()`: fails unless both are objects. */
  function PropertiesOf(parent: Json): (r: Result<seq<(string, Json)>>)
    ensures r.Ok? <==> parent.JObj? && (GetItem(parent, "properties").Err? || GetItem(parent, "properties").value.JObj?)
    ensures r.Ok? && GetItem(parent, "properties").Ok? ==> GetItem(parent, "properties") == Ok(JObj(r.value))
    ensures parent.JObj? && GetItem(parent, "properties").Err? ==> r == Ok([])
  {
    var properties :- Get(parent, "properties");
    match properties
    case None => Ok([])
    case Some(JObj(members)) => Ok(members)
    case Some(_) => Err
  }

  /**
   * `attribute in parent.get("required", [])`: list membership for the
   * usual list; Python's `in` also accepts an object (key test) or a string
   * (substring test), and fails on anything else.
   */
  function Required(parent: Json, attribute: string): (r: Result<bool>)
    ensures r.Ok? ==> parent.JObj?
    ensures parent.JObj? && GetItem(parent, "required").Err? ==> r == Ok(false)
    ensures GetItem(parent, "required").Ok? ==>
              var required := GetItem(parent, "required").value;
              && (required.JArr? ==> r == Ok(JStr(attribute) in required.items))
              && (required.JObj? ==> r == Ok(attribute in Keys(required.members)))
              && (required.JStr? ==> r == Ok(exists i :: OccursAt(attribute, required.s, i)))
              && (!(required.JArr? || required.JObj? || required.JStr?) ==> r.Err?)
  {
    var required :- Get(parent, "required");
    match required
    case None => Ok(false)
    case Some(JArr(items)) => Ok(JStr(attribute) in items)
    case Some(JObj(members)) => Ok(attribute in Keys(members))
    case Some(JStr(s)) =>
      IsSubstringAt(attribute, s);
      Ok(IsSubstring(attribute, s))
    case Some(_) => Err
  }

  /** Lines 25-26: a sub-schema holding "$ref" stands for what the reference names. */
  function Resolved(sub: Json, schema: Json): Result<Json> {
    var isReference :- ContainsReference(sub);
    if isReference then
      var reference :- StringAt(sub, "$ref");
      Resolve(reference, schema)
    else
      Ok(sub)
  }

  /**
   * The schema line 79 reads "default" from, and line 69 reads "minItems"
   * from: line 52 rebinds `sub_schema` to the resolved item schema when an
   * array's items are a "$ref"; otherwise it is the resolved sub-schema.
   */
  function Consulted(sub: Json, schema: Json): Result<Json> {
    if Classify(sub) == Ok(ArrayKind) then
      var items :- GetItem(sub, "items");
      var isReference :- ContainsReference(items);
      if isReference then
        var reference :- StringAt(items, "$ref");
        Resolve(reference, schema)
      else
        Ok(sub)
    else
      Ok(sub)
  }

  /** `d` is what `_parse_as_object(name, parent, schema)` returns. */
  predicate ObjectFor(d: Descriptor, name: string, parent: Json, schema: Json)
    decreases d, 0
  {
    && d.Object?
    && d.name == PascalToCamelCase(name)
    && PropertiesOf(parent).Ok?
    && var members := PropertiesOf(parent).value;
    && |d.properties| == |members|
    && forall i :: 0 <= i < |members| ==>
         && d.properties[i].0 == members[i].0
         && PropertyFor(d.properties[i].1, members[i].0, members[i].1, parent, schema)
  }

  /** `p` is the property lines 25-80 build for `attribute`, whose sub-schema is `sub`. */
  predicate PropertyFor(p: Property, attribute: string, sub: Json, parent: Json, schema: Json)
    decreases p, 4
  {
    && Resolved(sub, schema).Ok?
    && var resolved := Resolved(sub, schema).value;
    && TypeFor(p.typ, resolved, schema)
    && Required(parent, attribute) == Ok(p.required)
    && Consulted(resolved, schema).Ok?
    && Get(Consulted(resolved, schema).value, "default") == Ok(p.default)
  }

  /** `t` is the type lines 28-73 choose for the resolved sub-schema `sub`. */
  predicate TypeFor(t: Descriptor, sub: Json, schema: Json)
    decreases t, 3
  {
    match Classify(sub)
    case Ok(AnyKind) => t == Any
    case Ok(ObjectKind) =>
      && StringAt(sub, "javaType").Ok?
      && ObjectFor(t, PascalToCamelCase(StringAt(sub, "javaType").value), sub, schema)
    case Ok(StringKind) => StringFromSubSchema(sub) == Ok(t)
    case Ok(EnumKind) => EnumFromSubSchema(sub) == Ok(t)
    case Ok(IntegerKind) => IntegerFromSubSchema(sub) == Ok(t)
    case Ok(BooleanKind) => t == Boolean
    case Ok(NumberKind) => NumberFromSubSchema(sub) == Ok(t)
    case Ok(ArrayKind) => ArrayFor(t, sub, schema)
    case Err => false
  }

  /**
   * `t` is the array type lines 44-70 build for the array schema `sub`: the
   * item its "items" denote, and "minItems" read from the consulted schema.
   */
  predicate ArrayFor(t: Descriptor, sub: Json, schema: Json)
    decreases t, 2
  {
    && t.Array?
    && GetItem(sub, "items").Ok?
    && ItemFor(t.item, GetItem(sub, "items").value, schema)
    && Consulted(sub, schema).Ok?
    && GetValue(Consulted(sub, schema).value, "minItems") == Ok(t.minItems)
  }

  /**
   * `item` is the element type lines 45-66 choose for an array's "items":
   * through a "$ref" an object (named by `ItemName`) or an enum, otherwise a
   * string or an integer.
   */
  predicate ItemFor(item: Descriptor, items: Json, schema: Json)
    decreases item, 1
  {
    && ContainsReference(items).Ok?
    && if ContainsReference(items).value then
         && StringAt(items, "$ref").Ok?
         && var reference := StringAt(items, "$ref").value;
         && Resolve(reference, schema).Ok?
         && var target := Resolve(reference, schema).value;
         && IsObject(target).Ok?
         && (if IsObject(target).value then ObjectFor(item, ItemName(reference), target, schema)
             else IsEnum(target) == Ok(true) && EnumFromSubSchema(target) == Ok(item))
       else
         && IsString(items).Ok?
         && (if IsString(items).value then StringFromSubSchema(items) == Ok(item)
             else IsInteger(items) == Ok(true) && IntegerFromSubSchema(items) == Ok(item))
  }

  // ---------------------------------------------------------------------
  // What a parsed object promises
  // ---------------------------------------------------------------------

  /** The shape of a type follows the branch its sub-schema takes; `Any` only for `{}`. */
  lemma TypeForShape(t: Descriptor, sub: Json, schema: Json)
    requires TypeFor(t, sub, schema)
    ensures Classify(sub).Ok?
    ensures t == Any <==> sub == JObj([])
    ensures sub == JObj([]) || HasSupportedType(sub)
    ensures Classify(sub) == Ok(ObjectKind) ==> t.Object?
    ensures Classify(sub) == Ok(StringKind) ==> t.String?
    ensures Classify(sub) == Ok(EnumKind) ==> t.Enum?
    ensures Classify(sub) == Ok(IntegerKind) ==> t.Integer?
    ensures Classify(sub) == Ok(BooleanKind) ==> t.Boolean?
    ensures Classify(sub) == Ok(NumberKind) ==> t.Number?
    ensures Classify(sub) == Ok(ArrayKind) ==> t.Array?
  {
    TypeForKind(t, sub, schema);
  }

  /** The descriptor constructor each branch produces. */
  lemma TypeForKind(t: Descriptor, sub: Json, schema: Json)
    requires TypeFor(t, sub, schema)
    ensures Classify(sub).Ok?
    ensures Classify(sub) == Ok(AnyKind) <==> t.Any?
    ensures Classify(sub) == Ok(ObjectKind) ==> t.Object?
    ensures Classify(sub) == Ok(StringKind) ==> t.String?
    ensures Classify(sub) == Ok(EnumKind) ==> t.Enum?
    ensures Classify(sub) == Ok(IntegerKind) ==> t.Integer?
    ensures Classify(sub) == Ok(BooleanKind) ==> t.Boolean?
    ensures Classify(sub) == Ok(NumberKind) ==> t.Number?
    ensures Classify(sub) == Ok(ArrayKind) ==> t.Array?
  {
  }

  /**
   * A parsed object is named after the converted `name`; its properties are
   * the members of "properties" in order; each is required exactly when the
   * parent lists it under "required", has a default exactly when the
   * consulted schema has a "default" key, is `Any` exactly when its resolved
   * sub-schema is `{}`, and otherwise its resolved sub-schema has a supported
   * "type".
   */
  lemma ObjectForFacts(d: Descriptor, name: string, parent: Json, schema: Json)
    requires ObjectFor(d, name, parent, schema)
    ensures d.Object? && d.name == PascalToCamelCase(name)
    ensures Keys(d.properties) == Keys(PropertiesOf(parent).value)
    ensures forall i :: 0 <= i < |d.properties| ==>
              && (d.properties[i].1.required <==> Required(parent, d.properties[i].0) == Ok(true))
              && Resolved(PropertiesOf(parent).value[i].1, schema).Ok?
              && var resolved := Resolved(PropertiesOf(parent).value[i].1, schema).value;
              && Consulted(resolved, schema).Ok?
              && (d.properties[i].1.HasDefaultValue() <==>
                    HasKey(Consulted(resolved, schema).value, "default") == Ok(true))
              && (d.properties[i].1.typ == Any <==> resolved == JObj([]))
              && (resolved == JObj([]) || HasSupportedType(resolved))
  {
    var members := PropertiesOf(parent).value;
    forall i | 0 <= i < |d.properties|
      ensures && (d.properties[i].1.required <==> Required(parent, d.properties[i].0) == Ok(true))
              && Resolved(members[i].1, schema).Ok?
              && var resolved := Resolved(members[i].1, schema).value;
              && Consulted(resolved, schema).Ok?
              && (d.properties[i].1.HasDefaultValue() <==>
                    HasKey(Consulted(resolved, schema).value, "default") == Ok(true))
              && (d.properties[i].1.typ == Any <==> resolved == JObj([]))
              && (resolved == JObj([]) || HasSupportedType(resolved))
    {
      var p := d.properties[i].1;
      assert PropertyFor(p, members[i].0, members[i].1, parent, schema);
      var resolved := Resolved(members[i].1, schema).value;
      TypeForShape(p.typ, resolved, schema);
    }
  }

  /**
   * A nested object is named after its "javaType" converted once: the second
   * conversion (line 82 after line 32) changes nothing.
   */
  lemma NestedObjectName(t: Descriptor, sub: Json, schema: Json)
    requires TypeFor(t, sub, schema)
    requires Classify(sub) == Ok(ObjectKind)
    ensures StringAt(sub, "javaType").Ok?
    ensures t.Object? && t.name == PascalToCamelCase(StringAt(sub, "javaType").value)
  {
    PascalToCamelCaseIdempotent(StringAt(sub, "javaType").value);
  }

  /** A schema denotes at most one object: the parse result is determined by its input. */
  lemma {:induction false} ObjectForUnique(d1: Descriptor, d2: Descriptor, name: string, parent: Json, schema: Json)
    requires ObjectFor(d1, name, parent, schema)
    requires ObjectFor(d2, name, parent, schema)
    ensures d1 == d2
    decreases d1, 0
  {
    var members := PropertiesOf(parent).value;
    forall i | 0 <= i < |members|
      ensures d1.properties[i] == d2.properties[i]
    {
      PropertyForUnique(d1.properties[i].1, d2.properties[i].1, members[i].0, members[i].1, parent, schema);
    }
  }

  lemma {:induction false} PropertyForUnique(p1: Property, p2: Property, attribute: string, sub: Json, parent: Json, schema: Json)
    requires PropertyFor(p1, attribute, sub, parent, schema)
    requires PropertyFor(p2, attribute, sub, parent, schema)
    ensures p1 == p2
    decreases p1, 4
  {
    TypeForUnique(p1.typ, p2.typ, Resolved(sub, schema).value, schema);
  }

  lemma {:induction false} TypeForUnique(t1: Descriptor, t2: Descriptor, sub: Json, schema: Json)
    requires TypeFor(t1, sub, schema)
    requires TypeFor(t2, sub, schema)
    ensures t1 == t2
    decreases t1, 3
  {
    match Classify(sub)
    case Ok(ObjectKind) =>
      ObjectForUnique(t1, t2, PascalToCamelCase(StringAt(sub, "javaType").value), sub, schema);
    case Ok(ArrayKind) =>
      ArrayForUnique(t1, t2, sub, schema);
    case _ =>
  }

  lemma {:induction false} ArrayForUnique(t1: Descriptor, t2: Descriptor, sub: Json, schema: Json)
    requires ArrayFor(t1, sub, schema)
    requires ArrayFor(t2, sub, schema)
    ensures t1 == t2
    decreases t1, 2
  {
    ItemForUnique(t1.item, t2.item, GetItem(sub, "items").value, schema);
  }

  lemma {:induction false} ItemForUnique(i1: Descriptor, i2: Descriptor, items: Json, schema: Json)
    requires ItemFor(i1, items, schema)
    requires ItemFor(i2, items, schema)
    ensures i1 == i2
    decreases i1, 1
  {
    if ContainsReference(items).value {
      var reference := StringAt(items, "$ref").value;
      var target := Resolve(reference, schema).value;
      if IsObject(target).value {
        ObjectForUnique(i1, i2, ItemName(reference), target, schema);
      }
    }
  }

  // ---------------------------------------------------------------------
  // Nesting depth
  // ---------------------------------------------------------------------

  /**
   * `d` nests objects at most `n` deep: an object takes one level more than
   * its properties' types, an array as many as its item, anything else none.
   */
  predicate DepthAtMost(d: Descriptor, n: nat) {
    match d
    case Object(_, properties) =>
      n > 0 && forall i :: 0 <= i < |properties| ==> DepthAtMost(properties[i].1.typ, n - 1)
    case Array(item, _) => DepthAtMost(item, n)
    case _ => true
  }

  /** How deeply `d` nests objects. */
  function Depth(d: Descriptor): nat
    decreases d, 1, 0
  {
    match d
    case Object(_, _) => 1 + DepthFrom(d, 0)
    case Array(item, _) => Depth(item)
    case _ => 0
  }

  /** The deepest nesting among the object's properties from the `i`th on. */
  function DepthFrom(d: Descriptor, i: nat): nat
    requires d.Object?
    decreases d, 0, |d.properties| - i
  {
    if i >= |d.properties| then 0
    else
      var first := Depth(d.properties[i].1.typ);
      var rest := DepthFrom(d, i + 1);
      if first < rest then rest else first
  }

  /** A bound that holds keeps holding for more levels. */
  lemma {:induction false} DepthAtMostMonotone(d: Descriptor, n: nat, m: nat)
    requires DepthAtMost(d, n) && n <= m
    ensures DepthAtMost(d, m)
  {
    match d
    case Object(_, properties) =>
      forall i | 0 <= i < |properties| ensures DepthAtMost(properties[i].1.typ, m - 1) {
        DepthAtMostMonotone(properties[i].1.typ, n - 1, m - 1);
      }
    case Array(item, _) => DepthAtMostMonotone(item, n, m);
    case _ =>
  }

  /** Every descriptor has a depth, so some fuel always suffices for it. */
  lemma {:induction false} DepthSuffices(d: Descriptor)
    ensures DepthAtMost(d, Depth(d))
    decreases d
  {
    match d
    case Object(_, properties) =>
      forall i | 0 <= i < |properties| ensures DepthAtMost(properties[i].1.typ, Depth(d) - 1) {
        DepthFromBound(d, 0, i);
        DepthSuffices(properties[i].1.typ);
        DepthAtMostMonotone(properties[i].1.typ, Depth(properties[i].1.typ), Depth(d) - 1);
      }
    case Array(item, _) => DepthSuffices(item);
    case _ =>
  }

  lemma {:induction false} DepthFromBound(d: Descriptor, i: nat, j: nat)
    requires d.Object? && i <= j < |d.properties|
    ensures Depth(d.properties[j].1.typ) <= DepthFrom(d, i)
    decreases j - i
  {
    if i < j {
      DepthFromBound(d, i + 1, j);
    }
  }

  // ---------------------------------------------------------------------
  // The parser
  // ---------------------------------------------------------------------

  /**
   * `parse`: the whole schema as an object named after `name`. `fuel` bounds
   * the nesting depth of objects: the parse succeeds exactly when the schema
   * denotes an object nested at most `fuel` deep, and returns that object.
   */
  method Parse(fuel: nat, name: string, schema: Json) returns (r: Result<Descriptor>)
    ensures r.Ok? ==> ObjectFor(r.value, name, schema, schema)
    ensures forall d :: ObjectFor(d, name, schema, schema) && DepthAtMost(d, fuel) ==> r == Ok(d)
    ensures fuel > 0 && PropertiesOf(schema) == Ok([]) ==> r == Ok(Object(PascalToCamelCase(name), []))
  {
    r := ParseAsObject(fuel, name, schema, schema);
  }

  /** `_parse_as_object`: one property per member of "properties", in order. */
  method ParseAsObject(fuel: nat, name: string, parent: Json, schema: Json) returns (r: Result<Descriptor>)
    ensures r.Ok? ==> ObjectFor(r.value, name, parent, schema)
    ensures forall d :: ObjectFor(d, name, parent, schema) && DepthAtMost(d, fuel) ==> r == Ok(d)
    ensures fuel > 0 && PropertiesOf(parent) == Ok([]) ==> r == Ok(Object(PascalToCamelCase(name), []))
    decreases fuel, 0
  {
    if fuel == 0 {
      return Err;
    }
    var members :- PropertiesOf(parent);
    var properties: seq<(string, Property)> := [];
    for i := 0 to |members|
      invariant |properties| == i
      invariant PropertiesFor(properties, members, parent, schema)
    {
      var (attribute, sub) := members[i];
      var property := ParseProperty(fuel - 1, attribute, sub, parent, schema);
      if property.Err? {
        NoObjectWithoutProperty(i, name, parent, schema, fuel);
        return Err;
      }
      PropertiesForExtend(properties, property.value, members, parent, schema);
      properties := properties + [(attribute, property.value)];
    }
    var parsed := Object(PascalToCamelCase(name), properties);
    ObjectForIntro(properties, name, parent, schema);
    forall d | ObjectFor(d, name, parent, schema) ensures d == parsed {
      ObjectForUnique(d, parsed, name, parent, schema);
    }
    return Ok(parsed);
  }

  /**
   * An object within `fuel` levels has, for member `i`, a property within
   * one level less: when that member has none, `parent` denotes no object
   * within `fuel`.
   */
  lemma NoObjectWithoutProperty(i: nat, name: string, parent: Json, schema: Json, fuel: nat)
    requires PropertiesOf(parent).Ok? && i < |PropertiesOf(parent).value| && fuel > 0
    requires var member := PropertiesOf(parent).value[i];
      forall p :: !(PropertyFor(p, member.0, member.1, parent, schema) && DepthAtMost(p.typ, fuel - 1))
    ensures forall d :: !(ObjectFor(d, name, parent, schema) && DepthAtMost(d, fuel))
  {
    var member := PropertiesOf(parent).value[i];
    forall d | ObjectFor(d, name, parent, schema) ensures !DepthAtMost(d, fuel) {
      assert !(PropertyFor(d.properties[i].1, member.0, member.1, parent, schema)
               && DepthAtMost(d.properties[i].1.typ, fuel - 1));
    }
  }

  /** The members of `parent` denote `properties` in order, as far as `properties` reaches. */
  predicate PropertiesFor(properties: seq<(string, Property)>, members: seq<(string, Json)>, parent: Json, schema: Json) {
    && |properties| <= |members|
    && forall k :: 0 <= k < |properties| ==>
         && properties[k].0 == members[k].0
         && PropertyFor(properties[k].1, members[k].0, members[k].1, parent, schema)
  }

  /** One more iteration of the loop in `_parse_as_object`. */
  lemma PropertiesForExtend(properties: seq<(string, Property)>, p: Property, members: seq<(string, Json)>, parent: Json, schema: Json)
    requires PropertiesFor(properties, members, parent, schema)
    requires |properties| < |members|
    requires PropertyFor(p, members[|properties|].0, members[|properties|].1, parent, schema)
    ensures PropertiesFor(properties + [(members[|properties|].0, p)], members, parent, schema)
  {
  }

  /** An object whose properties are, in order, the properties its parent's members denote. */
  lemma ObjectForIntro(properties: seq<(string, Property)>, name: string, parent: Json, schema: Json)
    requires PropertiesOf(parent).Ok?
    requires |properties| == |PropertiesOf(parent).value|
    requires PropertiesFor(properties, PropertiesOf(parent).value, parent, schema)
    ensures ObjectFor(Object(PascalToCamelCase(name), properties), name, parent, schema)
  {
  }

  /** The body of the loop in `_parse_as_object`: the property for one member. */
  method ParseProperty(fuel: nat, attribute: string, sub: Json, parent: Json, schema: Json)
    returns (r: Result<Property>)
    ensures r.Ok? ==> PropertyFor(r.value, attribute, sub, parent, schema)
    ensures forall p :: PropertyFor(p, attribute, sub, parent, schema) && DepthAtMost(p.typ, fuel) ==> r == Ok(p)
    decreases fuel, 5
  {
    var resolved :- ResolveSubSchema(sub, schema);
    var typed :- ParseType(fuel, resolved, schema);
    var (typ, consulted) := typed;
    var required :- Required(parent, attribute);
    var default :- Get(consulted, "default");
    var property := Property(typ, required, default);
    forall p | PropertyFor(p, attribute, sub, parent, schema) ensures p == property {
      PropertyForUnique(p, property, attribute, sub, parent, schema);
    }
    return Ok(property);
  }

  /** Lines 25-26: a sub-schema holding "$ref" is replaced by what the reference names. */
  method ResolveSubSchema(sub: Json, schema: Json) returns (r: Result<Json>)
    ensures r == Resolved(sub, schema)
  {
    var isReference :- ContainsReference(sub);
    if !isReference {
      return Ok(sub);
    }
    var reference :- StringAt(sub, "$ref");
    r := ResolveReference(reference, schema);
  }

  /**
   * The if/elif chain at lines 28-73: the type of a resolved sub-schema,
   * and the schema that "default" is then read from.
   */
  method ParseType(fuel: nat, resolved: Json, schema: Json) returns (r: Result<(Descriptor, Json)>)
    ensures r.Ok? ==> TypeFor(r.value.0, resolved, schema) && Consulted(resolved, schema) == Ok(r.value.1)
    ensures forall t :: TypeFor(t, resolved, schema) && DepthAtMost(t, fuel) ==> r.Ok? && r.value.0 == t
    decreases fuel, 4
  {
    var kind :- Classify(resolved);
    if kind == ObjectKind {
      var parsed :- ParseNestedObject(fuel, resolved, schema);
      return Ok((parsed, resolved));
    } else if kind == ArrayKind {
      r := ParseArray(fuel, resolved, schema);
    } else {
      LeafTypeFor(resolved, schema);
      var leaf := LeafType(kind, resolved);
      r := if leaf.Ok? then Ok((leaf.value, resolved)) else Err;
    }
  }

  /** The branches of lines 28-43 that build a type without recursion. */
  function LeafType(kind: Kind, sub: Json): Result<Descriptor> {
    match kind
    case AnyKind => Ok(Any)
    case StringKind => StringFromSubSchema(sub)
    case EnumKind => EnumFromSubSchema(sub)
    case IntegerKind => IntegerFromSubSchema(sub)
    case BooleanKind => Ok(Boolean)
    case NumberKind => NumberFromSubSchema(sub)
    case _ => Err
  }

  /**
   * For a sub-schema of a leaf kind, the types it denotes are exactly what
   * `LeafType` builds, and "default" is read from the sub-schema itself.
   */
  lemma LeafTypeFor(sub: Json, schema: Json)
    requires Classify(sub).Ok? && Classify(sub) != Ok(ObjectKind) && Classify(sub) != Ok(ArrayKind)
    ensures forall t :: TypeFor(t, sub, schema) <==> LeafType(Classify(sub).value, sub) == Ok(t)
    ensures Consulted(sub, schema) == Ok(sub)
  {
  }

  /** The object branch, lines 30-33: an object named after the converted "javaType". */
  method ParseNestedObject(fuel: nat, resolved: Json, schema: Json) returns (r: Result<Descriptor>)
    requires Classify(resolved) == Ok(ObjectKind)
    ensures r.Ok? ==> TypeFor(r.value, resolved, schema)
    ensures forall t :: TypeFor(t, resolved, schema) && DepthAtMost(t, fuel) ==> r == Ok(t)
    decreases fuel, 1
  {
    var javaType :- StringAt(resolved, "javaType");
    r := ParseAsObject(fuel, PascalToCamelCase(javaType), resolved, schema);
  }

  /**
   * The array branch, lines 44-70. When the items are a "$ref", `sub_schema`
   * is rebound to the resolved item schema (line 52), so "minItems" and the
   * returned schema come from the item, not from the array.
   */
  method ParseArray(fuel: nat, resolved: Json, schema: Json) returns (r: Result<(Descriptor, Json)>)
    requires Classify(resolved) == Ok(ArrayKind)
    ensures r.Ok? ==> ArrayFor(r.value.0, resolved, schema) && Consulted(resolved, schema) == Ok(r.value.1)
    ensures forall t :: ArrayFor(t, resolved, schema) && DepthAtMost(t, fuel) ==> r.Ok? && r.value.0 == t
    decreases fuel, 3
  {
    var items :- GetItem(resolved, "items");
    var parsed :- ParseItem(fuel, items, resolved, schema);
    var (item, consulted) := parsed;
    var arrayType := Array(item, GetValue(consulted, "minItems").value);
    forall t | ArrayFor(t, resolved, schema) ensures t == arrayType {
      ArrayForUnique(t, arrayType, resolved, schema);
    }
    return Ok((arrayType, consulted));
  }

  /**
   * Lines 45-66: the element type of an array whose "items" are `items`,
   * and the schema the array then reads "minItems" from.
   */
  method ParseItem(fuel: nat, items: Json, resolved: Json, schema: Json) returns (r: Result<(Descriptor, Json)>)
    requires Classify(resolved) == Ok(ArrayKind) && GetItem(resolved, "items") == Ok(items)
    ensures r.Ok? ==> ItemFor(r.value.0, items, schema) && Consulted(resolved, schema) == Ok(r.value.1)
    ensures forall i :: ItemFor(i, items, schema) && DepthAtMost(i, fuel) ==> r.Ok? && r.value.0 == i
    decreases fuel, 2
  {
    var itemsReference :- ContainsReference(items);
    if itemsReference {
      r := ParseReferencedItem(fuel, items, resolved, schema);
    } else {
      PlainItemFor(items, schema);
      var item := PlainItem(items);
      r := if item.Ok? then Ok((item.value, resolved)) else Err;
    }
  }

  /**
   * Lines 45-58: items given by a "$ref" name an object, parsed under the
   * element name, or an enum; the resolved item schema is returned for the
   * array to read "minItems" from.
   */
  method ParseReferencedItem(fuel: nat, items: Json, resolved: Json, schema: Json) returns (r: Result<(Descriptor, Json)>)
    requires Classify(resolved) == Ok(ArrayKind) && GetItem(resolved, "items") == Ok(items)
    requires ContainsReference(items) == Ok(true)
    ensures r.Ok? ==> ItemFor(r.value.0, items, schema) && Consulted(resolved, schema) == Ok(r.value.1)
    ensures forall i :: ItemFor(i, items, schema) && DepthAtMost(i, fuel) ==> r.Ok? && r.value.0 == i
    decreases fuel, 1
  {
    var reference :- StringAt(items, "$ref");
    var itemName := ItemName(reference);
    var consulted :- ResolveReference(reference, schema);
    var isObject :- IsObject(consulted);
    var item: Descriptor;
    if isObject {
      item :- ParseAsObject(fuel, itemName, consulted, schema);
    } else {
      var isEnum := IsEnum(consulted).value;
      if !isEnum {
        return Err;
      }
      item :- EnumFromSubSchema(consulted);
    }
    forall i | ItemFor(i, items, schema) ensures i == item {
      ItemForUnique(i, item, items, schema);
    }
    return Ok((item, consulted));
  }

  /** Lines 59-66: plain items are strings or integers; any other type is refused. */
  function PlainItem(items: Json): Result<Descriptor> {
    var isString :- IsString(items);
    if isString then StringFromSubSchema(items)
    else if IsInteger(items).value then IntegerFromSubSchema(items)
    else Err
  }

  /** For items without a "$ref", the element types they denote are exactly what `PlainItem` builds. */
  lemma PlainItemFor(items: Json, schema: Json)
    requires ContainsReference(items) == Ok(false)
    ensures forall i :: ItemFor(i, items, schema) <==> PlainItem(items) == Ok(i)
  {
  }
}
