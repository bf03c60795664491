# OCPP schema parser and OCPP 1.6 wire enumerations in Dafny

This project models two pieces of the OCPP library.

**The code generator's JSON-schema parser** (scripts/v21/json_schema_parser.py).
It turns an OCPP message schema into a tree of frozen type descriptors:
objects with ordered properties, strings, enums, integers, numbers, booleans,
arrays and "any".
- The JSON input is a `Json` datatype. An object is an ordered list of members, as a Python dict keeps insertion order.
- The dict accesses the parser makes are functions returning `Result`. `d[k]` fails on a missing key or a non-object; `d.get(k)` fails only on a non-object.
- `resolve_reference` and `_parse_as_object` work by loops and recursion, so they are methods:
  - `ResolveReference` walks the reference's path with a `for` loop.
  - `ParseAsObject`, `ParseProperty`, `ParseType` and `ParseArray` build the descriptor.
- Each method is proved against predicates (`ObjectFor`, `PropertyFor`, `TypeFor`, `ArrayFor`) that say which descriptor a schema denotes.
- Lemmas state what a parsed object then promises:
  - names;
  - the properties in order;
  - `required` and `has_default_value`;
  - `Any` exactly for `{}`;
  - a supported "type" everywhere else;
  - that the result is determined by the input.
- A quirk of the code is kept as written. When an array's items are a `$ref`, the array branch rebinds `sub_schema` to the resolved item schema. "minItems" and "default" are then read from the item's definition, not from the array's own schema (`Consulted`).

**The OCPP 1.6 wire enumerations** (ocpp/v16/enums.py), in modules `OcppV16Enums` and `OcppV16EnumFacts`.
- Every `StrEnum` class is a datatype, one constructor per canonical member.
- `ToWire` gives a member's exact, case-sensitive wire string. `FromWire` is the partial inverse that calling the class on a string performs.
- Each class that declares deprecated camelCase names also has a table `Deprecated` of those names, and a lemma that each one is an alias of a member.
- Classes of more than 17 members split the decoding match into parts, to keep each proof small.
- The two largest classes, `Action` (39 members) and `ConfigurationKey` (54), decode differently. They try their members in ascending wire order (`WireOrder.Below`: shorter first, then character by character). Their round trip follows from the order: no member before the one sought can carry its value.
- `OcppV16EnumFacts` proves the facts the source's comments state:
  - action names are wire strings;
  - decoding is case-sensitive;
  - the status, trigger and firmware-status groupings;
  - the default measurand and unit are members.

## Model

| member | source | states |
|---|---|---|
| PyStr.Split | scripts/v21/json_schema_parser.py:218 | `str.split` on one separator: at least one part, no part contains the separator, and joining the parts gives the string back |
| PyStr.SplitJoin | scripts/v21/json_schema_parser.py:218 | the other round trip: splitting a join of separator-free parts returns the parts |
| JsonValues.Lookup | scripts/v21/json_schema_parser.py:226 | a dict lookup finds a value exactly when the key is among the keys, and then it is the value of the first member with that key |
| JsonValues.GetValue | scripts/v21/json_schema_parser.py:99 | `sub_schema.get(key)` as Python sees the value: `None` for a missing key and for an explicit JSON null, otherwise the stored value; an error on a non-object |
| SchemaParser.Property.HasDefaultValue | scripts/v21/json_schema_parser.py:181-182 | a property has a default exactly when one was given, and an explicit JSON null counts as one, unlike a missing key (`NOT_SET`) |
| SchemaParser.ContainsReference | scripts/v21/json_schema_parser.py:185-186 | fails exactly on a non-object, and is true exactly when "$ref" is among the keys |
| SchemaParser.HasType | scripts/v21/json_schema_parser.py:189-214 | `sub_schema["type"] == t` fails exactly when there is no "type" key, and is true exactly when "type" is the string `t` |
| SchemaParser.IsObject | scripts/v21/json_schema_parser.py:189-190 | true exactly when "type" is "object"; fails exactly without "type" |
| SchemaParser.IsInteger | scripts/v21/json_schema_parser.py:201-202 | true exactly when "type" is "integer"; fails exactly without "type" |
| SchemaParser.IsArray | scripts/v21/json_schema_parser.py:205-206 | true exactly when "type" is "array"; fails exactly without "type" |
| SchemaParser.IsBoolean | scripts/v21/json_schema_parser.py:209-210 | true exactly when "type" is "boolean"; fails exactly without "type" |
| SchemaParser.IsNumber | scripts/v21/json_schema_parser.py:213-214 | true exactly when "type" is "number"; fails exactly without "type" |
| SchemaParser.IsString | scripts/v21/json_schema_parser.py:193-194 | true exactly when "type" is "string" and there is no "enum" key; fails exactly without "type" |
| SchemaParser.IsEnum | scripts/v21/json_schema_parser.py:197-198 | true exactly when "type" is "string" and there is an "enum" key; fails exactly without "type" |
| SchemaParser.StringOrEnum | scripts/v21/json_schema_parser.py:193-198 | a string-typed schema is exactly one of a plain string and an enum |
| SchemaParser.Classify | scripts/v21/json_schema_parser.py:28-73 | the branch of the if/elif chain: `{}` gives any, then object, string, enum, integer, boolean, number, array by "type"; an error exactly when the schema is not `{}` and has no supported "type" |
| SchemaParser.StringFromSubSchema | scripts/v21/json_schema_parser.py:94-99 | succeeds exactly when "type" is "string"; the result carries `.get("maxLength")`, `None` when missing or null |
| SchemaParser.IntegerFromSubSchema | scripts/v21/json_schema_parser.py:143-148 | succeeds exactly when "type" is "integer"; the result carries `.get("minimum")` and `.get("maximum")`, `None` when missing or null |
| SchemaParser.NumberFromSubSchema | scripts/v21/json_schema_parser.py:156-161 | succeeds exactly when "type" is "number"; the result carries `.get("minimum")` and `.get("maximum")`, `None` when missing or null |
| SchemaParser.EnumFromSubSchema | scripts/v21/json_schema_parser.py:109-129 | succeeds exactly when "javaType" is a string and "enum" exists; the name is "javaType" without its last four characters (empty when shorter), the variants are "enum" as given |
| SchemaParser.PascalToCamelCase | scripts/v21/json_schema_parser.py:233-256 | keeps the length, upper-cases exactly the leading abbreviation (evse, ocsp, then ac, dc, ev, then v2x, vpn, apn), or else the first character, and keeps the rest |
| SchemaParser.PascalToCamelCaseIdempotent | scripts/v21/json_schema_parser.py:243-256 | converting an already converted name changes nothing |
| SchemaParser.ItemName | scripts/v21/json_schema_parser.py:45-50 | the element name contains no "/" and is the reference's last "/"-segment minus exactly: "TypeEnum" if it ends so, else "Enum" if it ends so, else "Type" if it ends so, else nothing |
| SchemaParser.ItemNameOfDefinition | scripts/v21/json_schema_parser.py:45-50 | a reference "#/definitions/<base>Type" names the element `<base>` |
| SchemaParser.ResolveReference | scripts/v21/json_schema_parser.py:217-230 | fails when the first "/"-element is not "#"; otherwise follows the remaining elements as keys from the whole schema, failing on a missing key |
| SchemaParser.ResolveJoinedPath | scripts/v21/json_schema_parser.py:217-230 | the reference "#/k1/.../kn" resolves to the schema's member at k1, ..., kn |
| SchemaParser.ResolveRoot | scripts/v21/json_schema_parser.py:217-230 | the reference "#" names the whole schema |
| SchemaParser.ResolveSubSchema | scripts/v21/json_schema_parser.py:25-26 | a sub-schema with "$ref" becomes what the reference names, with the reference's failures; any other object is kept; a non-object fails |
| SchemaParser.PropertiesOf | scripts/v21/json_schema_parser.py:24 | `parent.get("properties", {})` as a member list: the members of "properties", none when it is absent, an error when either is not an object |
| SchemaParser.Required | scripts/v21/json_schema_parser.py:78 | `attribute in parent.get("required", [])`: false without "required"; membership for a list, a key test for an object, a substring test for a string; an error for any other value |
| SchemaParser.TypeForShape | scripts/v21/json_schema_parser.py:28-73 | the descriptor's shape follows the branch taken; `Any` exactly for `{}`; otherwise the "type" is supported |
| SchemaParser.ObjectForFacts | scripts/v21/json_schema_parser.py:22-82 | a parsed object has the converted name and the "properties" keys in order; each property is required exactly when listed under "required", has a default exactly when the consulted schema has "default", and is `Any` exactly for `{}` |
| SchemaParser.NestedObjectName | scripts/v21/json_schema_parser.py:30-33 | a nested object is named after its "javaType" converted once, although lines 32 and 82 both convert it |
| SchemaParser.ObjectForUnique | scripts/v21/json_schema_parser.py:22-82 | a schema denotes at most one object |
| SchemaParser.PropertyForUnique | scripts/v21/json_schema_parser.py:24-80 | a member's sub-schema denotes at most one property |
| SchemaParser.TypeForUnique | scripts/v21/json_schema_parser.py:28-73 | a resolved sub-schema denotes at most one type |
| SchemaParser.ArrayForUnique | scripts/v21/json_schema_parser.py:44-70 | an array schema denotes at most one array type |
| SchemaParser.ItemForUnique | scripts/v21/json_schema_parser.py:45-66 | an array's "items" denote at most one element type |
| SchemaParser.LeafTypeFor | scripts/v21/json_schema_parser.py:28-43 | for `{}`, string, enum, integer, boolean and number sub-schemas, the types denoted are exactly what the branch builds, and "default" is read from the sub-schema itself |
| SchemaParser.PlainItemFor | scripts/v21/json_schema_parser.py:59-66 | items without "$ref" denote exactly a string or an integer element, built from the items schema; any other type denotes nothing |
| SchemaParser.DepthSuffices | scripts/v21/json_schema_parser.py:22-82 | every descriptor nests objects at most `Depth` deep, so some `fuel` always suffices for it |
| SchemaParser.Parse | scripts/v21/json_schema_parser.py:17-19 | a result is the object the whole schema denotes under `name`; and whenever the schema denotes an object nested at most `fuel` deep, the parse returns exactly that object |
| SchemaParser.ParseAsObject | scripts/v21/json_schema_parser.py:22-82 | a result is the object `parent` denotes, one property per member of "properties" in order; whenever `parent` denotes an object within `fuel`, that object is returned; no properties gives the empty object of that name |
| SchemaParser.NoObjectWithoutProperty | scripts/v21/json_schema_parser.py:24-80 | when some member has no property within one level less, `parent` denotes no object within `fuel`: the loop fails exactly when the source would |
| SchemaParser.ParseProperty | scripts/v21/json_schema_parser.py:24-80 | a result is the property the member denotes, after resolving a "$ref"; whenever the member denotes a property within `fuel`, that property is returned |
| SchemaParser.ParseType | scripts/v21/json_schema_parser.py:28-73 | a result is the type the resolved sub-schema denotes, with the schema "default" is read from; whenever it denotes a type within `fuel`, that type is returned |
| SchemaParser.ParseNestedObject | scripts/v21/json_schema_parser.py:30-33 | a result is the nested object the sub-schema denotes, named after its converted "javaType"; whenever it denotes one within `fuel`, that one is returned |
| SchemaParser.ParseArray | scripts/v21/json_schema_parser.py:44-70 | a result is the array type the schema denotes, with "minItems" from the resolved item schema when items are a "$ref"; whenever it denotes one within `fuel`, that one is returned |
| SchemaParser.ParseItem | scripts/v21/json_schema_parser.py:45-66 | a result is the element type the items denote, with the schema "minItems" is read from; whenever they denote one within `fuel`, that one is returned |
| SchemaParser.ParseReferencedItem | scripts/v21/json_schema_parser.py:45-58 | for "$ref" items, a result is the referenced object under the element name or the referenced enum; whenever they denote one within `fuel`, that one is returned |
| OcppV16Enums.Action.FromWire | ocpp/v16/enums.py:11-52 | `Action(s)`: a member is returned only when its value is `s` |
| OcppV16Enums.Action.RoundTrip | ocpp/v16/enums.py:11-52 | decoding any member's value returns that member |
| OcppV16Enums.Action.WireInjective | ocpp/v16/enums.py:11-52 | no two members share a value |
| OcppV16Enums.AuthorizationStatus.FromWire | ocpp/v16/enums.py:55-64 | `AuthorizationStatus(s)`: returns the member whose value is `s`, and nothing when no member has that value; so decoding a member's value returns that member and no two members share a value |
| OcppV16Enums.AvailabilityStatus.FromWire | ocpp/v16/enums.py:67-74 | `AvailabilityStatus(s)`: returns the member whose value is `s`, and nothing when no member has that value; so decoding a member's value returns that member and no two members share a value |
| OcppV16Enums.AvailabilityType.FromWire | ocpp/v16/enums.py:77-83 | `AvailabilityType(s)`: returns the member whose value is `s`, and nothing when no member has that value; so decoding a member's value returns that member and no two members share a value |
| OcppV16Enums.CancelReservationStatus.FromWire | ocpp/v16/enums.py:86-92 | `CancelReservationStatus(s)`: returns the member whose value is `s`, and nothing when no member has that value; so decoding a member's value returns that member and no two members share a value |
| OcppV16Enums.CertificateSignedStatus.FromWire | ocpp/v16/enums.py:95-101 | `CertificateSignedStatus(s)`: returns the member whose value is `s`, and nothing when no member has that value; so decoding a member's value returns that member and no two members share a value |
| OcppV16Enums.CertificateStatus.FromWire | ocpp/v16/enums.py:104-111 | `CertificateStatus(s)`: returns the member whose value is `s`, and nothing when no member has that value; so decoding a member's value returns that member and no two members share a value |
| OcppV16Enums.CertificateUse.FromWire | ocpp/v16/enums.py:114-121 | `CertificateUse(s)`: returns the member whose value is `s`, and nothing when no member has that value; so decoding a member's value returns that member and no two members share a value |
| OcppV16Enums.ChargePointErrorCode.FromWire | ocpp/v16/enums.py:124-162 | `ChargePointErrorCode(s)`: returns the member whose value is `s`, and nothing when no member has that value; so decoding a member's value returns that member and no two members share a value |
| OcppV16Enums.ChargePointErrorCode.DeprecatedNamesAreAliases | ocpp/v16/enums.py:147-162 | every deprecated name is declared with the value of a member, so it names that member |
| OcppV16Enums.ChargePointStatus.FromWire | ocpp/v16/enums.py:165-189 | `ChargePointStatus(s)`: returns the member whose value is `s`, and nothing when no member has that value; so decoding a member's value returns that member and no two members share a value |
| OcppV16Enums.ChargePointStatus.DeprecatedNamesAreAliases | ocpp/v16/enums.py:188-189 | every deprecated name is declared with the value of a member, so it names that member |
| OcppV16Enums.ChargingProfileKindType.FromWire | ocpp/v16/enums.py:192-203 | `ChargingProfileKindType(s)`: returns the member whose value is `s`, and nothing when no member has that value; so decoding a member's value returns that member and no two members share a value |
| OcppV16Enums.ChargingProfilePurposeType.FromWire | ocpp/v16/enums.py:206-249 | `ChargingProfilePurposeType(s)`: returns the member whose value is `s`, and nothing when no member has that value; so decoding a member's value returns that member and no two members share a value |
| OcppV16Enums.ChargingProfilePurposeType.DeprecatedNamesAreAliases | ocpp/v16/enums.py:247-249 | every deprecated name is declared with the value of a member, so it names that member |
| OcppV16Enums.ChargingProfileStatus.FromWire | ocpp/v16/enums.py:252-261 | `ChargingProfileStatus(s)`: returns the member whose value is `s`, and nothing when no member has that value; so decoding a member's value returns that member and no two members share a value |
| OcppV16Enums.ChargingProfileStatus.DeprecatedNamesAreAliases | ocpp/v16/enums.py:261-261 | every deprecated name is declared with the value of a member, so it names that member |
| OcppV16Enums.ChargingRateUnitType.FromWire | ocpp/v16/enums.py:264-271 | `ChargingRateUnitType(s)`: returns the member whose value is `s`, and nothing when no member has that value; so decoding a member's value returns that member and no two members share a value |
| OcppV16Enums.ClearCacheStatus.FromWire | ocpp/v16/enums.py:286-292 | `ClearCacheStatus(s)`: returns the member whose value is `s`, and nothing when no member has that value; so decoding a member's value returns that member and no two members share a value |
| OcppV16Enums.ClearChargingProfileStatus.FromWire | ocpp/v16/enums.py:295-301 | `ClearChargingProfileStatus(s)`: returns the member whose value is `s`, and nothing when no member has that value; so decoding a member's value returns that member and no two members share a value |
| OcppV16Enums.ConfigurationStatus.FromWire | ocpp/v16/enums.py:304-316 | `ConfigurationStatus(s)`: returns the member whose value is `s`, and nothing when no member has that value; so decoding a member's value returns that member and no two members share a value |
| OcppV16Enums.ConfigurationStatus.DeprecatedNamesAreAliases | ocpp/v16/enums.py:315-316 | every deprecated name is declared with the value of a member, so it names that member |
| OcppV16Enums.ConfigurationKey.FromWire | ocpp/v16/enums.py:319-390 | `ConfigurationKey(s)`: a member is returned only when its value is `s` |
| OcppV16Enums.ConfigurationKey.RoundTrip | ocpp/v16/enums.py:319-390 | decoding any member's value returns that member |
| OcppV16Enums.ConfigurationKey.WireInjective | ocpp/v16/enums.py:319-390 | no two members share a value |
| OcppV16Enums.DataTransferStatus.FromWire | ocpp/v16/enums.py:393-405 | `DataTransferStatus(s)`: returns the member whose value is `s`, and nothing when no member has that value; so decoding a member's value returns that member and no two members share a value |
| OcppV16Enums.DataTransferStatus.DeprecatedNamesAreAliases | ocpp/v16/enums.py:404-405 | every deprecated name is declared with the value of a member, so it names that member |
| OcppV16Enums.DeleteCertificateStatus.FromWire | ocpp/v16/enums.py:408-415 | `DeleteCertificateStatus(s)`: returns the member whose value is `s`, and nothing when no member has that value; so decoding a member's value returns that member and no two members share a value |
| OcppV16Enums.DiagnosticsStatus.FromWire | ocpp/v16/enums.py:418-429 | `DiagnosticsStatus(s)`: returns the member whose value is `s`, and nothing when no member has that value; so decoding a member's value returns that member and no two members share a value |
| OcppV16Enums.DiagnosticsStatus.DeprecatedNamesAreAliases | ocpp/v16/enums.py:429-429 | every deprecated name is declared with the value of a member, so it names that member |
| OcppV16Enums.FirmwareStatus.FromWire | ocpp/v16/enums.py:432-458 | `FirmwareStatus(s)`: returns the member whose value is `s`, and nothing when no member has that value; so decoding a member's value returns that member and no two members share a value |
| OcppV16Enums.FirmwareStatus.DeprecatedNamesAreAliases | ocpp/v16/enums.py:457-458 | every deprecated name is declared with the value of a member, so it names that member |
| OcppV16Enums.GenericStatus.FromWire | ocpp/v16/enums.py:461-467 | `GenericStatus(s)`: returns the member whose value is `s`, and nothing when no member has that value; so decoding a member's value returns that member and no two members share a value |
| OcppV16Enums.GetCompositeScheduleStatus.FromWire | ocpp/v16/enums.py:470-476 | `GetCompositeScheduleStatus(s)`: returns the member whose value is `s`, and nothing when no member has that value; so decoding a member's value returns that member and no two members share a value |
| OcppV16Enums.GetInstalledCertificateStatus.FromWire | ocpp/v16/enums.py:479-486 | `GetInstalledCertificateStatus(s)`: returns the member whose value is `s`, and nothing when no member has that value; so decoding a member's value returns that member and no two members share a value |
| OcppV16Enums.HashAlgorithm.FromWire | ocpp/v16/enums.py:489-496 | `HashAlgorithm(s)`: returns the member whose value is `s`, and nothing when no member has that value; so decoding a member's value returns that member and no two members share a value |
| OcppV16Enums.Location.FromWire | ocpp/v16/enums.py:499-509 | `Location(s)`: returns the member whose value is `s`, and nothing when no member has that value; so decoding a member's value returns that member and no two members share a value |
| OcppV16Enums.Log.FromWire | ocpp/v16/enums.py:512-518 | `Log(s)`: returns the member whose value is `s`, and nothing when no member has that value; so decoding a member's value returns that member and no two members share a value |
| OcppV16Enums.LogStatus.FromWire | ocpp/v16/enums.py:521-528 | `LogStatus(s)`: returns the member whose value is `s`, and nothing when no member has that value; so decoding a member's value returns that member and no two members share a value |
| OcppV16Enums.Measurand.FromWire | ocpp/v16/enums.py:531-578 | `Measurand(s)`: returns the member whose value is `s`, and nothing when no member has that value; so decoding a member's value returns that member and no two members share a value |
| OcppV16Enums.Measurand.DeprecatedNamesAreAliases | ocpp/v16/enums.py:562-578 | every deprecated name is declared with the value of a member, so it names that member |
| OcppV16Enums.MessageTrigger.FromWire | ocpp/v16/enums.py:581-605 | `MessageTrigger(s)`: returns the member whose value is `s`, and nothing when no member has that value; so decoding a member's value returns that member and no two members share a value |
| OcppV16Enums.MessageTrigger.DeprecatedNamesAreAliases | ocpp/v16/enums.py:601-605 | every deprecated name is declared with the value of a member, so it names that member |
| OcppV16Enums.Phase.FromWire | ocpp/v16/enums.py:608-632 | `Phase(s)`: returns the member whose value is `s`, and nothing when no member has that value; so decoding a member's value returns that member and no two members share a value |
| OcppV16Enums.Phase.DeprecatedNamesAreAliases | ocpp/v16/enums.py:627-632 | every deprecated name is declared with the value of a member, so it names that member |
| OcppV16Enums.ReadingContext.FromWire | ocpp/v16/enums.py:635-655 | `ReadingContext(s)`: returns the member whose value is `s`, and nothing when no member has that value; so decoding a member's value returns that member and no two members share a value |
| OcppV16Enums.ReadingContext.DeprecatedNamesAreAliases | ocpp/v16/enums.py:650-655 | every deprecated name is declared with the value of a member, so it names that member |
| OcppV16Enums.Reason.FromWire | ocpp/v16/enums.py:658-682 | `Reason(s)`: returns the member whose value is `s`, and nothing when no member has that value; so decoding a member's value returns that member and no two members share a value |
| OcppV16Enums.Reason.DeprecatedNamesAreAliases | ocpp/v16/enums.py:676-682 | every deprecated name is declared with the value of a member, so it names that member |
| OcppV16Enums.RecurrencyKind.FromWire | ocpp/v16/enums.py:685-693 | `RecurrencyKind(s)`: returns the member whose value is `s`, and nothing when no member has that value; so decoding a member's value returns that member and no two members share a value |
| OcppV16Enums.RegistrationStatus.FromWire | ocpp/v16/enums.py:696-703 | `RegistrationStatus(s)`: returns the member whose value is `s`, and nothing when no member has that value; so decoding a member's value returns that member and no two members share a value |
| OcppV16Enums.RemoteStartStopStatus.FromWire | ocpp/v16/enums.py:706-713 | `RemoteStartStopStatus(s)`: returns the member whose value is `s`, and nothing when no member has that value; so decoding a member's value returns that member and no two members share a value |
| OcppV16Enums.ReservationStatus.FromWire | ocpp/v16/enums.py:716-725 | `ReservationStatus(s)`: returns the member whose value is `s`, and nothing when no member has that value; so decoding a member's value returns that member and no two members share a value |
| OcppV16Enums.ResetStatus.FromWire | ocpp/v16/enums.py:728-734 | `ResetStatus(s)`: returns the member whose value is `s`, and nothing when no member has that value; so decoding a member's value returns that member and no two members share a value |
| OcppV16Enums.ResetType.FromWire | ocpp/v16/enums.py:737-743 | `ResetType(s)`: returns the member whose value is `s`, and nothing when no member has that value; so decoding a member's value returns that member and no two members share a value |
| OcppV16Enums.TriggerMessageStatus.FromWire | ocpp/v16/enums.py:746-756 | `TriggerMessageStatus(s)`: returns the member whose value is `s`, and nothing when no member has that value; so decoding a member's value returns that member and no two members share a value |
| OcppV16Enums.TriggerMessageStatus.DeprecatedNamesAreAliases | ocpp/v16/enums.py:756-756 | every deprecated name is declared with the value of a member, so it names that member |
| OcppV16Enums.UnitOfMeasure.FromWire | ocpp/v16/enums.py:759-782 | `UnitOfMeasure(s)`: returns the member whose value is `s`, and nothing when no member has that value; so decoding a member's value returns that member and no two members share a value |
| OcppV16Enums.UnlockStatus.FromWire | ocpp/v16/enums.py:785-796 | `UnlockStatus(s)`: returns the member whose value is `s`, and nothing when no member has that value; so decoding a member's value returns that member and no two members share a value |
| OcppV16Enums.UnlockStatus.DeprecatedNamesAreAliases | ocpp/v16/enums.py:795-796 | every deprecated name is declared with the value of a member, so it names that member |
| OcppV16Enums.UpdateFirmwareStatus.FromWire | ocpp/v16/enums.py:799-808 | `UpdateFirmwareStatus(s)`: returns the member whose value is `s`, and nothing when no member has that value; so decoding a member's value returns that member and no two members share a value |
| OcppV16Enums.UploadLogStatus.FromWire | ocpp/v16/enums.py:811-822 | `UploadLogStatus(s)`: returns the member whose value is `s`, and nothing when no member has that value; so decoding a member's value returns that member and no two members share a value |
| OcppV16Enums.UpdateStatus.FromWire | ocpp/v16/enums.py:825-837 | `UpdateStatus(s)`: returns the member whose value is `s`, and nothing when no member has that value; so decoding a member's value returns that member and no two members share a value |
| OcppV16Enums.UpdateStatus.DeprecatedNamesAreAliases | ocpp/v16/enums.py:836-837 | every deprecated name is declared with the value of a member, so it names that member |
| OcppV16Enums.UpdateType.FromWire | ocpp/v16/enums.py:840-846 | `UpdateType(s)`: returns the member whose value is `s`, and nothing when no member has that value; so decoding a member's value returns that member and no two members share a value |
| OcppV16Enums.ValueFormat.FromWire | ocpp/v16/enums.py:849-859 | `ValueFormat(s)`: returns the member whose value is `s`, and nothing when no member has that value; so decoding a member's value returns that member and no two members share a value |
| OcppV16Enums.ValueFormat.DeprecatedNamesAreAliases | ocpp/v16/enums.py:859-859 | every deprecated name is declared with the value of a member, so it names that member |
| OcppV16EnumFacts.ActionNamesAreWireStrings | ocpp/v16/enums.py:11-52 | every action's wire string is its attribute name |
| OcppV16EnumFacts.ActionFromName | ocpp/v16/enums.py:11-52 | an action's name decodes to that action |
| OcppV16EnumFacts.ResetTypeIsCaseSensitive | ocpp/v16/enums.py:737-743 | "Hard" and "Soft" decode; "hard" and "soft" decode to nothing |
| OcppV16EnumFacts.StatusIsOperativeOrInoperative | ocpp/v16/enums.py:165-185 | every charge point status is operative or inoperative, never both |
| OcppV16EnumFacts.StatusGroupsAreStatuses | ocpp/v16/enums.py:165-185 | every status the two groups name decodes to a member |
| OcppV16EnumFacts.ConnectorZeroStatusesAreStatuses | ocpp/v16/enums.py:165-185 | the connector-0 statuses are Available plus the inoperative ones, a subset of the groups |
| OcppV16EnumFacts.TriggerGroups | ocpp/v16/enums.py:581-605 | TriggerMessage and ExtendedTriggerMessage triggers share exactly the five common ones, and every trigger belongs to one of them |
| OcppV16EnumFacts.TriggerMessageTriggersNameActions | ocpp/v16/enums.py:581-605 | each TriggerMessage trigger's value is the name of an action |
| OcppV16EnumFacts.FirmwareStatusGroups | ocpp/v16/enums.py:432-458 | the common and signed-only firmware statuses split the class, and no signed-only value equals a common one |
| OcppV16EnumFacts.MeasurandDefaultIsMember | ocpp/v16/enums.py:531-578 | the default "Energy.Active.Import.Register" decodes to a measurand |
| OcppV16EnumFacts.UnitOfMeasureDefaultIsMember | ocpp/v16/enums.py:759-782 | the default "Wh" and the errata value "Hertz" decode to units |

## Left out

- The `StrEnum` import fallback (ocpp/v16/enums.py:1-8) is Python-version compatibility, not behaviour.
- `CiStringType` (ocpp/v16/enums.py:274-283) is an `int` subclass holding length constants, with no enumeration behaviour.
- Error messages and exception kinds are not modelled. KeyError, TypeError, AttributeError and RuntimeError all become one `Err`, because every one of them ends the parse.
- SchemaParser.ParseAsObject: takes a `fuel` bound on object nesting and fails when it runs out. The source has no bound and recurses until Python's recursion limit on a cyclic `$ref`. A schema that denotes an object nested at most `fuel` deep is parsed to exactly that object, and `DepthSuffices` gives such a `fuel` for every object; a cyclic `$ref` denotes no finite object.
- SchemaParser.Parse: inherits the same `fuel` bound.
- PyStr.Upper: upper-cases ASCII letters only. Python's `str.upper` also maps other Unicode letters; OCPP names are ASCII.
- SchemaParser.EnumFromSubSchema: requires "javaType" to be a string. Python would also slice a list-valued "javaType" without complaint.
- JsonValues.Lookup: returns the first member with a key. Python's `json` keeps the last value of a repeated key in an object, so the model assumes distinct keys.
- JSON numbers with a fraction are exact reals (`JFloat`), not binary floating point.
- The descriptors' `Object.properties` is a Python dict. The model keeps an ordered list of pairs, which is the same for distinct keys.
- OcppV16Enums.Action.FromWire: its own contract states only that a result has value `s`. Completeness is the separate lemma `RoundTrip`. The same holds for OcppV16Enums.ConfigurationKey.FromWire.
