/**
  Property definitions: the filter used to select them and the translation of
  the declarative API schema and permission lists into their stored form.
 */
module PropertyDefinitions {
  import opened Wrappers
  import opened Proto
  import opened Strings

  // ---------------------------------------------------------------------------
  // Stored schema and permission representation

  datatype SchemaType = TypeString | TypeInteger | TypeNumber | TypeBoolean

  datatype SchemaFormat =
    | FormatNone   // the zero value: no format constraint
    | FormatDateTime | FormatDate | FormatTime | FormatEmail | FormatIdnEmail
    | FormatHostname | FormatIdnHostname | FormatIpv4 | FormatIpv6 | FormatUri
    | FormatUriReference | FormatIri | FormatIriReference | FormatUriTemplate

  datatype StoredSchema = StoredSchema(
    types: seq<SchemaType>,
    pattern: string,
    multipleOf: Option<nat>,      // unsigned 64-bit
    minimum: Option<int>,         // signed 64-bit
    maximum: Option<int>,         // signed 64-bit
    minimumLength: Option<nat>,   // unsigned 64-bit
    maximumLength: Option<nat>,   // unsigned 64-bit
    format: SchemaFormat
  )

  /** A permission code as a set of bits: READ, WRITE, both, or NONE. */
  datatype PermissionBits = PermissionBits(read: bool, write: bool)

  const PermissionNone := PermissionBits(false, false)

  datatype StoredPermission = StoredPermission(
    project: Option<string>,
    role: Option<string>,
    permission: PermissionBits
  )

  datatype PropertyDefinition = PropertyDefinition(
    uuid: string,
    partition: string,   // partition UUID
    objectType: string,  // object type code
    key: string,
    schema: StoredSchema,
    permissions: seq<StoredPermission>
  )

  // ---------------------------------------------------------------------------
  // API-level (declarative) schema and permissions

  datatype ApiSchema = ApiSchema(
    types: seq<string>,
    pattern: string,
    multipleOf: Option<int>,
    minimum: Option<int>,
    maximum: Option<int>,
    minLength: Option<int>,
    maxLength: Option<int>,
    format: string
  )

  datatype ApiPermission = ApiPermission(project: string, role: string, permission: string)

  // ---------------------------------------------------------------------------
  // PropertyDefinitionFilter

  /** A filter on definitions whose partition and object type are already resolved. */
  datatype PropertyDefinitionFilter = PropertyDefinitionFilter(
    partition: Option<Partition>,
    objectType: Option<ObjectType>,
    uuid: string,
    key: string,
    usePrefix: bool
  )

  /** Every given component constrains the definition; an empty key or UUID is no constraint. */
  function FilterMatches(f: PropertyDefinitionFilter, d: PropertyDefinition): (r: bool)
    ensures r ==> (f.uuid == "" || f.uuid == d.uuid)
    ensures r ==> (f.partition.None? || f.partition.value.uuid == d.partition)
    ensures r ==> (f.objectType.None? || f.objectType.value.code == d.objectType)
    ensures r && f.key != "" && !f.usePrefix ==> f.key == d.key
    ensures r && f.key != "" && f.usePrefix ==> HasPrefix(d.key, f.key)
    ensures !r ==>
              || (f.uuid != "" && f.uuid != d.uuid)
              || (f.partition.Some? && f.partition.value.uuid != d.partition)
              || (f.objectType.Some? && f.objectType.value.code != d.objectType)
              || (f.key != "" && f.usePrefix && !HasPrefix(d.key, f.key))
              || (f.key != "" && !f.usePrefix && f.key != d.key)
  {
    if f.uuid != "" && f.uuid != d.uuid then false
    else if f.partition.Some? && f.partition.value.uuid != d.partition then false
    else if f.objectType.Some? && f.objectType.value.code != d.objectType then false
    else if f.key != "" then
      if f.usePrefix then HasPrefix(d.key, f.key) else f.key == d.key
    else true
  }

  /** A definition that differs from every component a filter gives. */
  function Outsider(f: PropertyDefinitionFilter): PropertyDefinition {
    PropertyDefinition(
      f.uuid + "!",
      (if f.partition.Some? then f.partition.value.uuid else "") + "!",
      (if f.objectType.Some? then f.objectType.value.code else "") + "!",
      "",
      StoredSchema([], "", None, None, None, None, None, FormatNone),
      [])
  }

  /**
    A filter is empty when it constrains neither partition, type, key nor
    UUID: exactly the filters that match every definition.
   */
  function FilterIsEmpty(f: PropertyDefinitionFilter): (r: bool)
    ensures r ==> forall d :: FilterMatches(f, d)
    ensures !r ==> !FilterMatches(f, Outsider(f))
  {
    var empty := f.partition.None? && f.objectType.None? && f.key == "" && f.uuid == "";
    assert !empty ==> !FilterMatches(f, Outsider(f)) by {
      var d := Outsider(f);
      if f.uuid != "" { assert |d.uuid| == |f.uuid| + 1; }
      if f.partition.Some? { assert |d.partition| == |f.partition.value.uuid| + 1; }
      if f.objectType.Some? { assert |d.objectType| == |f.objectType.value.code| + 1; }
    }
    empty
  }

  /** An empty filter matches every definition, whatever its prefix flag. */
  lemma EmptyFilterMatchesAll(f: PropertyDefinitionFilter, d: PropertyDefinition)
    requires FilterIsEmpty(f)
    ensures FilterMatches(f, d)
  {
  }

  /** The prefix flag alone never decides emptiness. */
  lemma IsEmptyIgnoresPrefixFlag(f: PropertyDefinitionFilter, b: bool)
    ensures FilterIsEmpty(f.(usePrefix := b)) == FilterIsEmpty(f)
  {
  }

  /** Turning on prefix matching only widens a filter: an exact match is also a prefix match. */
  lemma ExactMatchImpliesPrefixMatch(f: PropertyDefinitionFilter, d: PropertyDefinition)
    requires FilterMatches(f.(usePrefix := false), d)
    ensures FilterMatches(f.(usePrefix := true), d)
  {
    if f.key != "" {
      assert f.key == d.key;
      assert d.key[..|f.key|] == f.key;
    }
  }

  // ---------------------------------------------------------------------------
  // Schema translation

  /** The API name of each stored type. */
  function TypeName(t: SchemaType): string {
    match t
    case TypeString => "string"
    case TypeInteger => "integer"
    case TypeNumber => "number"
    case TypeBoolean => "boolean"
  }

  /** The stored type an API type name denotes, if any. */
  function TypeFromName(s: string): (r: Option<SchemaType>)
    ensures r.Some? ==> TypeName(r.value) == s
    ensures forall t: SchemaType :: TypeName(t) == s ==> r == Some(t)
  {
    match s
    case "string" => Some(TypeString)
    case "integer" => Some(TypeInteger)
    case "number" => Some(TypeNumber)
    case "boolean" => Some(TypeBoolean)
    case _ => None
  }

  /** The API type names that denote a stored type, in their original order. */
  function KnownTypeNames(names: seq<string>): (known: seq<string>)
    ensures |known| <= |names|
    ensures forall s :: s in known <==> s in names && TypeFromName(s).Some?
  {
    if |names| == 0 then []
    else
      var rest := KnownTypeNames(names[1..]);
      if TypeFromName(names[0]).Some? then [names[0]] + rest else rest
  }

  function TypeNames(ts: seq<SchemaType>): (names: seq<string>)
    ensures |names| == |ts|
  {
    if |ts| == 0 then [] else [TypeName(ts[0])] + TypeNames(ts[1..])
  }

  /** Translates each API type name, dropping the ones that denote no stored type. */
  function TranslateTypes(names: seq<string>): (ts: seq<SchemaType>)
    ensures |ts| <= |names|
    ensures TypeNames(ts) == KnownTypeNames(names)
  {
    if |names| == 0 then []
    else
      var rest := TranslateTypes(names[1..]);
      match TypeFromName(names[0])
      case Some(t) => [t] + rest
      case None => rest
  }

  /** The API name of each stored format; the default format has none. */
  function FormatName(f: SchemaFormat): string {
    match f
    case FormatNone => ""
    case FormatDateTime => "date-time"
    case FormatDate => "date"
    case FormatTime => "time"
    case FormatEmail => "email"
    case FormatIdnEmail => "idn-email"
    case FormatHostname => "hostname"
    case FormatIdnHostname => "idn-hostname"
    case FormatIpv4 => "ipv4"
    case FormatIpv6 => "ipv6"
    case FormatUri => "uri"
    case FormatUriReference => "uri-reference"
    case FormatIri => "iri"
    case FormatIriReference => "iri-reference"
    case FormatUriTemplate => "uri-template"
  }

  /** The stored format an API format name selects; empty and unknown names leave the default. */
  function TranslateFormat(s: string): (f: SchemaFormat)
    ensures f != FormatNone ==> FormatName(f) == s
    ensures forall g: SchemaFormat :: g != FormatNone && FormatName(g) == s ==> f == g
  {
    match s
    case "date-time" => FormatDateTime
    case "date" => FormatDate
    case "time" => FormatTime
    case "email" => FormatEmail
    case "idn-email" => FormatIdnEmail
    case "hostname" => FormatHostname
    case "idn-hostname" => FormatIdnHostname
    case "ipv4" => FormatIpv4
    case "ipv6" => FormatIpv6
    case "uri" => FormatUri
    case "uri-reference" => FormatUriReference
    case "iri" => FormatIri
    case "iri-reference" => FormatIriReference
    case "uri-template" => FormatUriTemplate
    case _ => FormatNone
  }

  const TwoTo64: int := 0x1_0000_0000_0000_0000
  const TwoTo63: int := 0x8000_0000_0000_0000

  /** Go's conversion to `uint64`: the value modulo 2^64. */
  function ToUint64(x: int): (r: nat)
    ensures r < TwoTo64
    ensures 0 <= x < TwoTo64 ==> r == x
    ensures -TwoTo63 <= x < 0 ==> r == x + TwoTo64
  {
    x % TwoTo64
  }

  /** Go's conversion to `int64`: the value wrapped into [-2^63, 2^63). */
  function ToInt64(x: int): (r: int)
    ensures -TwoTo63 <= r < TwoTo63
    ensures -TwoTo63 <= x < TwoTo63 ==> r == x
  {
    (x + TwoTo63) % TwoTo64 - TwoTo63
  }

  function MapOption(o: Option<int>, f: int -> int): (r: Option<int>)
    ensures r.Some? <==> o.Some?
    ensures r.Some? ==> r.value == f(o.value)
  {
    match o
    case Some(v) => Some(f(v))
    case None => None
  }

  function MapOptionNat(o: Option<int>): (r: Option<nat>)
    ensures r.Some? <==> o.Some?
    ensures r.Some? ==> r.value == ToUint64(o.value)
  {
    match o
    case Some(v) => Some(ToUint64(v))
    case None => None
  }

  /** `APItoPBPropertySchema`: the stored form of a declarative schema. */
  function ApiToStoredSchema(a: ApiSchema): (r: StoredSchema)
    ensures |r.types| <= |a.types|
    ensures TypeNames(r.types) == KnownTypeNames(a.types)
    ensures r.pattern == a.pattern
    ensures r.multipleOf.Some? <==> a.multipleOf.Some?
    ensures r.minimum.Some? <==> a.minimum.Some?
    ensures r.maximum.Some? <==> a.maximum.Some?
    ensures r.minimumLength.Some? <==> a.minLength.Some?
    ensures r.maximumLength.Some? <==> a.maxLength.Some?
    ensures a.multipleOf.Some? && 0 <= a.multipleOf.value < TwoTo64 ==> r.multipleOf == a.multipleOf
    ensures a.minimum.Some? && -TwoTo63 <= a.minimum.value < TwoTo63 ==> r.minimum == a.minimum
    ensures a.maximum.Some? && -TwoTo63 <= a.maximum.value < TwoTo63 ==> r.maximum == a.maximum
    ensures a.minLength.Some? && 0 <= a.minLength.value < TwoTo64 ==> r.minimumLength == a.minLength
    ensures a.maxLength.Some? && 0 <= a.maxLength.value < TwoTo64 ==> r.maximumLength == a.maxLength
    ensures r.format != FormatNone ==> FormatName(r.format) == a.format
    ensures forall g: SchemaFormat :: g != FormatNone && FormatName(g) == a.format ==> r.format == g
  {
    StoredSchema(
      types := if |a.types| > 0 then TranslateTypes(a.types) else [],
      pattern := a.pattern,
      multipleOf := MapOptionNat(a.multipleOf),
      minimum := MapOption(a.minimum, ToInt64),
      maximum := MapOption(a.maximum, ToInt64),
      minimumLength := MapOptionNat(a.minLength),
      maximumLength := MapOptionNat(a.maxLength),
      format := if a.format != "" then TranslateFormat(a.format) else FormatNone
    )
  }

  /** A name that denotes no stored type is dropped, so the output is strictly shorter. */
  lemma {:induction false} TranslateTypesDropsUnknown(names: seq<string>, i: int)
    requires 0 <= i < |names| && TypeFromName(names[i]).None?
    ensures |TranslateTypes(names)| < |names|
  {
    if i > 0 {
      TranslateTypesDropsUnknown(names[1..], i - 1);
    }
  }

  /** Every one of the fourteen recognised format names selects its own stored format. */
  lemma FormatRoundTrip(f: SchemaFormat)
    requires f != FormatNone
    ensures TranslateFormat(FormatName(f)) == f
    ensures ApiToStoredSchema(ApiSchema([], "", None, None, None, None, None, FormatName(f))).format == f
  {
  }

  // ---------------------------------------------------------------------------
  // Permission translation

  /** The bits an API permission string denotes: "r", "w", "rw"; anything else is NONE. */
  function PermissionFromName(s: string): (p: PermissionBits)
    ensures p.read <==> (s == "r" || s == "rw")
    ensures p.write <==> (s == "w" || s == "rw")
  {
    match s
    case "r" => PermissionBits(true, false)
    case "rw" => PermissionBits(true, true)
    case "w" => PermissionBits(false, true)
    case _ => PermissionNone
  }

  function OptionalString(s: string): (r: Option<string>)
    ensures r.Some? <==> s != ""
    ensures r.Some? ==> r.value == s
  {
    if s != "" then Some(s) else None
  }

  /** `APItoPBPropertyPermissions`: one stored permission per API permission, in order. */
  function ApiToStoredPermissions(perms: seq<ApiPermission>): (r: seq<StoredPermission>)
    ensures |r| == |perms|
    ensures forall i :: 0 <= i < |perms| ==>
              && r[i].permission == PermissionFromName(perms[i].permission)
              && (r[i].project.Some? <==> perms[i].project != "")
              && (r[i].project.Some? ==> r[i].project.value == perms[i].project)
              && (r[i].role.Some? <==> perms[i].role != "")
              && (r[i].role.Some? ==> r[i].role.value == perms[i].role)
  {
    seq(|perms|, i requires 0 <= i < |perms| =>
      StoredPermission(
        OptionalString(perms[i].project),
        OptionalString(perms[i].role),
        PermissionFromName(perms[i].permission)))
  }

  /** The name of a permission code, the inverse of `PermissionFromName` on its three known strings. */
  function PermissionName(p: PermissionBits): string {
    if p.read && p.write then "rw"
    else if p.read then "r"
    else if p.write then "w"
    else ""
  }

  lemma PermissionRoundTrip(p: PermissionBits)
    requires p != PermissionNone
    ensures PermissionFromName(PermissionName(p)) == p
  {
  }
}
