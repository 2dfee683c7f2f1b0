# runmachine metadata core, modelled in Dafny

This project models the query, identity and validation logic of the runmachine
metadata service: the condition algebra, the expansion of caller-supplied
object filters into concrete list filters, the object service's delete / get /
upsert state logic, the translation of declarative property schemas and
permissions into their stored form, provider-definition lookup and upsert,
provider validation, and the etcd endpoint and key-prefix normalization of the
service's configuration. Both normalizations apply to the value taken from the
environment or the built-in default. `etcdNormalizeEndpoints` runs before
`flag.Parse()` (pkg/metadata/server/config/config.go:105 and :150), so an
endpoint list given with `--storage-etcd-endpoints` is never read. The
trailing-slash rule is applied to the flag's default only, so a prefix given
with `--storage-etcd-key-prefix` is kept as written (config.go:106-116, :160).

The backing store is replaced by an oracle (`Store.Store`): each read and each
object write is a total function from its arguments to a value or an error,
where `StoreNotFound` is the store's "nothing matched" sentinel. Provider
definitions are kept in a map keyed by (partition, provider type), with
optional faults for read and write failures. Reads come before any write of
the same request. The one place where a reply can depend on earlier writes is
the delete loop: the same object may be listed twice, and its second delete
meets a store that no longer holds it. So `objectDelete` is also given the
deletes already issued in the batch. Writes the service issues are returned
as a trace (`Store.Write`), so "nothing is written" and "every candidate is
deleted, in order" are statements about that trace.

Modules: `Wrappers` (Option), `Errors` (error values, `Result`), `Strings`
(Go's `HasPrefix`, `Count`, `Split`/`Join`, `TrimRight`), `Proto` (records),
`Conditions`, `PropertyDefinitions`, `Store`, `ObjectFilters`,
`ObjectService`, `ProviderDefinitions`, `ApiProvider`, `Config`.

Several behaviours of the code are easy to misread; the model follows the code
in each:

- `expandObjectFilter` binds the partitions and object types matched by an
  explicit filter to new variables (`:=` at pkg/metadata/object_filter.go:56
  and :85) that shadow the ones feeding the cross product. An explicit
  partition or type filter is therefore only an existence check. Such a filter
  never yields a partition-scoped or type-scoped list filter. The cross
  product itself is modelled and proved (`CrossProduct` and its lemmas), but
  as written it only ever sees the session partition. This is recorded under
  Findings. Every caller uses `ExpandObjectFilter`, since that is what the
  service does. `ExpandObjectFilterIntended` is the reading the code's
  comments describe (object_filter.go:45-51, :103-105).
- A session partition that does not exist is returned as an error by
  `expandObjectFilter`, not treated as an empty result.
- `ObjectDelete` counts every candidate in `numDeleted`, including the ones
  whose delete failed. The counter is a `uint64` and is modelled modulo 2^64.
- `objectChanged` compares tags and properties as ordered sequences, not as
  sets. For properties, the order comes from iterating a Go map, which is
  recorded under Findings; `ObjectSet` takes the comparison as a parameter,
  `InOrder` being the code as written.
- `validateValueWithSchema` accepts every value, so a bound schema never
  rejects a property.
- `ObjectSet` performs no session check.
- The identity condition of an object without a UUID is type and name, plus
  the project for a PROJECT-scoped type; it never includes the partition
  (object.go:296-302). A PARTITION-scoped name is therefore matched in every
  partition. A match found in another partition counts as changed, because
  the partition UUIDs differ, and is updated in place into the request's
  partition.
- The store's `ObjectListWithReferences` is called with list filters in
  `ObjectDelete` and with an object condition in `ObjectSet`. These are two
  oracles here: `objectsByFilters` and `objectsByCondition`.

The session checks are not in the source this model covers. object.go calls
a package function `checkSession` (object.go:20, :70), while
object_definition.go calls a server method `s.checkSession`
(object_definition.go:16, :84). The model uses one pure
`ObjectService.CheckSession` for both, with an assumed rule: the user is
required first, then the partition. A server method could consult the store.
So the clauses of `ProviderDefinitionGet` and `ProviderDefinitionSet` saying
that a session failure comes before any store access rest on this
assumption.

## Model

| member | source | states |
|---|---|---|
| Conditions.PartitionMatches | pkg/metadata/conditions/partition.go:14-27 | a missing condition or partition matches everything; EQUAL matches iff the UUIDs are equal, NOT_EQUAL iff they differ; any other operator matches nothing |
| Conditions.ObjectTypeMatches | pkg/metadata/conditions/object_type.go:14-27 | a missing condition or object type matches everything; EQUAL matches iff the codes are equal, NOT_EQUAL iff they differ; any other operator matches nothing |
| Conditions.PartitionEqualNotEqualComplement | pkg/metadata/conditions/partition.go:19-23 | for a condition naming a partition, EQUAL and NOT_EQUAL give opposite answers on every entity |
| Conditions.ObjectTypeEqualNotEqualComplement | pkg/metadata/conditions/object_type.go:19-23 | for a condition naming an object type, EQUAL and NOT_EQUAL give opposite answers on every entity |
| PropertyDefinitions.FilterMatches | pkg/metadata/types/property_definition.go:29-57 | a match means every non-empty UUID, partition and type agrees exactly and a non-empty key agrees exactly or by prefix; a non-match names the component that disagrees |
| PropertyDefinitions.FilterIsEmpty | pkg/metadata/types/property_definition.go:29-61 | an empty filter matches every definition; a non-empty one rejects some definition, so emptiness is exactly "matches everything" |
| PropertyDefinitions.EmptyFilterMatchesAll | pkg/metadata/types/property_definition.go:29-61 | an empty filter matches every definition, whatever its prefix flag |
| PropertyDefinitions.IsEmptyIgnoresPrefixFlag | pkg/metadata/types/property_definition.go:59-61 | the prefix flag never changes whether a filter is empty |
| PropertyDefinitions.ExactMatchImpliesPrefixMatch | pkg/metadata/types/property_definition.go:45-55 | a definition an exact-key filter matches is also matched with prefix matching on |
| PropertyDefinitions.TypeFromName | pkg/metadata/types/property_definition.go:110-125 | exactly "string", "integer", "number" and "boolean" denote a stored type, and each denotes the type whose name it is |
| PropertyDefinitions.TranslateTypes | pkg/metadata/types/property_definition.go:108-127 | the output is no longer than the input, and naming its types gives back exactly the recognised input names in their original order |
| PropertyDefinitions.TranslateTypesDropsUnknown | pkg/metadata/types/property_definition.go:110-125 | an unrecognised type name is dropped, so the output is strictly shorter |
| PropertyDefinitions.TranslateFormat | pkg/metadata/types/property_definition.go:153-190 | a non-default result is the format whose name was given; every one of the 14 format names selects its own format; anything else leaves the default |
| PropertyDefinitions.FormatRoundTrip | pkg/metadata/types/property_definition.go:153-190 | naming a format and translating the name back gives the same format, also through the whole schema translation |
| PropertyDefinitions.ToUint64 | pkg/metadata/types/property_definition.go:128-152 | the unsigned 64-bit conversion keeps in-range values and wraps negative ones by 2^64 |
| PropertyDefinitions.ToInt64 | pkg/metadata/types/property_definition.go:133-142 | the signed 64-bit conversion keeps in-range values and always lands in [-2^63, 2^63) |
| PropertyDefinitions.ApiToStoredSchema | pkg/metadata/types/property_definition.go:103-192 | types are the recognised names in order; the pattern is copied; each bound is present iff given and equal to it when in range; the format follows the format translation |
| PropertyDefinitions.PermissionFromName | pkg/metadata/types/property_definition.go:203-214 | READ is set iff the string is "r" or "rw"; WRITE iff it is "w" or "rw"; anything else is NONE |
| PropertyDefinitions.ApiToStoredPermissions | pkg/metadata/types/property_definition.go:196-229 | same length and order as the input; each code is the translated permission string; project and role are present iff non-empty and then equal the input |
| PropertyDefinitions.PermissionRoundTrip | pkg/metadata/types/property_definition.go:204-211 | every permission code other than NONE is denoted by one of the strings "r", "w", "rw" |
| ObjectFilters.PartitionRowsLength | pkg/metadata/object_filter.go:106-122 | one list filter per (partition, type) pair, or one per partition when there are no types |
| ObjectFilters.PartitionRowsAt | pkg/metadata/object_filter.go:106-122 | the cross product is partition-major: position i times the type count plus j holds partition i with type j |
| ObjectFilters.CrossProductTypesOnly | pkg/metadata/object_filter.go:123-130 | without partitions there is one list filter per type, in order |
| ObjectFilters.CrossProductPartitionsOnly | pkg/metadata/object_filter.go:106-112 | without types there is one list filter per partition, in order |
| ObjectFilters.WithTerms | pkg/metadata/object_filter.go:143-147 | every produced list filter keeps its scope and takes the filter's project, search and prefix flag |
| ObjectFilters.ExpandObjectFilter | pkg/metadata/object_filter.go:40-160 | store errors are propagated unchanged and an empty match is not-found; an empty project takes the session's; without a partition filter the single result is the session partition; with one, only an unscoped filter carrying the terms, or nothing; never a type-scoped filter |
| ObjectFilters.ExpansionHasAtMostOneFilter | pkg/metadata/object_filter.go:54-92 | as written, a successful expansion yields at most one list filter, whatever the filter matches |
| ObjectFilters.MatchedPartitions | pkg/metadata/object_filter.go:54-81 | the partitions an explicit filter matches (not-found when none), or the session partition |
| ObjectFilters.MatchedObjectTypes | pkg/metadata/object_filter.go:83-92 | the object types an explicit filter matches (not-found when none), or none without a type filter |
| ObjectFilters.ResolveDiscardsMatches | pkg/metadata/object_filter.go:54-92 | the as-written stages fail exactly when the matching stages do, and then keep only the session partition and no types |
| ObjectFilters.ExpandObjectFilterIntended | pkg/metadata/object_filter.go:44-130 | as the comments describe: succeeds exactly when the as-written expansion does, and yields the cross product of the matched partitions and types, which is never empty, with the filter's terms applied |
| ObjectFilters.IntendedExpansionAt | pkg/metadata/object_filter.go:103-122 | as intended, there is one list filter per matched (partition, type) pair, and position i times the type count plus j is scoped to partition i and type j |
| ObjectFilters.ShadowingDropsMatches | pkg/metadata/object_filter.go:56 | a partition filter matching two or more partitions gives at most one list filter as written, but one per matched partition as intended |
| ObjectFilters.DefaultObjectFilter | pkg/metadata/object_filter.go:12-33 | succeeds iff the session partition exists, giving a filter scoped to it with the session project and no type or search; otherwise the lookup's error |
| ObjectFilters.ExpandEach | pkg/metadata/object_filter.go:173-188 | fails, with the unknown error, iff some filter's expansion failed with something other than not-found; otherwise the concatenation of the expansions in input order, failed ones contributing nothing |
| ObjectFilters.NormalizeObjectFilters | pkg/metadata/object_filter.go:168-205 | no filters gives the single session default, or the expand-failed error when the session partition lookup fails; otherwise as the loop above, and an all-empty union stays empty |
| ObjectFilters.AllNotFoundGivesEmpty | pkg/metadata/object_filter.go:190-202 | filters that all name unknown partitions or types give an empty result, not the session default |
| ObjectService.Failures | pkg/metadata/server/object.go:44-47 | at most one collected error per candidate |
| ObjectService.FailuresEmptyIff | pkg/metadata/server/object.go:42-62 | no error is collected iff every candidate's delete succeeded |
| ObjectService.FailuresComeFromDeletes | pkg/metadata/server/object.go:44-47 | every collected error is the error of some candidate's delete |
| ObjectService.FailuresCount | pkg/metadata/server/object.go:44-47 | exactly one error is collected per failed delete |
| ObjectService.DeleteCandidates | pkg/metadata/server/object.go:20-40 | a session failure, an empty filter list, a normalization error or an empty normalization stops the delete before the store is asked; otherwise the store's candidates |
| ObjectService.DeleteEach | pkg/metadata/server/object.go:42-55 | every candidate is deleted in order; the errors are those of the failed deletes; the count is the number of candidates, modulo 2^64 |
| ObjectService.ObjectDelete | pkg/metadata/server/object.go:16-64 | an early failure sends no response and writes nothing; otherwise the response carries the collected errors and the candidate count, and the delete-failed status is returned iff errors were collected |
| ObjectService.ObjectGet | pkg/metadata/server/object.go:66-106 | session failure, missing filter, expansion not-found (to not-found), other expansion error (to unknown), no list filters, store error, several objects and none each give their error; a single listed object is returned |
| ObjectService.ObjectGetOkIff | pkg/metadata/server/object.go:66-106 | the get returns o iff the session is valid, a filter is given, it expands to at least one list filter and the store lists exactly [o] |
| ObjectService.ValidateObjectProperty | pkg/metadata/server/object.go:211-240 | succeeds iff the definition lookup for that exact (partition, type, key) succeeds, returning key and value unchanged; a lookup error is returned as is |
| ObjectService.ValidateProperties | pkg/metadata/server/object.go:180-191 | succeeds iff every property's definition lookup succeeds, giving one property per input pair in order; otherwise the error of a failing lookup |
| ObjectService.ValidateObjectSetRequest | pkg/metadata/server/object.go:139-206 | decode error, then type required, then partition required; unknown partition or type gives its typed error and other store errors give unknown; a property lookup error is returned unchanged; success iff the document decodes, names a type and a partition that both resolve, and every property lookup succeeds, and it copies the document's fields onto them |
| ObjectService.ValidateValueWithSchema | pkg/metadata/server/object.go:244-249 | every value is accepted, whatever the schema |
| ObjectService.ObjectChanged | pkg/metadata/server/object.go:251-274 | an object compared with itself is unchanged |
| ObjectService.ObjectChangedIffFingerprintDiffers | pkg/metadata/server/object.go:251-274 | changed iff partition UUID, type code, UUID, name, project, tags or properties differ; the test is symmetric |
| ObjectService.ObjectChangedIgnoresNamesAndScope | pkg/metadata/server/object.go:251-274 | the partition's name and the type's scope never count as a change |
| ObjectService.ReorderedPropertiesCountAsChange | pkg/metadata/server/object.go:270-272 | the same two properties in the other order count as a change as written, and as no change when compared as a map |
| ObjectService.AsMapIgnoresPropertyOrder | pkg/metadata/server/object.go:180-191 | compared as a map, any reordering of an object's properties is no change |
| ObjectService.AsMapChangeIsInOrderChange | pkg/metadata/server/object.go:251-274 | every change the map comparison sees, the ordered comparison sees as well |
| ObjectService.IdentityCondition | pkg/metadata/server/object.go:289-303 | UUID-only when the input has a UUID; otherwise type and name, with the project added iff the type is PROJECT-scoped |
| ObjectService.InheritUuid | pkg/metadata/server/object.go:337-339 | the input keeps its UUID, or takes the existing object's when it has none; nothing else changes |
| ObjectService.ObjectSet | pkg/metadata/server/object.go:276-363 | with the comparison as written (InOrder): at most one write; validation and lookup errors write nothing; several matches is an error; no match creates; one match updates when changed (an update failure is unknown) and otherwise returns the stored object with no write |
| ObjectService.RepeatedSetUpdatesOnReorder | pkg/metadata/server/object.go:336-357 | as written, a repeat set whose stored properties are listed in another order issues an update |
| ObjectService.RepeatedSetIsNoOp | pkg/metadata/server/object.go:336-357 | with properties compared as a map, once the store holds what a set created (its properties in any order), setting the same document again returns it and writes nothing |
| ObjectService.UpdateKeepsExistingUuid | pkg/metadata/server/object.go:336-349 | an update triggered by a type-and-name match carries the UUID of the object that was found |
| ProviderDefinitions.ProviderDefinitionGet | pkg/metadata/server/object_definition.go:12-33 | a session failure comes first; the store's not-found becomes the service's not-found and other errors pass through; success returns the definition stored under the key |
| ProviderDefinitions.ValidateObjectDefinitionSetRequest | pkg/metadata/server/object_definition.go:39-76 | a non-empty partition, then a non-empty provider type, must exist; not-found gives the typed error, carrying the partition in both cases; other errors give unknown |
| ProviderDefinitions.ProviderDefinitionLogKey | pkg/metadata/server/object_definition.go:95-103 | "runm.provider:" then the partition or "default", then ":" and the provider type when it is non-empty |
| ProviderDefinitions.LogKeyDefaultCollides | pkg/metadata/server/object_definition.go:96-100 | the empty partition and a partition named "default" give the same key |
| ProviderDefinitions.LogKeyInjective | pkg/metadata/server/object_definition.go:95-103 | with no ':' in its parts, the key determines the partition segment and the provider type |
| ProviderDefinitions.ProviderDefinitionSet | pkg/metadata/server/object_definition.go:80-134 | session and validation failures, and a lookup error other than not-found (as unknown), leave the store as it was; otherwise the definition is written whether or not one existed and echoed back |
| ProviderDefinitions.GetAfterSet | pkg/metadata/server/object_definition.go:120-133 | after a successful set, a get for the same key returns the definition that was set |
| ProviderDefinitions.SetLeavesOtherKeys | pkg/metadata/server/object_definition.go:120-122 | a set changes what a get returns for no other key |
| ApiProvider.FindProviderType | pkg/api/types/provider.go:49-55 | finds a provider type iff it is in the valid list |
| ApiProvider.Validate | pkg/api/types/provider.go:39-64 | partition, then name, then provider type are required, and the type must be listed; valid iff all three hold |
| ApiProvider.ErrorTextInjective | pkg/api/types/provider.go:40-60 | the four error texts, including the one naming the invalid type and the valid choices, tell every error apart |
| ApiProvider.ValidateIgnoresOptionalFields | pkg/api/types/provider.go:39-64 | UUID, parent, properties and tags never change the outcome |
| ApiProvider.ListedTypesAreValid | pkg/api/types/provider.go:8-11 | both listed provider types are accepted |
| Config.NormalizeEndpoint | pkg/metadata/server/config/config.go:239-245 | the result starts with "http"; "http://" is added only when missing; ":2379" is added exactly when the prefixed entry has one ':'; the result never has exactly one ':' |
| Config.NormalizeEndpointIdempotent | pkg/metadata/server/config/config.go:236-246 | normalizing a normalized endpoint changes nothing |
| Config.EtcdNormalizeEndpoints | pkg/metadata/server/config/config.go:233-248 | one entry per comma-separated piece, in order, each the normalized piece; a single entry exactly when there is no comma |
| Config.NormalizedListUnchanged | pkg/metadata/server/config/config.go:233-248 | a list whose endpoints are all already normalized is given back unchanged, once joined with commas |
| Config.EtcdNormalizeEndpointsIdempotent | pkg/metadata/server/config/config.go:233-248 | normalizing the comma-joined output reproduces it |
| Config.KeyPrefix | pkg/metadata/server/config/config.go:107-115 | ends in '/', not preceded by another '/', and only trailing slashes of the input are dropped |
| Config.KeyPrefixIdempotent | pkg/metadata/server/config/config.go:107-115 | applying the prefix rule twice equals applying it once |

## Left out

- Transport, logging and YAML decoding: the decoded document is an input (`Payload`), and a decoder failure is an error value.
- `ObjectList` is not modelled: it is `NormalizeObjectFilters`, one store list and a stream of sends.
- `ObjectPropertiesList` and `ObjectPropertiesSet` are not modelled: they are stubs that return nothing.
- `PropertyDefinitionFilter.String` is not modelled: it iterates a Go map, whose order is unspecified.
- Go map iteration order: the properties of an object document are an input sequence of key/value pairs, in whichever order this call iterates them.
- ObjectService.RepeatedSetIsNoOp: holds for the map comparison only; with the comparison as written, a repeat set updates whenever the two iteration orders differ (see Findings).
- `reflect.DeepEqual` subtleties such as nil versus empty slices: tags and properties are compared with sequence equality.
- Concurrency: the read-then-write race in `ObjectSet` is outside the model, since requests are handled one at a time.
- `checkSession`, pkg/errors, and the `conditions` constructors `PartitionEqual`, `ObjectTypeEqual`, `UuidEqual` and `NameEqual` are not part of this model. They appear as an assumed session rule (user first, then partition), as error constructors, and as plain records.
- The store's own matching (exact or prefix lookup of partitions and types, listing by condition) is an oracle: its results are not constrained.
- Permission codes are the pair (read, write) because the numeric constants are not part of this model; the numeric bits are left out.
- The integer type of the API schema bounds is not part of this model; bounds are unbounded integers and the conversions wrap modulo 2^64.
- Configuration plumbing (flags, environment defaults, TLS and etcd client setup) is not modelled.
- pkg/api/server/provider.go, the command-line client and the database seeding script are outside the core.

## Findings

| source | as written | input that shows it | evidently intended | confidence | as-written member | corrected member |
|---|---|---|---|---|---|---|
| pkg/metadata/server/object.go:184, :270 | properties are collected by ranging over a Go map, whose order varies from call to call, and `objectChanged` compares the collected lists element by element | stored object with properties [b=2, a=1]; the same document set again, iterated as [a=1, b=2] | the same key/value pairs in another order are no change, so a repeat set writes nothing | medium, not executed | ObjectService.RepeatedSetUpdatesOnReorder | ObjectService.RepeatedSetIsNoOp |
| pkg/metadata/object_filter.go:56, :85 | `partitions, err :=` and `objTypes, err :=` declare new variables inside the `if` blocks, so the matches never reach the cross product at :106-130 | a filter whose partition filter matches partitions p1 and p2 | one list filter per matched partition (and per matched type), as the comments at :45-51 and :103-105 say | high, not executed | ObjectFilters.ShadowingDropsMatches | ObjectFilters.ExpandObjectFilterIntended |
