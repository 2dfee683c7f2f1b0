/** The API-level provider record and its validation (pkg/api/types/provider.go). */
module ApiProvider {
  import opened Wrappers

  /** The provider types a provider may declare. */
  const ValidProviderTypes: seq<string> := ["runm.compute", "runm.storage.block"]

  datatype Provider = Provider(
    partition: string,
    providerType: string,
    parent: string,
    uuid: string,
    name: string,
    properties: map<string, string>,
    tags: seq<string>
  )

  datatype ValidationError =
    | PartitionRequired
    | NameRequired
    | ProviderTypeRequired
    | InvalidProviderType(providerType: string)

  /** The text of each validation error. */
  function ErrorText(e: ValidationError): string {
    match e
    case PartitionRequired => "partition required"
    case NameRequired => "name required"
    case ProviderTypeRequired => "provider_type required"
    case InvalidProviderType(t) =>
      "invalid provider_type " + t + ". valid choices: [runm.compute runm.storage.block]"
  }

  /** Distinct validation errors have distinct texts, so a caller can tell them apart. */
  lemma ErrorTextInjective(e1: ValidationError, e2: ValidationError)
    ensures ErrorText(e1) == ErrorText(e2) ==> e1 == e2
  {
    var s1, s2 := ErrorText(e1), ErrorText(e2);
    if s1 == s2 {
      if e1.InvalidProviderType? && e2.InvalidProviderType? {
        var prefix := "invalid provider_type ";
        var suffix := ". valid choices: [runm.compute runm.storage.block]";
        var t1, t2 := e1.providerType, e2.providerType;
        assert |t1| == |t2|;
        assert s1 == prefix + t1 + suffix && s2 == prefix + t2 + suffix;
        assert t1 == s1[|prefix|..|prefix| + |t1|];
        assert t2 == s2[|prefix|..|prefix| + |t2|];
      } else {
        assert s1[0] == s2[0];
      }
    }
  }

  /** Linear search of `ValidProviderTypes`. */
  function FindProviderType(t: string, i: nat): (found: bool)
    requires i <= |ValidProviderTypes|
    ensures found <==> t in ValidProviderTypes[i..]
    decreases |ValidProviderTypes| - i
  {
    if i == |ValidProviderTypes| then false
    else if ValidProviderTypes[i] == t then true
    else FindProviderType(t, i + 1)
  }

  /** `Provider.Validate`: the first missing or invalid field, checked in declaration order. */
  function Validate(p: Provider): (r: Option<ValidationError>)
    ensures r.None? <==> p.partition != "" && p.name != "" && p.providerType in ValidProviderTypes
    ensures p.partition == "" ==> r == Some(PartitionRequired)
    ensures p.partition != "" && p.name == "" ==> r == Some(NameRequired)
    ensures p.partition != "" && p.name != "" && p.providerType == "" ==> r == Some(ProviderTypeRequired)
    ensures p.partition != "" && p.name != "" && p.providerType != "" &&
            p.providerType !in ValidProviderTypes ==>
              r == Some(InvalidProviderType(p.providerType))
  {
    if p.partition == "" then Some(PartitionRequired)
    else if p.name == "" then Some(NameRequired)
    else if p.providerType == "" then Some(ProviderTypeRequired)
    else if !FindProviderType(p.providerType, 0) then Some(InvalidProviderType(p.providerType))
    else None
  }

  /** UUID, parent, properties and tags never affect validation. */
  lemma ValidateIgnoresOptionalFields(p: Provider, q: Provider)
    requires p.partition == q.partition && p.name == q.name && p.providerType == q.providerType
    ensures Validate(p) == Validate(q)
  {
  }

  /** Both listed provider types are accepted on an otherwise complete provider. */
  lemma ListedTypesAreValid(p: Provider, i: int)
    requires 0 <= i < |ValidProviderTypes|
    requires p.partition != "" && p.name != ""
    ensures Validate(p.(providerType := ValidProviderTypes[i])).None?
  {
  }
}
