/**
  The two pieces of configuration logic in pkg/metadata/server/config/config.go:
  normalization of the comma-separated etcd endpoint list, and the etcd key
  prefix ending in a single '/'. Both apply to the environment or default
  value: the endpoints are normalized before the flags are parsed, and the
  prefix rule is part of the flag's default only.
 */
module Config {
  import opened Strings

  const DefaultScheme := "http://"
  const DefaultPortSuffix := ":2379"

  /** One endpoint: add a scheme when it lacks one, then the default port when there is no port. */
  function NormalizeEndpoint(ep: string): (r: string)
    ensures HasPrefix(r, "http")
    ensures HasPrefix(ep, "http") ==> HasPrefix(r, ep)
    ensures !HasPrefix(ep, "http") ==> HasPrefix(r, DefaultScheme + ep)
    ensures var base := if HasPrefix(ep, "http") then ep else DefaultScheme + ep;
            (r == base || r == base + DefaultPortSuffix)
            && (r == base + DefaultPortSuffix <==> Count(base, ':') == 1)
    ensures Count(r, ':') != 1
    ensures ',' !in ep ==> ',' !in r
  {
    var withScheme := if HasPrefix(ep, "http") then ep else DefaultScheme + ep;
    SchemeFacts(ep);
    AppendKeepsPrefix(withScheme, DefaultPortSuffix, "http");
    AppendKeepsPrefix(withScheme, DefaultPortSuffix, ep);
    AppendKeepsPrefix(withScheme, DefaultPortSuffix, DefaultScheme + ep);
    CountAppend(withScheme, DefaultPortSuffix, ':');
    if Count(withScheme, ':') == 1 then withScheme + DefaultPortSuffix else withScheme
  }

  lemma AppendKeepsPrefix(s: string, t: string, prefix: string)
    ensures HasPrefix(s, prefix) ==> HasPrefix(s + t, prefix)
  {
    if HasPrefix(s, prefix) {
      assert (s + t)[..|prefix|] == s[..|prefix|];
    }
  }

  /** The endpoint with its scheme starts with "http" and with the original text after any added scheme. */
  lemma SchemeFacts(ep: string)
    ensures var withScheme := if HasPrefix(ep, "http") then ep else DefaultScheme + ep;
            HasPrefix(withScheme, "http")
            && (HasPrefix(ep, "http") ==> HasPrefix(withScheme, ep))
            && (!HasPrefix(ep, "http") ==> HasPrefix(withScheme, DefaultScheme + ep))
            && (',' !in ep ==> ',' !in withScheme)
  {
    if !HasPrefix(ep, "http") {
      assert (DefaultScheme + ep)[..4] == "http";
      assert (DefaultScheme + ep)[..|DefaultScheme + ep|] == DefaultScheme + ep;
    } else {
      assert ep[..|ep|] == ep;
    }
  }

  /** Normalizing a normalized endpoint changes nothing. */
  lemma NormalizeEndpointIdempotent(ep: string)
    ensures NormalizeEndpoint(NormalizeEndpoint(ep)) == NormalizeEndpoint(ep)
  {
  }

  /** `etcdNormalizeEndpoints`: one normalized endpoint per comma-separated piece, in order. */
  function EtcdNormalizeEndpoints(s: string): (eps: seq<string>)
    ensures |eps| == Count(s, ',') + 1
    ensures forall i :: 0 <= i < |eps| ==> eps[i] == NormalizeEndpoint(Split(s, ',')[i])
    ensures forall i :: 0 <= i < |eps| ==> HasPrefix(eps[i], "http") && ',' !in eps[i]
    ensures |eps| == 1 <==> ',' !in s
  {
    CountZeroIffAbsent(s, ',');
    var pieces := Split(s, ',');
    seq(|pieces|, i requires 0 <= i < |pieces| => NormalizeEndpoint(pieces[i]))
  }

  /** Normalizing the comma-joined output of a normalization reproduces it. */
  lemma {:induction false} EtcdNormalizeEndpointsIdempotent(s: string)
    ensures EtcdNormalizeEndpoints(Join(EtcdNormalizeEndpoints(s), ',')) == EtcdNormalizeEndpoints(s)
  {
    var eps := EtcdNormalizeEndpoints(s);
    SplitJoin(eps, ',');
    var again := EtcdNormalizeEndpoints(Join(eps, ','));
    forall i | 0 <= i < |eps| ensures again[i] == eps[i] {
      NormalizeEndpointIdempotent(Split(s, ',')[i]);
    }
  }

  /** A list whose every endpoint is already normalized comes back as it was given. */
  lemma {:induction false} NormalizedListUnchanged(s: string)
    requires forall i :: 0 <= i < |Split(s, ',')| ==> NormalizeEndpoint(Split(s, ',')[i]) == Split(s, ',')[i]
    ensures Join(EtcdNormalizeEndpoints(s), ',') == s
  {
    assert EtcdNormalizeEndpoints(s) == Split(s, ',');
    JoinSplit(s, ',');
  }

  /** The storage key prefix: trailing slashes dropped, then exactly one added. */
  function KeyPrefix(p: string): (r: string)
    ensures |r| > 0 && r[|r| - 1] == '/'
    ensures |r| == 1 || r[|r| - 2] != '/'
    ensures HasPrefix(p, r[..|r| - 1])
    ensures forall i :: |r| - 1 <= i < |p| ==> p[i] == '/'
  {
    TrimRight(p, '/') + "/"
  }

  /** Applying the prefix rule twice is the same as once. */
  lemma KeyPrefixIdempotent(p: string)
    ensures KeyPrefix(KeyPrefix(p)) == KeyPrefix(p)
  {
    var t := TrimRight(p, '/');
    var r := t + "/";
    assert TrimRight(r, '/') == TrimRight(r[..|r| - 1], '/');
    assert r[..|r| - 1] == t;
  }
}
