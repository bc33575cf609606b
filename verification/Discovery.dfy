/** The configuration document: BuildMetadata of server/metadata.go, the options of metadata.go,
    and the client's mix-up check of client/metadata.go. */
module Discovery {
  import opened Text
  import opened ErrorTransport

  const TOKEN_PATH := "/token"
  const PERMISSION_PATH := "/permission"
  const INTROSPECTION_PATH := "/introspection"
  const RESOURCE_SET_PATH := "/resource_set"
  const UMA_GRANT := "urn:ietf:params:oauth:grant-type:uma-ticket"

  /** Empty strings and lists are absent from the document. */
  datatype Metadata = Metadata(
    issuer: string,
    tokenEndpoint: string,
    introspectionEndpoint: string,
    permissionEndpoint: string,
    resourceEndpoint: string,
    grantTypes: seq<string>,
    authMethods: seq<string>,
    profiles: seq<string>,
    claimFormats: seq<string>,
    signed: string)

  datatype MetadataOption =
    | WithProfiles(profiles: seq<string>)
    | WithClaimFormats(formats: seq<string>)
    | WithAuthMethods(methods: seq<string>)
    | WithSigned(jws: string)

  /** What the four probes came back with: None is success. */
  datatype Probes = Probes(token: Option<Err>, permission: Option<Err>, introspect: Option<Err>, resourceSet: Option<Err>)

  predicate Implemented(probe: Option<Err>) {
    probe.Some? ==> !IsNotImplemented(probe.value)
  }

  /** The probe's error, however wrapped or joined, is not-implemented somewhere. */
  ghost predicate Refuses(probe: Option<Err>) {
    probe.Some? && NotImplemented in Leaves(probe.value)
  }

  lemma RefusedExactly(probe: Option<Err>)
    ensures Implemented(probe) <==> !Refuses(probe)
  {
    if probe.Some? { FirstLeaves(probe.value); }
  }

  method BuildMetadata(asURL: string, probes: Option<Probes>, opts: seq<MetadataOption>) returns (m: Metadata)
    ensures m.issuer == asURL
    ensures probes.None? ==>
              m.tokenEndpoint == m.permissionEndpoint == m.introspectionEndpoint == m.resourceEndpoint == "" && m.grantTypes == []
    ensures probes.Some? ==>
              var base, p := TrimSlashes(asURL), probes.value;
              && m.tokenEndpoint == (if Refuses(p.token) then "" else base + "/token")
              && m.permissionEndpoint == (if Refuses(p.permission) then "" else base + "/permission")
              && m.introspectionEndpoint == (if Refuses(p.introspect) then "" else base + "/introspection")
              && m.resourceEndpoint == (if Refuses(p.resourceSet) then "" else base + "/resource_set")
    ensures m.grantTypes == if m.tokenEndpoint != "" then ["urn:ietf:params:oauth:grant-type:uma-ticket"] else []
    ensures var o := ApplyAll(BLANK, opts);
            m.profiles == o.profiles && m.claimFormats == o.claimFormats && m.authMethods == o.authMethods && m.signed == o.signed
  {
    if probes.Some? {
      RefusedExactly(probes.value.token);
      RefusedExactly(probes.value.permission);
      RefusedExactly(probes.value.introspect);
      RefusedExactly(probes.value.resourceSet);
    }
    m := Metadata(asURL, "", "", "", "", [], [], [], [], "");
    var base := TrimSlashes(asURL);
    if probes.Some? {
      var as_ := probes.value;
      if Implemented(as_.token) {
        m := m.(tokenEndpoint := base + TOKEN_PATH, grantTypes := [UMA_GRANT]);
      }
      if Implemented(as_.permission) {
        m := m.(permissionEndpoint := base + PERMISSION_PATH);
      }
      if Implemented(as_.introspect) {
        m := m.(introspectionEndpoint := base + INTROSPECTION_PATH);
      }
      if Implemented(as_.resourceSet) {
        m := m.(resourceEndpoint := base + RESOURCE_SET_PATH);
      }
    }
    ghost var probed := m;
    for i := 0 to |opts|
      invariant m == ApplyAll(probed, opts[..i])
    {
      assert opts[..i + 1][..i] == opts[..i];
      m := ApplyOption(m, opts[i]);
    }
    assert opts[..|opts|] == opts;
    OptionsSetExtras(probed, opts);
  }

  /** Options leave what was probed alone, and what they set does not depend on it. */
  lemma {:induction false} OptionsSetExtras(m: Metadata, opts: seq<MetadataOption>)
    requires Extras(m) == Extras(BLANK)
    ensures var m' := ApplyAll(m, opts);
            && Extras(m') == Extras(ApplyAll(BLANK, opts))
            && m == m'.(profiles := [], claimFormats := [], authMethods := [], signed := "")
  {
    if opts != [] {
      OptionsSetExtras(m, opts[..|opts| - 1]);
    }
  }

  const BLANK := Metadata("", "", "", "", "", [], [], [], [], "")

  function ApplyOption(m: Metadata, o: MetadataOption): Metadata {
    match o
    case WithProfiles(p) => m.(profiles := p)
    case WithClaimFormats(f) => m.(claimFormats := f)
    case WithAuthMethods(a) => m.(authMethods := a)
    case WithSigned(jws) => m.(signed := jws)
  }

  /** The options in order, the later ones last. */
  function ApplyAll(m: Metadata, opts: seq<MetadataOption>): Metadata {
    if opts == [] then m else ApplyOption(ApplyAll(m, opts[..|opts| - 1]), opts[|opts| - 1])
  }

  /** Each field is what the last option for it says. */
  lemma {:induction false} LastOption(m: Metadata, opts: seq<MetadataOption>, i: nat)
    requires i < |opts|
    ensures (opts[i].WithProfiles? && forall j :: i < j < |opts| ==> !opts[j].WithProfiles?) ==>
              ApplyAll(m, opts).profiles == opts[i].profiles
    ensures (opts[i].WithClaimFormats? && forall j :: i < j < |opts| ==> !opts[j].WithClaimFormats?) ==>
              ApplyAll(m, opts).claimFormats == opts[i].formats
    ensures (opts[i].WithAuthMethods? && forall j :: i < j < |opts| ==> !opts[j].WithAuthMethods?) ==>
              ApplyAll(m, opts).authMethods == opts[i].methods
    ensures (opts[i].WithSigned? && forall j :: i < j < |opts| ==> !opts[j].WithSigned?) ==>
              ApplyAll(m, opts).signed == opts[i].jws
  {
    if i < |opts| - 1 {
      LastOption(m, opts[..|opts| - 1], i);
    }
  }

  /** And a field no option is for stays as it was. */
  lemma {:induction false} UnsetField(m: Metadata, opts: seq<MetadataOption>)
    ensures (forall o :: o in opts ==> !o.WithProfiles?) ==> ApplyAll(m, opts).profiles == m.profiles
    ensures (forall o :: o in opts ==> !o.WithClaimFormats?) ==> ApplyAll(m, opts).claimFormats == m.claimFormats
    ensures (forall o :: o in opts ==> !o.WithAuthMethods?) ==> ApplyAll(m, opts).authMethods == m.authMethods
    ensures (forall o :: o in opts ==> !o.WithSigned?) ==> ApplyAll(m, opts).signed == m.signed
  {
    if opts != [] {
      UnsetField(m, opts[..|opts| - 1]);
    }
  }

  /** The fields options may set. */
  function Extras(m: Metadata): (seq<string>, seq<string>, seq<string>, string) {
    (m.profiles, m.claimFormats, m.authMethods, m.signed)
  }

  // Publisher and consumer.

  predicate SameIssuer(configured: string, issuer: string) {
    TrimSlashes(configured) == TrimSlashes(issuer)
  }

  /** The check ignores the number of trailing slashes and nothing else. */
  lemma SameIssuerExactly(a: string, b: string)
    ensures SameIssuer(a, b) <==> exists u: string, m: nat, n: nat :: a == u + Slashes(m) && b == u + Slashes(n)
  {
    TrimSlashesSame(a, b);
  }

  /** A document published for u with i slashes passes the check of a client configured for
      u with j slashes, and its endpoints are u, stripped, followed by one endpoint path. */
  method Publish(u: string, i: nat, j: nat, probes: Probes, opts: seq<MetadataOption>) returns (m: Metadata)
    ensures SameIssuer(u + Slashes(j), m.issuer)
    ensures m.tokenEndpoint == (if Refuses(probes.token) then "" else TrimSlashes(u) + "/token")
    ensures m.permissionEndpoint == (if Refuses(probes.permission) then "" else TrimSlashes(u) + "/permission")
    ensures m.introspectionEndpoint == (if Refuses(probes.introspect) then "" else TrimSlashes(u) + "/introspection")
    ensures m.resourceEndpoint == (if Refuses(probes.resourceSet) then "" else TrimSlashes(u) + "/resource_set")
  {
    m := BuildMetadata(u + Slashes(i), Some(probes), opts);
    TrimSlashesOff(u, i);
    TrimSlashesOff(u, j);
  }
}
