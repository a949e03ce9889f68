/** The DAT mapper: the transform that turns an OpenID Connect access token into the
    payload of an IDS Dynamic Attribute Token (DAT), driven by the mapper's configuration.

    The token is an object that the transform updates in place (class Token); its
    observable value is a Payload. Transformed is the specification of the transform on
    payloads; TransformAccessToken is the step-by-step update of a Token, proved to
    produce exactly Transformed of the token's previous value.
 */
module DatMapper {
  import opened Wrappers
  import CommaSplit

  // ---------------------------------------------------------------------------
  // Configuration keys, as the admin enters them for the mapper

  const SubjectConfigKey := "subject-claim"
  const AudienceConfigKey := "audience-claim"
  const ScopeConfigKey := "scope-claim"
  const SecurityProfileConfigKey := "security-profile-claim"
  const ReferringConnectorConfigKey := "referring-connector-claim"
  const TransportCertsConfigKey := "transport-certs-claim"
  const ExtendedGuaranteeConfigKey := "extended-guarantee-claim"

  // Names of the additional claims the transform writes into the token

  const ContextClaim := "@context"
  const TypeClaim := "@type"
  const SecurityProfileClaim := "securityProfile"
  const ReferringConnectorClaim := "referringConnector"
  const TransportCertsClaim := "transportCertsSha256"
  const ExtendedGuaranteeClaim := "extendedGuaranteeClaimValue"

  // The fixed values of the two context-identification claims

  const DatContext := "https://w3id.org/idsa/contexts/context.jsonld"
  const DatPayloadType := "ids:DatPayload"

  /** The six additional claims the transform may write; it leaves every other one alone. */
  const WrittenClaims: set<string> :=
    {ContextClaim, TypeClaim, SecurityProfileClaim, ReferringConnectorClaim, TransportCertsClaim, ExtendedGuaranteeClaim}

  /** The six claim names are pairwise different (they differ in length). */
  lemma ClaimNamesDistinct()
    ensures |ContextClaim| == 8 && |TypeClaim| == 5 && |SecurityProfileClaim| == 15
    ensures |ReferringConnectorClaim| == 18 && |TransportCertsClaim| == 20 && |ExtendedGuaranteeClaim| == 27
  {
  }

  /** The value of an additional claim: a string, a list of strings, or JSON null. */
  datatype ClaimValue = Str(str: string) | StrList(items: seq<string>) | Null

  /** The mapper's configuration. A key that is missing is a setting that is not configured
      (the Java map then answers null). */
  type Config = map<string, string>

  /** The value of an access token: the standard claims the transform touches, and the
      map of additional claims. The audience is an array of strings. Timestamps are
      seconds, possibly missing. */
  datatype Payload = Payload(
    azp: Option<string>,
    typ: Option<string>,
    sub: Option<string>,
    aud: Option<seq<string>>,
    scope: Option<string>,
    iat: Option<int>,
    nbf: Option<int>,
    otherClaims: map<string, ClaimValue>)

  /** The configured value of `key`, or None when it is not configured. */
  function Lookup(config: Config, key: string): Option<string> {
    if key in config then Some(config[key]) else None
  }

  /** Claim `k` is present in `after` exactly when it is in `before`, with the same value. */
  predicate Untouched(before: map<string, ClaimValue>, after: map<string, ClaimValue>, k: string) {
    (k in after <==> k in before) && (k in before ==> after[k] == before[k])
  }

  /** The two context-identification claims every DAT carries, with their fixed values. */
  function WithContextClaims(claims: map<string, ClaimValue>): (r: map<string, ClaimValue>)
    ensures ContextClaim in r && r[ContextClaim] == Str(DatContext)
    ensures TypeClaim in r && r[TypeClaim] == Str(DatPayloadType)
    ensures forall k :: k != ContextClaim && k != TypeClaim ==> Untouched(claims, r, k)
  {
    claims[ContextClaim := Str(DatContext)][TypeClaim := Str(DatPayloadType)]
  }

  /** The security profile claim, which is written even when it is not configured (then as null). */
  function WithSecurityProfile(claims: map<string, ClaimValue>, config: Config): (r: map<string, ClaimValue>)
    ensures SecurityProfileClaim in r
    ensures r[SecurityProfileClaim] == Null <==> SecurityProfileConfigKey !in config
    ensures SecurityProfileConfigKey in config ==> r[SecurityProfileClaim] == Str(config[SecurityProfileConfigKey])
    ensures forall k :: k != SecurityProfileClaim ==> Untouched(claims, r, k)
  {
    claims[SecurityProfileClaim :=
      if SecurityProfileConfigKey in config then Str(config[SecurityProfileConfigKey]) else Null]
  }

  /** The claims a DAT carries only when they are configured: the referring connector, and
      the transport certificate hashes and extended guarantees as comma-split lists. */
  function WithOptionalClaims(claims: map<string, ClaimValue>, config: Config): (r: map<string, ClaimValue>)
    ensures ReferringConnectorClaim in r <==> ReferringConnectorConfigKey in config || ReferringConnectorClaim in claims
    ensures ReferringConnectorConfigKey in config ==>
              r[ReferringConnectorClaim] == Str(config[ReferringConnectorConfigKey])
    ensures TransportCertsClaim in r <==> TransportCertsConfigKey in config || TransportCertsClaim in claims
    ensures TransportCertsConfigKey in config ==>
              r[TransportCertsClaim] == StrList(CommaSplit.Split(config[TransportCertsConfigKey]))
    ensures ExtendedGuaranteeClaim in r <==> ExtendedGuaranteeConfigKey in config || ExtendedGuaranteeClaim in claims
    ensures ExtendedGuaranteeConfigKey in config ==>
              r[ExtendedGuaranteeClaim] == StrList(CommaSplit.Split(config[ExtendedGuaranteeConfigKey]))
    ensures ReferringConnectorConfigKey !in config ==> Untouched(claims, r, ReferringConnectorClaim)
    ensures TransportCertsConfigKey !in config ==> Untouched(claims, r, TransportCertsClaim)
    ensures ExtendedGuaranteeConfigKey !in config ==> Untouched(claims, r, ExtendedGuaranteeClaim)
    ensures forall k :: k != ReferringConnectorClaim && k != TransportCertsClaim && k != ExtendedGuaranteeClaim ==>
              Untouched(claims, r, k)
  {
    ClaimNamesDistinct();
    var withConnector := if ReferringConnectorConfigKey in config
      then claims[ReferringConnectorClaim := Str(config[ReferringConnectorConfigKey])] else claims;
    var withCerts := if TransportCertsConfigKey in config
      then withConnector[TransportCertsClaim := StrList(CommaSplit.Split(config[TransportCertsConfigKey]))]
      else withConnector;
    if ExtendedGuaranteeConfigKey in config
    then withCerts[ExtendedGuaranteeClaim := StrList(CommaSplit.Split(config[ExtendedGuaranteeConfigKey]))]
    else withCerts
  }

  /** The payload the transform produces from payload `p`, under `config`, for the client
      whose client id is `clientId`. The lemmas below state what it does to the additional claims. */
  function Transformed(p: Payload, config: Config, clientId: string): (r: Payload)
    // the authorized party and the token type are removed, whatever they were
    ensures r.azp == None && r.typ == None
    // the subject: the configured one verbatim, or else the client id
    ensures SubjectConfigKey in config ==> r.sub == Some(config[SubjectConfigKey])
    ensures SubjectConfigKey !in config ==> r.sub == Some(clientId)
    // audience and scope: the configured value, or else untouched (no default)
    ensures AudienceConfigKey in config ==> r.aud == Some([config[AudienceConfigKey]])
    ensures AudienceConfigKey !in config ==> r.aud == p.aud
    ensures ScopeConfigKey in config ==> r.scope == Some(config[ScopeConfigKey])
    ensures ScopeConfigKey !in config ==> r.scope == p.scope
    // not-before is the issued-at time, which itself is unchanged
    ensures r.iat == p.iat && r.nbf == p.iat
  {
    var subject := if SubjectConfigKey in config then config[SubjectConfigKey] else clientId;
    var aud := if AudienceConfigKey in config then Some([config[AudienceConfigKey]]) else p.aud;
    var scope := if ScopeConfigKey in config then Some(config[ScopeConfigKey]) else p.scope;
    var claims := WithOptionalClaims(WithSecurityProfile(WithContextClaims(p.otherClaims), config), config);
    Payload(None, None, Some(subject), aud, scope, p.iat, p.iat, claims)
  }

  /** After the transform the context and type claims have their fixed values, and the
      security profile claim is present, null exactly when it is not configured. */
  lemma TransformedFixedClaims(p: Payload, config: Config, clientId: string)
    ensures var r := Transformed(p, config, clientId).otherClaims;
      && ContextClaim in r && r[ContextClaim] == Str(DatContext)
      && TypeClaim in r && r[TypeClaim] == Str(DatPayloadType)
      && SecurityProfileClaim in r
      && (r[SecurityProfileClaim] == Null <==> SecurityProfileConfigKey !in config)
      && (SecurityProfileConfigKey in config ==> r[SecurityProfileClaim] == Str(config[SecurityProfileConfigKey]))
  {
  }

  /** After the transform the referring connector, transport certificate and extended
      guarantee claims are present exactly when they are configured or were there before;
      a configured one has the configured value (split on commas for the two lists), and
      one that is not configured keeps its previous value. */
  lemma TransformedOptionalClaims(p: Payload, config: Config, clientId: string)
    ensures var r := Transformed(p, config, clientId).otherClaims;
      && (ReferringConnectorClaim in r <==>
            ReferringConnectorConfigKey in config || ReferringConnectorClaim in p.otherClaims)
      && (ReferringConnectorConfigKey in config ==>
            r[ReferringConnectorClaim] == Str(config[ReferringConnectorConfigKey]))
      && (ReferringConnectorConfigKey !in config ==> Untouched(p.otherClaims, r, ReferringConnectorClaim))
      && (TransportCertsClaim in r <==> TransportCertsConfigKey in config || TransportCertsClaim in p.otherClaims)
      && (TransportCertsConfigKey in config ==>
            r[TransportCertsClaim] == StrList(CommaSplit.Split(config[TransportCertsConfigKey])))
      && (TransportCertsConfigKey !in config ==> Untouched(p.otherClaims, r, TransportCertsClaim))
      && (ExtendedGuaranteeClaim in r <==>
            ExtendedGuaranteeConfigKey in config || ExtendedGuaranteeClaim in p.otherClaims)
      && (ExtendedGuaranteeConfigKey in config ==>
            r[ExtendedGuaranteeClaim] == StrList(CommaSplit.Split(config[ExtendedGuaranteeConfigKey])))
      && (ExtendedGuaranteeConfigKey !in config ==> Untouched(p.otherClaims, r, ExtendedGuaranteeClaim))
  {
  }

  /** Apart from the six claims it writes, the transform leaves the additional claims alone:
      none appears, disappears or changes. */
  lemma TransformedKeepsOtherClaims(p: Payload, config: Config, clientId: string)
    ensures forall k :: k !in WrittenClaims ==> Untouched(p.otherClaims, Transformed(p, config, clientId).otherClaims, k)
  {
  }

  /** A configured list claim holds no element with a comma, and joining its elements with
      commas gives back the configured string without its trailing commas. */
  lemma TransformedListClaimsRecoverConfig(p: Payload, config: Config, clientId: string, claim: string, key: string)
    requires (claim, key) == (TransportCertsClaim, TransportCertsConfigKey)
          || (claim, key) == (ExtendedGuaranteeClaim, ExtendedGuaranteeConfigKey)
    requires key in config
    ensures var r := Transformed(p, config, clientId).otherClaims;
      && claim in r && r[claim].StrList?
      && CommaSplit.CommaFree(r[claim].items)
      && CommaSplit.Join(r[claim].items) == CommaSplit.TrimTrailingCommas(config[key])
  {
    TransformedOptionalClaims(p, config, clientId);
    CommaSplit.SplitCommaFree(config[key]);
    CommaSplit.SplitJoin(config[key]);
  }

  /** Applying the transform to its own result changes nothing. */
  lemma TransformedIdempotent(p: Payload, config: Config, clientId: string)
    ensures Transformed(Transformed(p, config, clientId), config, clientId) == Transformed(p, config, clientId)
  {
  }

  /** The result does not depend on the authorized party, type, subject or not-before that
      the token carried before: they are all overwritten. */
  lemma TransformedIgnoresOverwrittenClaims(p: Payload, q: Payload, config: Config, clientId: string)
    requires p.aud == q.aud && p.scope == q.scope && p.iat == q.iat && p.otherClaims == q.otherClaims
    ensures Transformed(p, config, clientId) == Transformed(q, config, clientId)
  {
  }

  /** A token for client "connector-1" issued at 1000, with the audience and the transport
      certificate hashes configured and nothing else. */
  lemma TransformedSampleToken(p: Payload)
    requires p.iat == Some(1000) && p.otherClaims == map[]
    ensures var config := map[AudienceConfigKey := "idsc:IDS_CONNECTORS_ALL", TransportCertsConfigKey := "AA:BB,CC:DD"];
      var r := Transformed(p, config, "connector-1");
      && r.sub == Some("connector-1")
      && r.aud == Some(["idsc:IDS_CONNECTORS_ALL"])
      && r.nbf == Some(1000)
      && r.otherClaims == map[
           ContextClaim := Str(DatContext), TypeClaim := Str(DatPayloadType), SecurityProfileClaim := Null,
           TransportCertsClaim := StrList(["AA:BB", "CC:DD"])]
  {
    CommaSplit.SplitExampleCerts();
    ClaimNamesDistinct();
  }

  /** An access token under construction, which the mapper updates in place. */
  class Token {
    var azp: Option<string>
    var typ: Option<string>
    var sub: Option<string>
    var aud: Option<seq<string>>
    var scope: Option<string>
    var iat: Option<int>
    var nbf: Option<int>
    var otherClaims: map<string, ClaimValue>

    /** The token's current value. */
    function State(): Payload
      reads this
    {
      Payload(azp, typ, sub, aud, scope, iat, nbf, otherClaims)
    }

    /** A token with the given value, as the identity provider hands it to the mapper. */
    constructor (p: Payload)
      ensures State() == p
    {
      azp, typ, sub, aud, scope, iat, nbf, otherClaims :=
        p.azp, p.typ, p.sub, p.aud, p.scope, p.iat, p.nbf, p.otherClaims;
    }
  }

  // ---------------------------------------------------------------------------
  // The transform, one step per group of statements in the source

  /** The authorized party (azp) and the token type (typ) are not part of a DAT: both are removed. */
  method RemoveOidcClaims(token: Token)
    modifies token`azp, token`typ
    ensures token.azp == None && token.typ == None
  {
    token.azp := None;
    token.typ := None;
  }

  /** Writes the fixed context and type of a DAT payload. */
  method PutContextClaims(token: Token)
    modifies token`otherClaims
    ensures token.otherClaims == WithContextClaims(old(token.otherClaims))
  {
    token.otherClaims := token.otherClaims[ContextClaim := Str(DatContext)];
    token.otherClaims := token.otherClaims[TypeClaim := Str(DatPayloadType)];
  }

  /** The subject is the configured one, or else the client id (not the identity provider's internal id). */
  method SetSubject(token: Token, config: Config, clientId: string)
    modifies token`sub
    ensures SubjectConfigKey in config ==> token.sub == Some(config[SubjectConfigKey])
    ensures SubjectConfigKey !in config ==> token.sub == Some(clientId)
  {
    var subjectClaimValue := Lookup(config, SubjectConfigKey);
    if subjectClaimValue.None? {
      subjectClaimValue := Some(clientId);
    }
    token.sub := subjectClaimValue;
  }

  /** Audience and scope are written when they are configured and left alone otherwise. */
  method SetAudienceAndScope(token: Token, config: Config)
    modifies token`aud, token`scope
    ensures token.aud == if AudienceConfigKey in config then Some([config[AudienceConfigKey]]) else old(token.aud)
    ensures token.scope == if ScopeConfigKey in config then Some(config[ScopeConfigKey]) else old(token.scope)
  {
    var audienceClaimValue := Lookup(config, AudienceConfigKey);
    if audienceClaimValue.Some? {
      token.aud := Some([audienceClaimValue.value]);
    }

    var scopeClaimValue := Lookup(config, ScopeConfigKey);
    if scopeClaimValue.Some? {
      token.scope := scopeClaimValue;
    }
  }

  /** The security profile is written whether or not it is configured; when it is not, as null. */
  method PutSecurityProfile(token: Token, config: Config)
    modifies token`otherClaims
    ensures token.otherClaims == WithSecurityProfile(old(token.otherClaims), config)
  {
    var securityProfile := Lookup(config, SecurityProfileConfigKey);
    token.otherClaims := token.otherClaims[SecurityProfileClaim :=
      if securityProfile.Some? then Str(securityProfile.value) else Null];
  }

  /** The referring connector and the two comma-separated list claims, each only when configured. */
  method PutConfiguredClaims(token: Token, config: Config)
    modifies token`otherClaims
    ensures token.otherClaims == WithOptionalClaims(old(token.otherClaims), config)
  {
    ghost var before := token.otherClaims;

    var referringConnectorClaimValue := Lookup(config, ReferringConnectorConfigKey);
    if referringConnectorClaimValue.Some? {
      token.otherClaims := token.otherClaims[ReferringConnectorClaim := Str(referringConnectorClaimValue.value)];
    }
    ghost var withConnector := token.otherClaims;

    var transportCertsClaimValue := Lookup(config, TransportCertsConfigKey);
    if transportCertsClaimValue.Some? {
      var certs := CommaSplit.Split(transportCertsClaimValue.value);
      token.otherClaims := token.otherClaims[TransportCertsClaim := StrList(certs)];
    }
    ghost var withCerts := token.otherClaims;

    var extendedGuaranteeClaimValue := Lookup(config, ExtendedGuaranteeConfigKey);
    if extendedGuaranteeClaimValue.Some? {
      var guarantees := CommaSplit.Split(extendedGuaranteeClaimValue.value);
      token.otherClaims := token.otherClaims[ExtendedGuaranteeClaim := StrList(guarantees)];
    }

    assert withConnector == if ReferringConnectorConfigKey in config
      then before[ReferringConnectorClaim := Str(config[ReferringConnectorConfigKey])] else before;
    assert withCerts == if TransportCertsConfigKey in config
      then withConnector[TransportCertsClaim := StrList(CommaSplit.Split(config[TransportCertsConfigKey]))]
      else withConnector;
  }

  /** Not-before becomes the issued-at time that the token carries. */
  method CopyIssuedAtToNotBefore(token: Token)
    modifies token`nbf
    ensures token.nbf == token.iat
  {
    var issuedAt := token.iat;
    token.nbf := issuedAt;
  }

  /** The mapper's transform: updates `token` in the order of the source and returns the same object. */
  method TransformAccessToken(token: Token, config: Config, clientId: string) returns (r: Token)
    modifies token
    ensures r == token
    ensures token.State() == Transformed(old(token.State()), config, clientId)
  {
    RemoveOidcClaims(token);
    PutContextClaims(token);
    SetSubject(token, config, clientId);
    SetAudienceAndScope(token, config);
    PutSecurityProfile(token, config);
    PutConfiguredClaims(token, config);
    CopyIssuedAtToNotBefore(token);
    r := token;
  }
}
