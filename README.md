# DAT mapper: a verified model of the token transform

The sovity DAPS ships a Keycloak protocol mapper, `DatMapper`, that turns an OpenID Connect
access token into the payload of an IDS Dynamic Attribute Token (DAT). Its
`transformAccessToken` updates the token in place. It:

1. removes the authorized party (`azp`) and the token type (`typ`);
2. writes the fixed JSON-LD `@context` and `@type` claims;
3. sets the subject to the configured value, or else to the client id;
4. writes audience and scope only when they are configured;
5. always writes `securityProfile`, as JSON null when it is not configured;
6. writes `referringConnector` only when configured;
7. writes `transportCertsSha256` and `extendedGuaranteeClaimValue` only when configured, as
   the configured string split on commas;
8. copies the issued-at time into not-before.

This project models that transform in Dafny and proves what it does.

- `wrappers.dfy`: `Option`, which stands for a Java reference that may be null.
- `comma_split.dfy` (module `CommaSplit`): Java's `String.split(",")` as a pure function
  `Split`, with `Join` as its partner.
  - The split has two rules. A string without a comma gives itself, so `""` gives `[""]`.
    Otherwise the string is cut at every comma and trailing empty segments are dropped, so
    `","` gives `[]` and `"a,,b,,"` gives `["a", "", "b"]`.
  - Proved: no element holds a comma. Joining a split gives back the string without its
    trailing commas. Splitting a join gives back the list, for every non-empty list a split
    can produce. The result is empty exactly for strings made of one or more commas and
    nothing else, and it has at most one element more than the string has commas.
- `dat_mapper.dfy` (module `DatMapper`):
  - `Token` is a class whose fields the transform assigns. The additional claims are a
    `map<string, ClaimValue>` field.
  - `Payload` is a token's value. `Transformed` is the specification of the transform on
    payloads, built from `WithContextClaims`, `WithSecurityProfile` and `WithOptionalClaims`.
  - `TransformAccessToken` updates a `Token` in the order of the source. It does this through
    one step method per group of statements, and each step method may modify only the fields
    it writes. It is proved to leave exactly `Transformed` of the token's old value, and to
    return the same object.
  - Lemmas about `Transformed` prove the claim-by-claim behaviour, that no other claim
    changes, idempotence, and the worked example of a token for client `connector-1`.

The configuration is a `map<string, string>`: a missing key is a setting that is not
configured, which is how Java's `Map.get` answering null is read. The client id, which the
source reads through `clientSessionCtx.getClientSession().getClient().getClientId()`, is a
plain `clientId: string` parameter.

Two details of the code that the model follows exactly:
- Java's `split(",")` keeps leading and inner empty segments, drops trailing empty segments,
  and returns `[""]` for the empty string.
- Keycloak's `audience(String...)` replaces the audience array, so a configured audience
  becomes the one-element list `[value]`.

## Model

| member | source | states |
|---|---|---|
| `CommaSplit.SplitCommaFree` | src/main/java/de/sovity/keycloak/mapper/dat/DatMapper.java:162 | no element of the split of a configured string contains a comma |
| `CommaSplit.SplitJoin` | src/main/java/de/sovity/keycloak/mapper/dat/DatMapper.java:162 | joining the split with commas gives back the configured string with its trailing commas removed |
| `CommaSplit.SplitOfJoin` | src/main/java/de/sovity/keycloak/mapper/dat/DatMapper.java:168 | splitting the join of a non-empty comma-free list gives the list back, when its last element is non-empty or it has only one element |
| `CommaSplit.SplitLength` | src/main/java/de/sovity/keycloak/mapper/dat/DatMapper.java:162 | the split is empty exactly when the string is one or more commas and nothing else; it has at most one element more than the string has commas (and so than it has characters) |
| `CommaSplit.SplitExampleThree` | src/main/java/de/sovity/keycloak/mapper/dat/DatMapper.java:162 | `"a,b,c"` splits into `["a","b","c"]` |
| `CommaSplit.SplitExampleCerts` | src/main/java/de/sovity/keycloak/mapper/dat/DatMapper.java:162 | `"AA:BB,CC:DD"` splits into `["AA:BB","CC:DD"]` |
| `CommaSplit.SplitExampleEmpty` | src/main/java/de/sovity/keycloak/mapper/dat/DatMapper.java:162 | `""` splits into `[""]` and `","` into `[]` |
| `CommaSplit.SplitExampleTrailingEmpty` | src/main/java/de/sovity/keycloak/mapper/dat/DatMapper.java:168 | trailing empty segments are dropped and inner ones kept: `"a,,b,,"` splits into `["a","","b"]` |
| `CommaSplit.SplitExampleLeadingEmpty` | src/main/java/de/sovity/keycloak/mapper/dat/DatMapper.java:168 | a leading empty segment is kept: `",a"` splits into `["","a"]` |
| `DatMapper.WithContextClaims` | src/main/java/de/sovity/keycloak/mapper/dat/DatMapper.java:133-134 | `@context` and `@type` hold their fixed values; every other claim is as before |
| `DatMapper.WithSecurityProfile` | src/main/java/de/sovity/keycloak/mapper/dat/DatMapper.java:153 | `securityProfile` is always present; it is null exactly when not configured, and otherwise the configured value; every other claim is as before |
| `DatMapper.WithOptionalClaims` | src/main/java/de/sovity/keycloak/mapper/dat/DatMapper.java:155-170 | each of the three optional claims is present exactly when configured or already there; a configured one holds the configured value, split on commas for the two lists; one not configured, and every other claim, is as before |
| `DatMapper.Transformed` | src/main/java/de/sovity/keycloak/mapper/dat/DatMapper.java:128-176 | `azp` and `typ` are absent; the subject is the configured one, or else the client id; audience and scope are the configured values, or else unchanged with no default; `iat` is unchanged and `nbf` equals it |
| `DatMapper.TransformedFixedClaims` | src/main/java/de/sovity/keycloak/mapper/dat/DatMapper.java:133-153 | after the transform `@context` is `https://w3id.org/idsa/contexts/context.jsonld`, `@type` is `ids:DatPayload`, and `securityProfile` is present and null exactly when not configured |
| `DatMapper.TransformedOptionalClaims` | src/main/java/de/sovity/keycloak/mapper/dat/DatMapper.java:155-170 | after the transform each of `referringConnector`, `transportCertsSha256` and `extendedGuaranteeClaimValue` is present if and only if it is configured or was already there; configured ones hold the configured value or its comma split; ones not configured are unchanged |
| `DatMapper.TransformedListClaimsRecoverConfig` | src/main/java/de/sovity/keycloak/mapper/dat/DatMapper.java:160-170 | a configured list claim has no element containing a comma, and its elements joined with commas give the configured string without trailing commas |
| `DatMapper.TransformedKeepsOtherClaims` | src/main/java/de/sovity/keycloak/mapper/dat/DatMapper.java:133-170 | no additional claim other than the six the transform writes appears, disappears or changes |
| `DatMapper.TransformedIdempotent` | src/main/java/de/sovity/keycloak/mapper/dat/DatMapper.java:128-176 | transforming an already transformed token with the same configuration and client changes nothing |
| `DatMapper.TransformedIgnoresOverwrittenClaims` | src/main/java/de/sovity/keycloak/mapper/dat/DatMapper.java:128-176 | the result does not depend on the token's previous `azp`, `typ`, subject or `nbf` |
| `DatMapper.TransformedSampleToken` | src/main/java/de/sovity/keycloak/mapper/dat/DatMapper.java:128-176 | with only audience and transport certificates configured, client `connector-1` and `iat` 1000: the subject is `connector-1`, the audience is `["idsc:IDS_CONNECTORS_ALL"]`, `nbf` is 1000, and the additional claims are exactly `@context`, `@type`, a null `securityProfile` and `transportCertsSha256 = ["AA:BB","CC:DD"]` |
| `DatMapper.RemoveOidcClaims` | src/main/java/de/sovity/keycloak/mapper/dat/DatMapper.java:129-131 | `azp` and `typ` become absent; no other field changes |
| `DatMapper.PutContextClaims` | src/main/java/de/sovity/keycloak/mapper/dat/DatMapper.java:133-134 | the additional claims become `WithContextClaims` of the old ones; no other field changes |
| `DatMapper.SetSubject` | src/main/java/de/sovity/keycloak/mapper/dat/DatMapper.java:136-141 | the subject becomes the configured value, or else the client id; no other field changes |
| `DatMapper.SetAudienceAndScope` | src/main/java/de/sovity/keycloak/mapper/dat/DatMapper.java:143-151 | audience and scope become the configured values, or else keep their old values; no other field changes |
| `DatMapper.PutSecurityProfile` | src/main/java/de/sovity/keycloak/mapper/dat/DatMapper.java:153 | the additional claims become `WithSecurityProfile` of the old ones; no other field changes |
| `DatMapper.PutConfiguredClaims` | src/main/java/de/sovity/keycloak/mapper/dat/DatMapper.java:155-170 | the additional claims become `WithOptionalClaims` of the old ones; no other field changes |
| `DatMapper.CopyIssuedAtToNotBefore` | src/main/java/de/sovity/keycloak/mapper/dat/DatMapper.java:172-173 | `nbf` becomes the token's `iat`; no other field changes |
| `DatMapper.TransformAccessToken` | src/main/java/de/sovity/keycloak/mapper/dat/DatMapper.java:128-176 | the token's new value is `Transformed` of its old value, and the method returns the same token object |

## Left out

- The static initializer that builds the admin-UI list of configuration properties
  (DatMapper.java:49-105). It is UI metadata filled in through Keycloak helper calls.
- The metadata getters `getDisplayCategory`, `getDisplayType`, `getHelpText`,
  `getConfigProperties` and `getId`, and `PROVIDER_ID` (DatMapper.java:29, 107-125). They
  return constants.
- The UI default values (DatMapper.java:33, 36, 39). They are shown to the admin and never
  applied by the transform, so the model has no fallback for them.
- The Keycloak collaborators `KeycloakSession`, `UserSessionModel`, `ProtocolMapperModel` and
  the client-session chain. They are replaced by a configuration map and a `clientId`
  parameter.
- `clientId` is a non-null string. The Java code would set a null subject if the client id
  were null; that is the caller's responsibility and is not modelled.
- The rest of Keycloak's `AccessToken` (expiry, issuer, roles and so on), which the
  transform does not touch.
- Additional claim values other than a string, a list of strings or null. All claims the
  transform writes are of these kinds. A claim of another JSON kind that was already present
  is not representable, but the transform would leave it alone.
- The width of `java.lang.Long` for `iat`/`nbf`. The value is only copied, so 64-bit
  bounds play no part.
- General regular-expression splitting. Only `split` on the one-character separator `","`
  occurs, and only that is modelled.
- Token signing, JSON serialisation and concurrency. None happens in this code.
- Any intended default for `securityProfile`. Writing null when it is not configured may be
  unintended: the UI offers a default at DatMapper.java:39. The model keeps the code's
  behaviour and proves it (`TransformedFixedClaims`).
