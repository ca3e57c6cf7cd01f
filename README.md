# A Dafny model of the tezli/jwt token codec and signature engines

This project models the core of a Go library that issues and verifies
compact signed tokens (JWS compact serialisation, section 7.1 of RFC 7515,
signing input as in section 5.1 of RFC 7515). It covers:

- **the codec**: `Create`, `Parse` and `IsExpired`;
- **the algorithm registry**: twelve accepted header `alg` names;
- **four signature engines**: HMAC, RSASSA-PKCS1-v1_5, RSASSA-PSS and ECDSA,
  each with a key loader that can fail;
- **nine algorithm facades**: HS256, HS384, HS512, RS256, RS384, RS512,
  ES256, ES384, ES512. Each one binds one fixed name and one hash to an
  engine and delegates to it.

Files and modules:

| file | module | models |
|---|---|---|
| wrappers.dfy | `Wrappers` | Go's `(T, error)` and `error` returns, nil as `None` |
| crypto.dfy | `Crypto` | byte strings, hashes, key records, and the foreign crypto/PEM/x509 functions with their assumed laws (`Sound`) |
| names.dfy | `Names` | the name constants and the registry (jwt.go:26-44) |
| strings.dfy | `Strings` | `strings.Split` on a one-byte separator |
| hmac.dfy | `Hmac` | HMAC.go |
| rsa.dfy | `Rsa` | RSA.go |
| rsapss.dfy | `RsaPss` | RSAPSS.go |
| ecdsa.dfy | `Ecdsa` | ecdsa.go |
| facades.dfy | `Facades` | HS256.go, HS348.go, HS512.go, RS256.go, RS384.go, RS512.go, ES256.go, ES384.go, ES512.go |
| jwt.dfy | `Jwt` | jwt.go: Claims, header, token, Create, Parse, IsExpired |

How the model represents the Go program:

- **Foreign code is a parameter.** Hashing, PEM decoding, x509 key parsing
  and the RSA/ECDSA primitives are fields of a `Crypto.Primitives` value.
  base64url and `encoding/json` are fields of a `Jwt.Codecs` value. The
  model never looks inside them. The laws the proofs assume are ghost
  predicates that lemmas take as `requires`:
  - `Crypto.Sound`: digests have the hash's size; pem.Decode finds no block
    in zero bytes; parsed EC keys lie on a named curve; every primitive
    signature verifies under the signer's public key with the same
    hash/options; a signature verifies for at most one hashed message.
    The last of these (the binding laws) is an idealisation that holds in
    practice, not exactly; see "## Left out".
  - `Jwt.CodecLaws`: base64url decoding inverts encoding, and its output
    never contains `.`; JSON decoding inverts encoding for headers and
    for claims (minus `raw`); claims always encode, which holds in Go
    because `Claims` has only int64 and string fields and `Raw` is tagged
    `json:"-"`, so under the laws the marshal-error branches of `Encode`
    and `Create` are never taken; an encoded claims text also decodes as
    a generic map.
- **Strings.** A Go `string` on the wire path (token, segments, base64
  text) is a byte sequence `Bytes`, so `[]byte(s)` is the identity. Names,
  claim strings and error texts are Dafny strings.
- **nil.** A nil `[]byte` is `None`, kept apart from the empty slice
  `Some([])`, because the code only ever tests `== nil`.
- **Errors** are values, with the exact message texts of the source:
  `Result<T>` in place of `(T, error)`, `Outcome` in place of `error`.
- **Interface and mutation.** The `Algorithm` interface is the datatype
  `Facades.Algorithm`, one variant per facade. `Name`, `Sign` and
  `Verify` dispatch on the variant. The caller's `*Claims` is a
  `Jwt.ClaimsRef` object, which `Jwt.Create` modifies. The registry scan
  is the loop in `Jwt.IsRegistered`. `Jwt.Parse` is a method proved equal
  to the function `Jwt.ParseResult`, and the lemmas are stated about that
  function. The method `Jwt.Create` is proved against the function
  `Jwt.Encode` in the same way.

Behaviour of the code that a reader of its names and messages would not
expect, modelled as the code has it:

- The HMAC engine never reads its secret. `sign` is the plain digest of the
  data (HMAC.go:42-47), and so is the value `verify` compares against
  (`Hmac.SecretUnused`). An HS256 token made under one secret is therefore
  accepted under any other secret (`Jwt.HmacTokenNeedsNoSecret`), unlike
  the keyed MAC of section 3.2 of RFC 7518.
- `newHMAC` refuses only a nil secret, although its message says the
  secret "can't be empty" (HMAC.go:32-33). An empty secret is accepted
  (`Hmac.EmptySecretAccepted`).
- `sign` refuses only nil data, although its message says the data
  "can't be empty" (HMAC.go:39-40). A non-nil empty slice is signed
  (`Hmac.Sign`).
- The 384-bit ES, HS and PS names are spelled "ES348", "HS348" and
  "PS348" (jwt.go:28, jwt.go:31, jwt.go:34), unlike the identifiers
  ES384, HS384 and PS384 of section 3.1 of RFC 7518. `NewES384` and
  `NewHS384` are named "ES348" and "HS348". These spellings are kept
  verbatim.
- No facade binds a PS name. The registry accepts "PS256", "PS348" and
  "PS512", but none of the nine facades answers to them
  (`Facades.UnboundRegistryNames`).

## Model

| member | source | states |
|---|---|---|
| `Names.RegistryContents` | jwt.go:26-44 | the registry is exactly the twelve literal strings ES256, ES348, ES512, HS256, HS348, HS512, PS256, PS348, PS512, RS256, RS384, RS512, each once |
| `Names.RegistryRejectsRfcSpellings` | jwt.go:41-44 | "ES384", "HS384", "PS384", "" and "none" are not accepted; "RS384" is |
| `Strings.Split` | jwt.go:115 | splitting never yields zero segments, so "" gives one segment |
| `Strings.JoinSplit` | jwt.go:115 | joining the segments with the separator gives back the input |
| `Strings.SplitLength` | jwt.go:115-118 | the number of segments is the number of separators plus one |
| `Strings.SplitSegmentsSeparatorFree` | jwt.go:115 | no segment contains the separator |
| `Strings.SplitJoin` | jwt.go:115 | splitting a join of separator-free segments gives those segments |
| `Strings.SplitThree` | jwt.go:111 | a text seg0.seg1.seg2 of dot-free parts splits into exactly those three |
| `Hmac.NewHMAC` | HMAC.go:31-36 | construction fails exactly when the secret is nil, with "Secret or private key can't be empty"; otherwise the name, hash and secret are stored as given |
| `Hmac.EmptySecretAccepted` | HMAC.go:32-35 | an empty non-nil secret builds an engine |
| `Hmac.Sign` | HMAC.go:38-48 | sign fails exactly for nil data; otherwise the result is the digest of the data under the stored hash |
| `Hmac.Verify` | HMAC.go:50-59 | verify succeeds exactly when the mac equals the digest of the data, else fails with "Token could not be verfify" |
| `Hmac.SignThenVerify` | HMAC_test.go:23-40 | signing non-nil data succeeds, and verify accepts the result for the same data |
| `Hmac.VerifyOtherData` | HMAC.go:50-58 | a signature over d1 is accepted for d2 exactly when their digests coincide |
| `Hmac.VerifyRejectsWrongLength` | HMAC_test.go:59-66 | a mac whose length is not the digest size is refused, so verify("invalid", "invalid") fails |
| `Hmac.SecretUnused` | HMAC.go:42-53 | two engines with the same hash and any secrets sign and verify identically |
| `Rsa.NewRSA` | RSA.go:42-61 | checks in order: nil key ("Key is empty"), no PEM block, bytes after the block ("Multiple blocks ..."), PKCS #1 error passed through unchanged; on success the name and hash are stored verbatim and the public key is the private key's public part |
| `Rsa.Sign` | RSA.go:63-68 | the PKCS #1 v1.5 signature, under the stored private key and hash, of the stored hash's digest of the data; nil data is hashed as empty (partner: `Rsa.SignThenVerify`) |
| `Rsa.Verify` | RSA.go:70-75 | the PKCS #1 v1.5 check of the signature against the stored hash's digest of the data, under the stored public key, its error returned unchanged |
| `Rsa.NilKeyBeforeDecoding` | RSA.go:43-45 | a nil key gives "Key is empty" whatever the decoders would do |
| `Rsa.EmptyKeyFailsAtPem` | RSA.go:43-49 | an empty non-nil key passes the nil check and fails at the PEM stage |
| `Rsa.SignThenVerify` | RSA.go:63-75 | a signature verifies for the data it was made over, the stored hash being used for the digest and for the primitive in both |
| `Rsa.OtherDataFails` | RSA_test.go:43-62 | a signature is refused for data with a different digest |
| `RsaPss.NewRSAPSS` | RSAPSS.go:35-54 | the same four checks in the same order; on success the options are salt length auto and the constructor's hash, and the public key is the private key's |
| `RsaPss.Sign` | RSAPSS.go:56-61 | the PSS signature of the stored hash's digest of the data, with the stored hash and the stored options (partner: `RsaPss.SignThenVerify`) |
| `RsaPss.Verify` | RSAPSS.go:63-68 | the PSS check of the signature against the stored hash's digest of the data, with the stored public key, hash and options |
| `RsaPss.SameChecksAsRsa` | RSAPSS.go:36-49 | the PSS loader accepts exactly the keys the PKCS #1 v1.5 loader accepts, with the same keys, and fails with the same message except for the nil-key wording |
| `RsaPss.SignThenVerify` | RSAPSS.go:56-68 | signing and verifying use the same stored options and hash, so a signature verifies for its data |
| `RsaPss.OtherDataFails` | RSAPSS.go:63-68 | a signature is refused for data with a different digest |
| `Ecdsa.CurveTableContents` | ecdsa.go:27-37 | the table maps exactly ES256 to P-256, ES348 to P-384 and ES512 to P-521; "ES384" looks up "" |
| `Ecdsa.NewECDSA` | ecdsa.go:48-69 | checks in order: nil key, no PEM block, bytes after the block, SEC1 error passed through, curve different from the table's entry (an error naming wanted and actual curve); on success name and hash are stored and the public key is the private key's |
| `Ecdsa.Sign` | ecdsa.go:72-77 | the ASN.1 ECDSA signature, under the stored private key, of the stored hash's digest of the data (partner: `Ecdsa.SignThenVerify`) |
| `Ecdsa.UnknownNameRejectsEveryKey` | ecdsa.go:63-67 | a name absent from the table rejects every key |
| `Ecdsa.P256KeyUnderES384` | ecdsa_test.go:93-100 | a P-256 key under "ES384" is refused with "... Want: . Have: P-256" |
| `Ecdsa.EmptyKeyFailsAtPem` | ecdsa.go:49-55 | an empty non-nil key passes the nil check and fails at the PEM stage |
| `Ecdsa.Verify` | ecdsa.go:80-89 | verify returns an error exactly when the ASN.1 check fails |
| `Ecdsa.SignThenVerify` | ecdsa_test.go:25-43 | a signature verifies for the data it was made over |
| `Ecdsa.OtherDataFails` | ecdsa_test.go:45-64 | a signature is refused for data with a different digest |
| `Facades.NewHS256` | HS256.go:24-30 | fails exactly for a nil secret, with newHMAC's error unchanged; otherwise an HS256 facade whose engine has name "HS256" and SHA-256 |
| `Facades.NewHS384` | HS348.go:32-38 | as NewHS256 with SHA-384, but the name is "HS348" |
| `Facades.NewHS512` | HS512.go:24-30 | as NewHS256 with name "HS512" and SHA-512 |
| `Facades.NewRS256` | RS256.go:26-32 | succeeds exactly when newRSA("RS256", key, SHA-256) does, wraps that engine, and otherwise returns its error unchanged |
| `Facades.NewRS384` | RS384.go:26-32 | as NewRS256 with name "RS384" (spelled correctly) and SHA-384 |
| `Facades.NewRS512` | RS512.go:26-32 | as NewRS256 with name "RS512" and SHA-512 |
| `Facades.NewES256` | ES256.go:26-32 | succeeds exactly when newECDSA("ES256", key, SHA-256) does, which accepts only P-256 keys; errors pass through unchanged |
| `Facades.NewES384` | ES384.go:26-32 | as NewES256 with name "ES348", SHA-384 and only P-384 keys |
| `Facades.NewES512` | ES512.go:26-32 | as NewES256 with name "ES512", SHA-512 and only P-521 keys |
| `Facades.NameInRegistry` | ES384.go:45-47 | Name() of a constructed facade is its bound name, and that name is in the registry |
| `Facades.Name` | HS256.go:40-42 | the name stored in the facade's engine, read by every facade's Name() (e.g. ES384.go:45-47) |
| `Facades.Sign` | HS256.go:32-34 | the wrapped engine's sign on the same data (e.g. RS256.go:35-37, ES384.go:35-37) |
| `Facades.Verify` | HS256.go:36-38 | the wrapped engine's verify, with both arguments passed in the same positions (e.g. ES384.go:40-42) |
| `Facades.UnboundRegistryNames` | jwt.go:26-38 | no facade is named PS256, PS348, PS512, HS384 or ES384 |
| `Facades.SignThenVerify` | RS256.go:35-42 | a signature a constructed facade makes verifies with the same facade, Verify's arguments being forwarded positionally |
| `Facades.OtherDataFails` | ES512.go:35-42 | a facade's signature is refused for a message with a different digest |
| `Facades.HmacSignTotalAndDeterministic` | HS256.go:32-34 | an HMAC facade signs every non-nil input and its output does not depend on the random source |
| `Jwt.Create` | jwt.go:79-112 | nil algorithm: "" and "algorithm can't be nil", claims untouched; otherwise the caller's IssuedAt becomes now with every other field kept, nil claims are replaced by zero claims, and the result is Encode of the stamped claims ("" and the error on failure) |
| `Jwt.Encode` | jwt.go:86-111 | fails exactly when marshalling the claims or signing fails; a marshalling error is returned as is; a created token begins with the header segment and '.' (full layout: `Jwt.EncodeLayout`) |
| `Jwt.EncodeLayout` | jwt.go:86-111 | a created token has three segments: the header {alg: Name(), typ: "jwt"}, the claims, and a signature over exactly segment0 "." segment1 |
| `Jwt.EncodeSignFailure` | jwt.go:104-108 | a Sign error is returned as "Failed to sign token: " followed by its message |
| `Jwt.IsRegistered` | jwt.go:130-135 | the registry scan sets its flag exactly when the name is in the registry |
| `Jwt.Parse` | jwt.go:114-174 | the fail-fast chain returns exactly ParseResult |
| `Jwt.ParseResult` | jwt.go:114-173 | a token that does not split into three segments gives "Invalid token format"; a returned token's alg is in the registry and equal to Name() (every other exit: `Jwt.ParseReturnsDecodeErrors`, `Jwt.ParseChecksAlgorithmFirst`, `Jwt.ParseChecksSignatureBeforeClaims`) |
| `Jwt.ParseNeedsTwoDots` | jwt.go:115-118 | unless the token holds exactly two '.', the result is "Invalid token format" |
| `Jwt.ParseRejectsEmptyAndDots` | jwt_test.go:178-187 | "" and "..." are refused with "Invalid token format" |
| `Jwt.ParseReturnsDecodeErrors` | jwt.go:120-170 | with three segments, each of the six decoding stages (header base64, header JSON, payload base64, signature base64, claims JSON, raw-map JSON), once the stages and checks before it have passed, makes Parse return that stage's own error unchanged; the payload is decoded before the signature; the header base64 exit is the one jwt_test.go:188-202 reaches |
| `Jwt.ParseChecksAlgorithmFirst` | jwt.go:130-141 | an unregistered header alg, or one unequal to Name(), gives "Invalid JWT algorithm" before the payload and signature are decoded |
| `Jwt.ParseRejectsEmptyAlg` | jwt_test.go:203-207 | a header that decodes to {} (alg "") is refused with "Invalid JWT algorithm" |
| `Jwt.ParseChecksSignatureBeforeClaims` | jwt.go:155-163 | a failed verification gives "Invalid signature" whatever the payload's JSON is |
| `Jwt.ParseAcceptsOnlyVerified` | jwt.go:143-173 | a returned token has a registered alg equal to Name(), and its signature was decoded from segment 2 and verified over segment0 "." segment1 |
| `Jwt.CreateParseRoundTrip` | jwt_test.go:210-223 | with a constructed facade, Parse of a created token succeeds with header {Name(), "jwt"} and the encoded claims |
| `Jwt.HmacCreateThenParse` | HS256_test.go:20-31 | with an HMAC facade, Create always succeeds and its token always parses |
| `Jwt.AlgorithmConfusionRejected` | jwt.go:139-141 | a token created by one facade is refused with "Invalid JWT algorithm" by a facade of another name |
| `Jwt.TamperedPayloadRejected` | jwt.go:155-158 | replacing a created token's payload segment by one whose signing input has another digest makes Parse fail |
| `Jwt.HmacTamperedSignatureRejected` | jwt.go:149-158 | with an HMAC facade, a signature other than the digest of the signing input is refused |
| `Jwt.HmacTokenNeedsNoSecret` | HMAC.go:42-53 | a token created by NewHS256 with one secret parses under NewHS256 with any other secret |
| `Jwt.SignatureSegmentSeenDecoded` | jwt.go:149-158 | two signature segments that decode to the same bytes give the same Parse result |
| `Jwt.ExpiryIsStrict` | jwt.go:176-179 | a token is not expired at its expiry instant, is expired one second later, and stays expired |
| `Jwt.JwtToken.IsExpired` | jwt.go:176-179 | true exactly when the expiry lies strictly before the supplied time (partner: `Jwt.ExpiryIsStrict`) |
| `Jwt.ZeroExpiryTokenIsExpired` | jwt_test.go:127-141 | a token created with Expires = 0 parses and is expired at every positive time |

## Left out

- Cryptographic primitives (SHA-2, RSASSA-PKCS1-v1_5, RSASSA-PSS, ECDSA): uninterpreted functions with the laws in `Crypto.Sound`. These are foreign library calls.
- Constant-time comparison in `hmac.Equal`: timing cannot be expressed. Verify compares by equality.
- `rand.Reader` (ecdsa.go:76, RSA.go:67, RSAPSS.go:60): a `RandomStream` argument stands for the bytes it delivers. The signature is an arbitrary output of the primitive.
- PEM decoding (RFC 7468) and PKCS #1 / SEC1 (RFC 5915) DER parsing: abstract fallible functions. Key records keep only the public part and one private value. Primes and precomputed values are not modelled.
- base64url without padding (section 5 of RFC 4648) and `encoding/json`: abstract, with the laws in `Jwt.CodecLaws`. Values in the raw claims map are opaque.
- `time.Now()` (jwt.go:93, jwt.go:177): the current time is a `now` argument.
- The `hash.Write` error branch (HMAC.go:43-46): Go's hashes never return an error from Write, so the model's digest always succeeds.
- The error that jwt.go:90 discards when marshalling the header: header encoding is a total function.
- Algorithms other than the nine facades: a caller's own implementation of the `Algorithm` interface is not modelled. Create and Parse are modelled over the nine facades only. The RSA-PSS engine is modelled, but the source binds no facade to it.
- Nil algorithms other than the untyped nil: `Option<Algorithm>`'s `None` in `Jwt.Create` stands only for an untyped nil interface, and `Jwt.Parse` takes no nil at all. Every `New*` constructor returns a nil facade pointer with its error (e.g. HS256.go:26-28). In Go that value is a non-nil interface: it passes Create's nil check (jwt.go:83) and panics at jwt.go:87, where `Name()` reads through the nil pointer, and it panics in Parse at jwt.go:139. The model has no value for a nil facade pointer, so these panics are not modelled. The untyped nil passed to Parse panics at jwt.go:139 as well and is not modelled either.
- Fixture file I/O in the tests (jwt_test.go:225-235) and writing tokens to disk.
- Rsa.OtherDataFails: requires the two digests to differ and assumes the primitive's binding law. The source's test observes rejection for one concrete pair of inputs.
- RsaPss.OtherDataFails: same assumption as Rsa.OtherDataFails.
- Ecdsa.OtherDataFails: same assumption as Rsa.OtherDataFails.
- Facades.OtherDataFails: same assumption as Rsa.OtherDataFails.
- Jwt.TamperedPayloadRejected: needs a forged payload whose signing input has a different digest. It does not state that every single-byte change has that property.
- Binding laws in `Crypto.Sound` (`Pkcs1v15Binding`, `PssBinding`, `Asn1Binding`): idealisations. For ECDSA they are false as mathematics. Go reduces the digest modulo the group order, so for P-256 and P-384 the digests d and d + n verify with the same signature. For PSS they hold only up to hash collisions. The lemmas that use them (the `OtherDataFails` lemmas, `Jwt.TamperedPayloadRejected`) hold in practice, not exactly.
- Claim strings (`Subject`, `Audience`, `Issuer`): modelled as Dafny strings, which hold only Unicode scalar values. In Go they are byte strings, and `json.Marshal` (jwt.go:95) replaces invalid UTF-8 with U+FFFD. `Jwt.ClaimsRoundTrip` and `Jwt.CreateParseRoundTrip` therefore describe Go only for claims that are valid UTF-8. For other claims, Create then Parse changes them in Go.
- Tampering with the signature segment: the model does not promise that changing any byte of a token's third segment makes Parse fail, and the code does not keep that promise either. `base64.RawURLEncoding` is not strict, so it ignores the unused trailing bits of the last character. A 43-character HS256 signature can have its last character changed (for example 'A' to 'B') with the same decoded bytes, and Parse still succeeds. Go's base64 decoder also skips '\r' and '\n', so a newline inserted anywhere in the third segment goes unnoticed too. `Jwt.SignatureSegmentSeenDecoded` states that Parse sees only the decoded bytes. `Jwt.HmacTamperedSignatureRejected` covers changes to the decoded HMAC signature. For RS and ES facades, a different decoded signature is not shown to be refused, because the primitives may accept several signatures for one message.
