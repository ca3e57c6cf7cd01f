/**
 * The token codec: compact serialisation of a signed token (section 7.1 of
 * RFC 7515) whose signature covers `header "." payload` (section 5.1 of
 * RFC 7515). `Create` stamps the issue time into the caller's claims and
 * builds the three segments; `Parse` is a fail-fast chain that checks the
 * segment count, the header's algorithm, and the signature, and only then
 * decodes the claims. base64url and JSON are foreign code, given as a
 * `Codecs` value; `CodecLaws` states what the proofs assume of them.
 */
module Jwt {
  import opened Wrappers
  import opened Crypto
  import opened Names
  import opened Strings
  import opened Facades

  type Int64 = x: int | -0x8000_0000_0000_0000 <= x < 0x8000_0000_0000_0000

  /** The byte '.'. */
  const Dot: byte := 46

  /** A value in the raw claims map (a decoded interface{}); the model does not interpret it. */
  datatype JsonValue = JsonValue(encoded: Bytes)

  /**
   * The Claims struct: six fields JSON encodes as exp, iat, nbf, sub, aud
   * and iss, and `raw`, which JSON encoding skips and only Parse fills.
   */
  datatype Claims = Claims(
    expires: Int64,
    issuedAt: Int64,
    notBefore: Int64,
    subject: string,
    audience: string,
    issuer: string,
    raw: map<string, JsonValue>)

  /** The zero Claims{} that Create allocates when it is given none. */
  const EmptyClaims: Claims := Claims(0, 0, 0, "", "", "", map[])

  datatype JwtHeader = JwtHeader(alg: string, typ: string)

  /** The type every created header carries. */
  const TokenType: string := "jwt"

  /** A parsed, verified token. */
  datatype JwtToken = JwtToken(header: JwtHeader, claims: Claims, signature: Bytes) {

    /** IsExpired, against a supplied clock reading. */
    predicate IsExpired(now: Int64) {
      claims.expires < now
    }
  }

  /** A *Claims: the cell through which Create writes the issue time into the caller's claims. */
  class ClaimsRef {
    var value: Claims

    constructor (value: Claims)
      ensures this.value == value
    {
      this.value := value;
    }
  }

  datatype Codecs = Codecs(
    /** base64.RawURLEncoding.EncodeToString */
    base64Encode: Bytes -> Bytes,
    /** base64.RawURLEncoding.DecodeString */
    base64Decode: Bytes -> Result<Bytes>,
    /** json.Marshal of a header; its error is discarded by the caller */
    marshalHeader: JwtHeader -> Bytes,
    /** json.Unmarshal into a JwtHeader */
    unmarshalHeader: Bytes -> Result<JwtHeader>,
    /** json.Marshal of the claims (raw is skipped) */
    marshalClaims: Claims -> Result<Bytes>,
    /** json.Unmarshal into a zero Claims (raw stays empty) */
    unmarshalClaims: Bytes -> Result<Claims>,
    /** json.Unmarshal into a map[string]interface{} */
    unmarshalRaw: Bytes -> Result<map<string, JsonValue>>
  )

  /** base64url decoding inverts encoding. */
  ghost predicate Base64RoundTrip(c: Codecs) {
    forall b :: c.base64Decode(c.base64Encode(b)) == Ok(b)
  }

  /** base64url text never contains '.'. */
  ghost predicate Base64DotFree(c: Codecs) {
    forall b :: Dot !in c.base64Encode(b)
  }

  /** JSON decoding inverts encoding for headers. */
  ghost predicate HeaderRoundTrip(c: Codecs) {
    forall h :: c.unmarshalHeader(c.marshalHeader(h)) == Ok(h)
  }

  /**
   * Claims always encode; decoding gives them back without `raw`, and the
   * same text also decodes as a generic map.
   */
  ghost predicate ClaimsRoundTrip(c: Codecs) {
    forall cl ::
      && c.marshalClaims(cl).Ok?
      && c.unmarshalClaims(c.marshalClaims(cl).value) == Ok(cl.(raw := map[]))
      && c.unmarshalRaw(c.marshalClaims(cl).value).Ok?
  }

  ghost predicate CodecLaws(c: Codecs) {
    Base64RoundTrip(c) && Base64DotFree(c) && HeaderRoundTrip(c) && ClaimsRoundTrip(c)
  }

  const ErrNilAlgorithm: Error := "algorithm can't be nil"
  const SignFailurePrefix: string := "Failed to sign token: "
  const ErrFormat: Error := "Invalid token format"
  const ErrAlgorithm: Error := "Invalid JWT algorithm"
  const ErrSignature: Error := "Invalid signature"

  /** The first segment of every token `alg` creates. */
  function EncodedHeader(alg: Algorithm, c: Codecs): Bytes {
    c.base64Encode(c.marshalHeader(JwtHeader(Name(alg), TokenType)))
  }

  /**
   * What Create computes once the claims carry their issue time. It fails
   * exactly when marshalling the claims or signing fails; a marshalling
   * error is returned as is, and a created token starts with the header
   * segment and a '.'.
   */
  function Encode(claims: Claims, alg: Algorithm, random: RandomStream, p: Primitives, c: Codecs): (r: Result<Bytes>)
    ensures r.Ok? <==>
      (c.marshalClaims(claims).Ok?
       && Sign(alg, Some(EncodedHeader(alg, c) + [Dot] + c.base64Encode(c.marshalClaims(claims).value)), random, p).Ok?)
    ensures c.marshalClaims(claims).Err? ==> r == Err(c.marshalClaims(claims).error)
    ensures r.Ok? ==> |r.value| > |EncodedHeader(alg, c)| && r.value[..|EncodedHeader(alg, c)| + 1] == EncodedHeader(alg, c) + [Dot]
  {
    var encodedHeader := EncodedHeader(alg, c);
    var payload :- c.marshalClaims(claims);
    var encodedPayload := c.base64Encode(payload);
    var headerAndPayload := encodedHeader + [Dot] + encodedPayload;
    var signature := Sign(alg, Some(headerAndPayload), random, p);
    if signature.Err? then Err(SignFailurePrefix + signature.error)
    else Ok(headerAndPayload + [Dot] + c.base64Encode(signature.value))
  }

  /**
   * Create. A nil claims reference is replaced by fresh zero claims; a nil
   * algorithm is an error, and then the caller's claims are untouched.
   * Otherwise the caller's issue time is overwritten with `now`, every
   * other field is kept, and the token is `Encode` of the stamped claims.
   */
  method Create(claims: ClaimsRef?, algorithm: Option<Algorithm>, now: Int64, random: RandomStream, p: Primitives, c: Codecs)
    returns (token: Bytes, err: Option<Error>)
    modifies claims
    ensures algorithm.None? ==> token == [] && err == Some(ErrNilAlgorithm)
    ensures algorithm.None? && claims != null ==> claims.value == old(claims.value)
    ensures algorithm.Some? && claims != null ==> claims.value == old(claims.value).(issuedAt := now)
    ensures algorithm.Some? ==>
      var stamped := (if claims == null then EmptyClaims else old(claims.value)).(issuedAt := now);
      var encoded := Encode(stamped, algorithm.value, random, p, c);
      && (encoded.Ok? ==> token == encoded.value && err == None)
      && (encoded.Err? ==> token == [] && err == Some(encoded.error))
  {
    var target := claims;
    if target == null {
      target := new ClaimsRef(EmptyClaims);
    }
    if algorithm.None? {
      return [], Some(ErrNilAlgorithm);
    }
    var alg := algorithm.value;
    var jwtHeader := JwtHeader(Name(alg), TokenType);
    var header := c.marshalHeader(jwtHeader);
    var encodedHeader := c.base64Encode(header);

    target.value := target.value.(issuedAt := now);

    var payload := c.marshalClaims(target.value);
    if payload.Err? {
      return [], Some(payload.error);
    }
    var encodedPayload := c.base64Encode(payload.value);
    var headerAndPayload := encodedHeader + [Dot] + encodedPayload;
    var signature := Sign(alg, Some(headerAndPayload), random, p);
    if signature.Err? {
      return [], Some(SignFailurePrefix + signature.error);
    }
    var encodedSignature := c.base64Encode(signature.value);
    return encodedHeader + [Dot] + encodedPayload + [Dot] + encodedSignature, None;
  }

  /** The registry scan in Parse: it visits every entry and records whether any equals `alg`. */
  method IsRegistered(alg: string) returns (ok: bool)
    ensures ok <==> alg in Algorithms
  {
    ok := false;
    for i := 0 to |Algorithms|
      invariant ok <==> alg in Algorithms[..i]
    {
      assert Algorithms[..i + 1] == Algorithms[..i] + [Algorithms[i]];
      if alg == Algorithms[i] {
        ok := true;
      }
    }
    assert Algorithms[..|Algorithms|] == Algorithms;
  }

  /** What Parse returns, as a function of its inputs. */
  function ParseResult(token: Bytes, alg: Algorithm, p: Primitives, c: Codecs): (r: Result<JwtToken>)
    ensures |Split(token, Dot)| != 3 ==> r == Err(ErrFormat)
    ensures r.Ok? ==> r.value.header.alg in Algorithms && r.value.header.alg == Name(alg)
  {
    var segments := Split(token, Dot);
    if |segments| != 3 then Err(ErrFormat)
    else
      var encodedHeader := segments[0];
      var header :- c.base64Decode(encodedHeader);
      var jwtHeader :- c.unmarshalHeader(header);
      if jwtHeader.alg !in Algorithms then Err(ErrAlgorithm)
      else if jwtHeader.alg != Name(alg) then Err(ErrAlgorithm)
      else
        var encodedPayload := segments[1];
        var payload :- c.base64Decode(encodedPayload);
        var signature :- c.base64Decode(segments[2]);
        var headerAndPayload := encodedHeader + [Dot] + encodedPayload;
        if Verify(alg, headerAndPayload, signature, p).Fail? then Err(ErrSignature)
        else
          var claims :- c.unmarshalClaims(payload);
          var rawClaims :- c.unmarshalRaw(payload);
          Ok(JwtToken(jwtHeader, claims.(raw := rawClaims), signature))
  }

  /** Parse. The algorithm is not optional: the source dereferences it unchecked. */
  method Parse(token: Bytes, alg: Algorithm, p: Primitives, c: Codecs) returns (r: Result<JwtToken>)
    ensures r == ParseResult(token, alg, p, c)
  {
    var splitted := Split(token, Dot);
    if |splitted| != 3 {
      return Err(ErrFormat);
    }
    var encodedHeader := splitted[0];
    var header :- c.base64Decode(encodedHeader);
    var jwtHeader :- c.unmarshalHeader(header);
    var ok := IsRegistered(jwtHeader.alg);
    if !ok {
      return Err(ErrAlgorithm);
    }
    if jwtHeader.alg != Name(alg) {
      return Err(ErrAlgorithm);
    }
    var encodedPayload := splitted[1];
    var payload :- c.base64Decode(encodedPayload);
    var encodedSignature := splitted[2];
    var signature :- c.base64Decode(encodedSignature);
    var headerAndPayload := encodedHeader + [Dot] + encodedPayload;
    if Verify(alg, headerAndPayload, signature, p).Fail? {
      return Err(ErrSignature);
    }
    var claims :- c.unmarshalClaims(payload);
    var rawClaims :- c.unmarshalRaw(payload);
    return Ok(JwtToken(jwtHeader, claims.(raw := rawClaims), signature));
  }

  // ----- Properties of Create's serialisation

  /**
   * A created token has three segments: the encoded header naming `alg`,
   * the encoded claims, and the encoding of a signature over exactly the
   * first two segments joined by '.'.
   */
  lemma EncodeLayout(claims: Claims, alg: Algorithm, random: RandomStream, p: Primitives, c: Codecs)
    requires CodecLaws(c)
    requires Encode(claims, alg, random, p, c).Ok?
    ensures Encode(claims, alg, random, p, c).value != []
    ensures var segments := Split(Encode(claims, alg, random, p, c).value, Dot);
      && |segments| == 3
      && segments[0] == EncodedHeader(alg, c)
      && c.base64Decode(segments[0]).Ok?
      && c.unmarshalHeader(c.base64Decode(segments[0]).value) == Ok(JwtHeader(Name(alg), TokenType))
      && c.base64Decode(segments[1]) == Ok(c.marshalClaims(claims).value)
      && Sign(alg, Some(segments[0] + [Dot] + segments[1]), random, p).Ok?
      && c.base64Decode(segments[2]) == Ok(Sign(alg, Some(segments[0] + [Dot] + segments[1]), random, p).value)
  {
    var header := EncodedHeader(alg, c);
    var payload := c.base64Encode(c.marshalClaims(claims).value);
    var signature := Sign(alg, Some(header + [Dot] + payload), random, p).value;
    var encodedSignature := c.base64Encode(signature);
    assert Encode(claims, alg, random, p, c).value == header + [Dot] + payload + [Dot] + encodedSignature;
    SplitThree(header, payload, encodedSignature, Dot);
  }

  /** A signing failure is reported with the "Failed to sign token: " prefix. */
  lemma EncodeSignFailure(claims: Claims, alg: Algorithm, random: RandomStream, p: Primitives, c: Codecs, payload: Bytes)
    requires c.marshalClaims(claims) == Ok(payload)
    requires Sign(alg, Some(EncodedHeader(alg, c) + [Dot] + c.base64Encode(payload)), random, p).Err?
    ensures Encode(claims, alg, random, p, c) ==
      Err(SignFailurePrefix + Sign(alg, Some(EncodedHeader(alg, c) + [Dot] + c.base64Encode(payload)), random, p).error)
  {
  }

  /**
   * Create followed by Parse with the same facade succeeds, and returns the
   * header {alg: Name(), typ: "jwt"} and the claims that were encoded (with
   * `raw` now holding the generic decoding of the payload).
   */
  lemma CreateParseRoundTrip(claims: Claims, alg: Algorithm, random: RandomStream, p: Primitives, c: Codecs)
    requires Sound(p) && CodecLaws(c) && Valid(alg)
    requires Encode(claims, alg, random, p, c).Ok?
    ensures var parsed := ParseResult(Encode(claims, alg, random, p, c).value, alg, p, c);
      && parsed.Ok?
      && parsed.value.header == JwtHeader(Name(alg), TokenType)
      && parsed.value.claims.(raw := claims.raw) == claims
  {
    EncodeLayout(claims, alg, random, p, c);
    NameInRegistry(alg);
    var segments := Split(Encode(claims, alg, random, p, c).value, Dot);
    SignThenVerify(alg, segments[0] + [Dot] + segments[1], random, p);
  }

  /** With an HMAC facade, Create never fails and its token always parses. */
  lemma HmacCreateThenParse(claims: Claims, alg: Algorithm, random: RandomStream, p: Primitives, c: Codecs)
    requires Sound(p) && CodecLaws(c) && Valid(alg) && IsHmac(alg)
    ensures Encode(claims, alg, random, p, c).Ok?
    ensures ParseResult(Encode(claims, alg, random, p, c).value, alg, p, c).Ok?
  {
    var payload := c.marshalClaims(claims).value;
    HmacSignTotalAndDeterministic(alg, EncodedHeader(alg, c) + [Dot] + c.base64Encode(payload), random, random, p);
    CreateParseRoundTrip(claims, alg, random, p, c);
  }

  /** A token created with one facade is refused with "Invalid JWT algorithm" by a facade of another name. */
  lemma AlgorithmConfusionRejected(claims: Claims, a: Algorithm, b: Algorithm, random: RandomStream, p: Primitives, c: Codecs)
    requires CodecLaws(c)
    requires Encode(claims, a, random, p, c).Ok?
    requires Name(a) != Name(b)
    ensures ParseResult(Encode(claims, a, random, p, c).value, b, p, c) == Err(ErrAlgorithm)
  {
    EncodeLayout(claims, a, random, p, c);
  }

  /**
   * Replacing the payload segment of a created token by another segment
   * whose signing input has a different digest makes Parse fail.
   */
  lemma TamperedPayloadRejected(claims: Claims, alg: Algorithm, random: RandomStream, p: Primitives, c: Codecs,
                                payload: Bytes, signature: Bytes, forged: Bytes)
    requires Sound(p) && CodecLaws(c) && Valid(alg)
    requires c.marshalClaims(claims) == Ok(payload)
    requires Sign(alg, Some(EncodedHeader(alg, c) + [Dot] + c.base64Encode(payload)), random, p) == Ok(signature)
    requires Dot !in forged
    requires p.digest(BoundHash(alg), EncodedHeader(alg, c) + [Dot] + forged)
          != p.digest(BoundHash(alg), EncodedHeader(alg, c) + [Dot] + c.base64Encode(payload))
    ensures ParseResult(EncodedHeader(alg, c) + [Dot] + forged + [Dot] + c.base64Encode(signature), alg, p, c).Err?
  {
    var header := EncodedHeader(alg, c);
    var original := header + [Dot] + c.base64Encode(payload);
    SplitThree(header, forged, c.base64Encode(signature), Dot);
    NameInRegistry(alg);
    OtherDataFails(alg, original, header + [Dot] + forged, random, p);
  }

  /** With an HMAC facade, any signature other than the digest of the signing input is refused. */
  lemma HmacTamperedSignatureRejected(token: Bytes, alg: Algorithm, p: Primitives, c: Codecs)
    requires IsHmac(alg)
    requires var segments := Split(token, Dot);
      && |segments| == 3
      && c.base64Decode(segments[2]).Ok?
      && c.base64Decode(segments[2]).value != p.digest(alg.hmac.hash, segments[0] + [Dot] + segments[1])
    ensures ParseResult(token, alg, p, c).Err?
  {
  }

  /**
   * The HMAC signer never reads its secret, so a token created under one
   * HS256 secret is accepted by an HS256 facade holding any other secret.
   */
  lemma HmacTokenNeedsNoSecret(claims: Claims, forgerSecret: Bytes, verifierSecret: Bytes,
                               random: RandomStream, p: Primitives, c: Codecs)
    requires Sound(p) && CodecLaws(c)
    ensures var forger, verifier := NewHS256(Some(forgerSecret)).value, NewHS256(Some(verifierSecret)).value;
      && Encode(claims, forger, random, p, c).Ok?
      && ParseResult(Encode(claims, forger, random, p, c).value, verifier, p, c).Ok?
  {
    var forger, verifier := NewHS256(Some(forgerSecret)).value, NewHS256(Some(verifierSecret)).value;
    HmacCreateThenParse(claims, forger, random, p, c);
    HmacCreateThenParse(claims, verifier, random, p, c);
    assert EncodedHeader(forger, c) == EncodedHeader(verifier, c);
    var signingInput := EncodedHeader(forger, c) + [Dot] + c.base64Encode(c.marshalClaims(claims).value);
    Hmac.SecretUnused(forger.hmac, verifier.hmac, Some(signingInput), signingInput, [], p);
    assert Encode(claims, forger, random, p, c) == Encode(claims, verifier, random, p, c);
  }

  /**
   * Parse looks at the signature segment only through its base64 decoding:
   * two third segments that decode to the same bytes parse identically, so a
   * textual change to that segment that base64 decoding absorbs goes unseen.
   */
  lemma SignatureSegmentSeenDecoded(header: Bytes, payload: Bytes, s1: Bytes, s2: Bytes,
                                    alg: Algorithm, p: Primitives, c: Codecs)
    requires Dot !in header && Dot !in payload && Dot !in s1 && Dot !in s2
    requires c.base64Decode(s1) == c.base64Decode(s2)
    ensures ParseResult(header + [Dot] + payload + [Dot] + s1, alg, p, c)
         == ParseResult(header + [Dot] + payload + [Dot] + s2, alg, p, c)
  {
    SplitThree(header, payload, s1, Dot);
    SplitThree(header, payload, s2, Dot);
  }

  // ----- Properties of Parse

  /** Parse returns a token only when its header names a registered algorithm equal to `alg`'s name and the signature verified over the received text. */
  lemma ParseAcceptsOnlyVerified(token: Bytes, alg: Algorithm, p: Primitives, c: Codecs)
    requires ParseResult(token, alg, p, c).Ok?
    ensures var t, segments := ParseResult(token, alg, p, c).value, Split(token, Dot);
      && |segments| == 3
      && t.header.alg in Algorithms
      && t.header.alg == Name(alg)
      && c.base64Decode(segments[2]) == Ok(t.signature)
      && Verify(alg, segments[0] + [Dot] + segments[1], t.signature, p) == Pass
  {
  }

  /** Unless the token holds exactly two '.', Parse fails with "Invalid token format". */
  lemma {:induction false} ParseNeedsTwoDots(token: Bytes, alg: Algorithm, p: Primitives, c: Codecs)
    ensures Count(token, Dot) != 2 ==> ParseResult(token, alg, p, c) == Err(ErrFormat)
    ensures ParseResult(token, alg, p, c).Ok? ==> Count(token, Dot) == 2
  {
    SplitLength(token, Dot);
  }

  /** "" (one segment) and "..." (four segments) are both refused as malformed. */
  lemma ParseRejectsEmptyAndDots(alg: Algorithm, p: Primitives, c: Codecs)
    ensures ParseResult([], alg, p, c) == Err(ErrFormat)
    ensures ParseResult([Dot, Dot, Dot], alg, p, c) == Err(ErrFormat)
  {
    ParseNeedsTwoDots([], alg, p, c);
    ParseNeedsTwoDots([Dot, Dot, Dot], alg, p, c);
    assert [Dot][1..] == [] && Count([Dot], Dot) == 1;
    assert [Dot, Dot][1..] == [Dot] && Count([Dot, Dot], Dot) == 2;
    assert [Dot, Dot, Dot][1..] == [Dot, Dot] && Count([Dot, Dot, Dot], Dot) == 3;
  }

  /**
   * Each decoding stage of a three-segment token, in the order Parse runs
   * them, returns its own error unchanged once every earlier stage has
   * succeeded: header base64, header JSON, (the two algorithm checks),
   * payload base64, signature base64, (the signature check), claims JSON,
   * raw-map JSON. The payload is decoded before the signature, so a bad
   * payload segment is reported whatever the signature segment holds.
   */
  lemma ParseReturnsDecodeErrors(token: Bytes, alg: Algorithm, p: Primitives, c: Codecs)
    requires |Split(token, Dot)| == 3
    ensures var s := Split(token, Dot);
      c.base64Decode(s[0]).Err? ==>
        ParseResult(token, alg, p, c) == Err(c.base64Decode(s[0]).error)
    ensures var s := Split(token, Dot);
      c.base64Decode(s[0]).Ok? && c.unmarshalHeader(c.base64Decode(s[0]).value).Err? ==>
        ParseResult(token, alg, p, c) == Err(c.unmarshalHeader(c.base64Decode(s[0]).value).error)
    ensures var s := Split(token, Dot);
      c.base64Decode(s[0]).Ok? && c.unmarshalHeader(c.base64Decode(s[0]).value).Ok?
      && c.unmarshalHeader(c.base64Decode(s[0]).value).value.alg in Algorithms
      && c.unmarshalHeader(c.base64Decode(s[0]).value).value.alg == Name(alg)
      && c.base64Decode(s[1]).Err? ==>
        ParseResult(token, alg, p, c) == Err(c.base64Decode(s[1]).error)
    ensures var s := Split(token, Dot);
      c.base64Decode(s[0]).Ok? && c.unmarshalHeader(c.base64Decode(s[0]).value).Ok?
      && c.unmarshalHeader(c.base64Decode(s[0]).value).value.alg in Algorithms
      && c.unmarshalHeader(c.base64Decode(s[0]).value).value.alg == Name(alg)
      && c.base64Decode(s[1]).Ok? && c.base64Decode(s[2]).Err? ==>
        ParseResult(token, alg, p, c) == Err(c.base64Decode(s[2]).error)
    ensures var s := Split(token, Dot);
      c.base64Decode(s[0]).Ok? && c.unmarshalHeader(c.base64Decode(s[0]).value).Ok?
      && c.unmarshalHeader(c.base64Decode(s[0]).value).value.alg in Algorithms
      && c.unmarshalHeader(c.base64Decode(s[0]).value).value.alg == Name(alg)
      && c.base64Decode(s[1]).Ok? && c.base64Decode(s[2]).Ok?
      && Verify(alg, s[0] + [Dot] + s[1], c.base64Decode(s[2]).value, p).Pass?
      && c.unmarshalClaims(c.base64Decode(s[1]).value).Err? ==>
        ParseResult(token, alg, p, c) == Err(c.unmarshalClaims(c.base64Decode(s[1]).value).error)
    ensures var s := Split(token, Dot);
      c.base64Decode(s[0]).Ok? && c.unmarshalHeader(c.base64Decode(s[0]).value).Ok?
      && c.unmarshalHeader(c.base64Decode(s[0]).value).value.alg in Algorithms
      && c.unmarshalHeader(c.base64Decode(s[0]).value).value.alg == Name(alg)
      && c.base64Decode(s[1]).Ok? && c.base64Decode(s[2]).Ok?
      && Verify(alg, s[0] + [Dot] + s[1], c.base64Decode(s[2]).value, p).Pass?
      && c.unmarshalClaims(c.base64Decode(s[1]).value).Ok?
      && c.unmarshalRaw(c.base64Decode(s[1]).value).Err? ==>
        ParseResult(token, alg, p, c) == Err(c.unmarshalRaw(c.base64Decode(s[1]).value).error)
  {
  }

  /**
   * A header whose alg is unregistered or differs from `alg`'s name is
   * refused with "Invalid JWT algorithm" whatever the payload and signature
   * segments hold: they are not decoded.
   */
  lemma ParseChecksAlgorithmFirst(token: Bytes, alg: Algorithm, p: Primitives, c: Codecs, header: JwtHeader)
    requires |Split(token, Dot)| == 3
    requires c.base64Decode(Split(token, Dot)[0]).Ok?
    requires c.unmarshalHeader(c.base64Decode(Split(token, Dot)[0]).value) == Ok(header)
    requires header.alg !in Algorithms || header.alg != Name(alg)
    ensures ParseResult(token, alg, p, c) == Err(ErrAlgorithm)
  {
  }

  /** A header decoding to {} has alg "" and is refused, whatever the algorithm. */
  lemma ParseRejectsEmptyAlg(token: Bytes, alg: Algorithm, p: Primitives, c: Codecs)
    requires |Split(token, Dot)| == 3
    requires c.base64Decode(Split(token, Dot)[0]).Ok?
    requires c.unmarshalHeader(c.base64Decode(Split(token, Dot)[0]).value) == Ok(JwtHeader("", ""))
    ensures ParseResult(token, alg, p, c) == Err(ErrAlgorithm)
  {
    RegistryRejectsRfcSpellings();
  }

  /**
   * A failed verification gives "Invalid signature" whatever the payload's
   * JSON is: the claims are decoded only after the signature is accepted.
   */
  lemma ParseChecksSignatureBeforeClaims(token: Bytes, alg: Algorithm, p: Primitives, c: Codecs, header: JwtHeader, signature: Bytes)
    requires |Split(token, Dot)| == 3
    requires c.base64Decode(Split(token, Dot)[0]).Ok?
    requires c.unmarshalHeader(c.base64Decode(Split(token, Dot)[0]).value) == Ok(header)
    requires header.alg in Algorithms && header.alg == Name(alg)
    requires c.base64Decode(Split(token, Dot)[1]).Ok?
    requires c.base64Decode(Split(token, Dot)[2]) == Ok(signature)
    requires Verify(alg, Split(token, Dot)[0] + [Dot] + Split(token, Dot)[1], signature, p).Fail?
    ensures ParseResult(token, alg, p, c) == Err(ErrSignature)
  {
  }

  // ----- Expiry

  /** Expiry is strict and, once reached, permanent. */
  lemma ExpiryIsStrict(t: JwtToken, now: Int64, later: Int64)
    ensures !t.IsExpired(t.claims.expires)
    ensures t.claims.expires < 0x7fff_ffff_ffff_ffff ==> t.IsExpired(t.claims.expires + 1)
    ensures t.IsExpired(now) && now <= later ==> t.IsExpired(later)
  {
  }

  /** A token created with Expires = 0 parses and is expired at every positive time. */
  lemma ZeroExpiryTokenIsExpired(claims: Claims, alg: Algorithm, random: RandomStream, p: Primitives, c: Codecs, now: Int64)
    requires Sound(p) && CodecLaws(c) && Valid(alg)
    requires claims.expires == 0 && now > 0
    requires Encode(claims, alg, random, p, c).Ok?
    ensures ParseResult(Encode(claims, alg, random, p, c).value, alg, p, c).Ok?
    ensures ParseResult(Encode(claims, alg, random, p, c).value, alg, p, c).value.IsExpired(now)
  {
    CreateParseRoundTrip(claims, alg, random, p, c);
  }
}
