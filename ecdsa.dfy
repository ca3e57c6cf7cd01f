/**
 * The ECDSA engine over crypto/ecdsa's ASN.1 primitives. Its key loader
 * adds one check to the RSA engines' four: the key's curve must be the one
 * a fixed table assigns to the algorithm name.
 */
module Ecdsa {
  import opened Wrappers
  import opened Crypto
  import opened Names

  const CurveP256: string := "P-256"
  /** Named ECDSA_P348 in the source; its value is spelled correctly. */
  const CurveP384: string := "P-384"
  const CurveP521: string := "P-521"

  /** The curve each ECDSA algorithm name requires (JWT_ECDS_MAP). */
  const CurveByName: map<string, string> := map[
    NameES256 := CurveP256,
    NameES348 := CurveP384,
    NameES512 := CurveP521
  ]

  /** A Go map lookup: the zero value "" for a name the table lacks. */
  function RequiredCurve(name: string): string {
    if name in CurveByName then CurveByName[name] else ""
  }

  datatype ECDSA = ECDSA(privateKey: EcPrivateKey, publicKey: EcPublicKey, hash: Hash, name: string)

  const ErrEmptyKey: Error := "key is empty"
  const ErrNoPem: Error := "Could not parse private key from PEM file"
  const ErrMultipleBlocks: Error := "Multiple blocks per key are not supported"
  const ErrNotVerified: Error := "Token could not be verified"

  /** The error naming the wanted and the actual curve. */
  function CurveMismatch(want: string, have: string): Error {
    "JWT algorithm does not match private key. Want: " + want + ". Have: " + have
  }

  /** An engine whose public key is its private key's and whose key lies on the curve its name requires. */
  predicate Valid(e: ECDSA) {
    && e.publicKey == e.privateKey.publicKey
    && e.publicKey.curve == RequiredCurve(e.name)
  }

  /** newECDSA */
  function NewECDSA(name: string, key: Option<Bytes>, hash: Hash, p: Primitives): (r: Result<ECDSA>)
    ensures key.None? ==> r == Err(ErrEmptyKey)
    ensures key.Some? && PemStageOf(p, key.value) == NoBlock ==> r == Err(ErrNoPem)
    ensures key.Some? && PemStageOf(p, key.value) == TrailingBytes ==> r == Err(ErrMultipleBlocks)
    ensures key.Some? && PemStageOf(p, key.value).Body? ==>
      var parsed := p.parseECPrivateKey(PemStageOf(p, key.value).der);
      && (parsed.Err? ==> r == Err(parsed.error))
      && (parsed.Ok? && parsed.value.publicKey.curve != RequiredCurve(name) ==>
            r == Err(CurveMismatch(RequiredCurve(name), parsed.value.publicKey.curve)))
      && (parsed.Ok? && parsed.value.publicKey.curve == RequiredCurve(name) ==>
            r.Ok? && r.value.privateKey == parsed.value)
    ensures r.Ok? ==> Valid(r.value) && r.value.name == name && r.value.hash == hash
  {
    if key.None? then Err(ErrEmptyKey)
    else
      var (block, rest) := p.pemDecode(key.value);
      if block.None? then Err(ErrNoPem)
      else if |rest| > 0 then Err(ErrMultipleBlocks)
      else
        var privateKey :- p.parseECPrivateKey(block.value.bytes);
        var curve := privateKey.publicKey.curve;
        var requiredKey := RequiredCurve(name);
        if requiredKey != curve then Err(CurveMismatch(requiredKey, curve))
        else Ok(ECDSA(privateKey, privateKey.publicKey, hash, name))
  }

  /** sign: digest with the stored hash, then an ASN.1 ECDSA signature. */
  function Sign(e: ECDSA, data: Option<Bytes>, random: RandomStream, p: Primitives): Result<Bytes> {
    var sum := p.digest(e.hash, Contents(data));
    p.signASN1(random, e.privateKey, sum)
  }

  /** verify: an error exactly when the ASN.1 check fails. */
  function Verify(e: ECDSA, data: Bytes, signature: Bytes, p: Primitives): (r: Outcome)
    ensures r.Pass? <==> p.verifyASN1(e.publicKey, p.digest(e.hash, data), signature)
    ensures r.Fail? ==> r.error == ErrNotVerified
  {
    var sum := p.digest(e.hash, data);
    var verified := p.verifyASN1(e.publicKey, sum, signature);
    if !verified then Fail(ErrNotVerified) else Pass
  }

  /** The table maps exactly the three ECDSA names, with the source's "ES348" spelling. */
  lemma CurveTableContents()
    ensures CurveByName.Keys == {"ES256", "ES348", "ES512"}
    ensures RequiredCurve("ES256") == "P-256"
    ensures RequiredCurve("ES348") == "P-384"
    ensures RequiredCurve("ES512") == "P-521"
    ensures RequiredCurve("ES384") == ""
  {
  }

  /** A name absent from the table requires the curve "", which no parsed key has: every key is refused. */
  lemma UnknownNameRejectsEveryKey(name: string, key: Option<Bytes>, hash: Hash, p: Primitives)
    requires ParsedCurvesNamed(p)
    requires name !in CurveByName
    ensures NewECDSA(name, key, hash, p).Err?
  {
    if key.Some? && PemStageOf(p, key.value).Body? {
      var parsed := p.parseECPrivateKey(PemStageOf(p, key.value).der);
      if parsed.Ok? {
        assert parsed.value.publicKey.curve in NamedCurves;
      }
    }
  }

  /** A P-256 key under the name "ES384" is refused with an error naming both curves. */
  lemma P256KeyUnderES384(key: Bytes, hash: Hash, p: Primitives)
    requires PemStageOf(p, key).Body?
    requires p.parseECPrivateKey(PemStageOf(p, key).der).Ok?
    requires p.parseECPrivateKey(PemStageOf(p, key).der).value.publicKey.curve == CurveP256
    ensures NewECDSA("ES384", Some(key), hash, p) == Err(CurveMismatch("", "P-256"))
  {
  }

  /** An empty but non-nil key gets past the nil check and fails at the PEM stage. */
  lemma EmptyKeyFailsAtPem(name: string, hash: Hash, p: Primitives)
    requires NoPemInEmpty(p)
    ensures NewECDSA(name, Some([]), hash, p) == Err(ErrNoPem)
  {
  }

  /** A signature verifies for the data it was made over. */
  lemma SignThenVerify(e: ECDSA, data: Bytes, random: RandomStream, p: Primitives)
    requires Asn1Correct(p) && Valid(e)
    requires Sign(e, Some(data), random, p).Ok?
    ensures Verify(e, data, Sign(e, Some(data), random, p).value, p) == Pass
  {
    var sum := p.digest(e.hash, data);
    assert Sign(e, Some(data), random, p) == p.signASN1(random, e.privateKey, sum);
  }

  /** A signature does not verify for data with a different digest. */
  lemma OtherDataFails(e: ECDSA, d1: Bytes, d2: Bytes, random: RandomStream, p: Primitives)
    requires Asn1Correct(p) && Asn1Binding(p) && Valid(e)
    requires p.digest(e.hash, d1) != p.digest(e.hash, d2)
    requires Sign(e, Some(d1), random, p).Ok?
    ensures Verify(e, d2, Sign(e, Some(d1), random, p).value, p).Fail?
  {
    SignThenVerify(e, d1, random, p);
  }
}
