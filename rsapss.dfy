/**
 * The RSASSA-PSS engine (section 8.1 of RFC 8017). It loads keys with the
 * same four checks as the PKCS #1 v1.5 engine and fixes its PSS options at
 * construction: automatic salt length and the constructor's hash. Signing
 * and verifying both use those stored options.
 */
module RsaPss {
  import opened Wrappers
  import opened Crypto
  import Rsa

  datatype RSAPSS = RSAPSS(privateKey: RsaPrivateKey, publicKey: RsaPublicKey, hash: Hash, name: string, options: PssOptions)

  const ErrEmptyKey: Error := "key is empty"
  const ErrNoPem: Error := "Could not parse private key from PEM file"
  const ErrMultipleBlocks: Error := "Multiple blocks per key file are not supported"

  /** An engine whose public key is its private key's and whose options are those the constructor fixes. */
  predicate Valid(e: RSAPSS) {
    && e.publicKey == e.privateKey.publicKey
    && e.options == PssOptions(PSSSaltLengthAuto, e.hash)
  }

  /** newRSAPSS */
  function NewRSAPSS(name: string, key: Option<Bytes>, hash: Hash, p: Primitives): (r: Result<RSAPSS>)
    ensures key.None? ==> r == Err(ErrEmptyKey)
    ensures key.Some? && PemStageOf(p, key.value) == NoBlock ==> r == Err(ErrNoPem)
    ensures key.Some? && PemStageOf(p, key.value) == TrailingBytes ==> r == Err(ErrMultipleBlocks)
    ensures key.Some? && PemStageOf(p, key.value).Body? ==>
      var parsed := p.parsePKCS1PrivateKey(PemStageOf(p, key.value).der);
      && (parsed.Err? ==> r == Err(parsed.error))
      && (parsed.Ok? ==> r.Ok? && r.value.privateKey == parsed.value)
    ensures r.Ok? ==> Valid(r.value) && r.value.name == name && r.value.hash == hash
  {
    if key.None? then Err(ErrEmptyKey)
    else
      var (block, rest) := p.pemDecode(key.value);
      if block.None? then Err(ErrNoPem)
      else if |rest| > 0 then Err(ErrMultipleBlocks)
      else
        var privateKey :- p.parsePKCS1PrivateKey(block.value.bytes);
        var publicKey := privateKey.publicKey;
        var options := PssOptions(PSSSaltLengthAuto, hash);
        Ok(RSAPSS(privateKey, publicKey, hash, name, options))
  }

  /** sign: digest with the stored hash, then sign with the stored hash and options. */
  function Sign(e: RSAPSS, data: Option<Bytes>, random: RandomStream, p: Primitives): Result<Bytes> {
    var hashed := p.digest(e.hash, Contents(data));
    p.signPSS(random, e.privateKey, e.hash, hashed, e.options)
  }

  /** verify: digest with the stored hash, then check with the stored hash and options. */
  function Verify(e: RSAPSS, data: Bytes, signature: Bytes, p: Primitives): Outcome {
    var hashed := p.digest(e.hash, data);
    p.verifyPSS(e.publicKey, e.hash, hashed, signature, e.options)
  }

  /**
   * The PSS loader and the PKCS #1 v1.5 loader accept the same keys and
   * reject the others at the same stage: they differ only in the wording
   * of the nil-key message.
   */
  lemma SameChecksAsRsa(name: string, key: Option<Bytes>, hash: Hash, p: Primitives)
    ensures NewRSAPSS(name, key, hash, p).Ok? <==> Rsa.NewRSA(name, key, hash, p).Ok?
    ensures NewRSAPSS(name, key, hash, p).Ok? ==>
      var pss, pkcs := NewRSAPSS(name, key, hash, p).value, Rsa.NewRSA(name, key, hash, p).value;
      pss.privateKey == pkcs.privateKey && pss.publicKey == pkcs.publicKey
    ensures key.Some? && NewRSAPSS(name, key, hash, p).Err? ==>
      NewRSAPSS(name, key, hash, p).error == Rsa.NewRSA(name, key, hash, p).error
  {
  }

  /** A signature verifies for the data it was made over. */
  lemma SignThenVerify(e: RSAPSS, data: Bytes, random: RandomStream, p: Primitives)
    requires PssCorrect(p) && Valid(e)
    requires Sign(e, Some(data), random, p).Ok?
    ensures Verify(e, data, Sign(e, Some(data), random, p).value, p) == Pass
  {
    var hashed := p.digest(e.hash, data);
    assert Sign(e, Some(data), random, p) == p.signPSS(random, e.privateKey, e.hash, hashed, e.options);
  }

  /** A signature does not verify for data with a different digest. */
  lemma OtherDataFails(e: RSAPSS, d1: Bytes, d2: Bytes, random: RandomStream, p: Primitives)
    requires PssCorrect(p) && PssBinding(p) && Valid(e)
    requires p.digest(e.hash, d1) != p.digest(e.hash, d2)
    requires Sign(e, Some(d1), random, p).Ok?
    ensures Verify(e, d2, Sign(e, Some(d1), random, p).value, p).Fail?
  {
    SignThenVerify(e, d1, random, p);
  }
}
