/**
 * The RSASSA-PKCS1-v1_5 engine (section 8.2 of RFC 8017), over the
 * primitives of crypto/rsa. Its key loader runs four checks in order:
 * nil key, no PEM block, bytes after the block, PKCS #1 parse failure.
 */
module Rsa {
  import opened Wrappers
  import opened Crypto

  datatype RSA = RSA(privateKey: RsaPrivateKey, publicKey: RsaPublicKey, hash: Hash, name: string)

  const ErrEmptyKey: Error := "Key is empty"
  const ErrNoPem: Error := "Could not parse private key from PEM file"
  const ErrMultipleBlocks: Error := "Multiple blocks per key file are not supported"

  /** An engine whose public key is its private key's public part. */
  predicate Valid(e: RSA) {
    e.publicKey == e.privateKey.publicKey
  }

  /** newRSA */
  function NewRSA(name: string, key: Option<Bytes>, hash: Hash, p: Primitives): (r: Result<RSA>)
    ensures key.None? ==> r == Err(ErrEmptyKey)
    ensures key.Some? && PemStageOf(p, key.value) == NoBlock ==> r == Err(ErrNoPem)
    ensures key.Some? && PemStageOf(p, key.value) == TrailingBytes ==> r == Err(ErrMultipleBlocks)
    ensures key.Some? && PemStageOf(p, key.value).Body? ==>
      var parsed := p.parsePKCS1PrivateKey(PemStageOf(p, key.value).der);
      && (parsed.Err? ==> r == Err(parsed.error))
      && (parsed.Ok? ==> r.Ok? && r.value.privateKey == parsed.value)
    ensures r.Ok? ==> Valid(r.value) && r.value.name == name && r.value.hash == hash
  {
    if key.None? then Err(ErrEmptyKey)
    else
      var (block, rest) := p.pemDecode(key.value);
      if block.None? then Err(ErrNoPem)
      else if |rest| > 0 then Err(ErrMultipleBlocks)
      else
        var privateKey :- p.parsePKCS1PrivateKey(block.value.bytes);
        var publicKey := privateKey.publicKey;
        Ok(RSA(privateKey, publicKey, hash, name))
  }

  /** sign: digest the data with the stored hash, then sign under the same hash. */
  function Sign(e: RSA, data: Option<Bytes>, random: RandomStream, p: Primitives): Result<Bytes> {
    var hashed := p.digest(e.hash, Contents(data));
    p.signPKCS1v15(random, e.privateKey, e.hash, hashed)
  }

  /** verify: digest the data with the stored hash, then check under the same hash. */
  function Verify(e: RSA, data: Bytes, signature: Bytes, p: Primitives): Outcome {
    var hashed := p.digest(e.hash, data);
    p.verifyPKCS1v15(e.publicKey, e.hash, hashed, signature)
  }

  /** An empty but non-nil key gets past the nil check and fails at the PEM stage. */
  lemma EmptyKeyFailsAtPem(name: string, hash: Hash, p: Primitives)
    requires NoPemInEmpty(p)
    ensures NewRSA(name, Some([]), hash, p) == Err(ErrNoPem)
  {
  }

  /** A nil key is refused before anything is decoded: the primitives are not consulted. */
  lemma NilKeyBeforeDecoding(name: string, hash: Hash, p1: Primitives, p2: Primitives)
    ensures NewRSA(name, None, hash, p1) == NewRSA(name, None, hash, p2) == Err(ErrEmptyKey)
  {
  }

  /** A signature verifies for the data it was made over. */
  lemma SignThenVerify(e: RSA, data: Bytes, random: RandomStream, p: Primitives)
    requires Pkcs1v15Correct(p) && Valid(e)
    requires Sign(e, Some(data), random, p).Ok?
    ensures Verify(e, data, Sign(e, Some(data), random, p).value, p) == Pass
  {
    var hashed := p.digest(e.hash, data);
    assert Sign(e, Some(data), random, p) == p.signPKCS1v15(random, e.privateKey, e.hash, hashed);
  }

  /** A signature does not verify for data with a different digest. */
  lemma OtherDataFails(e: RSA, d1: Bytes, d2: Bytes, random: RandomStream, p: Primitives)
    requires Pkcs1v15Correct(p) && Pkcs1v15Binding(p) && Valid(e)
    requires p.digest(e.hash, d1) != p.digest(e.hash, d2)
    requires Sign(e, Some(d1), random, p).Ok?
    ensures Verify(e, d2, Sign(e, Some(d1), random, p).value, p).Fail?
  {
    SignThenVerify(e, d1, random, p);
  }
}
