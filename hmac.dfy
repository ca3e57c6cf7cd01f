/**
 * The HMAC engine. As written, it never reads its secret: `sign` is the
 * plain digest of the data under the engine's hash, and `verify` compares a
 * supplied value with that digest. The model follows that code, not a keyed
 * MAC of section 2 of RFC 2104.
 */
module Hmac {
  import opened Wrappers
  import opened Crypto

  /** The HMAC record; nothing changes it after construction. */
  datatype HMAC = HMAC(hash: Hash, secret: Bytes, name: string)

  const ErrNilSecret: Error := "Secret or private key can't be empty"
  const ErrNilData: Error := "Data to be signed can't be empty"
  const ErrNotVerified: Error := "Token could not be verfify"

  /** newHMAC: fails only for a nil secret; an empty secret is accepted. */
  function NewHMAC(name: string, secret: Option<Bytes>, hash: Hash): (r: Result<HMAC>)
    ensures r.Ok? <==> secret.Some?
    ensures r.Err? ==> r.error == ErrNilSecret
    ensures r.Ok? ==> r.value.name == name && r.value.hash == hash && r.value.secret == secret.value
  {
    if secret.None? then Err(ErrNilSecret)
    else Ok(HMAC(hash, secret.value, name))
  }

  /** sign: nil data is refused; otherwise the digest of the data (hash.Write never fails). */
  function Sign(e: HMAC, data: Option<Bytes>, p: Primitives): (r: Result<Bytes>)
    ensures r.Err? <==> data.None?
    ensures r.Err? ==> r.error == ErrNilData
    ensures r.Ok? ==> r.value == p.digest(e.hash, data.value)
  {
    if data.None? then Err(ErrNilData)
    else Ok(p.digest(e.hash, data.value))
  }

  /** verify: succeeds exactly when `mac` equals the digest of `data` (hmac.Equal). */
  function Verify(e: HMAC, data: Bytes, mac: Bytes, p: Primitives): (r: Outcome)
    ensures r.Pass? <==> mac == p.digest(e.hash, data)
    ensures r.Fail? ==> r.error == ErrNotVerified
  {
    var sum := p.digest(e.hash, data);
    if mac != sum then Fail(ErrNotVerified) else Pass
  }

  /** An empty, non-nil secret builds an engine. */
  lemma EmptySecretAccepted(name: string, hash: Hash)
    ensures NewHMAC(name, Some([]), hash) == Ok(HMAC(hash, [], name))
  {
  }

  /** What `sign` produces, `verify` accepts for the same data. */
  lemma SignThenVerify(e: HMAC, data: Bytes, p: Primitives)
    ensures Sign(e, Some(data), p).Ok?
    ensures Verify(e, data, Sign(e, Some(data), p).value, p) == Pass
  {
  }

  /** A signature made over `d1` is accepted for `d2` exactly when their digests coincide. */
  lemma VerifyOtherData(e: HMAC, d1: Bytes, d2: Bytes, p: Primitives)
    ensures Verify(e, d2, Sign(e, Some(d1), p).value, p).Pass? <==> p.digest(e.hash, d1) == p.digest(e.hash, d2)
  {
  }

  /** A value of the wrong length is never accepted, so verify("invalid", "invalid") fails. */
  lemma VerifyRejectsWrongLength(e: HMAC, data: Bytes, mac: Bytes, p: Primitives)
    requires DigestsSized(p)
    requires |mac| != Size(e.hash)
    ensures Verify(e, data, mac, p) == Fail(ErrNotVerified)
  {
    assert |p.digest(e.hash, data)| == Size(e.hash);
  }

  /** Neither operation reads the secret: engines that share a hash sign and verify alike. */
  lemma SecretUnused(e1: HMAC, e2: HMAC, data: Option<Bytes>, d: Bytes, mac: Bytes, p: Primitives)
    requires e1.hash == e2.hash
    ensures Sign(e1, data, p) == Sign(e2, data, p)
    ensures Verify(e1, d, mac, p) == Verify(e2, d, mac, p)
  {
  }
}
