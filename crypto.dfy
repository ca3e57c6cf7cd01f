/**
 * The foreign code the signature engines call: the SHA-2 hashes of
 * crypto/sha256 and crypto/sha512, pem.Decode, x509.ParsePKCS1PrivateKey,
 * x509.ParseECPrivateKey, and the RSASSA-PKCS1-v1_5 (section 8.2 of
 * RFC 8017), RSASSA-PSS (section 8.1 of RFC 8017) and ECDSA ASN.1 primitives
 * of crypto/rsa and crypto/ecdsa. They are not modelled: a `Primitives`
 * value gathers them as uninterpreted functions, and `Sound` states the few
 * facts about them that the proofs rely on.
 */
module Crypto {
  import opened Wrappers

  type byte = x: int | 0 <= x < 256

  /** A Go `[]byte`, or a Go `string` (an immutable byte sequence). */
  type Bytes = seq<byte>

  /** What reading a possibly nil slice yields: nil reads as no bytes. */
  function Contents(b: Option<Bytes>): Bytes {
    if b.Some? then b.value else []
  }

  /** The crypto.Hash values the engines are built with. */
  datatype Hash = SHA256 | SHA384 | SHA512

  /** crypto.Hash.Size: the length in bytes of a digest. */
  function Size(h: Hash): nat {
    match h
    case SHA256 => 32
    case SHA384 => 48
    case SHA512 => 64
  }

  /** The bytes rand.Reader delivers to one signing call. */
  type RandomStream = Bytes

  /** A decoded pem.Block. */
  datatype PemBlock = PemBlock(blockType: string, headers: map<string, string>, bytes: Bytes)

  datatype RsaPublicKey = RsaPublicKey(n: nat, e: nat)

  /** An rsa.PrivateKey; as in Go, it embeds its public part. */
  datatype RsaPrivateKey = RsaPrivateKey(publicKey: RsaPublicKey, d: nat)

  /** rsa.PSSSaltLengthAuto: the salt is as long as the key and hash allow. */
  const PSSSaltLengthAuto: int := 0

  /** rsa.PSSOptions. */
  datatype PssOptions = PssOptions(saltLength: int, hash: Hash)

  /** An ecdsa.PublicKey; its curve is identified by the curve parameters' Name. */
  datatype EcPublicKey = EcPublicKey(curve: string, x: int, y: int)

  /** An ecdsa.PrivateKey; as in Go, it embeds its public part. */
  datatype EcPrivateKey = EcPrivateKey(publicKey: EcPublicKey, d: nat)

  /** The names of the curves x509.ParseECPrivateKey can return keys on. */
  const NamedCurves: set<string> := {"P-224", "P-256", "P-384", "P-521"}

  datatype Primitives = Primitives(
    /** hash.New(), Write(data), Sum(nil) */
    digest: (Hash, Bytes) -> Bytes,
    /** pem.Decode: the first block, if any, and the bytes after it */
    pemDecode: Bytes -> (Option<PemBlock>, Bytes),
    parsePKCS1PrivateKey: Bytes -> Result<RsaPrivateKey>,
    parseECPrivateKey: Bytes -> Result<EcPrivateKey>,
    /** rsa.SignPKCS1v15(random, key, hash, hashed) */
    signPKCS1v15: (RandomStream, RsaPrivateKey, Hash, Bytes) -> Result<Bytes>,
    /** rsa.VerifyPKCS1v15(key, hash, hashed, signature) */
    verifyPKCS1v15: (RsaPublicKey, Hash, Bytes, Bytes) -> Outcome,
    /** rsa.SignPSS(random, key, hash, digest, options) */
    signPSS: (RandomStream, RsaPrivateKey, Hash, Bytes, PssOptions) -> Result<Bytes>,
    /** rsa.VerifyPSS(key, hash, digest, signature, options) */
    verifyPSS: (RsaPublicKey, Hash, Bytes, Bytes, PssOptions) -> Outcome,
    /** ecdsa.SignASN1(random, key, hash) */
    signASN1: (RandomStream, EcPrivateKey, Bytes) -> Result<Bytes>,
    /** ecdsa.VerifyASN1(key, hash, signature) */
    verifyASN1: (EcPublicKey, Bytes, Bytes) -> bool
  )

  /** Every digest has the length crypto.Hash.Size gives. */
  ghost predicate DigestsSized(p: Primitives) {
    forall h, m :: |p.digest(h, m)| == Size(h)
  }

  /** No PEM block can be found in zero bytes. */
  ghost predicate NoPemInEmpty(p: Primitives) {
    p.pemDecode([]).0.None?
  }

  /** x509 only returns EC keys on the named curves. */
  ghost predicate ParsedCurvesNamed(p: Primitives) {
    forall der :: p.parseECPrivateKey(der).Ok? ==> p.parseECPrivateKey(der).value.publicKey.curve in NamedCurves
  }

  /** A PKCS #1 v1.5 signature verifies under the signer's public key. */
  ghost predicate Pkcs1v15Correct(p: Primitives) {
    forall r, k, h, m ::
      p.signPKCS1v15(r, k, h, m).Ok? ==>
        p.verifyPKCS1v15(k.publicKey, h, m, p.signPKCS1v15(r, k, h, m).value) == Pass
  }

  /** A PKCS #1 v1.5 signature verifies for at most one hashed message. */
  ghost predicate Pkcs1v15Binding(p: Primitives) {
    forall k, h, m1, m2, s ::
      p.verifyPKCS1v15(k, h, m1, s).Pass? && p.verifyPKCS1v15(k, h, m2, s).Pass? ==> m1 == m2
  }

  /** A PSS signature verifies under the signer's public key with the same options. */
  ghost predicate PssCorrect(p: Primitives) {
    forall r, k, h, m, o ::
      p.signPSS(r, k, h, m, o).Ok? ==>
        p.verifyPSS(k.publicKey, h, m, p.signPSS(r, k, h, m, o).value, o) == Pass
  }

  /** A PSS signature verifies for at most one hashed message. */
  ghost predicate PssBinding(p: Primitives) {
    forall k, h, m1, m2, s, o ::
      p.verifyPSS(k, h, m1, s, o).Pass? && p.verifyPSS(k, h, m2, s, o).Pass? ==> m1 == m2
  }

  /** An ASN.1 ECDSA signature verifies under the signer's public key. */
  ghost predicate Asn1Correct(p: Primitives) {
    forall r, k, m ::
      p.signASN1(r, k, m).Ok? ==> p.verifyASN1(k.publicKey, m, p.signASN1(r, k, m).value)
  }

  /** An ASN.1 ECDSA signature verifies for at most one hashed message. */
  ghost predicate Asn1Binding(p: Primitives) {
    forall k, m1, m2, s :: p.verifyASN1(k, m1, s) && p.verifyASN1(k, m2, s) ==> m1 == m2
  }

  /** The facts about the foreign primitives that the model assumes. */
  ghost predicate Sound(p: Primitives) {
    && DigestsSized(p)
    && NoPemInEmpty(p)
    && ParsedCurvesNamed(p)
    && Pkcs1v15Correct(p)
    && Pkcs1v15Binding(p)
    && PssCorrect(p)
    && PssBinding(p)
    && Asn1Correct(p)
    && Asn1Binding(p)
  }

  /** The three stages every key loader runs first, on non-nil key bytes. */
  datatype PemStage = NoBlock | TrailingBytes | Body(der: Bytes)

  /** Which PEM stage `key` stops at: no block, bytes after the block, or a single block's body. */
  function PemStageOf(p: Primitives, key: Bytes): PemStage {
    var decoded := p.pemDecode(key);
    if decoded.0.None? then NoBlock
    else if decoded.1 != [] then TrailingBytes
    else Body(decoded.0.value.bytes)
  }
}
