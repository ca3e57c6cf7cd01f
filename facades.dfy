/**
 * The nine algorithm facades. Each binds one fixed name and one hash to an
 * engine and delegates `Sign`, `Verify` and `Name` to it. The Go
 * `Algorithm` interface is modelled as this closed set of variants, with
 * `Name`, `Sign` and `Verify` dispatching on the variant.
 */
module Facades {
  import opened Wrappers
  import opened Crypto
  import opened Names
  import Hmac
  import Rsa
  import Ecdsa

  datatype Algorithm =
    | HS256(hmac: Hmac.HMAC)
    | HS384(hmac: Hmac.HMAC)
    | HS512(hmac: Hmac.HMAC)
    | RS256(rsa: Rsa.RSA)
    | RS384(rsa: Rsa.RSA)
    | RS512(rsa: Rsa.RSA)
    | ES256(ecdsa: Ecdsa.ECDSA)
    | ES384(ecdsa: Ecdsa.ECDSA)
    | ES512(ecdsa: Ecdsa.ECDSA)

  predicate IsHmac(a: Algorithm) {
    a.HS256? || a.HS384? || a.HS512?
  }

  predicate IsRsa(a: Algorithm) {
    a.RS256? || a.RS384? || a.RS512?
  }

  /** The name each facade's constructor binds; two of them keep the "348" spelling. */
  function BoundName(a: Algorithm): string {
    match a
    case HS256(_) => NameHS256
    case HS384(_) => NameHS348
    case HS512(_) => NameHS512
    case RS256(_) => NameRS256
    case RS384(_) => NameRS384
    case RS512(_) => NameRS512
    case ES256(_) => NameES256
    case ES384(_) => NameES348
    case ES512(_) => NameES512
  }

  /** The hash each facade's constructor binds. */
  function BoundHash(a: Algorithm): Hash {
    match a
    case HS256(_) => SHA256
    case HS384(_) => SHA384
    case HS512(_) => SHA512
    case RS256(_) => SHA256
    case RS384(_) => SHA384
    case RS512(_) => SHA512
    case ES256(_) => SHA256
    case ES384(_) => SHA384
    case ES512(_) => SHA512
  }

  /** What every facade built by its constructor satisfies: its engine carries the bound name and hash and is itself valid. */
  predicate Valid(a: Algorithm) {
    if IsHmac(a) then a.hmac.name == BoundName(a) && a.hmac.hash == BoundHash(a)
    else if IsRsa(a) then a.rsa.name == BoundName(a) && a.rsa.hash == BoundHash(a) && Rsa.Valid(a.rsa)
    else a.ecdsa.name == BoundName(a) && a.ecdsa.hash == BoundHash(a) && Ecdsa.Valid(a.ecdsa)
  }

  /** Name: the name stored in the engine. */
  function Name(a: Algorithm): string {
    match a
    case HS256(e) => e.name
    case HS384(e) => e.name
    case HS512(e) => e.name
    case RS256(e) => e.name
    case RS384(e) => e.name
    case RS512(e) => e.name
    case ES256(e) => e.name
    case ES384(e) => e.name
    case ES512(e) => e.name
  }

  /** Sign: the engine's sign on the same data. */
  function Sign(a: Algorithm, data: Option<Bytes>, random: RandomStream, p: Primitives): Result<Bytes> {
    match a
    case HS256(e) => Hmac.Sign(e, data, p)
    case HS384(e) => Hmac.Sign(e, data, p)
    case HS512(e) => Hmac.Sign(e, data, p)
    case RS256(e) => Rsa.Sign(e, data, random, p)
    case RS384(e) => Rsa.Sign(e, data, random, p)
    case RS512(e) => Rsa.Sign(e, data, random, p)
    case ES256(e) => Ecdsa.Sign(e, data, random, p)
    case ES384(e) => Ecdsa.Sign(e, data, random, p)
    case ES512(e) => Ecdsa.Sign(e, data, random, p)
  }

  /** Verify: the engine's verify, arguments in the same positions. */
  function Verify(a: Algorithm, data: Bytes, signature: Bytes, p: Primitives): Outcome {
    match a
    case HS256(e) => Hmac.Verify(e, data, signature, p)
    case HS384(e) => Hmac.Verify(e, data, signature, p)
    case HS512(e) => Hmac.Verify(e, data, signature, p)
    case RS256(e) => Rsa.Verify(e, data, signature, p)
    case RS384(e) => Rsa.Verify(e, data, signature, p)
    case RS512(e) => Rsa.Verify(e, data, signature, p)
    case ES256(e) => Ecdsa.Verify(e, data, signature, p)
    case ES384(e) => Ecdsa.Verify(e, data, signature, p)
    case ES512(e) => Ecdsa.Verify(e, data, signature, p)
  }

  // ----- Constructors. An engine error is returned unchanged, without a facade.

  function NewHS256(secret: Option<Bytes>): (r: Result<Algorithm>)
    ensures r.Ok? <==> secret.Some?
    ensures r.Err? ==> r.error == Hmac.NewHMAC(NameHS256, secret, SHA256).error
    ensures r.Ok? ==> r.value.HS256? && Valid(r.value) && r.value.hmac.secret == secret.value
    ensures r.Ok? ==> Name(r.value) == "HS256"
  {
    var hmac :- Hmac.NewHMAC(NameHS256, secret, SHA256);
    Ok(HS256(hmac))
  }

  function NewHS384(secret: Option<Bytes>): (r: Result<Algorithm>)
    ensures r.Ok? <==> secret.Some?
    ensures r.Err? ==> r.error == Hmac.NewHMAC(NameHS348, secret, SHA384).error
    ensures r.Ok? ==> r.value.HS384? && Valid(r.value) && r.value.hmac.secret == secret.value
    ensures r.Ok? ==> Name(r.value) == "HS348"
  {
    var hmac :- Hmac.NewHMAC(NameHS348, secret, SHA384);
    Ok(HS384(hmac))
  }

  function NewHS512(secret: Option<Bytes>): (r: Result<Algorithm>)
    ensures r.Ok? <==> secret.Some?
    ensures r.Err? ==> r.error == Hmac.NewHMAC(NameHS512, secret, SHA512).error
    ensures r.Ok? ==> r.value.HS512? && Valid(r.value) && r.value.hmac.secret == secret.value
    ensures r.Ok? ==> Name(r.value) == "HS512"
  {
    var hmac :- Hmac.NewHMAC(NameHS512, secret, SHA512);
    Ok(HS512(hmac))
  }

  function NewRS256(key: Option<Bytes>, p: Primitives): (r: Result<Algorithm>)
    ensures r.Ok? <==> Rsa.NewRSA(NameRS256, key, SHA256, p).Ok?
    ensures r.Err? ==> r.error == Rsa.NewRSA(NameRS256, key, SHA256, p).error
    ensures r.Ok? ==> r.value.RS256? && Valid(r.value) && r.value.rsa == Rsa.NewRSA(NameRS256, key, SHA256, p).value
    ensures r.Ok? ==> Name(r.value) == "RS256"
  {
    var rsa :- Rsa.NewRSA(NameRS256, key, SHA256, p);
    Ok(RS256(rsa))
  }

  function NewRS384(key: Option<Bytes>, p: Primitives): (r: Result<Algorithm>)
    ensures r.Ok? <==> Rsa.NewRSA(NameRS384, key, SHA384, p).Ok?
    ensures r.Err? ==> r.error == Rsa.NewRSA(NameRS384, key, SHA384, p).error
    ensures r.Ok? ==> r.value.RS384? && Valid(r.value) && r.value.rsa == Rsa.NewRSA(NameRS384, key, SHA384, p).value
    ensures r.Ok? ==> Name(r.value) == "RS384"
  {
    var rsa :- Rsa.NewRSA(NameRS384, key, SHA384, p);
    Ok(RS384(rsa))
  }

  function NewRS512(key: Option<Bytes>, p: Primitives): (r: Result<Algorithm>)
    ensures r.Ok? <==> Rsa.NewRSA(NameRS512, key, SHA512, p).Ok?
    ensures r.Err? ==> r.error == Rsa.NewRSA(NameRS512, key, SHA512, p).error
    ensures r.Ok? ==> r.value.RS512? && Valid(r.value) && r.value.rsa == Rsa.NewRSA(NameRS512, key, SHA512, p).value
    ensures r.Ok? ==> Name(r.value) == "RS512"
  {
    var rsa :- Rsa.NewRSA(NameRS512, key, SHA512, p);
    Ok(RS512(rsa))
  }

  function NewES256(key: Option<Bytes>, p: Primitives): (r: Result<Algorithm>)
    ensures r.Ok? <==> Ecdsa.NewECDSA(NameES256, key, SHA256, p).Ok?
    ensures r.Err? ==> r.error == Ecdsa.NewECDSA(NameES256, key, SHA256, p).error
    ensures r.Ok? ==> r.value.ES256? && Valid(r.value) && r.value.ecdsa == Ecdsa.NewECDSA(NameES256, key, SHA256, p).value
    ensures r.Ok? ==> Name(r.value) == "ES256" && r.value.ecdsa.publicKey.curve == "P-256"
  {
    var ecdsa :- Ecdsa.NewECDSA(NameES256, key, SHA256, p);
    Ok(ES256(ecdsa))
  }

  function NewES384(key: Option<Bytes>, p: Primitives): (r: Result<Algorithm>)
    ensures r.Ok? <==> Ecdsa.NewECDSA(NameES348, key, SHA384, p).Ok?
    ensures r.Err? ==> r.error == Ecdsa.NewECDSA(NameES348, key, SHA384, p).error
    ensures r.Ok? ==> r.value.ES384? && Valid(r.value) && r.value.ecdsa == Ecdsa.NewECDSA(NameES348, key, SHA384, p).value
    ensures r.Ok? ==> Name(r.value) == "ES348" && r.value.ecdsa.publicKey.curve == "P-384"
  {
    var ecdsa :- Ecdsa.NewECDSA(NameES348, key, SHA384, p);
    Ok(ES384(ecdsa))
  }

  function NewES512(key: Option<Bytes>, p: Primitives): (r: Result<Algorithm>)
    ensures r.Ok? <==> Ecdsa.NewECDSA(NameES512, key, SHA512, p).Ok?
    ensures r.Err? ==> r.error == Ecdsa.NewECDSA(NameES512, key, SHA512, p).error
    ensures r.Ok? ==> r.value.ES512? && Valid(r.value) && r.value.ecdsa == Ecdsa.NewECDSA(NameES512, key, SHA512, p).value
    ensures r.Ok? ==> Name(r.value) == "ES512" && r.value.ecdsa.publicKey.curve == "P-521"
  {
    var ecdsa :- Ecdsa.NewECDSA(NameES512, key, SHA512, p);
    Ok(ES512(ecdsa))
  }

  // ----- Properties shared by all facades.

  /** A facade from its constructor reports its bound name, and every bound name is in the registry. */
  lemma NameInRegistry(a: Algorithm)
    requires Valid(a)
    ensures Name(a) == BoundName(a)
    ensures Name(a) in Algorithms
  {
  }

  /** The registry names no facade answers to: the PS names, and HS384/ES384 spelled as in RFC 7518. */
  lemma UnboundRegistryNames(a: Algorithm)
    requires Valid(a)
    ensures Name(a) !in {NamePS256, NamePS348, NamePS512, "HS384", "ES384"}
  {
  }

  /** A signature a facade makes verifies with the same facade. */
  lemma SignThenVerify(a: Algorithm, data: Bytes, random: RandomStream, p: Primitives)
    requires Sound(p) && Valid(a)
    requires Sign(a, Some(data), random, p).Ok?
    ensures Verify(a, data, Sign(a, Some(data), random, p).value, p) == Pass
  {
    if IsHmac(a) {
      Hmac.SignThenVerify(a.hmac, data, p);
    } else if IsRsa(a) {
      Rsa.SignThenVerify(a.rsa, data, random, p);
    } else {
      Ecdsa.SignThenVerify(a.ecdsa, data, random, p);
    }
  }

  /** A signature over one message is refused for a message with a different digest. */
  lemma OtherDataFails(a: Algorithm, d1: Bytes, d2: Bytes, random: RandomStream, p: Primitives)
    requires Sound(p) && Valid(a)
    requires p.digest(BoundHash(a), d1) != p.digest(BoundHash(a), d2)
    requires Sign(a, Some(d1), random, p).Ok?
    ensures Verify(a, d2, Sign(a, Some(d1), random, p).value, p).Fail?
  {
    if IsHmac(a) {
      Hmac.VerifyOtherData(a.hmac, d1, d2, p);
    } else if IsRsa(a) {
      Rsa.OtherDataFails(a.rsa, d1, d2, random, p);
    } else {
      Ecdsa.OtherDataFails(a.ecdsa, d1, d2, random, p);
    }
  }

  /** HMAC facades sign every non-nil input, ignore the random source, and so are deterministic. */
  lemma HmacSignTotalAndDeterministic(a: Algorithm, data: Bytes, r1: RandomStream, r2: RandomStream, p: Primitives)
    requires IsHmac(a)
    ensures Sign(a, Some(data), r1, p).Ok?
    ensures Sign(a, Some(data), r1, p) == Sign(a, Some(data), r2, p)
  {
  }
}
