/**
 * The algorithm name constants and the registry of accepted header `alg`
 * values. The registry deliberately keeps the source's spelling: the
 * 384-bit ECDSA, HMAC and RSA-PSS names are "ES348", "HS348" and "PS348",
 * while the RSA one is "RS384". They therefore differ from the names of
 * section 3.1 of RFC 7518 in those three places.
 */
module Names {

  const NameES256: string := "ES256"
  const NameES348: string := "ES348"
  const NameES512: string := "ES512"
  const NameHS256: string := "HS256"
  const NameHS348: string := "HS348"
  const NameHS512: string := "HS512"
  const NamePS256: string := "PS256"
  const NamePS348: string := "PS348"
  const NamePS512: string := "PS512"
  const NameRS256: string := "RS256"
  const NameRS384: string := "RS384"
  const NameRS512: string := "RS512"

  /** The registry, in the source's order. */
  const Algorithms: seq<string> := [
    NameES256, NameES348, NameES512, NameHS256, NameHS348, NameHS512,
    NamePS256, NamePS348, NamePS512, NameRS256, NameRS384, NameRS512
  ]

  /** The registry holds exactly these twelve literal strings, each once. */
  lemma RegistryContents()
    ensures |Algorithms| == 12
    ensures forall i, j :: 0 <= i < j < |Algorithms| ==> Algorithms[i] != Algorithms[j]
    ensures (set name | name in Algorithms) ==
      {"ES256", "ES348", "ES512", "HS256", "HS348", "HS512",
       "PS256", "PS348", "PS512", "RS256", "RS384", "RS512"}
  {
  }

  /** The RFC 7518 spellings of three 384-bit names are not accepted, and the empty name is not either. */
  lemma RegistryRejectsRfcSpellings()
    ensures "ES384" !in Algorithms && "HS384" !in Algorithms && "PS384" !in Algorithms
    ensures "RS384" in Algorithms
    ensures "" !in Algorithms && "none" !in Algorithms
  {
  }
}
