/** The JOSE vocabulary the launcher works with: key families, usages, the
    curve allow-lists, and the generated key object. The key material itself
    (moduli, points, secret bytes) is produced by library generators and is
    not represented; a key is known by what the launcher chose for it. */
module Jose {
  import opened Wrappers

  /** The four key types the launcher can generate. */
  datatype Family = RSA | Oct | EC | OKP

  /** A key's declared purpose. */
  datatype Usage = Signature | Encryption

  /** What a generator is asked for: a bit size (RSA, oct) or a named curve (EC, OKP). */
  datatype KeyParam = Size(bits: int) | Curve(name: string)

  /** A generated key. `hasPrivate` is false for the public-only projection. */
  datatype Jwk = Jwk(kty: Family, param: KeyParam, use: Option<Usage>,
                     alg: Option<string>, kid: Option<string>, hasPrivate: bool)

  /** The `kty` value of each family, as the JOSE key-type constants spell it. */
  function FamilyName(f: Family): string {
    match f
    case RSA => "RSA"
    case Oct => "oct"
    case EC => "EC"
    case OKP => "OKP"
  }

  /** Which standard family a `-t` value names, if any (exact, case-sensitive match). */
  function FamilyOf(kty: string): Option<Family> {
    if kty == "RSA" then Some(RSA)
    else if kty == "oct" then Some(Oct)
    else if kty == "EC" then Some(EC)
    else if kty == "OKP" then Some(OKP)
    else None
  }

  lemma FamilyOfIsInverse(kty: string, f: Family)
    ensures FamilyOf(kty) == Some(f) <==> kty == FamilyName(f)
  {
  }

  /** `KeyUse.identifier()`. */
  function UsageId(u: Usage): string {
    match u
    case Signature => "sig"
    case Encryption => "enc"
  }

  /** The curves accepted for EC keys, in the order the launcher lists them. */
  const EcCurves: seq<string> := ["P-256", "secp256k1", "P-384", "P-521"]

  /** The curves accepted for OKP keys. */
  const OkpCurves: seq<string> := ["Ed25519", "Ed448", "X25519", "X448"]

  /** The allow-list of a curve family; sized families have none. */
  function AllowedCurves(f: Family): seq<string> {
    match f
    case EC => EcCurves
    case OKP => OkpCurves
    case _ => []
  }

  /** No curve name is allowed for both EC and OKP keys. */
  lemma CurveListsDisjoint(c: string)
    ensures !(c in EcCurves && c in OkpCurves)
  {
  }

  /** The opaque generators (`RSAKeyMaker.make`, `OctetSequenceKeyMaker.make`,
      `ECKeyMaker.make`, `OKPKeyMaker.make`): a full key carrying exactly the
      parameters, usage, algorithm and key ID it was made with. */
  function MakeKey(f: Family, p: KeyParam, use: Option<Usage>, alg: Option<string>,
                   kid: Option<string>): Jwk
  {
    Jwk(f, p, use, alg, kid, true)
  }

  /** `JWK.toPublicJWK()`: the public part of an asymmetric key, or null for
      a symmetric (oct) key, which has no public part. */
  function ToPublic(k: Jwk): (r: Option<Jwk>)
    ensures r.None? <==> k.kty == Oct
    ensures r.Some? ==> !r.value.hasPrivate
    ensures r.Some? ==> r.value.(hasPrivate := k.hasPrivate) == k
  {
    if k.kty == Oct then None else Some(k.(hasPrivate := false))
  }
}
