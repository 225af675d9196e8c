/** The parameter checks of the launcher's `main`, in the order the code
    performs them, as one pure function from the raw option values to either
    the generator call to make or the error the launcher exits with. */
module Validation {
  import opened Wrappers
  import opened JavaLang
  import opened Jose
  import opened KeyId

  /** The `-s` value: its text and what `Integer.decode` makes of it
      (`None` when it throws `NumberFormatException`). */
  datatype SizeText = SizeText(text: string, decoded: Option<Int32>)

  /** The raw values of the generation options (`-t -s -u -a -i -c -I`). */
  datatype GenOptions = GenOptions(kty: Option<string>, size: Option<SizeText>,
                                   use: Option<string>, alg: Option<string>,
                                   kid: Option<string>, crv: Option<string>,
                                   noKid: bool)

  /** Each way the launcher prints its usage text and exits with status 1. */
  datatype Error =
    | MissingKeyType
    | InvalidUsage(use: string)
    | MissingSize(family: Family)
    | InvalidSizeFormat(text: string)
    | SizeNotDivisible(size: int)
    | MissingCurve(family: Family)
    | InvalidCurve(curve: string, family: Family)
    | UnknownKeyType(kty: string)
    | CorruptKeySet
    | UnreadableKeySet

  /** The generator call `main` ends up making. */
  datatype Dispatch = Dispatch(family: Family, param: KeyParam, use: Option<Usage>,
                               alg: Option<string>, kid: Option<string>)

  /** The parameter a generator may be called with: a size divisible by 8
      for RSA and oct, an allow-listed curve for EC and OKP. */
  predicate ValidParam(f: Family, p: KeyParam) {
    match f
    case RSA => p.Size? && p.bits % 8 == 0
    case Oct => p.Size? && p.bits % 8 == 0
    case EC => p.Curve? && p.name in EcCurves
    case OKP => p.Curve? && p.name in OkpCurves
  }

  /** Only "sig" and "enc" are usages; an absent usage is no usage. */
  function ParseUsage(use: Option<string>): Result<Option<Usage>, Error> {
    match use
    case None => Success(None)
    case Some(u) =>
      if u == "sig" then Success(Some(Signature))
      else if u == "enc" then Success(Some(Encryption))
      else Failure(InvalidUsage(u))
  }

  /** An empty `-a` is treated as absent; otherwise the label passes through. */
  function ParseAlg(alg: Option<string>): Option<string> {
    if IsNullOrEmpty(alg) then None else alg
  }

  /** The size checks of the RSA and oct branches. */
  function CheckSize(f: Family, size: Option<SizeText>): Result<KeyParam, Error> {
    if size.None? || size.value.text == "" then Failure(MissingSize(f))
    else match size.value.decoded
      case None => Failure(InvalidSizeFormat(size.value.text))
      case Some(n) => if n % 8 != 0 then Failure(SizeNotDivisible(n)) else Success(Size(n))
  }

  /** The curve checks of the EC and OKP branches. */
  function CheckCurve(f: Family, crv: Option<string>): Result<KeyParam, Error> {
    if IsNullOrEmpty(crv) then Failure(MissingCurve(f))
    else if crv.value !in AllowedCurves(f) then Failure(InvalidCurve(crv.value, f))
    else Success(Curve(crv.value))
  }

  function CheckParam(f: Family, o: GenOptions): Result<KeyParam, Error> {
    if f == RSA || f == Oct then CheckSize(f, o.size) else CheckCurve(f, o.crv)
  }

  /** `main` from the key-type check to the generator call. Whatever it
      accepts, it hands to the generator with a validated parameter. */
  function Validate(o: GenOptions, millis: Int64): (r: Result<Dispatch, Error>)
    ensures r.Success? ==> ValidParam(r.value.family, r.value.param)
  {
    if o.kty.None? then Failure(MissingKeyType)
    else match ParseUsage(o.use)
      case Failure(e) => Failure(e)
      case Success(use) =>
        var kid := AssignKid(o.kid, o.noKid, use, millis);
        var alg := ParseAlg(o.alg);
        match FamilyOf(o.kty.value)
        case None => Failure(UnknownKeyType(o.kty.value))
        case Some(f) =>
          match CheckParam(f, o)
          case Failure(e) => Failure(e)
          case Success(p) => Success(Dispatch(f, p, use, alg, kid))
  }

  /** A missing key type is reported before anything else is looked at. */
  lemma MissingKeyTypeFirst(o: GenOptions, millis: Int64)
    requires o.kty.None?
    ensures Validate(o, millis) == Failure(MissingKeyType)
  {
  }

  /** Usage is checked right after the key type: "sig" and "enc" are the only
      accepted values, and a bad usage wins over every size, curve and
      key-type problem. */
  lemma UsageRules(o: GenOptions, millis: Int64)
    requires o.kty.Some?
    ensures ParseUsage(o.use).Success? <==> o.use.None? || o.use.value in ["sig", "enc"]
    ensures o.use == Some("sig") ==> ParseUsage(o.use) == Success(Some(Signature))
    ensures o.use == Some("enc") ==> ParseUsage(o.use) == Success(Some(Encryption))
    ensures o.use.None? ==> ParseUsage(o.use) == Success(None)
    ensures o.use.Some? && o.use.value !in ["sig", "enc"] ==>
              Validate(o, millis) == Failure(InvalidUsage(o.use.value))
  {
  }

  /** An unrecognised key type is rejected, after the usage check, and no
      generator is called; conversely every accepted key names a family. */
  lemma UnknownKeyTypeRule(o: GenOptions, millis: Int64)
    ensures o.kty.Some? && ParseUsage(o.use).Success? && FamilyOf(o.kty.value).None? ==>
              Validate(o, millis) == Failure(UnknownKeyType(o.kty.value))
    ensures Validate(o, millis).Success? ==>
              o.kty.Some? && o.kty.value == FamilyName(Validate(o, millis).value.family)
  {
    if Validate(o, millis).Success? {
      FamilyOfIsInverse(o.kty.value, Validate(o, millis).value.family);
    }
  }

  /** The options whose key type names `f` and whose usage is valid: the
      precondition of the family-specific rules below. */
  predicate ReachesFamily(o: GenOptions, f: Family) {
    o.kty == Some(FamilyName(f)) && ParseUsage(o.use).Success?
  }

  /** The size rules of the RSA and oct branches, each error exactly when its
      condition holds and the generator called with exactly the given size
      otherwise. */
  lemma {:induction false} SizeRules(o: GenOptions, f: Family, millis: Int64)
    requires f == RSA || f == Oct
    requires ReachesFamily(o, f)
    ensures Validate(o, millis) == Failure(MissingSize(f)) <==>
              o.size.None? || o.size.value.text == ""
    ensures Validate(o, millis).Failure? && Validate(o, millis).error.InvalidSizeFormat? <==>
              o.size.Some? && o.size.value.text != "" && o.size.value.decoded.None?
    ensures Validate(o, millis).Failure? && Validate(o, millis).error.SizeNotDivisible? <==>
              o.size.Some? && o.size.value.text != "" && o.size.value.decoded.Some? &&
              o.size.value.decoded.value % 8 != 0
    ensures Validate(o, millis).Failure? && Validate(o, millis).error != MissingSize(f) ==>
              Validate(o, millis).error ==
                if o.size.value.decoded.None? then InvalidSizeFormat(o.size.value.text)
                else SizeNotDivisible(o.size.value.decoded.value)
    ensures Validate(o, millis).Success? <==>
              o.size.Some? && o.size.value.text != "" && o.size.value.decoded.Some? &&
              o.size.value.decoded.value % 8 == 0
    ensures Validate(o, millis).Success? ==>
              var use := ParseUsage(o.use).value;
              Validate(o, millis).value ==
                Dispatch(f, Size(o.size.value.decoded.value), use, ParseAlg(o.alg),
                         AssignKid(o.kid, o.noKid, use, millis))
  {
    FamilyOfIsInverse(o.kty.value, f);
  }

  /** The curve rules of the EC and OKP branches. */
  lemma {:induction false} CurveRules(o: GenOptions, f: Family, millis: Int64)
    requires f == EC || f == OKP
    requires ReachesFamily(o, f)
    ensures Validate(o, millis) == Failure(MissingCurve(f)) <==> IsNullOrEmpty(o.crv)
    ensures Validate(o, millis).Failure? && Validate(o, millis).error.InvalidCurve? <==>
              !IsNullOrEmpty(o.crv) && o.crv.value !in AllowedCurves(f)
    ensures Validate(o, millis).Failure? && Validate(o, millis).error.InvalidCurve? ==>
              Validate(o, millis).error == InvalidCurve(o.crv.value, f)
    ensures Validate(o, millis).Success? <==>
              !IsNullOrEmpty(o.crv) && o.crv.value in AllowedCurves(f)
    ensures Validate(o, millis).Success? ==>
              var use := ParseUsage(o.use).value;
              Validate(o, millis).value ==
                Dispatch(f, Curve(o.crv.value), use, ParseAlg(o.alg),
                         AssignKid(o.kid, o.noKid, use, millis))
  {
    FamilyOfIsInverse(o.kty.value, f);
  }

  /** An EC curve is never accepted for an OKP key, nor an OKP curve for an EC key. */
  lemma CrossFamilyCurveRejected(o: GenOptions, f: Family, millis: Int64)
    requires f == EC || f == OKP
    requires ReachesFamily(o, f)
    requires o.crv.Some? && o.crv.value in AllowedCurves(if f == EC then OKP else EC)
    ensures Validate(o, millis) == Failure(InvalidCurve(o.crv.value, f))
  {
    CurveListsDisjoint(o.crv.value);
    CurveRules(o, f, millis);
  }

  /** The size and curve options are ignored by the families that do not use them. */
  lemma {:induction false} IrrelevantOptionsIgnored(o: GenOptions, millis: Int64, size: Option<SizeText>, crv: Option<string>)
    ensures o.kty.Some? && FamilyOf(o.kty.value) in {Some(RSA), Some(Oct)} ==>
              Validate(o.(crv := crv), millis) == Validate(o, millis)
    ensures o.kty.Some? && FamilyOf(o.kty.value) in {Some(EC), Some(OKP)} ==>
              Validate(o.(size := size), millis) == Validate(o, millis)
  {
  }
}
