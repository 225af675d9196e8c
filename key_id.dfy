/** Key-ID assignment: a supplied ID is kept, otherwise one is synthesised
    from the usage and the wall clock, unless synthesis is suppressed. The
    clock is the `millis` parameter (`System.currentTimeMillis()`). */
module KeyId {
  import opened Wrappers
  import opened JavaLang
  import opened Jose

  /** Guava's `Strings.isNullOrEmpty`. */
  predicate IsNullOrEmpty(s: Option<string>) {
    s.None? || s.value == ""
  }

  /** The identifier of the usage, or nothing when no usage was given. */
  function UsagePrefix(use: Option<Usage>): string {
    match use
    case None => ""
    case Some(u) => UsageId(u)
  }

  /** `generateKid`: the usage prefix followed by the epoch seconds. */
  function GenerateKid(use: Option<Usage>, millis: Int64): string {
    UsagePrefix(use) + LongToString(JavaDiv(millis, 1000))
  }

  /** The kid that `main` hands to the generator. */
  function AssignKid(kid: Option<string>, noKid: bool, use: Option<Usage>, millis: Int64): Option<string> {
    if !IsNullOrEmpty(kid) then kid
    else if noKid then None
    else Some(GenerateKid(use, millis))
  }

  /** A supplied non-empty kid is used verbatim whatever the suppress flag says;
      no kid results exactly when none was supplied and synthesis is
      suppressed; an assigned kid is never empty. */
  lemma AssignKidCases(kid: Option<string>, noKid: bool, use: Option<Usage>, millis: Int64)
    ensures !IsNullOrEmpty(kid) ==> AssignKid(kid, noKid, use, millis) == kid
    ensures !IsNullOrEmpty(kid) ==> AssignKid(kid, !noKid, use, millis) == kid
    ensures AssignKid(kid, noKid, use, millis).None? <==> IsNullOrEmpty(kid) && noKid
    ensures IsNullOrEmpty(kid) && !noKid ==> AssignKid(kid, noKid, use, millis) == Some(GenerateKid(use, millis))
    ensures AssignKid(kid, noKid, use, millis).Some? ==> AssignKid(kid, noKid, use, millis).value != ""
  {
  }

  /** A synthesised kid is the usage prefix followed by a signed decimal
      number that reads back as the clock's whole seconds, truncated toward
      zero; for a clock after the epoch that number is digits only. */
  lemma {:induction false} GeneratedKidFormat(use: Option<Usage>, millis: Int64)
    ensures var k, p := GenerateKid(use, millis), UsagePrefix(use);
      var rest := k[|p|..];
      |k| > |p| && k[..|p|] == p &&
      (rest[0] == '-' ==> AllDigits(rest[1..])) &&
      (rest[0] != '-' ==> AllDigits(rest)) &&
      ParseLong(rest) == JavaDiv(millis, 1000)
    ensures millis >= 0 ==>
      var k, p := GenerateKid(use, millis), UsagePrefix(use);
      AllDigits(k[|p|..]) && ParseDigits(k[|p|..]) == millis / 1000
  {
    var k, p := GenerateKid(use, millis), UsagePrefix(use);
    assert k[|p|..] == LongToString(JavaDiv(millis, 1000));
    LongToStringRoundTrip(JavaDiv(millis, 1000));
    if millis >= 0 {
      assert k[|p|..] == Digits(millis / 1000);
      DigitsRoundTrip(millis / 1000);
    }
  }

  /** Two keys with the same usage get the same synthesised kid exactly when
      they are generated within the same second: the scheme is a heuristic,
      not a collision-free one. */
  lemma GeneratedKidCollision(use: Option<Usage>, m1: Int64, m2: Int64)
    ensures GenerateKid(use, m1) == GenerateKid(use, m2) <==> JavaDiv(m1, 1000) == JavaDiv(m2, 1000)
  {
    var p := UsagePrefix(use);
    var s1, s2 := LongToString(JavaDiv(m1, 1000)), LongToString(JavaDiv(m2, 1000));
    if GenerateKid(use, m1) == GenerateKid(use, m2) {
      assert s1 == (p + s1)[|p|..] == (p + s2)[|p|..] == s2;
      LongToStringInjective(JavaDiv(m1, 1000), JavaDiv(m2, 1000));
    }
  }

  /** Keys generated with different usages never get the same synthesised kid. */
  lemma GeneratedKidUsageDistinct(u1: Option<Usage>, u2: Option<Usage>, m1: Int64, m2: Int64)
    requires u1 != u2
    ensures GenerateKid(u1, m1) != GenerateKid(u2, m2)
  {
    var k1, k2 := GenerateKid(u1, m1), GenerateKid(u2, m2);
    var s1, s2 := LongToString(JavaDiv(m1, 1000)), LongToString(JavaDiv(m2, 1000));
    LongToStringRoundTrip(JavaDiv(m1, 1000));
    LongToStringRoundTrip(JavaDiv(m2, 1000));
    if u1.None? {
      assert k1[0] == s1[0] && k2[0] in "se";
      assert s1[0] == '-' || IsDigit(s1[0]);
    } else if u2.None? {
      assert k2[0] == s2[0] && k1[0] in "se";
      assert s2[0] == '-' || IsDigit(s2[0]);
    } else {
      assert k1[0] != k2[0];
    }
  }
}
