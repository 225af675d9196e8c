/** The launcher's `main` after option parsing: validate, generate, assign
    the key ID, then display the key or write it (merged into a key set when
    asked). `Outcome` is the specification; `Launch` follows `main` step by
    step and is proved to compute it. */
module Launcher {
  import opened Wrappers
  import opened JavaLang
  import opened Jose
  import opened KeyId
  import opened Validation
  import opened KeySetFile

  /** All option values `main` reads: the generation options and `-S -p -o`. */
  datatype CliOptions = CliOptions(gen: GenOptions, keySet: bool, pubKey: bool, outFile: Option<string>)

  /** What `-p` adds to the display. */
  datatype PublicDisplay = NotRequested | PublicKey(doc: Document) | NoPublicKey

  /** A successful run: the key displayed on standard output, or the
      document written to the output file. */
  datatype Output = Display(full: Document, pub: PublicDisplay) | Written(path: string, doc: Document)

  /** `printKey`: one key, or a one-element key set in `-S` mode. */
  function PrintKey(keySet: bool, jwk: Jwk): Document {
    if keySet then SetDoc([jwk]) else KeyDoc(jwk)
  }

  /** What the run produces once the key `jwk` exists. */
  function Emit(c: CliOptions, jwk: Jwk, stored: StoredKeySet): Result<Output, Error> {
    if c.outFile.None? then
      var pub :=
        if !c.pubKey then NotRequested
        else match ToPublic(jwk)
          case Some(p) => PublicKey(PrintKey(c.keySet, p))
          case None => NoPublicKey;
      Success(Display(PrintKey(c.keySet, jwk), pub))
    else if !c.keySet then Success(Written(c.outFile.value, KeyDoc(jwk)))
    else match ExistingKeys(stored)
      case Failure(e) => Failure(e)
      case Success(keys) => Success(Written(c.outFile.value, SetDoc(keys + [jwk])))
  }

  /** The whole run: the first failing check decides the error; otherwise
      the generator chosen by validation makes the key and it is emitted. */
  function Outcome(c: CliOptions, millis: Int64, stored: StoredKeySet): Result<Output, Error> {
    match Validate(c.gen, millis)
    case Failure(e) => Failure(e)
    case Success(d) => Emit(c, MakeKey(d.family, d.param, d.use, d.alg, d.kid), stored)
  }

  /** `main`, with the locals `keyUse`, `kid`, `keyAlg` and `jwk` it
      reassigns and its early exits. */
  method Launch(c: CliOptions, millis: Int64, stored: StoredKeySet) returns (r: Result<Output, Error>)
    ensures r == Outcome(c, millis, stored)
  {
    var o := c.gen;
    if o.kty.None? {
      return Failure(MissingKeyType);
    }
    var keyType := FamilyOf(o.kty.value);

    var keyUse: Option<Usage> := None;
    if o.use.Some? {
      if o.use.value == "sig" {
        keyUse := Some(Signature);
      } else if o.use.value == "enc" {
        keyUse := Some(Encryption);
      } else {
        return Failure(InvalidUsage(o.use.value));
      }
    }
    assert ParseUsage(o.use) == Success(keyUse);

    var kid := o.kid;
    if IsNullOrEmpty(kid) {
      kid := if o.noKid then None else Some(GenerateKid(keyUse, millis));
    }

    assert kid == AssignKid(o.kid, o.noKid, keyUse, millis);

    var keyAlg: Option<string> := None;
    if !IsNullOrEmpty(o.alg) {
      keyAlg := o.alg;
    }
    assert keyAlg == ParseAlg(o.alg);

    var made := GenerateForType(keyType, o, keyUse, keyAlg, kid);
    match made {
      case Failure(e) =>
        return Failure(e);
      case Success(jwk) =>
        assert Outcome(c, millis, stored) == Emit(c, jwk, stored);
        r := EmitKey(c, jwk, stored);
    }
  }

  /** The key-type branches of `main`: the size or curve checks of the
      family and the call of its generator, or the unknown-type exit. */
  method GenerateForType(keyType: Option<Family>, o: GenOptions, keyUse: Option<Usage>,
                         keyAlg: Option<string>, kid: Option<string>) returns (r: Result<Jwk, Error>)
    requires o.kty.Some? && keyType == FamilyOf(o.kty.value)
    ensures keyType.None? ==> r == Failure(UnknownKeyType(o.kty.value))
    ensures keyType.Some? && CheckParam(keyType.value, o).Failure? ==>
              r == Failure(CheckParam(keyType.value, o).error)
    ensures keyType.Some? && CheckParam(keyType.value, o).Success? ==>
              r == Success(MakeKey(keyType.value, CheckParam(keyType.value, o).value, keyUse, keyAlg, kid))
  {
    var jwk: Jwk;
    if keyType == Some(RSA) || keyType == Some(Oct) {
      var family := keyType.value;
      if o.size.None? || o.size.value.text == "" {
        return Failure(MissingSize(family));
      }
      if o.size.value.decoded.None? {
        return Failure(InvalidSizeFormat(o.size.value.text));
      }
      var keySize := o.size.value.decoded.value;
      RemZeroIffDivisibleBy8(keySize);
      if JavaRem(keySize, 8) != 0 {
        return Failure(SizeNotDivisible(keySize));
      }
      jwk := MakeKey(family, Size(keySize), keyUse, keyAlg, kid);
    } else if keyType == Some(EC) || keyType == Some(OKP) {
      var family := keyType.value;
      if IsNullOrEmpty(o.crv) {
        return Failure(MissingCurve(family));
      }
      var allowed := if family == EC then EcCurves else OkpCurves;
      if o.crv.value !in allowed {
        return Failure(InvalidCurve(o.crv.value, family));
      }
      jwk := MakeKey(family, Curve(o.crv.value), keyUse, keyAlg, kid);
    } else {
      return Failure(UnknownKeyType(o.kty.value));
    }
    r := Success(jwk);
  }

  /** The end of `main`: print the key (and with `-p` its public part), or
      hand it to `writeKeyToFile`. */
  method EmitKey(c: CliOptions, jwk: Jwk, stored: StoredKeySet) returns (r: Result<Output, Error>)
    ensures r == Emit(c, jwk, stored)
  {
    if c.outFile.None? {
      var pub := NotRequested;
      if c.pubKey {
        var p := ToPublic(jwk);
        if p.Some? {
          pub := PublicKey(PrintKey(c.keySet, p.value));
        } else {
          pub := NoPublicKey;
        }
      }
      r := Success(Display(PrintKey(c.keySet, jwk), pub));
    } else {
      var written := WriteKeyToFile(c.keySet, jwk, stored);
      match written {
        case Failure(e) => r := Failure(e);
        case Success(doc) =>
          assert c.keySet ==> doc.keys == ExistingKeys(stored).value + [jwk];
          r := Success(Written(c.outFile.value, doc));
      }
    }
  }

  /** Loading a malformed key-set file in `-S -o` mode never writes the file. */
  lemma CorruptKeySetNotOverwritten(c: CliOptions, millis: Int64)
    requires c.outFile.Some? && c.keySet
    ensures Outcome(c, millis, Corrupt).Failure?
    ensures Validate(c.gen, millis).Success? ==> Outcome(c, millis, Corrupt) == Failure(CorruptKeySet)
  {
  }

  /** In `-S -o` mode the written set is the stored keys (none if the file
      does not exist) followed by the new key; without `-S` the file gets
      the key alone. */
  lemma {:induction false} WrittenKeySet(c: CliOptions, millis: Int64, stored: StoredKeySet)
    requires c.outFile.Some?
    requires Validate(c.gen, millis).Success?
    requires stored.Missing? || stored.Stored?
    ensures var d := Validate(c.gen, millis).value;
      var jwk := MakeKey(d.family, d.param, d.use, d.alg, d.kid);
      var before := if stored.Missing? then [] else stored.keys;
      Outcome(c, millis, stored) ==
        Success(Written(c.outFile.value, if c.keySet then SetDoc(before + [jwk]) else KeyDoc(jwk)))
  {
  }

  /** `-p` shows the public projection: none for an oct key, otherwise the
      same key with its private part stripped. */
  lemma {:induction false} PublicKeyDisplayed(c: CliOptions, millis: Int64, stored: StoredKeySet)
    requires c.outFile.None? && c.pubKey
    requires Validate(c.gen, millis).Success?
    ensures var d := Validate(c.gen, millis).value;
      var out := Outcome(c, millis, stored);
      out.Success? && out.value.Display? &&
      (out.value.pub == NoPublicKey <==> d.family == Oct) &&
      (d.family != Oct ==>
         out.value.pub == PublicKey(PrintKey(c.keySet, Jwk(d.family, d.param, d.use, d.alg, d.kid, false))))
  {
  }

  /** Without `-o` the full key is shown as itself, or, with `-S`, as a key
      set whose `keys` are exactly that one key. */
  lemma {:induction false} DisplayedDocument(c: CliOptions, millis: Int64, stored: StoredKeySet)
    requires c.outFile.None?
    requires Validate(c.gen, millis).Success?
    ensures var d := Validate(c.gen, millis).value;
      var jwk := MakeKey(d.family, d.param, d.use, d.alg, d.kid);
      var out := Outcome(c, millis, stored);
      out.Success? && out.value.Display? &&
      (c.keySet ==> out.value.full.SetDoc? && out.value.full.keys == [jwk]) &&
      (!c.keySet ==> out.value.full == KeyDoc(jwk))
  {
  }

  /** An RSA key of 2048 bits for signing, with a generated kid, shown on
      standard output as a single key. */
  lemma ScenarioRsa2048Sig(millis: Int64)
    requires millis >= 0
    ensures var gen := GenOptions(Some("RSA"), Some(SizeText("2048", Some(2048))), Some("sig"),
                                  None, None, None, false);
      var out := Outcome(CliOptions(gen, false, false, None), millis, Missing);
      out == Success(Display(KeyDoc(Jwk(RSA, Size(2048), Some(Signature), None,
                                        Some(GenerateKid(Some(Signature), millis)), true)),
                             NotRequested)) &&
      GenerateKid(Some(Signature), millis) == "sig" + Digits(millis / 1000)
  {
  }

  /** An EC key on P-256 with no usage: no `use` and a bare-seconds kid. */
  lemma ScenarioEcP256NoUse(millis: Int64)
    requires millis >= 0
    ensures var gen := GenOptions(Some("EC"), None, None, None, None, Some("P-256"), false);
      Outcome(CliOptions(gen, false, false, None), millis, Missing) ==
        Success(Display(KeyDoc(Jwk(EC, Curve("P-256"), None, None, Some(Digits(millis / 1000)), true)),
                        NotRequested))
  {
    assert GenerateKid(None, millis) == "" + Digits(millis / 1000) == Digits(millis / 1000);
  }

  /** Appending to a stored set `[a, b]` gives exactly `[a, b, k]`. */
  lemma ScenarioMergeOrder(c: CliOptions, millis: Int64, a: Jwk, b: Jwk)
    requires c.outFile.Some? && c.keySet
    requires Validate(c.gen, millis).Success?
    ensures var d := Validate(c.gen, millis).value;
      Outcome(c, millis, Stored([a, b])) ==
        Success(Written(c.outFile.value, SetDoc([a, b, MakeKey(d.family, d.param, d.use, d.alg, d.kid)])))
  {
    var d := Validate(c.gen, millis).value;
    var k := MakeKey(d.family, d.param, d.use, d.alg, d.kid);
    assert [a, b] + [k] == [a, b, k];
  }
}
