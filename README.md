# JSON Web Key generator launcher: a Dafny model

This project models the decision logic of the key-generator command line
tool in `Launcher.java`. That logic has three parts:

- **Validation and dispatch.** The tool takes the raw option values: key type `-t`, size `-s`, usage `-u`, algorithm `-a`, key ID `-i`, curve `-c` and the no-kid flag `-I`. It either exits with a specific usage error or calls one of four generators: RSA, oct, EC or OKP.
- **Key-ID assignment.** A supplied key ID is kept. Otherwise an ID is built from the usage and the clock, unless `-I` is set.
- **Output and key-set merge.** The key is displayed, with its public part when `-p` is given, or written to `-o`. When `-S` is also set, the key is appended to the key set already stored in that file.

The cryptography is not modelled. A generated key `Jose.Jwk` records its family, its size or curve, usage, algorithm label, key ID and whether it holds private material. The generators are the opaque `Jose.MakeKey`.

Modules:

- `Wrappers`: `Option` (Java's nullable values) and `Result` (a value or the error exit).
- `JavaLang`: Java's truncating `/` and `%`, the `int`/`long` ranges, and `Long.toString`. Its partner is a decimal parser, and the round trip between them is proved.
- `Jose`: the families, the usages and their identifiers, the EC and OKP curve allow-lists, `KeyType.parse` as `FamilyOf`, and `toPublicJWK` as `ToPublic`.
- `KeyId`: `generateKid` and the kid assignment of lines 121-123.
- `Validation`: the checks of `main` as one pure function, `Validate`, plus the rules it obeys.
- `KeySetFile`: the list building of `writeKeyToFile`. It uses a class `KeyList` for the `ArrayList` that is copied and then appended to.
- `Launcher`: `Outcome` is the specification of one whole run. `Launch` follows `main` step by step, reassigning its locals and returning early, and is proved to compute `Outcome`.

The environment comes in as parameters:

- the clock `millis` (`System.currentTimeMillis()`);
- the result of `Integer.decode` on the size text;
- what `File.exists` and `JWKSet.load` find at the output path (`StoredKeySet`).

Notes on how the code behaves, which the model follows:

- The usage is checked (lines 110-119) before the key type is matched against the four families (lines 132-179). An unknown key type with a bad usage is therefore reported as a bad usage.
- A stored key set that exists but cannot be read (`IOException`, lines 212-213) is its own error, `UnreadableKeySet`. It is separate from the unparsable `CorruptKeySet`.
- The size checks (lines 134-141 and 146-152) accept any decoded size divisible by 8, including 0 and negative sizes such as `-8`. Rejecting those is left to the library generator.

## Model

| member | source | states |
|---|---|---|
| `JavaLang.JavaDiv` | src/main/java/org/mitre/jose/jwk/Launcher.java:219 | Java's long division truncates toward zero: it equals floor division for a non-negative dividend, and for a negative one the quotient times the divisor lies in [a, a + b) |
| `JavaLang.JavaRem` | src/main/java/org/mitre/jose/jwk/Launcher.java:139 | Java's remainder takes the sign of the dividend (Euclidean for a non-negative one, in (-b, 0] for a negative one) and satisfies Java's identity `(a / b) * b + a % b == a` |
| `JavaLang.RemZeroIffDivisibleBy8` | src/main/java/org/mitre/jose/jwk/Launcher.java:139-141 | the test `keySize % 8 != 0` with Java's signed remainder rejects exactly the sizes not divisible by 8 |
| `JavaLang.DigitsRoundTrip` | src/main/java/org/mitre/jose/jwk/Launcher.java:219 | reading the decimal digits of a non-negative number back gives the number |
| `JavaLang.LongToStringRoundTrip` | src/main/java/org/mitre/jose/jwk/Launcher.java:219 | the decimal form of any long is non-empty, is an optional '-' followed by digits, and parses back to the number |
| `JavaLang.LongToStringInjective` | src/main/java/org/mitre/jose/jwk/Launcher.java:219 | two numbers have the same decimal form exactly when they are equal |
| `Jose.FamilyOfIsInverse` | src/main/java/org/mitre/jose/jwk/Launcher.java:108 | a key-type string is recognised as a family exactly when it is that family's `kty` name |
| `Jose.CurveListsDisjoint` | src/main/java/org/mitre/jose/jwk/Launcher.java:60-62 | no curve is on both the EC and the OKP allow-list |
| `Jose.ToPublic` | src/main/java/org/mitre/jose/jwk/Launcher.java:193-200 | the public projection is absent exactly for oct keys; otherwise it is the same key with no private part |
| `KeyId.AssignKidCases` | src/main/java/org/mitre/jose/jwk/Launcher.java:121-123 | a supplied non-empty kid is used verbatim whatever the suppress flag says; the kid is null exactly when none was supplied and `-I` is set; otherwise it is generated; an assigned kid is never empty |
| `KeyId.GeneratedKidFormat` | src/main/java/org/mitre/jose/jwk/Launcher.java:217-220 | a generated kid is the usage identifier ("sig", "enc" or "") followed by an optionally signed decimal number that reads back as `millis / 1000` truncated toward zero; for a clock after the epoch it is digits only |
| `KeyId.GeneratedKidCollision` | src/main/java/org/mitre/jose/jwk/Launcher.java:217-220 | with the same usage, two generated kids coincide exactly when the clocks fall in the same second |
| `KeyId.GeneratedKidUsageDistinct` | src/main/java/org/mitre/jose/jwk/Launcher.java:217-220 | generated kids for different usages never coincide, whatever the clocks |
| `Validation.Validate` | src/main/java/org/mitre/jose/jwk/Launcher.java:101-179 | every accepted option set calls a generator with a size divisible by 8 (RSA, oct) or an allow-listed curve (EC, OKP) |
| `Validation.MissingKeyTypeFirst` | src/main/java/org/mitre/jose/jwk/Launcher.java:102-104 | an absent key type is the error, whatever else is wrong |
| `Validation.UsageRules` | src/main/java/org/mitre/jose/jwk/Launcher.java:110-119 | the usage is accepted exactly when it is absent, "sig" or "enc"; these map to no usage, SIGNATURE and ENCRYPTION; any other value gives the invalid-usage error before any size, curve or key-type check |
| `Validation.UnknownKeyTypeRule` | src/main/java/org/mitre/jose/jwk/Launcher.java:177-179 | an unrecognised key type with a valid usage gives the unknown-key-type error; every accepted run names one of the four families |
| `Validation.SizeRules` | src/main/java/org/mitre/jose/jwk/Launcher.java:132-154 | for RSA and oct: missing size exactly when the size is absent or empty; the not-a-number error exactly when the text does not decode; the divisibility error exactly when the decoded size is not divisible by 8; otherwise the generator is called with that size, the parsed usage, the algorithm and the assigned kid |
| `Validation.CurveRules` | src/main/java/org/mitre/jose/jwk/Launcher.java:155-176 | for EC and OKP: missing curve exactly when it is absent or empty; invalid curve exactly when it is off the family's allow-list; otherwise the generator is called with that curve, the usage, the algorithm and the kid |
| `Validation.CrossFamilyCurveRejected` | src/main/java/org/mitre/jose/jwk/Launcher.java:155-176 | an EC curve is never accepted for OKP, nor an OKP curve for EC |
| `Validation.IrrelevantOptionsIgnored` | src/main/java/org/mitre/jose/jwk/Launcher.java:132-176 | the curve does not affect RSA and oct validation, and the size does not affect EC and OKP validation |
| `KeySetFile.KeyList.constructor` | src/main/java/org/mitre/jose/jwk/Launcher.java:228 | the new list holds exactly the existing keys |
| `KeySetFile.KeyList.Add` | src/main/java/org/mitre/jose/jwk/Launcher.java:229 | the key is appended at the end and the earlier keys are unchanged |
| `KeySetFile.WriteKeyToFile` | src/main/java/org/mitre/jose/jwk/Launcher.java:222-234 | without `-S` the key alone; with `-S`, the stored keys (empty if the file is absent) unchanged and in order, followed by the new key, one longer, with exactly the old keys plus the new one as a multiset; a load failure is the error and nothing is written |
| `KeySetFile.MergeKeepsDuplicateKids` | src/main/java/org/mitre/jose/jwk/Launcher.java:227-230 | merging never deduplicates: for every kid, the merged list holds as many keys with it as the two parts together |
| `Launcher.Launch` | src/main/java/org/mitre/jose/jwk/Launcher.java:101-214 | the step-by-step run computes the specified outcome: the first failing check decides the error; otherwise the chosen generator's key is emitted |
| `Launcher.GenerateForType` | src/main/java/org/mitre/jose/jwk/Launcher.java:130-179 | the key-type branches give the unknown-type error, the family's size or curve error, or the generator's key with the validated parameter, usage, algorithm and kid |
| `Launcher.EmitKey` | src/main/java/org/mitre/jose/jwk/Launcher.java:181-204 | the output step computes the specified display or file document |
| `Launcher.CorruptKeySetNotOverwritten` | src/main/java/org/mitre/jose/jwk/Launcher.java:210-211 | in `-S -o` mode a malformed stored key set makes the run fail, so the file is never overwritten |
| `Launcher.WrittenKeySet` | src/main/java/org/mitre/jose/jwk/Launcher.java:226-234 | an accepted `-o` run writes the stored keys (none if the file is absent) followed by the new key with `-S`, and the new key alone without it |
| `Launcher.DisplayedDocument` | src/main/java/org/mitre/jose/jwk/Launcher.java:238-247 | without `-o`, the full key is displayed as itself, or with `-S` as a key set whose keys are exactly that one key |
| `Launcher.PublicKeyDisplayed` | src/main/java/org/mitre/jose/jwk/Launcher.java:189-201 | with `-p`, an oct key shows "No public key.", and any other key shows the same key without its private part |
| `Launcher.ScenarioRsa2048Sig` | src/main/java/org/mitre/jose/jwk/Launcher.java:132-143 | `-t RSA -s 2048 -u sig` displays an RSA 2048 signing key whose kid is "sig" followed by the epoch seconds |
| `Launcher.ScenarioEcP256NoUse` | src/main/java/org/mitre/jose/jwk/Launcher.java:155-165 | `-t EC -c P-256` displays a P-256 key with no usage and a kid of bare epoch seconds |
| `Launcher.ScenarioMergeOrder` | src/main/java/org/mitre/jose/jwk/Launcher.java:227-230 | appending to a stored set [a, b] writes exactly [a, b, k] |

## Left out

- Command-line parsing (commons-cli), including its `ParseException` exit at lines 208-209. The model starts from the option values.
- The help text and message wording of `printUsageAndExit`, and `System.exit`. Each exit is an `Error` variant carrying the values its message shows.
- The key material and the generators' internals (`RSAKeyMaker`, `ECKeyMaker`, `OctetSequenceKeyMaker`, `OKPKeyMaker`: JCA and Nimbus code). Runtime exceptions those libraries throw are not modelled, for example an RSA size the JCA provider refuses. `OctetSequenceKeyMaker` and `OKPKeyMaker` are not part of this model.
- `KeyType.parse` and `Curve.parse` come from a library. They are modelled as exact, case-sensitive name matches. A whitespace-only curve, which that library may reject with an exception, is treated like any other name off the allow-list.
- `Integer.decode`: its radix prefixes, sign and range are the `decoded` input of `SizeText`, with `None` standing for `NumberFormatException`.
- `JWSAlgorithm.parse`: the algorithm label passes through verbatim and is not checked against the usage.
- File and JSON I/O: `File.exists`, `JWKSet.load`, `Files.write`, the Gson pretty-printing, and printing to standard output (and with it the "Full key:" and "Public key:" headings). These are represented by `StoredKeySet` and by the `Output` and `Document` values.
- The registration of the BouncyCastle security provider, which has no effect on the decisions modelled here.
