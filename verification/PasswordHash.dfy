// Printing and checking password verifiers in the PHC string format, with Argon2id
// (RFC 9106) left open.
module PasswordHash {
  import opened Prelude
  import opened Encodings

  datatype Cost = Cost(memory: nat, iterations: nat, parallelism: nat)

  // password, salt, cost and key length.
  type Derivation = (string, seq<byte>, Cost, nat) -> seq<byte>

  const HASH_LENGTH: nat := 32
  const COST := Cost(65536, 3, 1)

  // Panics: the derivation refuses a parallelism of zero.
  datatype Outcome = Invalid | Panics | Verdict(accepted: bool)

  function Setting(name: string, n: nat): string {
    name + "=" + Decimal(n)
  }

  function Parameters(cost: Cost): seq<string> {
    [Setting("m", cost.memory), Setting("t", cost.iterations), Setting("p", cost.parallelism)]
  }

  function Print(cost: Cost, salt: seq<byte>, hash: seq<byte>): string {
    Join(["", "argon2id", "v=19", Join(Parameters(cost), ','), Encode(salt), Encode(hash)], '$')
  }

  // None for the empty password.
  function GeneratePasswordHash(derive: Derivation, password: string, salt: seq<byte>): Option<string> {
    if password == "" then None else Some(Print(COST, salt, derive(password, salt, COST, HASH_LENGTH)))
  }

  // The parameter map after these key and value pairs; a later one replaces an earlier one.
  function Parse(pairs: seq<string>): Option<map<string, nat>> {
    if |pairs| == 0 then Some(map[])
    else
      match Parse(pairs[..|pairs| - 1])
      case None => None
      case Some(parameters) =>
        match Cut(pairs[|pairs| - 1], '=')
        case None => None
        case Some((key, value)) =>
          match ParseUint32(value)
          case None => None
          case Some(n) => Some(parameters[key := n])
  }

  // A missing parameter reads as zero.
  function Get(parameters: map<string, nat>, key: string): nat {
    if key in parameters then parameters[key] else 0
  }

  function Check(derive: Derivation, parameters: map<string, nat>, salt: string, hash: string, password: string)
    : Outcome
  {
    var cost := Cost(Get(parameters, "m"), Get(parameters, "t"), Get(parameters, "p"));
    if cost.memory == 0 || cost.iterations == 0 || cost.parallelism == 0 then Invalid
    else
      match (Decode(salt), Decode(hash))
      case (Some(s), Some(want)) =>
        var narrow := cost.(parallelism := cost.parallelism % 256);
        if narrow.parallelism == 0 then Panics else Verdict(derive(password, s, narrow, |want|) == want)
      case _ => Invalid
  }

  function Verify(derive: Derivation, encoded: string, password: string): Outcome {
    var parts := Split(encoded, '$');
    if |parts| != 6 || parts[1] != "argon2id" || parts[2] != "v=19" then Invalid
    else
      match Parse(Split(parts[3], ','))
      case None => Invalid
      case Some(parameters) => Check(derive, parameters, parts[4], parts[5], password)
  }

  method VerifyPassword(derive: Derivation, encoded: string, password: string) returns (r: Outcome)
    ensures r == Verify(derive, encoded, password)
  {
    var parts := Split(encoded, '$');
    if |parts| != 6 || parts[1] != "argon2id" || parts[2] != "v=19" { return Invalid; }
    var pairs := Split(parts[3], ',');
    var parameters: map<string, nat> := map[];
    for i := 0 to |pairs|
      invariant Parse(pairs[..i]) == Some(parameters)
    {
      assert pairs[..i + 1][..i] == pairs[..i];
      var cut := Cut(pairs[i], '=');
      if cut.None? || ParseUint32(cut.value.1).None? {
        ParseStaysNone(pairs, i + 1);
        return Invalid;
      }
      parameters := parameters[cut.value.0 := ParseUint32(cut.value.1).value];
    }
    assert pairs[..|pairs|] == pairs;
    r := Check(derive, parameters, parts[4], parts[5], password);
  }

  lemma {:induction false} ParseStaysNone(pairs: seq<string>, n: nat)
    requires n <= |pairs| && Parse(pairs[..n]) == None
    ensures Parse(pairs) == None
    decreases |pairs|
  {
    if n == |pairs| {
      assert pairs[..n] == pairs;
    } else {
      assert pairs[..|pairs| - 1][..n] == pairs[..n];
      ParseStaysNone(pairs[..|pairs| - 1], n);
    }
  }

  // ---- Printed verifiers are read back ----

  predicate Usable(cost: Cost) {
    1 <= cost.memory < UINT32 && 1 <= cost.iterations < UINT32 && 1 <= cost.parallelism < UINT32
  }

  lemma SettingCuts(name: string, n: nat)
    requires '=' !in name
    ensures Cut(Setting(name, n), '=') == Some((name, Decimal(n)))
  {
    IndexAfter(name, '=', Decimal(n));
    var s := name + ['='] + Decimal(n);
    assert s[..|name|] == name && s[|name| + 1..] == Decimal(n);
  }

  lemma ParseOneMore(pairs: seq<string>, parameters: map<string, nat>, name: string, n: nat)
    requires Parse(pairs) == Some(parameters) && '=' !in name && n < UINT32
    ensures Parse(pairs + [Setting(name, n)]) == Some(parameters[name := n])
  {
    assert (pairs + [Setting(name, n)])[..|pairs|] == pairs;
    SettingCuts(name, n);
    ParsePrinted(n);
  }

  lemma ParseOfParameters(cost: Cost)
    requires Usable(cost)
    ensures Parse(Parameters(cost)) == Some(map[]["m" := cost.memory]["t" := cost.iterations]["p" := cost.parallelism])
  {
    var p := Parameters(cost);
    ParseOneMore([], map[], "m", cost.memory);
    ParseOneMore([] + [p[0]], map[]["m" := cost.memory], "t", cost.iterations);
    ParseOneMore([] + [p[0]] + [p[1]], map[]["m" := cost.memory]["t" := cost.iterations], "p", cost.parallelism);
    assert p == [] + [p[0]] + [p[1]] + [p[2]];
  }

  lemma PrintSplits(cost: Cost, salt: seq<byte>, hash: seq<byte>)
    ensures Split(Print(cost, salt, hash), '$')
            == ["", "argon2id", "v=19", Join(Parameters(cost), ','), Encode(salt), Encode(hash)]
    ensures Split(Join(Parameters(cost), ','), ',') == Parameters(cost)
  {
    DecodeOfEncode(salt);
    DecodeOfEncode(hash);
    ParametersArePlain(cost);
    SplitOfJoin(Parameters(cost), ',');
    SplitOfJoin(["", "argon2id", "v=19", Join(Parameters(cost), ','), Encode(salt), Encode(hash)], '$');
  }

  lemma JoinOneMore(part: string, rest: seq<string>, c: char)
    requires |rest| >= 1
    ensures Join([part] + rest, c) == part + [c] + Join(rest, c)
  {
    assert ([part] + rest)[1..] == rest;
  }

  lemma ParametersArePlain(cost: Cost)
    ensures forall i :: 0 <= i < |Parameters(cost)| ==> ',' !in Parameters(cost)[i] && '$' !in Parameters(cost)[i]
    ensures '$' !in Join(Parameters(cost), ',')
  {
    var p := Parameters(cost);
    JoinOneMore(p[1], [p[2]], ',');
    JoinOneMore(p[0], [p[1], p[2]], ',');
    assert p == [p[0]] + [p[1], p[2]] && [p[1], p[2]] == [p[1]] + [p[2]];
  }

  // A printed verifier accepts a password exactly if the password derives the printed
  // key, for every cost, salt and key; a parallelism that is a multiple of 256 panics.
  lemma VerifyOfPrint(derive: Derivation, cost: Cost, salt: seq<byte>, hash: seq<byte>, password: string)
    requires Usable(cost)
    ensures var narrow := cost.(parallelism := cost.parallelism % 256);
            Verify(derive, Print(cost, salt, hash), password)
            == if narrow.parallelism == 0 then Panics else Verdict(derive(password, salt, narrow, |hash|) == hash)
  {
    PrintSplits(cost, salt, hash);
    ParseOfParameters(cost);
    DecodeOfEncode(salt);
    DecodeOfEncode(hash);
  }

  // A generated hash accepts its own password, and another one exactly if both derive
  // the same key from the salt.
  lemma VerifyOfGenerate(derive: Derivation, password: string, salt: seq<byte>, other: string)
    requires forall p, s, c, n :: |derive(p, s, c, n)| == n
    ensures GeneratePasswordHash(derive, password, salt).Some? <==> password != ""
    ensures password != "" ==>
              var encoded := GeneratePasswordHash(derive, password, salt).value;
              && Verify(derive, encoded, password) == Verdict(true)
              && Verify(derive, encoded, other)
                 == Verdict(derive(other, salt, COST, HASH_LENGTH) == derive(password, salt, COST, HASH_LENGTH))
  {
    var hash := derive(password, salt, COST, HASH_LENGTH);
    VerifyOfPrint(derive, COST, salt, hash, password);
    VerifyOfPrint(derive, COST, salt, hash, other);
  }

  // The text that is generated: the recommended costs and a key of 32 bytes.
  lemma GeneratedText(derive: Derivation, password: string, salt: seq<byte>)
    requires password != ""
    ensures var encoded := GeneratePasswordHash(derive, password, salt);
            && encoded.Some?
            && Split(encoded.value, '$') == ["", "argon2id", "v=19", "m=65536,t=3,p=1", Encode(salt),
                                             Encode(derive(password, salt, Cost(65536, 3, 1), 32))]
  {
    PrintSplits(COST, salt, derive(password, salt, COST, HASH_LENGTH));
    RecommendedText();
  }

  lemma JoinThree(a: string, b: string, d: string, c: char)
    ensures Join([a, b, d], c) == a + [c] + (b + [c] + d)
  {
    JoinOneMore(b, [d], c);
    JoinOneMore(a, [b, d], c);
    assert [a] + [b, d] == [a, b, d] && [b] + [d] == [b, d];
  }

  lemma RecommendedText()
    ensures Join(Parameters(Cost(65536, 3, 1)), ',') == "m=65536,t=3,p=1"
  {
    assert Decimal(6) == "6";
    assert Decimal(65) == "65";
    assert Decimal(655) == "655";
    assert Decimal(6553) == "6553";
    assert Decimal(65536) == "65536";
    JoinThree("m=65536", "t=3", "p=1", ',');
  }

  // ---- What any text says ----

  // A name without an equals sign, the first one, and a number below 2^32 in decimal digits.
  ghost predicate IsSetting(pair: string, key: string, n: nat) {
    exists value: string ::
      && pair == key + ['='] + value && '=' !in key
      && |value| > 0 && (forall i :: 0 <= i < |value| ==> '0' <= value[i] <= '9')
      && n < 4_294_967_296 && Value(value) == n
  }

  ghost predicate IsWellFormed(pair: string) {
    exists key: string, n: nat :: IsSetting(pair, key, n)
  }

  // The last of the pairs with this name gives it this number.
  ghost predicate Sets(pairs: seq<string>, key: string, n: nat) {
    exists i :: 0 <= i < |pairs| && IsSetting(pairs[i], key, n)
                && forall j, m: nat :: i < j < |pairs| ==> !IsSetting(pairs[j], key, m)
  }

  lemma SettingExactly(pair: string, key: string, n: nat)
    ensures IsSetting(pair, key, n) <==> Cut(pair, '=').Some? && Cut(pair, '=').value.0 == key
                                         && ParseUint32(Cut(pair, '=').value.1) == Some(n)
  {
    if IsSetting(pair, key, n) {
      var value :| pair == key + ['='] + value && '=' !in key && |value| > 0
                   && (forall i :: 0 <= i < |value| ==> '0' <= value[i] <= '9')
                   && n < 4_294_967_296 && Value(value) == n;
      CutExactly(pair, '=', key, value);
      ParsedExactly(value, n);
    } else if Cut(pair, '=').Some? && Cut(pair, '=').value.0 == key {
      CutExactly(pair, '=', key, Cut(pair, '=').value.1);
      ParsedExactly(Cut(pair, '=').value.1, n);
    }
  }

  lemma WellFormedExactly(pair: string)
    ensures IsWellFormed(pair) <==> Cut(pair, '=').Some? && ParseUint32(Cut(pair, '=').value.1).Some?
  {
    if IsWellFormed(pair) {
      var key, n :| IsSetting(pair, key, n);
      SettingExactly(pair, key, n);
    } else if Cut(pair, '=').Some? && ParseUint32(Cut(pair, '=').value.1).Some? {
      SettingExactly(pair, Cut(pair, '=').value.0, ParseUint32(Cut(pair, '=').value.1).value);
    }
  }

  lemma SetsOneMore(init: seq<string>, last: string, key: string, n: nat)
    ensures Sets(init + [last], key, n)
            <==> IsSetting(last, key, n) || (Sets(init, key, n) && forall m: nat :: !IsSetting(last, key, m))
  {
    var pairs := init + [last];
    assert pairs[|init|] == last;
    if Sets(pairs, key, n) {
      var i :| 0 <= i < |pairs| && IsSetting(pairs[i], key, n)
               && forall j, m: nat :: i < j < |pairs| ==> !IsSetting(pairs[j], key, m);
      if i < |init| {
        forall m: nat ensures !IsSetting(last, key, m) { assert !IsSetting(pairs[|init|], key, m); }
        forall j, m: nat | i < j < |init| ensures !IsSetting(init[j], key, m) { assert !IsSetting(pairs[j], key, m); }
      }
    } else if Sets(init, key, n) && forall m: nat :: !IsSetting(last, key, m) {
      var i :| 0 <= i < |init| && IsSetting(init[i], key, n)
               && forall j, m: nat :: i < j < |init| ==> !IsSetting(init[j], key, m);
      assert pairs[i] == init[i];
    }
  }

  ghost predicate AllWellFormed(pairs: seq<string>) {
    forall i :: 0 <= i < |pairs| ==> IsWellFormed(pairs[i])
  }

  // The parameters are read exactly if every pair is well-formed; each name then has the
  // number of the last pair with it.
  lemma {:induction false} ParseExactly(pairs: seq<string>)
    ensures Parse(pairs).Some? <==> AllWellFormed(pairs)
    ensures Parse(pairs).Some? ==>
              forall key, n: nat :: Has(Parse(pairs).value, key, n) <==> Sets(pairs, key, n)
    decreases |pairs|
  {
    if |pairs| > 0 {
      var init, last := pairs[..|pairs| - 1], pairs[|pairs| - 1];
      ParseExactly(init);
      WellFormedExactly(last);
      assert pairs == init + [last];
      assert AllWellFormed(pairs) <==> AllWellFormed(init) && IsWellFormed(last);
      if Parse(pairs).Some? {
        forall key, n: nat ensures Has(Parse(pairs).value, key, n) <==> Sets(pairs, key, n) {
          SettingReads(init, last, key, n);
        }
      }
    }
  }

  predicate Has(parameters: map<string, nat>, key: string, n: nat) {
    key in parameters && parameters[key] == n
  }

  lemma SettingReads(init: seq<string>, last: string, key: string, n: nat)
    requires Parse(init + [last]).Some? && Parse(init).Some?
    requires Has(Parse(init).value, key, n) <==> Sets(init, key, n)
    ensures Has(Parse(init + [last]).value, key, n) <==> Sets(init + [last], key, n)
  {
    assert (init + [last])[..|init|] == init;
    SetsOneMore(init, last, key, n);
    SettingExactly(last, key, n);
    var (name, value) := Cut(last, '=').value;
    SettingExactly(last, key, ParseUint32(value).value);
    if name != key {
      forall m: nat ensures !IsSetting(last, key, m) { SettingExactly(last, key, m); }
    }
  }

  // The text names the algorithm and its version, sets every cost to one or more, and
  // spells a salt and a key.
  ghost predicate Describes(encoded: string, cost: Cost, salt: seq<byte>, key: seq<byte>) {
    var parts := Split(encoded, '$');
    && |parts| == 6 && parts[1] == "argon2id" && parts[2] == "v=19"
    && var pairs := Split(parts[3], ',');
       && AllWellFormed(pairs)
       && Sets(pairs, "m", cost.memory) && Sets(pairs, "t", cost.iterations) && Sets(pairs, "p", cost.parallelism)
       && cost.memory > 0 && cost.iterations > 0 && cost.parallelism > 0
       && Decode(parts[4]) == Some(salt) && Decode(parts[5]) == Some(key)
  }

  // For every text: it is invalid exactly if it does not describe anything; else the
  // password is accepted exactly if it derives the key described.
  lemma VerifyExactly(derive: Derivation, encoded: string, password: string)
    ensures Verify(derive, encoded, password) == Invalid
            <==> forall cost, salt, key :: !Describes(encoded, cost, salt, key)
    ensures forall cost, salt, key :: Describes(encoded, cost, salt, key) ==>
              Verify(derive, encoded, password)
              == if cost.parallelism % 256 == 0 then Panics
                 else Verdict(derive(password, salt, cost.(parallelism := cost.parallelism % 256), |key|) == key)
  {
    forall cost, salt, key | Describes(encoded, cost, salt, key)
      ensures Verify(derive, encoded, password)
              == if cost.parallelism % 256 == 0 then Panics
                 else Verdict(derive(password, salt, cost.(parallelism := cost.parallelism % 256), |key|) == key)
    {
      DescribedIsRead(derive, encoded, password, cost, salt, key);
    }
    if Verify(derive, encoded, password) != Invalid { ReadIsDescribed(derive, encoded, password); }
  }

  lemma DescribedIsRead(derive: Derivation, encoded: string, password: string,
                        cost: Cost, salt: seq<byte>, key: seq<byte>)
    requires Describes(encoded, cost, salt, key)
    ensures Verify(derive, encoded, password)
            == if cost.parallelism % 256 == 0 then Panics
               else Verdict(derive(password, salt, cost.(parallelism := cost.parallelism % 256), |key|) == key)
  {
    var pairs := Split(Split(encoded, '$')[3], ',');
    ParseExactly(pairs);
    var p := Parse(pairs).value;
    assert Has(p, "m", cost.memory) && Has(p, "t", cost.iterations) && Has(p, "p", cost.parallelism);
  }

  lemma ReadIsDescribed(derive: Derivation, encoded: string, password: string)
    requires Verify(derive, encoded, password) != Invalid
    ensures exists cost, salt, key :: Describes(encoded, cost, salt, key)
  {
    var parts := Split(encoded, '$');
    var pairs := Split(parts[3], ',');
    ParseExactly(pairs);
    var p := Parse(pairs).value;
    var cost := Cost(Get(p, "m"), Get(p, "t"), Get(p, "p"));
    assert Has(p, "m", cost.memory) && Has(p, "t", cost.iterations) && Has(p, "p", cost.parallelism);
    assert Describes(encoded, cost, Decode(parts[4]).value, Decode(parts[5]).value);
  }
}
