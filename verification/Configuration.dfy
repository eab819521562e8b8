/**
 * The settings behind the retry loop (config.py, application.py): which texts are integers, and what
 * every accepted configuration guarantees.
 */
module Configuration {
  import opened Basics
  import opened Strings
  import opened Words
  import opened Retry
  import Identity

  function Str(n: int): string { if n < 0 then "-" + Decimal(-n) else Decimal(n) }

  function Concat(parts: seq<string>): string {
    if parts == [] then "" else parts[0] + Concat(parts[1..])
  }

  // Digits, single underscores between them.
  predicate IsNumeral(s: string) {
    var groups := SplitOn(s, '_');
    forall i | 0 <= i < |groups| :: groups[i] != "" && AllDigits(groups[i])
  }

  function Magnitude(s: string): Option<nat> {
    if IsNumeral(s) && AllDigits(Concat(SplitOn(s, '_'))) then Some(Number(Concat(SplitOn(s, '_')))) else None
  }

  // `int(raw, 10)`: white space around it, a sign and underscores are accepted.
  function PythonInt(raw: string): Option<int> {
    var text := Trim(raw, Identity.Space);
    var signed := text != "" && (text[0] == '-' || text[0] == '+');
    var magnitude := Magnitude(if signed then text[1..] else text);
    if magnitude.None? then None
    else if signed && text[0] == '-' then Some(-(magnitude.value as int))
    else Some(magnitude.value as int)
  }

  type Environment = map<string, string>

  // `_text`: a blank value counts as absent.
  function TextOf(values: Environment, name: string): Option<string> {
    if name !in values || Trim(values[name], Identity.Space) == "" then None else Some(values[name])
  }

  // `None` is a ConfigurationError.
  function Integer(values: Environment, name: string, default: int, minimum: int, maximum: int): (r: Option<int>)
    ensures r.Some? && minimum <= default <= maximum ==> minimum <= r.value <= maximum
  {
    var raw := TextOf(values, name);
    if raw.None? then Some(default)
    else
      var value := PythonInt(raw.value);
      if value.None? || Str(value.value) != raw.value || !(minimum <= value.value <= maximum) then None else value
  }

  lemma {:induction false} ConcatOne(s: string)
    ensures Concat([s]) == s
  {
    assert Concat([s][1..]) == "";
  }

  lemma DigitsAreANumeral(s: string)
    requires s != "" && AllDigits(s)
    ensures Magnitude(s) == Some(Number(s))
  {
    OnePart(s, '_');
    ConcatOne(s);
  }

  lemma TrimStays(s: string)
    requires Trimmed(s, Identity.Space)
    ensures Trim(s, Identity.Space) == s
  {
  }

  // Python reads back what it prints.
  lemma StrRoundTrip(n: int)
    ensures PythonInt(Str(n)) == Some(n)
  {
    var size := if n < 0 then -n else n;
    DecimalRoundTrip(size);
    DigitsAreANumeral(Decimal(size));
    var s := Decimal(size);
    assert IsDigit(s[0]) && IsDigit(s[|s| - 1]);
    TrimStays(Str(n));
    assert n < 0 ==> Str(n)[1..] == s;
  }

  // A text that is not blank is accepted exactly when it is the printing of a number in range: no
  // sign of plus, no leading zero, no underscore and no space.
  lemma IntegerIsCanonical(values: Environment, name: string, default: int, minimum: int, maximum: int, n: int)
    requires TextOf(values, name).Some?
    ensures Integer(values, name, default, minimum, maximum) == Some(n) <==> values[name] == Str(n) && minimum <= n <= maximum
  {
    StrRoundTrip(n);
  }

  datatype RetrySettings = RetrySettings(policy: RetryPolicy, mutationDeadlineMs: int)

  // The part of `Settings.from_environment` that the mutation services use. `decimal` reads a finite
  // decimal number.
  function FromEnvironment(values: Environment, production: bool, decimal: string -> Option<real>): Option<RetrySettings> {
    var base := Integer(values, "CAFE_FAUSSE_RETRY_BASE_DELAY_MS", 25, 10, 250);
    var cap := Integer(values, "CAFE_FAUSSE_RETRY_CAP_DELAY_MS", 200, 50, 1000);
    var attempts := Integer(values, "CAFE_FAUSSE_MAX_DB_ATTEMPTS", 3, 1, 3);
    var deadline := Integer(values, "CAFE_FAUSSE_MUTATION_DEADLINE_MS", 15000, 3000, 15000);
    var ratio := decimal(TextOf(values, "CAFE_FAUSSE_RETRY_JITTER_RATIO").UnwrapOr("0.25"));
    var remaining := Integer(values, "CAFE_FAUSSE_RETRY_MIN_REMAINING_MS", 500, 100, 2000);
    if base.None? || cap.None? || base.value > cap.value then None
    else if attempts.None? || (production && attempts.value != 3) then None
    else if deadline.None? || ratio.None? || !(0.0 <= ratio.value <= 0.5) || remaining.None? then None
    else Some(RetrySettings(RetryPolicy(attempts.value, base.value, cap.value, ratio.value, remaining.value), deadline.value))
  }

  // Every accepted configuration meets the loop's preconditions: it is never refused as invalid, and
  // there is time for a first attempt.
  lemma SettingsMeetThePolicy(values: Environment, production: bool, decimal: string -> Option<real>)
    requires FromEnvironment(values, production, decimal).Some?
    ensures var s := FromEnvironment(values, production, decimal).value;
      && 1 <= s.policy.maxAttempts <= 3 && (production ==> s.policy.maxAttempts == 3)
      && Configured(s.policy) && s.policy.minRemainingMs < s.mutationDeadlineMs <= 15000
  {
  }

  predicate Configured(policy: RetryPolicy) {
    && 10 <= policy.baseDelayMs <= policy.capDelayMs <= 1000
    && 0.0 <= policy.jitterRatio <= 0.5 && 100 <= policy.minRemainingMs <= 2000
  }

  // With such a policy every delay lasts between 5 ms and 1.5 s.
  lemma ConfiguredDelays(policy: RetryPolicy, k: nat, d: real)
    requires Configured(policy) && k >= 1 && DelayInBand(policy, k, d)
    ensures Nonnegative(policy) && 5.0 <= d <= 1500.0
  {
    NominalInRange(policy, k);
    Products(Nominal(policy, k) as real, policy.jitterRatio);
  }

  lemma NominalInRange(policy: RetryPolicy, k: nat)
    requires k >= 1 && 10 <= policy.baseDelayMs <= policy.capDelayMs <= 1000
    ensures 10 <= Nominal(policy, k) <= 1000
  {
    Power2Positive(k - 1);
    AtLeast(policy.baseDelayMs, Power2(k - 1));
  }

  lemma AtLeast(base: int, factor: int)
    requires base >= 10 && factor >= 1
    ensures base * factor >= 10
  {
    assert base * factor == base * (factor - 1) + base;
  }

  lemma Products(nominal: real, ratio: real)
    requires 10.0 <= nominal <= 1000.0 && 0.0 <= ratio <= 0.5
    ensures nominal * (1.0 - ratio) >= 5.0 && nominal * (1.0 + ratio) <= 1500.0
  {
    assert nominal * ratio <= nominal * 0.5;
  }
}
