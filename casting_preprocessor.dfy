/** The value caster: string values that spell a yes/no/null token or a
    number become a boolean, `None` or a number; the key is never changed. */
module CastingPreprocessor {
  import opened Values

  const ListYes: seq<string> := ["yes", "y", "t", "true", "+", "enable", "enabled", "on"]
  const ListNo: seq<string> := ["no", "n", "f", "false", "-", "disable", "disabled", "off"]
  const ListNone: seq<string> := ["null", "none", "nil", ""]

  /** `str.lower` on ASCII letters. Only ASCII letters occur in the token
      lists and the number patterns, so other characters never decide a
      match. */
  function LowerChar(c: char): char {
    if 'A' <= c <= 'Z' then (c as int + 32) as char else c
  }

  function Lower(s: string): (r: string)
    ensures |r| == |s|
    ensures forall i :: 0 <= i < |s| ==> r[i] == LowerChar(s[i])
  {
    seq(|s|, i requires 0 <= i < |s| => LowerChar(s[i]))
  }

  predicate IsDigit(c: char) {
    '0' <= c <= '9'
  }

  predicate IsSign(c: char) {
    c == '+' || c == '-'
  }

  /** In `re.match(r"^...$", s)` the `$` also matches just before a final
      newline, so the pattern is checked on `s` without that newline. */
  function Body(s: string): (b: string)
    ensures |b| <= |s|
  {
    if |s| > 0 && s[|s| - 1] == '\n' then s[..|s| - 1] else s
  }

  /** `s` without its optional leading sign. */
  function Unsigned(b: string): string {
    if |b| > 0 && IsSign(b[0]) then b[1..] else b
  }

  predicate IsNegative(b: string) {
    |b| > 0 && b[0] == '-'
  }

  /** `re.match(r"^[+-]?[0-9]+$", s)`. */
  predicate MatchesInt(s: string) {
    var d := Unsigned(Body(s));
    |d| > 0 && forall i :: 0 <= i < |d| ==> IsDigit(d[i])
  }

  /** `re.match(r"^[+-]?[0-9.]+$", s)`. */
  predicate MatchesFloat(s: string) {
    var d := Unsigned(Body(s));
    |d| > 0 && forall i :: 0 <= i < |d| ==> IsDigit(d[i]) || d[i] == '.'
  }

  /** `s.count(c)`. */
  function Count(s: string, c: char): (n: nat)
    ensures n <= |s|
  {
    if s == [] then 0 else (if s[0] == c then 1 else 0) + Count(s[1..], c)
  }

  /** The number a string of decimal digits spells. */
  function DigitsValue(ds: string): nat {
    if ds == [] then 0
    else DigitsValue(ds[..|ds| - 1]) * 10 + DigitValue(ds[|ds| - 1])
  }

  function DigitValue(c: char): nat {
    if IsDigit(c) then c as int - '0' as int else 0
  }

  /** `int(s)` on a string that `MatchesInt` accepts. */
  function ParseInt(s: string): int {
    var b := Body(s);
    var n: int := DigitsValue(Unsigned(b));
    if IsNegative(b) then -n else n
  }

  /** The position of the first `c` in `s`. */
  function Find(s: string, c: char): (i: nat)
    requires Count(s, c) > 0
    ensures i < |s| && s[i] == c
    ensures Count(s[..i], c) == 0
  {
    if s[0] == c then 0
    else
      assert s[1..][..Find(s[1..], c)] == s[..1 + Find(s[1..], c)][1..];
      1 + Find(s[1..], c)
  }

  /** `float(s)` on a string that `MatchesFloat` accepts with exactly one
      '.': the digits around the point give an exact decimal. Python's
      `float` raises when the point has no digit on either side, which for
      these strings means the unsigned body is "." alone. */
  function ParseFloat(s: string): (r: Result<Value>)
    requires MatchesFloat(s) && Count(s, '.') == 1
    ensures r.Err? <==> Unsigned(Body(s)) == "."
    ensures r.Err? ==> r.error == ValueError(s)
    ensures r.Ok? ==> r.value.Decimal?
  {
    var b := Body(s);
    var d := Unsigned(b);
    CountUnsignedBody(s);
    var p := Find(d, '.');
    var digits := d[..p] + d[p + 1..];
    if digits == [] then
      assert d == d[..p] + [d[p]] + d[p + 1..];
      Err(ValueError(s))
    else
      var n: int := DigitsValue(digits);
      Ok(Decimal(if IsNegative(b) then -n else n, |d| - p - 1))
  }

  lemma {:induction false} CountSnoc(a: string, c: char, x: char)
    ensures Count(a + [c], x) == Count(a, x) + (if c == x then 1 else 0)
  {
    if a != [] {
      assert (a + [c])[1..] == a[1..] + [c];
      CountSnoc(a[1..], c, x);
    }
  }

  /** Dropping the final newline and the sign never drops a '.'. */
  lemma CountUnsignedBody(s: string)
    ensures Count(Unsigned(Body(s)), '.') == Count(s, '.')
  {
    if |s| > 0 && s[|s| - 1] == '\n' {
      assert s == Body(s) + ['\n'];
      CountSnoc(Body(s), '\n', '.');
    }
  }

  lemma {:induction false} CountAbsent(s: string, x: char)
    requires forall i :: 0 <= i < |s| ==> s[i] != x
    ensures Count(s, x) == 0
  {
    if s != [] {
      CountAbsent(s[1..], x);
    }
  }

  /** `_process_binary_option_values`: the three membership tests run in
      turn and a later hit overwrites an earlier one (the lists do not
      overlap, so at most one hits). */
  function ProcessBinaryOptionValues(value: string): Option<Value> {
    if value in ListNone then Some(Null)
    else if value in ListNo then Some(Bool(false))
    else if value in ListYes then Some(Bool(true))
    else None
  }

  /** `_process_number_values` as written: the float branch is tried first,
      and its `float(value)` raises on ".", "+." and "-.". */
  function ProcessNumberValuesAsWritten(value: string): Result<Option<Value>> {
    var f: Result<Option<Value>> :=
      if MatchesFloat(value) && Count(value, '.') == 1 then
        match ParseFloat(value)
        case Ok(x) => Ok(Some(x))
        case Err(e) => Err(e)
      else Ok(None);
    if f.Err? then f
    else if MatchesInt(value) then Ok(Some(Int(ParseInt(value))))
    else f
  }

  /** `SimputilsCastingPreprocessor.run` as written. */
  function RunAsWritten(k: string, v: Value): (r: Result<(string, Value)>)
    ensures r.Ok? ==> r.value.0 == k
    ensures r.Err? ==> r.error.ValueError?
  {
    if v.Str? then
      var value := Lower(v.s);
      match ProcessBinaryOptionValues(value)
      case Some(x) => Ok((k, x))
      case None =>
        match ProcessNumberValuesAsWritten(value)
        case Err(e) => Err(e)
        case Ok(Some(x)) => Ok((k, x))
        case Ok(None) => Ok((k, v))
    else Ok((k, v))
  }

  /** `_process_number_values` with the integer test first and the float
      conversion's failure leaving the string as it is, so it never raises. */
  function ProcessNumberValues(value: string): Option<Value> {
    if MatchesInt(value) then Some(Int(ParseInt(value)))
    else if MatchesFloat(value) && Count(value, '.') == 1 then
      match ParseFloat(value)
      case Ok(x) => Some(x)
      case Err(_) => None
    else None
  }

  /** The caster the rest of the model uses: `RunAsWritten` except that the
      strings on which `float` raises are returned unchanged. Only strings
      change, and a string result is the input itself; `RunCases` says what
      each kind of string becomes. */
  function Run(k: string, v: Value): (r: (string, Value))
    ensures r.0 == k
    ensures !v.Str? ==> r.1 == v
    ensures r.1.Str? ==> r.1 == v
  {
    if v.Str? then
      var value := Lower(v.s);
      match ProcessBinaryOptionValues(value)
      case Some(x) => (k, x)
      case None =>
        match ProcessNumberValues(value)
        case Some(x) => (k, x)
        case None => (k, v)
    else (k, v)
  }

  /** What the caster makes of a string: the None, No and Yes tokens (tried
      in that order, case-insensitively), then integers, then strings that are
      neither numbers nor tokens are kept. */
  lemma RunCases(k: string, v: Value)
    ensures var r := Run(k, v);
      && (v.Str? && Lower(v.s) in ListNone ==> r.1 == Null)
      && (v.Str? && Lower(v.s) in ListNo && Lower(v.s) !in ListNone ==> r.1 == Bool(false))
      && (v.Str? && Lower(v.s) in ListYes && Lower(v.s) !in ListNone && Lower(v.s) !in ListNo ==> r.1 == Bool(true))
      && (v.Str? && !IsToken(Lower(v.s)) && MatchesInt(v.s) ==> r.1 == Int(ParseInt(v.s)))
      && (v.Str? && !IsToken(Lower(v.s)) && !MatchesInt(v.s) && !MatchesFloat(v.s) ==> r.1 == v)
      && (v.Str? && !IsToken(Lower(v.s)) && Count(v.s, '.') != 1 && !MatchesInt(v.s) ==> r.1 == v)
  {
    if v.Str? {
      LowerKeepsNumbers(v.s);
    }
  }

  predicate IsToken(value: string) {
    value in ListYes || value in ListNo || value in ListNone
  }

  /** Lower-casing changes neither whether a string looks like a number nor
      the number it spells. */
  lemma LowerKeepsNumbers(s: string)
    ensures MatchesInt(Lower(s)) <==> MatchesInt(s)
    ensures MatchesFloat(Lower(s)) <==> MatchesFloat(s)
    ensures Count(Lower(s), '.') == Count(s, '.')
    ensures MatchesInt(s) ==> Lower(s) == s
    ensures MatchesFloat(s) ==> Lower(s) == s
  {
    LowerCount(s);
    if MatchesFloat(s) || MatchesFloat(Lower(s)) {
      NumberLowerIdentity(s);
    }
  }

  lemma {:induction false} LowerCount(s: string)
    ensures Count(Lower(s), '.') == Count(s, '.')
  {
    if s != [] {
      assert Lower(s)[1..] == Lower(s[1..]);
      LowerCount(s[1..]);
    }
  }

  predicate IsLetter(c: char) {
    'a' <= c <= 'z' || 'A' <= c <= 'Z'
  }

  /** A string the float pattern accepts holds signs, digits, dots and at
      most a final newline: no letters. */
  lemma FloatHasNoLetters(t: string)
    requires MatchesFloat(t)
    ensures forall i :: 0 <= i < |t| ==> !IsLetter(t[i])
  {
    var b := Body(t);
    forall i | 0 <= i < |t| ensures !IsLetter(t[i]) {
      if i < |b| {
        assert b[i] == t[i];
        if |b| > 0 && IsSign(b[0]) {
          if i > 0 {
            assert Unsigned(b)[i - 1] == b[i];
          }
        } else {
          assert Unsigned(b)[i] == b[i];
        }
      }
    }
  }

  /** A number-looking string, before or after lower-casing, has no letters,
      so lower-casing leaves it unchanged. */
  lemma NumberLowerIdentity(s: string)
    requires MatchesFloat(s) || MatchesFloat(Lower(s))
    ensures Lower(s) == s
  {
    if MatchesFloat(s) {
      FloatHasNoLetters(s);
    } else {
      FloatHasNoLetters(Lower(s));
      assert forall i :: 0 <= i < |s| ==> !IsLetter(Lower(s)[i]);
    }
  }

  /** Each token of the lists becomes its boolean or `None`, whatever its
      case. */
  lemma RunTokens(k: string, s: string)
    ensures Lower(s) in ListYes ==> Run(k, Str(s)) == (k, Bool(true))
    ensures Lower(s) in ListNo ==> Run(k, Str(s)) == (k, Bool(false))
    ensures Lower(s) in ListNone ==> Run(k, Str(s)) == (k, Null)
  {
  }

  /** The decimal spelling of a natural number. */
  function NatToString(n: nat): (r: string)
    ensures |r| > 0 && forall i :: 0 <= i < |r| ==> IsDigit(r[i])
  {
    var d := ['0' + (n % 10) as char];
    if n < 10 then d else NatToString(n / 10) + d
  }

  /** `str(n)` for an integer. */
  function IntToString(n: int): string {
    if n < 0 then "-" + NatToString(-n) else NatToString(n)
  }

  lemma {:induction false} NatToStringValue(n: nat)
    ensures DigitsValue(NatToString(n)) == n
  {
    var r := NatToString(n);
    if n >= 10 {
      NatToStringValue(n / 10);
      assert r[..|r| - 1] == NatToString(n / 10);
    }
  }

  /** The spelling of an integer is not a token: it is a digit string,
      possibly after a '-', and no token is. */
  lemma IntStringNotToken(n: int)
    ensures !IsToken(Lower(IntToString(n)))
  {
    var s := IntToString(n);
    assert MatchesInt(s) by {
      assert Body(s) == s;
      assert Unsigned(s) == NatToString(if n < 0 then -n else n);
    }
    LowerKeepsNumbers(s);
    TokensAreNotNumbers(s);
  }

  /** No token looks like a number, so the token test and the number tests
      never compete. */
  lemma TokensAreNotNumbers(t: string)
    ensures IsToken(t) ==> !MatchesFloat(t)
  {
    if IsToken(t) && MatchesFloat(t) {
      FloatHasNoLetters(t);
    }
  }

  /** Round trip: the caster turns the decimal spelling of any integer back
      into that integer. */
  lemma IntRoundTrip(k: string, n: int)
    ensures Run(k, Str(IntToString(n))) == (k, Int(n))
  {
    var s := IntToString(n);
    assert Body(s) == s;
    assert Unsigned(s) == NatToString(if n < 0 then -n else n);
    NatToStringValue(if n < 0 then -n else n);
    IntStringNotToken(n);
    RunCases(k, Str(s));
  }

  /** An integer-looking string holds no '.', so the float branch never
      sees it. */
  lemma IntHasNoDot(s: string)
    requires MatchesInt(s)
    ensures Count(s, '.') == 0
  {
    CountUnsignedBody(s);
    CountAbsent(Unsigned(Body(s)), '.');
  }

  /** The corrected caster agrees with the code as written wherever the
      latter returns, and the latter raises exactly on a value whose
      unsigned body is "." (that is ".", "+." or "-.", each optionally
      followed by a newline). */
  lemma RunAsWrittenAgrees(k: string, v: Value)
    ensures RunAsWritten(k, v).Ok? ==> RunAsWritten(k, v).value == Run(k, v)
    ensures RunAsWritten(k, v).Err? <==> v.Str? && Unsigned(Body(v.s)) == "."
  {
    if v.Str? {
      var value := Lower(v.s);
      LowerKeepsNumbers(v.s);
      TokensAreNotNumbers(value);
      NumberValuesAgree(value);
    }
  }

  /** The two number tests agree wherever the code as written returns, and
      it raises exactly when the unsigned body is ".". */
  lemma NumberValuesAgree(value: string)
    ensures ProcessNumberValuesAsWritten(value).Ok? ==>
      ProcessNumberValuesAsWritten(value).value == ProcessNumberValues(value)
    ensures ProcessNumberValuesAsWritten(value).Err? <==> Unsigned(Body(value)) == "."
  {
    if MatchesInt(value) {
      IntHasNoDot(value);
    }
    if Unsigned(Body(value)) == "." {
      CountUnsignedBody(value);
      assert Count(".", '.') == 1;
    }
  }

  /** The discrepancy: as written, casting "." raises `ValueError`; the
      corrected caster leaves it a string. */
  lemma DotRaisesAsWritten(k: string)
    ensures RunAsWritten(k, Str(".")).Err?
    ensures Run(k, Str(".")) == (k, Str("."))
  {
    assert Body(".") == "." && Unsigned(".") == ".";
    RunAsWrittenAgrees(k, Str("."));
    assert Count(".", '.') == 1;
  }

  /** Signed integers, as the unit tests cast them. */
  lemma SignedIntegerExamples(k: string)
    ensures Run(k, Str("+15")) == (k, Int(15))
    ensures Run(k, Str("-15")) == (k, Int(-15))
  {
    assert NatToString(15) == "15";
    NatToStringValue(15);
    PlusSigned(k, "15");
    assert "+" + "15" == "+15";
    assert IntToString(-15) == "-15";
    IntRoundTrip(k, -15);
  }

  /** A '+' in front of a digit string is accepted and ignored. */
  lemma PlusSigned(k: string, digits: string)
    requires |digits| > 0 && forall i :: 0 <= i < |digits| ==> IsDigit(digits[i])
    ensures Run(k, Str("+" + digits)) == (k, Int(DigitsValue(digits)))
  {
    var s := "+" + digits;
    PlusSignedBody(digits);
    assert MatchesInt(s);
    LowerKeepsNumbers(s);
    TokensAreNotNumbers(Lower(s));
  }

  lemma PlusSignedBody(digits: string)
    requires |digits| > 0 && forall i :: 0 <= i < |digits| ==> IsDigit(digits[i])
    ensures Body("+" + digits) == "+" + digits
    ensures Unsigned("+" + digits) == digits
    ensures !IsNegative("+" + digits)
  {
    var s := "+" + digits;
    assert s[|s| - 1] == digits[|digits| - 1];
    assert s[0] == '+' && s[1..] == digits;
  }

  /** Python's `$` matches before a final newline, so "15\n" is cast to 15. */
  lemma TrailingNewlineExample(k: string)
    ensures Run(k, Str("15\n")) == (k, Int(15))
  {
    var s := "15\n";
    assert Body(s) == "15" && Unsigned("15") == "15";
    assert NatToString(15) == "15";
    NatToStringValue(15);
    LowerKeepsNumbers(s);
    TokensAreNotNumbers(Lower(s));
  }

  /** "123.0" becomes the decimal 1230 / 10^1. */
  lemma FloatExample(k: string)
    ensures Run(k, Str("123.0")) == (k, Decimal(1230, 1))
  {
    FloatExampleParses();
    RunFloat(k, "123.0", Decimal(1230, 1));
  }

  lemma FloatExampleParses()
    ensures MatchesFloat("123.0") && Count("123.0", '.') == 1 && !MatchesInt("123.0")
    ensures ParseFloat("123.0") == Ok(Decimal(1230, 1))
  {
    var s := "123.0";
    assert Body(s) == s && Unsigned(s) == s;
    assert Find(s, '.') == 3;
    assert s[..3] + s[4..] == "1230";
    assert DigitsValue("1230") == 1230 by {
      assert "1230"[..3] == "123" && "123"[..2] == "12" && "12"[..1] == "1" && "1"[..0] == "";
    }
  }

  /** A string with one '.' that passes the float pattern but not the
      integer one is cast to what `float` makes of it. */
  lemma RunFloat(k: string, s: string, x: Value)
    requires MatchesFloat(s) && Count(s, '.') == 1 && !MatchesInt(s)
    requires ParseFloat(s) == Ok(x)
    ensures Run(k, Str(s)) == (k, x)
  {
    LowerKeepsNumbers(s);
    TokensAreNotNumbers(s);
  }

  /** A value with two or more dots is neither a token nor a number, so it
      stays a string: "3.14.15" is not cast. */
  lemma ManyDotsUnchanged(k: string, s: string)
    requires Count(s, '.') >= 2
    ensures Run(k, Str(s)) == (k, Str(s))
  {
    LowerKeepsNumbers(s);
    TokensHaveNoDot(Lower(s));
    if MatchesInt(s) {
      IntHasNoDot(s);
    }
  }

  lemma TokensHaveNoDot(t: string)
    ensures IsToken(t) ==> Count(t, '.') == 0
  {
    if IsToken(t) {
      CountAbsent(t, '.');
    }
  }

  /** "3.14.15" stays a string. */
  lemma TwoDotsExample(k: string)
    ensures Run(k, Str("3.14.15")) == (k, Str("3.14.15"))
  {
    assert Count("3.14.15", '.') == 2;
    ManyDotsUnchanged(k, "3.14.15");
  }

  /** The near-miss "nul" stays a string. */
  lemma NearMissExample(k: string)
    ensures Run(k, Str("nul")) == (k, Str("nul"))
  {
    assert Lower("nul") == "nul";
    assert Body("nul") == "nul" && Unsigned("nul") == "nul";
    assert !MatchesFloat("nul") by {
      assert !IsDigit("nul"[0]);
    }
    assert !MatchesInt("nul");
    assert !IsToken("nul");
  }

  /** Casting twice is casting once: a cast value is no longer a string, and
      an uncast string is cast to itself again. */
  lemma CastIdempotent(k: string, v: Value)
    ensures Run(k, Run(k, v).1) == Run(k, v)
  {
  }
}
