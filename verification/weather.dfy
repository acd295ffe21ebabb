/**
 * The weather classifier of the effects layer (`getWeatherType` in
 * WeatherEffects.js) and the day/night test on the provider's icon name.
 * The classifier looks at the decimal text of the OpenWeatherMap condition
 * code: a leading digit picks the family and a few exact codes escalate to a
 * heavier category.
 */
module Weather {
  import opened Wrappers
  import Decimal

  datatype WeatherType =
    | Clear | PartlyCloudy | Cloudy | Fog | Drizzle | Rain | HeavyRain
    | Snow | HeavySnow | Thunderstorm | Tornado

  /** The `weatherCode` field as delivered: absent (`undefined`/`null`) or an integer condition id. */
  datatype RawCode = Missing | Code(n: int)

  /** JavaScript falsiness of the code: absent or zero. */
  predicate Falsy(code: RawCode) {
    code.Missing? || code.n == 0
  }

  predicate StartsWith(s: string, c: char) {
    |s| > 0 && s[0] == c
  }

  /**
   * The classifier as written: prefix and equality tests on `code.toString()`.
   * The description is lower-cased by the source but never consulted.
   */
  function Classify(code: RawCode, description: Option<string>): (t: WeatherType)
    ensures Falsy(code) ==> t == Clear
    ensures !Falsy(code) && code.n < 0 ==> t == Clear
  {
    if Falsy(code) then Clear
    else
      var s := Decimal.ToDecimal(code.n);
      if StartsWith(s, '2') then Thunderstorm
      else if StartsWith(s, '3') then Drizzle
      else if StartsWith(s, '5') then
        (if s == "502" || s == "503" || s == "504" then HeavyRain else Rain)
      else if StartsWith(s, '6') then
        (if s == "602" || s == "622" then HeavySnow else Snow)
      else if StartsWith(s, '7') then
        (if s == "781" then Tornado else Fog)
      else if s == "800" then Clear
      else if StartsWith(s, '8') then
        (if s == "801" || s == "802" then PartlyCloudy else Cloudy)
      else Clear
  }

  /**
   * Reference classification stated on numbers: the family is the leading
   * decimal digit of a positive code, and escalations are exact integer codes.
   */
  function ClassifyByNumber(code: RawCode): WeatherType {
    if Falsy(code) || code.n < 0 then Clear
    else
      var n := code.n as nat;
      match Decimal.LeadingDigit(n)
      case 2 => Thunderstorm
      case 3 => Drizzle
      case 5 => if n == 502 || n == 503 || n == 504 then HeavyRain else Rain
      case 6 => if n == 602 || n == 622 then HeavySnow else Snow
      case 7 => if n == 781 then Tornado else Fog
      case 8 => if n == 800 then Clear else if n == 801 || n == 802 then PartlyCloudy else Cloudy
      case _ => Clear
  }

  /** The printed text of the codes the classifiers single out. */
  lemma SpecialCodeTexts()
    ensures Decimal.ToDecimal(502) == "502" && Decimal.ToDecimal(503) == "503"
    ensures Decimal.ToDecimal(504) == "504" && Decimal.ToDecimal(602) == "602"
    ensures Decimal.ToDecimal(622) == "622" && Decimal.ToDecimal(781) == "781"
    ensures Decimal.ToDecimal(800) == "800" && Decimal.ToDecimal(801) == "801"
    ensures Decimal.ToDecimal(802) == "802"
  {
  }

  /** `ToDecimal(n)` equals the literal text of `m` exactly when `n == m`. */
  lemma TextIs(n: int, m: int, lit: string)
    requires lit == Decimal.ToDecimal(m)
    ensures Decimal.ToDecimal(n) == lit <==> n == m
  {
    Decimal.ToDecimalInjective(n, m);
  }

  /** The string-prefix classifier agrees with the numeric reference on every input. */
  lemma ClassifyMatchesNumbers(code: RawCode, description: Option<string>)
    ensures Classify(code, description) == ClassifyByNumber(code)
  {
    if !Falsy(code) && code.n > 0 {
      var n := code.n;
      var s := Decimal.ToDecimal(n);
      Decimal.FirstCharIsLeadingDigit(n);
      assert s[0] == Decimal.DigitChar(Decimal.LeadingDigit(n));
      SpecialCodeTexts();
      TextIs(n, 502, "502"); TextIs(n, 503, "503"); TextIs(n, 504, "504");
      TextIs(n, 602, "602"); TextIs(n, 622, "622"); TextIs(n, 781, "781");
      TextIs(n, 800, "800"); TextIs(n, 801, "801"); TextIs(n, 802, "802");
      var d := Decimal.LeadingDigit(n);
      assert StartsWith(s, '2') <==> d == 2;
      assert StartsWith(s, '3') <==> d == 3;
      assert StartsWith(s, '5') <==> d == 5;
      assert StartsWith(s, '6') <==> d == 6;
      assert StartsWith(s, '7') <==> d == 7;
      assert StartsWith(s, '8') <==> d == 8;
    }
  }

  /** The description never changes the category. */
  lemma DescriptionIgnored(code: RawCode, d1: Option<string>, d2: Option<string>)
    ensures Classify(code, d1) == Classify(code, d2)
  {
    ClassifyMatchesNumbers(code, d1);
    ClassifyMatchesNumbers(code, d2);
  }

  /** The OpenWeatherMap condition groups, stated on three-digit codes. */
  lemma ConditionGroups(n: int, d: Option<string>)
    requires 100 <= n <= 999
    ensures 200 <= n < 300 <==> Classify(Code(n), d) == Thunderstorm
    ensures 300 <= n < 400 <==> Classify(Code(n), d) == Drizzle
    ensures (500 <= n < 600 && n != 502 && n != 503 && n != 504) <==> Classify(Code(n), d) == Rain
    ensures (n == 502 || n == 503 || n == 504) <==> Classify(Code(n), d) == HeavyRain
    ensures (600 <= n < 700 && n != 602 && n != 622) <==> Classify(Code(n), d) == Snow
    ensures (n == 602 || n == 622) <==> Classify(Code(n), d) == HeavySnow
    ensures (700 <= n < 800 && n != 781) <==> Classify(Code(n), d) == Fog
    ensures n == 781 <==> Classify(Code(n), d) == Tornado
    ensures (n == 801 || n == 802) <==> Classify(Code(n), d) == PartlyCloudy
    ensures 803 <= n < 900 <==> Classify(Code(n), d) == Cloudy
    ensures (n < 200 || 400 <= n < 500 || n == 800 || 900 <= n) <==> Classify(Code(n), d) == Clear
  {
    ClassifyMatchesNumbers(Code(n), d);
    Decimal.LeadingDigitOfThreeDigits(n);
  }

  /**
   * `isNightTime`: the icon name is present, non-empty and contains the letter
   * 'n' (OpenWeatherMap night icons end in "n", e.g. "10n").
   */
  function IsNightTime(icon: Option<string>): (night: bool)
    ensures night <==> icon.Some? && exists i :: 0 <= i < |icon.value| && icon.value[i] == 'n'
    ensures night ==> icon.Some? && |icon.value| > 0
  {
    icon.Some? && 'n' in icon.value
  }
}
