/**
 * The unit, temperature and currency converter of the search handler.
 *
 * A query of the shape `<amount> <from> (in|to|ba|be) <to>` (the regular
 * expression `^([\d.,]+)\s*([a-zA-Z]+)\s+(?:in|to|ba|be)\s+([a-zA-Z]+)$`,
 * case-insensitive) is split into its parts; the first comma of the amount
 * becomes a decimal point and `parseFloat` reads it. Celsius/Fahrenheit is
 * tried first, then the length/mass table, then currencies through the US
 * dollar, with the rate table from the exchange-rate cache, which is asked
 * for a table as soon as the pair is not a temperature pair.
 */
module Converter {
  import opened Wrappers
  import opened Text
  import opened Items
  import opened ExchangeRates

  // ---------------------------------------------------------------------------
  // The query's shape

  /**
   * Where a query is cut into the pattern's pieces: the amount is `q[..a]`, the
   * gap `q[a..b]`, the source unit `q[b..c]`, the gap `q[c..d]`, the keyword
   * `q[d..d+2]`, the gap `q[d+2..e]` and the target unit `q[e..]`.
   */
  datatype Cut = Cut(a: nat, b: nat, c: nat, d: nat, e: nat)

  /** `in`, `to`, `ba` or `be`, in any letter case. */
  predicate IsKeyword(k: string) {
    && |k| == 2
    && var k0, k1 := LowerChar(k[0]), LowerChar(k[1]);
       (k0 == 'i' && k1 == 'n') || (k0 == 't' && k1 == 'o') || (k0 == 'b' && (k1 == 'a' || k1 == 'e'))
  }

  /** The query matches the pattern with its pieces at `cut`. */
  predicate MatchesAt(q: string, cut: Cut) {
    && 0 < cut.a <= cut.b < cut.c < cut.d && cut.d + 2 < cut.e < |q|
    && AllIn(q[..cut.a], AmountChars)
    && AllIn(q[cut.a..cut.b], Spaces)
    && AllIn(q[cut.b..cut.c], Letters)
    && AllIn(q[cut.c..cut.d], Spaces)
    && IsKeyword(q[cut.d..cut.d + 2])
    && AllIn(q[cut.d + 2..cut.e], Spaces)
    && AllIn(q[cut.e..], Letters)
  }

  /** The three captured groups: amount, source unit, target unit. */
  datatype ConvertMatch = ConvertMatch(amount: string, from: string, to: string)

  function Groups(q: string, cut: Cut): ConvertMatch
    requires cut.a <= cut.b <= cut.c <= cut.e <= |q|
  {
    ConvertMatch(q[..cut.a], q[cut.b..cut.c], q[cut.e..])
  }

  lemma KeywordChars(k: string)
    requires IsKeyword(k)
    ensures IsAsciiLetter(k[0]) && IsAsciiLetter(k[1])
  {
  }

  /** The end of the maximal run of `cls` characters from `i`, stated index by index. */
  function Span(q: string, i: nat, cls: CharClass): (j: nat)
    requires i <= |q|
    ensures i <= j <= |q|
    ensures forall k :: i <= k < j ==> InClass(q[k], cls)
    ensures j == |q| || !InClass(q[j], cls)
    decreases |q| - i
  {
    if i == |q| || !InClass(q[i], cls) then i else Span(q, i + 1, cls)
  }

  /** A run boundary is determined by the run: `Span` is the only end with its two properties. */
  lemma {:induction false} SpanUnique(q: string, i: nat, j: nat, cls: CharClass)
    requires i <= j <= |q|
    requires forall k :: i <= k < j ==> InClass(q[k], cls)
    requires j == |q| || !InClass(q[j], cls)
    ensures Span(q, i, cls) == j
    decreases j - i
  {
    if i < j {
      SpanUnique(q, i + 1, j, cls);
    }
  }

  /** The end of the amount: the maximal run of digits, points and commas at the start. */
  function AmountEnd(q: string): nat {
    Span(q, 0, AmountChars)
  }

  /** The start of the source unit: the end of the whitespace after the amount. */
  function UnitStart(q: string): nat {
    Span(q, AmountEnd(q), Spaces)
  }

  /** The end of the source unit: the end of the letters after the whitespace. */
  function UnitEnd(q: string): nat {
    Span(q, UnitStart(q), Letters)
  }

  /** The start of the keyword: the end of the whitespace after the source unit. */
  function KeywordStart(q: string): nat {
    Span(q, UnitEnd(q), Spaces)
  }

  /** The start of the target unit: the end of the whitespace after the two keyword characters. */
  function TargetStart(q: string): nat {
    if KeywordStart(q) + 2 <= |q| then Span(q, KeywordStart(q) + 2, Spaces) else KeywordStart(q)
  }

  /** The cut found by taking each piece as the maximal run of its character class. */
  function GreedyCut(q: string): (cut: Cut)
    ensures cut.a <= cut.b <= cut.c <= cut.d <= |q|
  {
    Cut(AmountEnd(q), UnitStart(q), UnitEnd(q), KeywordStart(q), TargetStart(q))
  }

  /** Any cut at which the query matches is the greedy one: the pattern splits a query in only one way. */
  lemma MatchIsGreedy(q: string, cut: Cut)
    requires MatchesAt(q, cut)
    ensures GreedyCut(q) == cut
  {
    AmountEnds(q, cut);
    FirstGapEnds(q, cut);
    SourceUnitEnds(q, cut);
    SecondGapEnds(q, cut);
    ThirdGapEnds(q, cut);
    GreedyFromRuns(q, cut.a, cut.b, cut.c, cut.d, cut.e);
  }

  /** Boundaries that are each the end of the run the greedy cut takes there are the greedy cut. */
  lemma GreedyFromRuns(q: string, a: nat, b: nat, c: nat, d: nat, e: nat)
    requires Span(q, 0, AmountChars) == a && a <= |q| && Span(q, a, Spaces) == b
    requires b <= |q| && Span(q, b, Letters) == c && c <= |q| && Span(q, c, Spaces) == d
    requires d + 2 <= |q| && Span(q, d + 2, Spaces) == e
    ensures GreedyCut(q) == Cut(a, b, c, d, e)
  {
    assert AmountEnd(q) == a;
    assert UnitStart(q) == b;
    assert UnitEnd(q) == c;
    assert KeywordStart(q) == d;
    assert TargetStart(q) == e;
  }

  /** The characters of a slice, index by index. */
  lemma AllInIndices(q: string, i: nat, j: nat, cls: CharClass)
    requires i <= j <= |q| && AllIn(q[i..j], cls)
    ensures forall k :: i <= k < j ==> InClass(q[k], cls)
  {
    forall k | i <= k < j ensures InClass(q[k], cls) {
      assert q[k] == q[i..j][k - i];
    }
  }

  /** In a match, the amount group is the maximal leading run of digits, points and commas. */
  lemma AmountEnds(q: string, cut: Cut)
    requires MatchesAt(q, cut)
    ensures Span(q, 0, AmountChars) == cut.a
  {
    assert q[..cut.a] == q[0..cut.a];
    AllInIndices(q, 0, cut.a, AmountChars);
    if cut.a < cut.b { assert q[cut.a] == q[cut.a..cut.b][0]; } else { assert q[cut.a] == q[cut.b..cut.c][0]; }
    SpanUnique(q, 0, cut.a, AmountChars);
  }

  /** In a match, the optional whitespace after the amount is a maximal run. */
  lemma FirstGapEnds(q: string, cut: Cut)
    requires MatchesAt(q, cut)
    ensures Span(q, cut.a, Spaces) == cut.b
  {
    AllInIndices(q, cut.a, cut.b, Spaces);
    assert q[cut.b] == q[cut.b..cut.c][0];
    SpanUnique(q, cut.a, cut.b, Spaces);
  }

  /** In a match, the source unit is a maximal run of letters. */
  lemma SourceUnitEnds(q: string, cut: Cut)
    requires MatchesAt(q, cut)
    ensures Span(q, cut.b, Letters) == cut.c
  {
    AllInIndices(q, cut.b, cut.c, Letters);
    assert q[cut.c] == q[cut.c..cut.d][0];
    SpanUnique(q, cut.b, cut.c, Letters);
  }

  /** In a match, the whitespace before the keyword is a maximal run. */
  lemma SecondGapEnds(q: string, cut: Cut)
    requires MatchesAt(q, cut)
    ensures Span(q, cut.c, Spaces) == cut.d
  {
    AllInIndices(q, cut.c, cut.d, Spaces);
    KeywordChars(q[cut.d..cut.d + 2]);
    assert q[cut.d] == q[cut.d..cut.d + 2][0];
    SpanUnique(q, cut.c, cut.d, Spaces);
  }

  /** In a match, the whitespace after the keyword is a maximal run. */
  lemma ThirdGapEnds(q: string, cut: Cut)
    requires MatchesAt(q, cut)
    ensures Span(q, cut.d + 2, Spaces) == cut.e
  {
    AllInIndices(q, cut.d + 2, cut.e, Spaces);
    assert q[cut.e] == q[cut.e..][0];
    SpanUnique(q, cut.d + 2, cut.e, Spaces);
  }

  /**
   * `query.match(/^([\d.,]+)\s*([a-zA-Z]+)\s+(?:in|to|ba|be)\s+([a-zA-Z]+)$/i)`:
   * the groups when the query has the pattern's shape, `None` exactly when it has not.
   */
  function MatchConvert(q: string): (r: Option<ConvertMatch>)
    ensures r.Some? <==> MatchesAt(q, GreedyCut(q))
    ensures forall cut :: MatchesAt(q, cut) ==> r == Some(Groups(q, cut))
  {
    var cut := GreedyCut(q);
    OnlyGreedyCutMatches(q);
    GreedyShapeMatches(q);
    if GreedyShape(q, cut) then Some(Groups(q, cut)) else None
  }

  /** The conditions the greedy cut still has to meet: each piece non-empty, the keyword, nothing after the target. */
  predicate GreedyShape(q: string, cut: Cut)
    requires cut.a <= cut.b <= cut.c <= cut.d <= |q|
  {
    && 0 < cut.a && cut.b < cut.c && cut.c < cut.d && cut.d + 2 <= |q|
    && IsKeyword(q[cut.d..cut.d + 2])
    && cut.d + 2 < cut.e < |q|
    && RunEnd(q, cut.e, Letters) == |q|
  }

  lemma OnlyGreedyCutMatches(q: string)
    ensures forall cut :: MatchesAt(q, cut) ==> cut == GreedyCut(q)
  {
    forall cut | MatchesAt(q, cut) ensures cut == GreedyCut(q) {
      MatchIsGreedy(q, cut);
    }
  }

  lemma GreedyShapeMatches(q: string)
    ensures MatchesAt(q, GreedyCut(q)) <==> GreedyShape(q, GreedyCut(q))
  {
    var cut := GreedyCut(q);
    if GreedyShape(q, cut) {
      assert q[..cut.a] == q[0..cut.a];
      assert q[cut.e..] == q[cut.e..|q|];
    }
  }

  // ---------------------------------------------------------------------------
  // The amount

  /** The index of the first occurrence of `c` in `s`, or `|s|` when there is none. */
  function IndexOf(s: string, c: char): (i: nat)
    ensures i <= |s|
    ensures c !in s[..i]
    ensures i < |s| ==> s[i] == c
    ensures i == |s| <==> c !in s
  {
    if s == [] then 0
    else if s[0] == c then 0
    else
      var i := IndexOf(s[1..], c);
      assert s[..i + 1] == [s[0]] + s[1..][..i];
      i + 1
  }

  /** `valStr.replace(',', '.')`: only the first comma becomes a point. */
  function ReplaceFirstComma(s: string): (r: string)
    ensures |r| == |s|
    ensures forall k :: 0 <= k < |s| ==> r[k] == (if k == IndexOf(s, ',') then '.' else s[k])
    ensures AllIn(s, AmountChars) ==> AllIn(r, AmountChars)
  {
    var i := IndexOf(s, ',');
    if i < |s| then
      var r := s[..i] + "." + s[i + 1..];
      assert forall k :: 0 <= k < |s| ==> r[k] == (if k == i then '.' else s[k]);
      r
    else s
  }

  /** The value of a string of decimal digits. */
  function DigitsValue(d: string): nat
    requires AllIn(d, Digits)
  {
    if d == [] then 0 else DigitsValue(d[..|d| - 1]) * 10 + (d[|d| - 1] as int - '0' as int)
  }

  function Pow10(n: nat): (r: nat)
    ensures r > 0
  {
    if n == 0 then 1 else 10 * Pow10(n - 1)
  }

  /** The decimal number `whole.frac`. */
  function Decimal(whole: string, frac: string): real
    requires AllIn(whole, Digits) && AllIn(frac, Digits)
  {
    DigitsValue(whole) as real + DigitsValue(frac) as real / Pow10(|frac|) as real
  }

  /**
   * `parseFloat` on a string of digits, points and commas: the longest prefix
   * `digits[.digits]` is read; `None` (NaN) when it holds no digit at all.
   */
  function ParseFloat(s: string): (r: Option<real>)
    requires AllIn(s, AmountChars)
    ensures r.None? <==> !(|s| > 0 && IsDigit(s[0])) && !(|s| > 1 && s[0] == '.' && IsDigit(s[1]))
  {
    var i := RunEnd(s, 0, Digits);
    assert s[..i] == s[0..i];
    if i < |s| && s[i] == '.' then
      var f := RunEnd(s, i + 1, Digits);
      if i == 0 && f == i + 1 then None else Some(Decimal(s[..i], s[i + 1..f]))
    else if i == 0 then None
    else Some(Decimal(s[..i], []))
  }

  /** A written decimal is read back as its value: `parseFloat` inverts decimal notation. */
  lemma ParseFloatDecimal(whole: string, frac: string, rest: string)
    requires AllIn(whole, Digits) && AllIn(frac, Digits) && |whole| + |frac| > 0
    requires AllIn(rest, AmountChars) && (rest == [] || rest[0] == ',')
    ensures AllIn(whole + "." + frac + rest, AmountChars)
    ensures ParseFloat(whole + "." + frac + rest) == Some(Decimal(whole, frac))
  {
    var s := whole + "." + frac + rest;
    var i := |whole|;
    assert s[0..i] == whole;
    assert s[i] == '.';
    RunEndUnique(s, 0, i, Digits);
    var f := i + 1 + |frac|;
    assert s[i + 1..f] == frac;
    if f < |s| { assert s[f] == rest[0]; }
    RunEndUnique(s, i + 1, f, Digits);
    assert s[..i] == whole;
  }

  /** A written whole number, with or without a comma part after it, is read back as its value. */
  lemma ParseFloatInteger(whole: string, rest: string)
    requires AllIn(whole, Digits) && whole != []
    requires AllIn(rest, AmountChars) && (rest == [] || rest[0] == ',')
    ensures AllIn(whole + rest, AmountChars)
    ensures ParseFloat(whole + rest) == Some(DigitsValue(whole) as real)
  {
    var s := whole + rest;
    var i := |whole|;
    assert AllIn(s, AmountChars) by {
      forall k | 0 <= k < |s| ensures InClass(s[k], AmountChars) {
        if k >= i { assert s[k] == rest[k - i]; }
      }
    }
    assert s[0..i] == whole;
    assert i == |s| || s[i] == ',' by {
      if i < |s| { assert s[i] == rest[0]; }
    }
    RunEndUnique(s, 0, i, Digits);
    assert s[..i] == whole;
    assert Decimal(whole, []) == DigitsValue(whole) as real by {
      assert DigitsValue([]) == 0 && Pow10(0) == 1;
    }
  }

  // ---------------------------------------------------------------------------
  // The three conversions

  /** Celsius to Fahrenheit and back; any other pair is not a temperature pair. */
  function TemperatureConversion(amount: real, from: string, to: string): (r: Option<real>)
    ensures r.Some? <==> (from == "c" && to == "f") || (from == "f" && to == "c")
  {
    if from == "c" && to == "f" then Some(amount * 9.0 / 5.0 + 32.0)
    else if from == "f" && to == "c" then Some((amount - 32.0) * 5.0 / 9.0)
    else None
  }

  /** Metres per length unit and grams per mass unit, as the source's table has them. */
  const UnitTable: map<string, real> := map[
    "mm" := 0.001, "cm" := 0.01, "m" := 1.0, "km" := 1000.0,
    "in" := 0.0254, "ft" := 0.3048, "yd" := 0.9144, "mi" := 1609.344,
    "mg" := 0.001, "g" := 1.0, "kg" := 1000.0, "oz" := 28.3495, "lb" := 453.592]

  lemma UnitTablePositive()
    ensures forall u :: u in UnitTable ==> UnitTable[u] > 0.0
  {
  }

  /** Table conversion: both units must be in the table (length and mass are not told apart). */
  function UnitConversion(amount: real, from: string, to: string): (r: Option<real>)
    ensures r.Some? <==> from in UnitTable && to in UnitTable
  {
    if from in UnitTable && to in UnitTable then Some(amount * UnitTable[from] / UnitTable[to]) else None
  }

  /**
   * The unit test as written: a truthy property of the `units` object literal,
   * which also finds `constructor`, inherited from `Object.prototype` (the only
   * inherited name made of letters alone and without an upper-case letter).
   */
  predicate UnitKnownAsWritten(unit: string) {
    unit in UnitTable || unit == "constructor"
  }

  /**
   * `5 constructor to m` matches the pattern, and as written both of its units
   * pass the test, so a unit item (whose value is NaN) is produced; the table
   * lookup knows neither `constructor` nor any conversion for it.
   */
  lemma InheritedUnitConverts()
    ensures MatchConvert("5 constructor to m") == Some(ConvertMatch("5", "constructor", "m"))
    ensures UnitKnownAsWritten("constructor") && UnitKnownAsWritten("m")
    ensures UnitConversion(5.0, "constructor", "m").None?
  {
    ConstructorQueryGroups();
    ConstructorNotInTable();
  }

  /** The table has no entry `constructor`, so the corrected test converts nothing. */
  lemma ConstructorNotInTable()
    ensures UnitConversion(5.0, "constructor", "m").None?
  {
  }

  /** The pattern splits `5 constructor to m` into `5`, `constructor` and `m`. */
  lemma ConstructorQueryGroups()
    ensures MatchConvert("5 constructor to m") == Some(ConvertMatch("5", "constructor", "m"))
  {
    var q := "5 constructor to m";
    ConstructorQueryMatches();
    assert Groups(q, Cut(1, 2, 13, 14, 17)) == ConvertMatch("5", "constructor", "m") by {
      assert q[..1] == "5" && q[2..13] == "constructor" && q[17..] == "m";
    }
  }

  /** The cut of `5 constructor to m`, piece by piece. */
  lemma ConstructorQueryMatches()
    ensures MatchesAt("5 constructor to m", Cut(1, 2, 13, 14, 17))
  {
    var q := "5 constructor to m";
    assert AllIn(q[..1], AmountChars) by { assert q[..1] == "5"; }
    assert AllIn(q[1..2], Spaces) by { assert q[1..2] == " "; }
    assert AllIn(q[2..13], Letters) by { assert q[2..13] == "constructor"; }
    assert AllIn(q[13..14], Spaces) by { assert q[13..14] == " "; }
    assert IsKeyword(q[14..16]) by { assert q[14..16] == "to"; }
    assert AllIn(q[16..17], Spaces) by { assert q[16..17] == " "; }
    assert AllIn(q[17..], Letters) by { assert q[17..] == "m"; }
  }

  /** A rate the source treats as usable: present and non-zero (`rates[code]` is truthy). */
  predicate HasRate(rates: Option<Rates>, code: string) {
    rates.Some? && code in rates.value && rates.value[code] != 0.0
  }

  /** Currency conversion through the dollar: `amount / rate(from) * rate(to)`. */
  function CurrencyConversion(amount: real, from: string, to: string, rates: Option<Rates>): (r: Option<real>)
    ensures r.Some? <==> HasRate(rates, ToUpper(from)) && HasRate(rates, ToUpper(to))
  {
    var f := ToUpper(from);
    var t := ToUpper(to);
    if HasRate(rates, f) && HasRate(rates, t) then Some(amount / rates.value[f] * rates.value[t]) else None
  }

  /** Converting a temperature there and back gives the amount again. */
  lemma TemperatureRoundTrip(amount: real)
    ensures TemperatureConversion(TemperatureConversion(amount, "c", "f").value, "f", "c") == Some(amount)
    ensures TemperatureConversion(TemperatureConversion(amount, "f", "c").value, "c", "f") == Some(amount)
  {
  }

  /** Converting between two table units there and back gives the amount again. */
  lemma UnitRoundTrip(amount: real, from: string, to: string)
    requires from in UnitTable && to in UnitTable
    ensures UnitConversion(UnitConversion(amount, from, to).value, to, from) == Some(amount)
  {
    var x := UnitTable[from];
    var y := UnitTable[to];
    assert x > 0.0 && y > 0.0;
    calc {
      amount * x / y * y / x;
      { assert amount * x / y * y == amount * x; }
      amount * x / x;
    }
  }

  /** Going through a third unit gives the same result as converting directly. */
  lemma UnitComposition(amount: real, from: string, via: string, to: string)
    requires from in UnitTable && via in UnitTable && to in UnitTable
    ensures UnitConversion(UnitConversion(amount, from, via).value, via, to) == UnitConversion(amount, from, to)
  {
    var x := UnitTable[from];
    var v := UnitTable[via];
    assert v > 0.0;
    assert amount * x / v * v == amount * x;
  }

  /** Going through a third currency gives the same result as converting directly (the dollar is only a pivot). */
  lemma CurrencyComposition(amount: real, from: string, via: string, to: string, rates: Rates)
    requires HasRate(Some(rates), ToUpper(from)) && HasRate(Some(rates), ToUpper(via)) && HasRate(Some(rates), ToUpper(to))
    ensures CurrencyConversion(CurrencyConversion(amount, from, via, Some(rates)).value, via, to, Some(rates))
         == CurrencyConversion(amount, from, to, Some(rates))
  {
    var uf, uv, ut := ToUpper(from), ToUpper(via), ToUpper(to);
    var f, v, t := rates[uf], rates[uv], rates[ut];
    var y := amount / f;
    var first := CurrencyConversion(amount, from, via, Some(rates));
    assert first.value == amount / Some(rates).value[uf] * Some(rates).value[uv];
    CancelFactor(y, v);
    var second := CurrencyConversion(y * v, via, to, Some(rates));
    assert second.value == y * v / Some(rates).value[uv] * Some(rates).value[ut];
    var direct := CurrencyConversion(amount, from, to, Some(rates));
    assert direct.value == amount / Some(rates).value[uf] * Some(rates).value[ut];
    assert first.value == y * v && second.value == y * t && direct.value == y * t;
  }

  lemma CancelFactor(y: real, v: real)
    requires v != 0.0
    ensures y * v / v == y
  {
  }

  // ---------------------------------------------------------------------------
  // The converter step of the search handler

  /** The converter's item, if any, and the exchange-rate cache after it. */
  datatype ConverterResult = ConverterResult(item: Option<Item>, cache: CacheState)

  /**
   * The conversion of an amount between two lower-cased units: temperature
   * first, without touching the rate cache; otherwise the cache is consulted
   * (and may fetch) before the unit table and then the currency rates are tried.
   */
  function Convert(amount: real, from: string, to: string, cache: CacheState, now: int, outcome: FetchOutcome): (r: ConverterResult)
    ensures TemperatureConversion(amount, from, to).Some? ==>
      r == ConverterResult(Some(CalcItem(Temperature, TemperatureConversion(amount, from, to).value)), cache)
    ensures TemperatureConversion(amount, from, to).None? ==> r.cache == Fetch(cache, now, outcome).state
    ensures TemperatureConversion(amount, from, to).None? && UnitConversion(amount, from, to).Some? ==>
      r.item == Some(CalcItem(Units, UnitConversion(amount, from, to).value))
    ensures TemperatureConversion(amount, from, to).None? && UnitConversion(amount, from, to).None? ==>
      var rates := Fetch(cache, now, outcome).returned;
      && (r.item.Some? <==> HasRate(rates, ToUpper(from)) && HasRate(rates, ToUpper(to)))
      && (r.item.Some? ==> r.item.value == CalcItem(Currency, CurrencyConversion(amount, from, to, rates).value))
  {
    match TemperatureConversion(amount, from, to)
    case Some(v) => ConverterResult(Some(CalcItem(Temperature, v)), cache)
    case None =>
      var look := Fetch(cache, now, outcome);
      match UnitConversion(amount, from, to)
      case Some(v) => ConverterResult(Some(CalcItem(Units, v)), look.state)
      case None =>
        match CurrencyConversion(amount, from, to, look.returned)
        case Some(v) => ConverterResult(Some(CalcItem(Currency, v)), look.state)
        case None => ConverterResult(None, look.state)
  }

  /** The converter part of the search handler's last branch. */
  function ConverterStep(query: string, cache: CacheState, now: int, outcome: FetchOutcome): (r: ConverterResult)
    ensures r.item.Some? ==> MatchConvert(query).Some? && r.item.value.CalcItem?
    ensures MatchConvert(query).None? ==> r == ConverterResult(None, cache)
    ensures r.cache == cache || r.cache == Fetch(cache, now, outcome).state
  {
    match MatchConvert(query)
    case None => ConverterResult(None, cache)
    case Some(p) =>
      match ParseFloat(ReplaceFirstComma(p.amount))
      case None => ConverterResult(None, cache)
      case Some(amount) => Convert(amount, ToLower(p.from), ToLower(p.to), cache, now, outcome)
  }

  /** A query that matches at `cut` with a readable amount is converted from its pieces, units lower-cased. */
  lemma ConverterDispatch(q: string, cut: Cut, cache: CacheState, now: int, outcome: FetchOutcome)
    requires MatchesAt(q, cut)
    requires ParseFloat(ReplaceFirstComma(q[..cut.a])).Some?
    ensures ConverterStep(q, cache, now, outcome)
         == Convert(ParseFloat(ReplaceFirstComma(q[..cut.a])).value, ToLower(q[cut.b..cut.c]), ToLower(q[cut.e..]), cache, now, outcome)
  {
    assert MatchConvert(q) == Some(Groups(q, cut));
  }

  /** A matching query whose amount `parseFloat` cannot read yields nothing and leaves the cache alone. */
  lemma UnreadableAmountIgnored(q: string, cut: Cut, cache: CacheState, now: int, outcome: FetchOutcome)
    requires MatchesAt(q, cut)
    requires ParseFloat(ReplaceFirstComma(q[..cut.a])).None?
    ensures ConverterStep(q, cache, now, outcome) == ConverterResult(None, cache)
  {
    assert MatchConvert(q) == Some(Groups(q, cut));
  }
}
