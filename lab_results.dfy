/** The laboratory results view (components/game/LabResults.tsx): how a value
    is rated against its normal range, whether a panel holds a critical
    value, and the All / Abnormal / Critical filter over panels. */
module LabResults {
  import opened Common

  /** A lab value is a number or a text ('Positive', '12.5'). */
  datatype Reading = NumberReading(x: real) | TextReading(s: string)

  datatype Range = Range(low: real, high: real)

  datatype LabValue = LabValue(name: string, value: Reading, unit: string, normalRange: Option<Range>)

  datatype PanelStatus = Pending | Resulted | CriticalPanel

  datatype LabPanel = LabPanel(name: string, timestamp: string, values: seq<LabValue>, status: PanelStatus)

  datatype LabStatus = Normal | Low | High | CriticalLow | CriticalHigh

  datatype LabFilter = All | Abnormal | CriticalOnly

  // ------------------------------------------------------------------
  // Reading a value
  // ------------------------------------------------------------------

  /** How many decimal digits the text starts with. */
  function LeadingDigits(s: string): (n: nat)
    ensures n <= |s| && AllDigits(s[..n])
    ensures n < |s| ==> !IsDigit(s[n])
  {
    if s != [] && IsDigit(s[0]) then
      var k := LeadingDigits(s[1..]);
      assert s[..k + 1] == [s[0]] + s[1..][..k];
      k + 1
    else 0
  }

  /** The number `parseFloat` reads: its sign, whole digits and fraction
      digits. */
  datatype Numeral = Numeral(negative: bool, whole: string, frac: string)

  predicate WellFormedNumeral(n: Numeral) {
    AllDigits(n.whole) && AllDigits(n.frac) && |n.whole| + |n.frac| > 0
  }

  /** The longest prefix of the form `[+-]digits[.digits]`; `None` when that
      prefix holds no digit. */
  function ScanNumber(s: string): (r: Option<Numeral>)
    ensures r.Some? ==> WellFormedNumeral(r.value)
  {
    var negative := s != [] && s[0] == '-';
    var body := if s != [] && (s[0] == '-' || s[0] == '+') then s[1..] else s;
    ScanUnsigned(negative, body)
  }

  function ScanUnsigned(negative: bool, body: string): (r: Option<Numeral>)
    ensures r.Some? ==> WellFormedNumeral(r.value)
  {
    var n1 := LeadingDigits(body);
    ScanFraction(negative, body[..n1], body[n1..])
  }

  /** After the whole digits: an optional `.` and fraction digits. */
  function ScanFraction(negative: bool, whole: string, rest: string): (r: Option<Numeral>)
    requires AllDigits(whole)
    ensures r.Some? ==> WellFormedNumeral(r.value)
  {
    var n2 := if rest != [] && rest[0] == '.' then LeadingDigits(rest[1..]) else 0;
    if |whole| + n2 == 0 then None
    else Some(Numeral(negative, whole, if n2 == 0 then "" else rest[1..][..n2]))
  }

  /** Fraction digits worth `digits` over `n` places: `digits / 10^n`. */
  function Fraction(digits: nat, n: nat): real {
    digits as real / Pow10(n) as real
  }

  /** The value a numeral spells. */
  function NumeralValue(n: Numeral): real
    requires AllDigits(n.whole) && AllDigits(n.frac)
  {
    var x := DigitsValue(n.whole) as real + Fraction(DigitsValue(n.frac), |n.frac|);
    if n.negative then -x else x
  }

  /** `parseFloat`: the value of the numeral at the start of the text; `None`
      (NaN) when the text does not start with one. */
  function ParseFloat(s: string): (r: Option<real>)
    ensures s == [] ==> r.None?
    ensures s != [] && !IsDigit(s[0]) && s[0] != '-' && s[0] != '+' && s[0] != '.' ==> r.None?
  {
    var n := ScanNumber(s);
    if n.None? then None else Some(NumeralValue(n.value))
  }

  /** A run of digits followed by anything that is not a digit: the leading
      digits are exactly the run. */
  lemma {:induction false} LeadingDigitsOfRun(d: string, t: string)
    requires AllDigits(d) && (t == [] || !IsDigit(t[0]))
    ensures LeadingDigits(d + t) == |d|
    decreases |d|
  {
    if d == [] {
      assert d + t == t;
    } else {
      assert (d + t)[0] == d[0] && (d + t)[1..] == d[1..] + t;
      LeadingDigitsOfRun(d[1..], t);
    }
  }

  /** Whole digits then anything that cannot continue the number. */
  lemma ScanWhole(negative: bool, whole: string, t: string)
    requires AllDigits(whole) && whole != []
    requires t == [] || (!IsDigit(t[0]) && t[0] != '.')
    ensures ScanUnsigned(negative, whole + t) == Some(Numeral(negative, whole, ""))
  {
    var body := whole + t;
    LeadingDigitsOfRun(whole, t);
    assert body[..|whole|] == whole;
    assert body[|whole|..] == t;
  }

  /** Whole digits (perhaps none), a `.`, fraction digits, then anything
      that cannot continue the number. */
  lemma ScanWholeAndFraction(negative: bool, whole: string, frac: string, t: string)
    requires AllDigits(whole) && AllDigits(frac) && frac != []
    requires t == [] || !IsDigit(t[0])
    ensures ScanUnsigned(negative, whole + ("." + (frac + t))) == Some(Numeral(negative, whole, frac))
  {
    var tail := "." + (frac + t);
    var body := whole + tail;
    LeadingDigitsOfRun(whole, tail);
    assert body[..|whole|] == whole;
    assert body[|whole|..] == tail;
    assert tail[0] == '.' && tail[1..] == frac + t;
    LeadingDigitsOfRun(frac, t);
    assert tail[1..][..|frac|] == frac;
  }

  /** A leading `-` makes the numeral negative, a leading `+` is dropped, and
      a text without a sign is scanned as it is. */
  lemma ScanSign(sign: string, body: string)
    requires sign == "" || sign == "-" || sign == "+"
    requires sign == "" ==> body != [] && body[0] != '-' && body[0] != '+'
    ensures ScanNumber(sign + body) == ScanUnsigned(sign == "-", body)
  {
    if sign == "" {
      assert sign + body == body;
    } else {
      var s := sign + body;
      assert s[0] == sign[0] && s[1..] == body;
    }
  }

  /** A text holding an optional sign, digits, an optional `.` and fraction
      digits (at least one digit in all), then anything that cannot continue
      the number, scans as exactly those parts, so it parses to the number
      they spell. */
  lemma ParseFloatReadsNumber(sign: string, whole: string, frac: string, t: string)
    requires sign == "" || sign == "-" || sign == "+"
    requires AllDigits(whole) && AllDigits(frac) && (whole != [] || frac != [])
    requires t == [] || (!IsDigit(t[0]) && t[0] != '.')
    ensures var s := sign + (whole + (if frac == [] then "" else "." + (frac + t)) + (if frac == [] then t else ""));
      && ScanNumber(s) == Some(Numeral(sign == "-", whole, frac))
      && ParseFloat(s) == Some(NumeralValue(Numeral(sign == "-", whole, frac)))
  {
    var body := whole + (if frac == [] then "" else "." + (frac + t)) + (if frac == [] then t else "");
    if frac == [] {
      assert body == whole + t;
      ScanWhole(sign == "-", whole, t);
    } else {
      assert body == whole + ("." + (frac + t));
      ScanWholeAndFraction(sign == "-", whole, frac, t);
    }
    if whole != [] {
      assert body[0] == whole[0];
    } else {
      assert body[0] == '.';
    }
    ScanSign(sign, body);
  }

  /** `n.toString()` parses back to `n`. */
  lemma ParseFloatOfNat(n: nat)
    ensures ParseFloat(NatToString(n)) == Some(n as real)
  {
    var w := NatToString(n);
    assert ParseFloat(w) == Some(NumeralValue(Numeral(false, w, ""))) by {
      ParseFloatReadsNumber("", w, "", "");
      assert "" + (w + "" + "") == w;
    }
    assert NumeralValue(Numeral(false, w, "")) == n as real by {
      NatToStringRoundTrip(n);
      assert Fraction(DigitsValue(""), 0) == 0.0 by {
        assert DigitsValue("") == 0 && Pow10(0) == 1;
      }
    }
  }

  /** A negative text: "-3" is -3. */
  lemma ParseFloatNegative()
    ensures ParseFloat("-3") == Some(-3.0)
  {
    ParseFloatReadsNumber("-", "3", "", "");
    assert "-" + ("3" + "" + "") == "-3";
    assert DigitsValue("3") == 3 && DigitsValue([]) == 0;
  }

  /** A fractional text with a unit after it: "7.40 mmol" is 7.4, as parsing
      stops at the space. */
  lemma ParseFloatFraction()
    ensures ParseFloat("7.40 mmol") == Some(7.4)
  {
    ScanFractionExample();
    SevenPointFour();
  }

  lemma ScanFractionExample()
    ensures ScanNumber("7.40 mmol") == Some(Numeral(false, "7", "40"))
  {
    ParseFloatReadsNumber("", "7", "40", " mmol");
    assert "" + ("7" + ("." + ("40" + " mmol")) + "") == "7.40 mmol";
  }

  lemma SevenPointFour()
    ensures NumeralValue(Numeral(false, "7", "40")) == 7.4
  {
    assert DigitsValue("40") == 40 && Pow10(2) == 100 && DigitsValue("7") == 7;
    assert Fraction(40, 2) == 0.4;
  }

  /** A qualitative result reads as NaN. */
  lemma PositiveIsNaN()
    ensures ParseFloat("Positive").None?
  {
  }

  /** `typeof value === 'number' ? value : parseFloat(value)`. */
  function NumericValue(v: Reading): Option<real> {
    match v
    case NumberReading(x) => Some(x)
    case TextReading(s) => ParseFloat(s)
  }

  // ------------------------------------------------------------------
  // Rating a value
  // ------------------------------------------------------------------

  /** `getValueStatus`: with a margin of 30% of the range's width, the checks
      run critical-low, critical-high, low, high, normal; no range is normal. */
  function ValueStatus(value: real, range: Option<Range>): (st: LabStatus)
    ensures range.None? ==> st == Normal
    ensures range.Some? ==> (st == Normal <==> range.value.low <= value <= range.value.high)
    ensures range.Some? && range.value.low <= range.value.high ==>
      var m := (range.value.high - range.value.low) * 0.3;
      && (st == CriticalLow <==> value < range.value.low - m)
      && (st == CriticalHigh <==> value > range.value.high + m)
      && (st == Low <==> range.value.low - m <= value < range.value.low)
      && (st == High <==> range.value.high < value <= range.value.high + m)
  {
    if range.None? then Normal
    else
      var low, high := range.value.low, range.value.high;
      var criticalMargin := (high - low) * 0.3;
      if value < low - criticalMargin then CriticalLow
      else if value > high + criticalMargin then CriticalHigh
      else if value < low then Low
      else if value > high then High
      else Normal
  }

  function StatusRank(st: LabStatus): nat {
    match st
    case CriticalLow => 0
    case Low => 1
    case Normal => 2
    case High => 3
    case CriticalHigh => 4
  }

  /** For a proper range, the status climbs with the value along
      critical-low, low, normal, high, critical-high. */
  lemma StatusMonotone(v1: real, v2: real, range: Range)
    requires range.low <= range.high && v1 <= v2
    ensures StatusRank(ValueStatus(v1, Some(range))) <= StatusRank(ValueStatus(v2, Some(range)))
  {
  }

  predicate IsCritical(st: LabStatus) {
    st == CriticalLow || st == CriticalHigh
  }

  /** The status a row shows: a value that is not a number is normal. */
  function DisplayedStatus(v: LabValue): (st: LabStatus)
    ensures NumericValue(v.value).None? ==> st == Normal
  {
    var n := NumericValue(v.value);
    if n.Some? then ValueStatus(n.value, v.normalRange) else Normal
  }

  /** Whether a value is numeric, ranged and critical. */
  predicate CriticalValue(v: LabValue) {
    var n := NumericValue(v.value);
    n.Some? && v.normalRange.Some? && IsCritical(ValueStatus(n.value, v.normalRange))
  }

  /** `hasCritical`: `values.some(...)`. */
  function HasCritical(values: seq<LabValue>): (b: bool)
    ensures b <==> exists i :: 0 <= i < |values| && CriticalValue(values[i])
  {
    if values == [] then false
    else
      var n := |values| - 1;
      assert forall i :: 0 <= i < n ==> values[..n][i] == values[i];
      HasCritical(values[..n]) || CriticalValue(values[n])
  }

  // ------------------------------------------------------------------
  // Filtering
  // ------------------------------------------------------------------

  /** The filter's test for one value; values that are not numbers or have
      no range never pass. */
  predicate Keeps(f: LabFilter, v: LabValue) {
    var n := NumericValue(v.value);
    n.Some? && v.normalRange.Some?
    && (if f == CriticalOnly then IsCritical(ValueStatus(n.value, v.normalRange))
        else ValueStatus(n.value, v.normalRange) != Normal)
  }

  function FilterValues(values: seq<LabValue>, f: LabFilter): (r: seq<LabValue>)
    ensures |r| <= |values|
    ensures forall i :: 0 <= i < |r| ==> Keeps(f, r[i])
  {
    if values == [] then []
    else
      var n := |values| - 1;
      FilterValues(values[..n], f) + (if Keeps(f, values[n]) then [values[n]] else [])
  }

  /** The value filter keeps exactly the values its test accepts. */
  lemma {:induction false} FilterValuesExact(values: seq<LabValue>, f: LabFilter)
    ensures forall v :: v in FilterValues(values, f) <==> v in values && Keeps(f, v)
    decreases |values|
  {
    if values != [] {
      var n := |values| - 1;
      FilterValuesExact(values[..n], f);
      assert values == values[..n] + [values[n]];
    }
  }

  /** Filtering distributes over concatenation, so the kept values stay in
      their input order. */
  lemma {:induction false} FilterValuesAppend(a: seq<LabValue>, b: seq<LabValue>, f: LabFilter)
    ensures FilterValues(a + b, f) == FilterValues(a, f) + FilterValues(b, f)
    decreases |b|
  {
    if b == [] {
      assert a + b == a;
    } else {
      FilterValuesAppend(a, b[..|b| - 1], f);
      assert (a + b)[..|a + b| - 1] == a + b[..|b| - 1];
    }
  }

  lemma FilterValuesSingle(v: LabValue, f: LabFilter)
    ensures FilterValues([v], f) == (if Keeps(f, v) then [v] else [])
  {
    assert [v][..0] == [];
  }

  /** A panel has a critical value exactly when the critical filter leaves
      something in it. */
  lemma {:induction false} HasCriticalIffFiltered(values: seq<LabValue>)
    ensures HasCritical(values) <==> FilterValues(values, CriticalOnly) != []
    decreases |values|
  {
    if values != [] {
      HasCriticalIffFiltered(values[..|values| - 1]);
    }
  }

  /** The critical filter keeps a part of what the abnormal filter keeps:
      filtering the abnormal values for critical ones is the critical filter. */
  lemma {:induction false} CriticalWithinAbnormal(values: seq<LabValue>)
    ensures FilterValues(FilterValues(values, Abnormal), CriticalOnly) == FilterValues(values, CriticalOnly)
    decreases |values|
  {
    if values != [] {
      var n := |values| - 1;
      CriticalWithinAbnormal(values[..n]);
      var a := FilterValues(values[..n], Abnormal);
      var x := values[n];
      if Keeps(Abnormal, x) {
        assert FilterValues(values, Abnormal) == a + [x];
        assert (a + [x])[..|a + [x]| - 1] == a;
        assert FilterValues(a + [x], CriticalOnly)
          == FilterValues(a, CriticalOnly) + (if Keeps(CriticalOnly, x) then [x] else []);
      } else {
        assert !Keeps(CriticalOnly, x);
        assert FilterValues(values, Abnormal) == a;
        assert FilterValues(values, CriticalOnly) == FilterValues(values[..n], CriticalOnly);
      }
    }
  }

  /** One panel as shown under a filter: its values filtered, the rest kept. */
  function Shown(p: LabPanel, f: LabFilter): LabPanel {
    p.(values := FilterValues(p.values, f))
  }

  /** The `map` step: every panel with its values filtered. */
  function ShowAll(panels: seq<LabPanel>, f: LabFilter): (r: seq<LabPanel>)
    ensures |r| == |panels| && forall i :: 0 <= i < |panels| ==> r[i] == Shown(panels[i], f)
  {
    seq(|panels|, i requires 0 <= i < |panels| => Shown(panels[i], f))
  }

  /** The `filter` step: the panels left with values, order kept. */
  function NonEmpty(panels: seq<LabPanel>): (r: seq<LabPanel>)
    ensures |r| <= |panels|
    ensures forall i :: 0 <= i < |r| ==> r[i].values != [] && r[i] in panels
  {
    if panels == [] then []
    else
      var n := |panels| - 1;
      NonEmpty(panels[..n]) + (if panels[n].values != [] then [panels[n]] else [])
  }

  lemma {:induction false} NonEmptyExact(panels: seq<LabPanel>)
    ensures forall p :: p in NonEmpty(panels) <==> p in panels && p.values != []
    decreases |panels|
  {
    if panels != [] {
      var n := |panels| - 1;
      NonEmptyExact(panels[..n]);
      assert panels == panels[..n] + [panels[n]];
    }
  }

  lemma {:induction false} NonEmptyAppend(a: seq<LabPanel>, b: seq<LabPanel>)
    ensures NonEmpty(a + b) == NonEmpty(a) + NonEmpty(b)
    decreases |b|
  {
    if b == [] {
      assert a + b == a;
    } else {
      var n := |b| - 1;
      var tail := if b[n].values != [] then [b[n]] else [];
      NonEmptyAppend(a, b[..n]);
      assert (a + b)[..|a + b| - 1] == a + b[..n];
      assert (a + b)[|a + b| - 1] == b[n];
      assert NonEmpty(a + b) == NonEmpty(a + b[..n]) + tail;
    }
  }

  /** A panel shown under a filter is an input panel with its values
      filtered, so it holds only accepted values. */
  lemma ShownFromInput(panels: seq<LabPanel>, f: LabFilter, q: LabPanel)
    requires q in ShowAll(panels, f)
    ensures exists p :: p in panels && q == Shown(p, f)
    ensures forall j :: 0 <= j < |q.values| ==> Keeps(f, q.values[j])
  {
    var k :| 0 <= k < |panels| && ShowAll(panels, f)[k] == q;
    assert panels[k] in panels;
  }

  /** The panels shown: unchanged under All; otherwise each panel's values
      filtered, and panels left without values dropped. */
  function FilterPanels(panels: seq<LabPanel>, f: LabFilter): (r: seq<LabPanel>)
    ensures f == All ==> r == panels
    ensures f != All ==> |r| <= |panels| && forall i :: 0 <= i < |r| ==> r[i].values != []
    ensures f != All ==> forall i, j :: 0 <= i < |r| && 0 <= j < |r[i].values| ==> Keeps(f, r[i].values[j])
  {
    if f == All then panels
    else
      var r := NonEmpty(ShowAll(panels, f));
      assert forall i :: 0 <= i < |r| ==> forall j :: 0 <= j < |r[i].values| ==> Keeps(f, r[i].values[j]) by {
        forall i | 0 <= i < |r| {
          ShownFromInput(panels, f, r[i]);
        }
      }
      r
  }

  /** Under a filter, every input panel whose filtered values are not empty
      is shown, with its own name, time and status. */
  lemma FilterPanelsShowsEvery(panels: seq<LabPanel>, f: LabFilter)
    requires f != All
    ensures forall p :: p in panels && Shown(p, f).values != [] ==> Shown(p, f) in FilterPanels(panels, f)
  {
    NonEmptyExact(ShowAll(panels, f));
    forall p | p in panels && Shown(p, f).values != []
      ensures Shown(p, f) in FilterPanels(panels, f)
    {
      var k :| 0 <= k < |panels| && panels[k] == p;
      assert ShowAll(panels, f)[k] == Shown(p, f);
    }
  }

  /** Under a filter, every panel shown is an input panel with its values
      filtered. */
  lemma FilterPanelsFromInput(panels: seq<LabPanel>, f: LabFilter)
    requires f != All
    ensures forall i :: 0 <= i < |FilterPanels(panels, f)| ==>
      exists p :: p in panels && FilterPanels(panels, f)[i] == Shown(p, f)
  {
    var r := FilterPanels(panels, f);
    forall i | 0 <= i < |r|
      ensures exists p :: p in panels && r[i] == Shown(p, f)
    {
      ShownFromInput(panels, f, r[i]);
    }
  }

  /** The panels shown keep their input order: the filter distributes over
      concatenation. */
  lemma FilterPanelsAppend(a: seq<LabPanel>, b: seq<LabPanel>, f: LabFilter)
    ensures FilterPanels(a + b, f) == FilterPanels(a, f) + FilterPanels(b, f)
  {
    if f != All {
      assert ShowAll(a + b, f) == ShowAll(a, f) + ShowAll(b, f);
      NonEmptyAppend(ShowAll(a, f), ShowAll(b, f));
    }
  }

  /** One panel is shown, filtered, exactly when its filtered values are not
      empty. */
  lemma FilterPanelsSingle(p: LabPanel, f: LabFilter)
    requires f != All
    ensures FilterPanels([p], f) == (if Shown(p, f).values != [] then [Shown(p, f)] else [])
  {
    assert ShowAll([p], f) == [Shown(p, f)];
    assert [Shown(p, f)][..0] == [];
  }
}
