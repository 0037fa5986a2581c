/** The parameters the processor publishes (`createParameterLayout`): five
    continuous parameters with their ranges and defaults, and the two slope
    choices whose labels are built in a loop. */
module ParameterLayout {
  import opened Settings

  /** The character of decimal digit `d`. */
  function DigitChar(d: nat): (c: char)
    requires d < 10
    ensures '0' <= c <= '9'
    ensures c as int - '0' as int == d
  {
    ('0' as int + d) as char
  }

  predicate IsDigits(s: string) {
    forall i :: 0 <= i < |s| ==> '0' <= s[i] <= '9'
  }

  /** The decimal spelling of `n`, as JUCE's `String << int` writes a
      non-negative integer: no sign and no leading zero. */
  function Decimal(n: nat): (s: string)
    ensures 1 <= |s| && IsDigits(s)
    ensures s[0] == '0' ==> n == 0
    decreases n
  {
    if n < 10 then [DigitChar(n)] else Decimal(n / 10) + [DigitChar(n % 10)]
  }

  /** The number a string of decimal digits spells. */
  function DecimalValue(s: string): nat
    requires IsDigits(s)
  {
    if s == [] then 0 else 10 * DecimalValue(s[..|s| - 1]) + (s[|s| - 1] as int - '0' as int)
  }

  /** Reading a decimal spelling back gives the number spelt. */
  lemma {:induction false} DecimalRoundTrip(n: nat)
    ensures DecimalValue(Decimal(n)) == n
    decreases n
  {
    var s := Decimal(n);
    if n >= 10 {
      DecimalRoundTrip(n / 10);
      assert s[..|s| - 1] == Decimal(n / 10);
    }
  }

  const SlopeSuffix: string := " db/Oct"

  /** The label of slope choice `i`: `12 + 12 * i` followed by " db/Oct". */
  function SlopeLabel(i: nat): string {
    Decimal(12 + 12 * i) + SlopeSuffix
  }

  /** Spelt out, the four labels read "12 db/Oct" to "48 db/Oct". */
  lemma SlopeLabelsSpelled()
    ensures [SlopeLabel(0), SlopeLabel(1), SlopeLabel(2), SlopeLabel(3)]
         == ["12 db/Oct", "24 db/Oct", "36 db/Oct", "48 db/Oct"]
  {
    assert Decimal(12) == "12" by { assert Decimal(1) == "1"; }
    assert Decimal(24) == "24" by { assert Decimal(2) == "2"; }
    assert Decimal(36) == "36" by { assert Decimal(3) == "3"; }
    assert Decimal(48) == "48" by { assert Decimal(4) == "4"; }
    assert SlopeLabel(0) == "12 db/Oct";
    assert SlopeLabel(1) == "24 db/Oct";
    assert SlopeLabel(2) == "36 db/Oct";
    assert SlopeLabel(3) == "48 db/Oct";
  }

  /** The label a slope choice shows names that slope's attenuation: the
      number in front of the suffix reads back as its dB per octave. */
  lemma SlopeLabelNamesSlope(slope: Slope)
    ensures var text := SlopeLabel(slope.Index());
      && |text| > |SlopeSuffix|
      && text[|text| - |SlopeSuffix|..] == SlopeSuffix
      && IsDigits(text[..|text| - |SlopeSuffix|])
      && DecimalValue(text[..|text| - |SlopeSuffix|]) == slope.DbPerOctave()
  {
    var text := SlopeLabel(slope.Index());
    assert text[..|text| - |SlopeSuffix|] == Decimal(slope.DbPerOctave());
    DecimalRoundTrip(slope.DbPerOctave());
  }

  /** `NormalisableRange<float>(start, end, interval, skew)`. */
  datatype NormalisableRange = NormalisableRange(start: real, end: real, interval: real, skew: real)

  /** One entry of the parameter layout; every parameter's name is its id. */
  datatype Parameter =
    | FloatParameter(id: string, name: string, range: NormalisableRange, defaultValue: real)
    | ChoiceParameter(id: string, name: string, choices: seq<string>, defaultIndex: int)

  /** A range JUCE accepts (start below end, positive interval and skew),
      and a default that lies in it on the interval's grid; a choice's
      default names one of its choices. */
  predicate WellFormed(p: Parameter) {
    match p
    case FloatParameter(_, _, r, d) =>
      && r.start < r.end && 0.0 < r.interval && 0.0 < r.skew
      && r.start <= d <= r.end
      && ((d - r.start) / r.interval).Floor as real == (d - r.start) / r.interval
    case ChoiceParameter(_, _, choices, d) =>
      0 <= d < |choices|
  }

  /** `createParameterLayout`. The slope labels are appended one per
      iteration of a loop. */
  method CreateParameterLayout() returns (layout: seq<Parameter>)
    ensures |layout| == 7
    ensures forall k :: 0 <= k < |layout| ==> WellFormed(layout[k]) && layout[k].name == layout[k].id
    ensures forall k :: 0 <= k < 5 ==> layout[k].FloatParameter?
    ensures [layout[0].id, layout[1].id, layout[2].id, layout[3].id, layout[4].id, layout[5].id, layout[6].id]
         == ["LowCut Freq", "HighCut Freq", "Peak Freq", "Peak Gain", "Peak Quality", "LowCut Slope", "HighCut Slope"]
    ensures layout[0].range.start == layout[1].range.start == layout[2].range.start == 20.0
    ensures layout[0].range.end == layout[1].range.end == layout[2].range.end == 20000.0
    ensures layout[0].defaultValue == 20.0 && layout[1].defaultValue == 20000.0 && layout[2].defaultValue == 750.0
    ensures layout[3].range.start == -24.0 && layout[3].range.end == 24.0 && layout[3].defaultValue == 0.0
    ensures layout[4].range.start == 0.1 && layout[4].range.end == 10.0 && layout[4].defaultValue == 1.0
    ensures layout[0].range.interval == layout[1].range.interval == layout[2].range.interval == 1.0
    ensures layout[3].range.interval == 0.5 && layout[4].range.interval == 0.05
    ensures forall k :: 0 <= k < 5 ==> layout[k].range.skew == 0.25
    ensures forall k :: 5 <= k < 7 ==>
      && layout[k].ChoiceParameter?
      && layout[k].choices == [SlopeLabel(0), SlopeLabel(1), SlopeLabel(2), SlopeLabel(3)]
      && layout[k].defaultIndex == Slope12.Index()
  {
    layout := [];
    layout := layout + [FloatParameter("LowCut Freq", "LowCut Freq", NormalisableRange(20.0, 20000.0, 1.0, 0.25), 20.0)];
    layout := layout + [FloatParameter("HighCut Freq", "HighCut Freq", NormalisableRange(20.0, 20000.0, 1.0, 0.25), 20000.0)];
    layout := layout + [FloatParameter("Peak Freq", "Peak Freq", NormalisableRange(20.0, 20000.0, 1.0, 0.25), 750.0)];
    layout := layout + [FloatParameter("Peak Gain", "Peak Gain", NormalisableRange(-24.0, 24.0, 0.5, 0.25), 0.0)];
    layout := layout + [FloatParameter("Peak Quality", "Peak Quality", NormalisableRange(0.1, 10.0, 0.05, 0.25), 1.0)];

    var cutSlopes: seq<string> := [];
    for i := 0 to 4
      invariant |cutSlopes| == i
      invariant forall k :: 0 <= k < i ==> cutSlopes[k] == SlopeLabel(k)
    {
      var str := Decimal(12 + i * 12);
      str := str + SlopeSuffix;
      cutSlopes := cutSlopes + [str];
    }

    layout := layout + [ChoiceParameter("LowCut Slope", "LowCut Slope", cutSlopes, 0)];
    layout := layout + [ChoiceParameter("HighCut Slope", "HighCut Slope", cutSlopes, 0)];
  }
}
