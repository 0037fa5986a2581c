/** The user-facing settings of the equaliser: the cut slopes and the
    snapshot of all parameters that one filter update reads. */
module Settings {

  /** `enum Slope`: the steepness of a cut band. Its integer value is the
      number of cascaded second-order sections minus one. */
  datatype Slope = Slope12 | Slope24 | Slope36 | Slope48 {

    /** The enumerator's integer value. */
    function Index(): (i: nat)
      ensures i < 4
    {
      match this
      case Slope12 => 0
      case Slope24 => 1
      case Slope36 => 2
      case Slope48 => 3
    }

    /** The attenuation this slope names, in dB per octave. */
    function DbPerOctave(): nat {
      12 + 12 * Index()
    }
  }

  /** The slope whose integer value is `i`. */
  function SlopeOf(i: nat): (s: Slope)
    requires i < 4
    ensures s.Index() == i
  {
    if i == 0 then Slope12 else if i == 1 then Slope24 else if i == 2 then Slope36 else Slope48
  }

  /** The enumeration has exactly four values, numbered 0 to 3 one-to-one,
      and each names 12 dB/oct more than the one before. */
  lemma SlopeEnumeration(s: Slope)
    ensures s in {Slope12, Slope24, Slope36, Slope48}
    ensures SlopeOf(s.Index()) == s
    ensures s.DbPerOctave() == 12 * (s.Index() + 1)
  {
  }

  /** The Butterworth order requested for a cut band of slope `slope`:
      `2 * (slope + 1)`. */
  function ButterworthOrder(slope: Slope): (order: nat)
    ensures order % 2 == 0 && 2 <= order <= 8
    ensures order / 2 == slope.Index() + 1
    ensures 6 * order == slope.DbPerOctave()
  {
    2 * (slope.Index() + 1)
  }

  /** `ChainSettings`: one snapshot of the parameters a filter update reads. */
  datatype ChainSettings = ChainSettings(
    peakFreq: real,
    peakGainInDecibels: real,
    peakQuality: real,
    lowCutFreq: real,
    highCutFreq: real,
    lowCutSlope: Slope,
    highCutSlope: Slope)

  /** A default-initialised `ChainSettings`: a flat peak of quality 1 and the
      gentlest slope, one section, on both cut bands. */
  function DefaultChainSettings(): (s: ChainSettings)
    ensures s.peakQuality == 1.0 && s.peakGainInDecibels == 0.0
    ensures s.lowCutSlope == s.highCutSlope == Slope12
    ensures ButterworthOrder(s.lowCutSlope) == ButterworthOrder(s.highCutSlope) == 2
    ensures s.peakFreq == s.lowCutFreq == s.highCutFreq == 0.0
  {
    ChainSettings(0.0, 0.0, 1.0, 0.0, 0.0, Slope12, Slope12)
  }
}
