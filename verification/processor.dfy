/** The audio processor's filter chains (`MonoChain`: low cut, peak, high
    cut) and the updates that install freshly designed coefficients into the
    left and right chains before every block (`updateLowCutFilters`,
    `updatePeakFilter`, `updateHighCutFilters`, `updateFilters`,
    `processBlock`). */
module Processor {
  import opened Coefficients
  import opened Settings
  import opened CutFilters

  /** `ChainPositions`: a mono chain has three positions, low cut, peak and
      high cut, in this order. */
  const PositionCount: nat := 3

  /** The abstract state of one mono chain: its two cut filters, the
      coefficients of its peak filter, and its own bypass flag per position. */
  datatype ChainValue = ChainValue(lowCut: CutState, peak: CoefficientSet, bypassed: seq<bool>, highCut: CutState) {
    predicate WellFormed() {
      lowCut.WellFormed() && highCut.WellFormed() && |bypassed| == PositionCount
    }
  }

  /** A freshly constructed chain: every filter passes through, nothing is
      bypassed. */
  function InitialChain(): (c: ChainValue)
    ensures c.WellFormed()
    ensures NoGap(c.lowCut.bypassed) && ActiveCount(c.lowCut.bypassed) == StageCount
    ensures NoGap(c.highCut.bypassed) && ActiveCount(c.highCut.bypassed) == StageCount
  {
    var cut := CutState(seq(StageCount, _ => PassThrough), seq(StageCount, _ => false));
    assert cut.bypassed == PrefixMask(StageCount, StageCount);
    PrefixMaskShape(StageCount, StageCount);
    ChainValue(cut, PassThrough, seq(PositionCount, _ => false), cut)
  }

  /** The sections the low-cut band is designed as: a Butterworth high-pass
      of order `2 * (slope + 1)`. */
  function LowCutDesign(settings: ChainSettings, sampleRate: real, design: FilterDesign): (sections: seq<CoefficientSet>)
    requires design.Sound()
    ensures |sections| == settings.lowCutSlope.Index() + 1
  {
    design.highpass(settings.lowCutFreq, sampleRate, ButterworthOrder(settings.lowCutSlope))
  }

  /** The sections the high-cut band is designed as: a Butterworth low-pass
      of order `2 * (slope + 1)`. */
  function HighCutDesign(settings: ChainSettings, sampleRate: real, design: FilterDesign): (sections: seq<CoefficientSet>)
    requires design.Sound()
    ensures |sections| == settings.highCutSlope.Index() + 1
  {
    design.lowpass(settings.highCutFreq, sampleRate, ButterworthOrder(settings.highCutSlope))
  }

  /** The peak band's coefficients. */
  function PeakDesign(settings: ChainSettings, sampleRate: real, design: FilterDesign): CoefficientSet {
    design.peak(sampleRate, settings.peakFreq, settings.peakQuality, settings.peakGainInDecibels)
  }

  /** What `updateLowCutFilters` leaves in one chain. */
  function LowCutUpdated(chain: ChainValue, settings: ChainSettings, sampleRate: real, design: FilterDesign): (r: ChainValue)
    requires chain.WellFormed() && design.Sound()
    ensures r.WellFormed()
  {
    chain.(lowCut := Updated(chain.lowCut, LowCutDesign(settings, sampleRate, design), settings.lowCutSlope))
  }

  /** What `updatePeakFilter` leaves in one chain. */
  function PeakUpdated(chain: ChainValue, settings: ChainSettings, sampleRate: real, design: FilterDesign): (r: ChainValue)
    requires chain.WellFormed()
    ensures r.WellFormed()
  {
    chain.(peak := PeakDesign(settings, sampleRate, design))
  }

  /** What `updateHighCutFilters` leaves in one chain. */
  function HighCutUpdated(chain: ChainValue, settings: ChainSettings, sampleRate: real, design: FilterDesign): (r: ChainValue)
    requires chain.WellFormed() && design.Sound()
    ensures r.WellFormed()
  {
    chain.(highCut := Updated(chain.highCut, HighCutDesign(settings, sampleRate, design), settings.highCutSlope))
  }

  /** What `updateFilters` leaves in one chain: the low-cut, then the peak,
      then the high-cut band, all from the same settings snapshot. */
  function FiltersUpdated(chain: ChainValue, settings: ChainSettings, sampleRate: real, design: FilterDesign): (r: ChainValue)
    requires chain.WellFormed() && design.Sound()
    ensures r.WellFormed()
  {
    HighCutUpdated(PeakUpdated(LowCutUpdated(chain, settings, sampleRate, design), settings, sampleRate, design), settings, sampleRate, design)
  }

  /** After `updateFilters`, each cut band has `slope + 1` active stages,
      as a gap-free prefix, each holding the designed section of its index;
      the remaining stages are bypassed and keep their old coefficients; the
      peak filter holds the designed peak; the chain's own bypass flags,
      the peak's among them, are untouched. */
  lemma FiltersUpdatedInstalls(chain: ChainValue, settings: ChainSettings, sampleRate: real, design: FilterDesign, i: nat)
    requires chain.WellFormed() && design.Sound() && i < StageCount
    ensures var r := FiltersUpdated(chain, settings, sampleRate, design);
      && var low := settings.lowCutSlope.Index();
      && var high := settings.highCutSlope.Index();
      && (!r.lowCut.bypassed[i] <==> i <= low)
      && (i <= low ==> r.lowCut.coefficients[i] == LowCutDesign(settings, sampleRate, design)[i])
      && (i > low ==> r.lowCut.coefficients[i] == chain.lowCut.coefficients[i])
      && (!r.highCut.bypassed[i] <==> i <= high)
      && (i <= high ==> r.highCut.coefficients[i] == HighCutDesign(settings, sampleRate, design)[i])
      && (i > high ==> r.highCut.coefficients[i] == chain.highCut.coefficients[i])
      && r.peak == PeakDesign(settings, sampleRate, design)
      && r.bypassed == chain.bypassed
  {
    UpdatedStages(chain.lowCut, LowCutDesign(settings, sampleRate, design), settings.lowCutSlope, i);
    UpdatedStages(chain.highCut, HighCutDesign(settings, sampleRate, design), settings.highCutSlope, i);
  }

  /** Every active cut stage holds one biquad of the requested Butterworth
      order: twice the number of active stages is that order. */
  lemma ActiveStagesMatchOrder(chain: ChainValue, settings: ChainSettings, sampleRate: real, design: FilterDesign)
    requires chain.WellFormed() && design.Sound()
    ensures var r := FiltersUpdated(chain, settings, sampleRate, design);
      && NoGap(r.lowCut.bypassed) && NoGap(r.highCut.bypassed)
      && 2 * ActiveCount(r.lowCut.bypassed) == ButterworthOrder(settings.lowCutSlope)
      && 2 * ActiveCount(r.highCut.bypassed) == ButterworthOrder(settings.highCutSlope)
  {
    UpdatedIsPrefix(chain.lowCut, LowCutDesign(settings, sampleRate, design), settings.lowCutSlope);
    var lowered := LowCutUpdated(chain, settings, sampleRate, design);
    UpdatedIsPrefix(lowered.highCut, HighCutDesign(settings, sampleRate, design), settings.highCutSlope);
  }

  /** Running `updateFilters` twice with the same snapshot leaves what
      running it once leaves. */
  lemma FiltersUpdatedIdempotent(chain: ChainValue, settings: ChainSettings, sampleRate: real, design: FilterDesign)
    requires chain.WellFormed() && design.Sound()
    ensures var once := FiltersUpdated(chain, settings, sampleRate, design);
      FiltersUpdated(once, settings, sampleRate, design) == once
  {
    var lowSections := LowCutDesign(settings, sampleRate, design);
    var highSections := HighCutDesign(settings, sampleRate, design);
    UpdatedIdempotent(chain.lowCut, lowSections, settings.lowCutSlope);
    UpdatedIdempotent(chain.highCut, highSections, settings.highCutSlope);
  }

  /** Two chains updated from the same snapshot agree on every bypass flag,
      on every active cut stage and on the peak, whatever they held before:
      the left and right channels receive identical coefficient values. */
  lemma ChannelsAgreeAfterUpdate(left: ChainValue, right: ChainValue, settings: ChainSettings, sampleRate: real, design: FilterDesign)
    requires left.WellFormed() && right.WellFormed() && left.bypassed == right.bypassed && design.Sound()
    ensures var l := FiltersUpdated(left, settings, sampleRate, design);
      && var r := FiltersUpdated(right, settings, sampleRate, design);
      && l.lowCut.bypassed == r.lowCut.bypassed
      && l.highCut.bypassed == r.highCut.bypassed
      && l.lowCut.coefficients[..settings.lowCutSlope.Index() + 1] == r.lowCut.coefficients[..settings.lowCutSlope.Index() + 1]
      && l.highCut.coefficients[..settings.highCutSlope.Index() + 1] == r.highCut.coefficients[..settings.highCutSlope.Index() + 1]
      && l.peak == r.peak
      && l.bypassed == r.bypassed
  {
    UpdatedForgetsActive(left.lowCut, right.lowCut, LowCutDesign(settings, sampleRate, design), settings.lowCutSlope);
    UpdatedForgetsActive(left.highCut, right.highCut, HighCutDesign(settings, sampleRate, design), settings.highCutSlope);
  }

  /** `MonoChain`: low-cut filter, peak filter and high-cut filter in
      series, each an object of its own. */
  class MonoChain {
    const lowCut: CutFilter
    const peak: CoefficientsRef
    const bypassed: array<bool>
    const highCut: CutFilter

    ghost function Repr(): set<object> {
      {lowCut.coefficients, lowCut.bypassed, peak, bypassed, highCut.coefficients, highCut.bypassed}
    }

    ghost predicate Valid()
      reads Repr()
    {
      && lowCut.Valid() && highCut.Valid() && bypassed.Length == PositionCount
      && lowCut.coefficients != highCut.coefficients
      && lowCut.bypassed != highCut.bypassed
      && bypassed != lowCut.bypassed && bypassed != highCut.bypassed
      && lowCut.ActivePrefix() && highCut.ActivePrefix()
    }

    function Value(): (v: ChainValue)
      requires Valid()
      reads Repr()
      ensures v.WellFormed()
    {
      ChainValue(lowCut.State(), peak.value, bypassed[..], highCut.State())
    }

    constructor ()
      ensures Valid() && fresh(Repr())
      ensures Value() == InitialChain()
    {
      lowCut := new CutFilter();
      peak := new CoefficientsRef(PassThrough);
      bypassed := new bool[PositionCount](_ => false);
      highCut := new CutFilter();
    }
  }

  /** `SimpleEQAudioProcessor`: the left and right chains and the updates
      run on them. */
  class SimpleEqProcessor {
    const leftChain: MonoChain
    const rightChain: MonoChain

    ghost function Repr(): set<object> {
      leftChain.Repr() + rightChain.Repr()
    }

    /** Both chains are well formed and share no object, and they hold
        identical filters. */
    ghost predicate Valid()
      reads Repr()
    {
      && leftChain.Valid() && rightChain.Valid()
      && leftChain.Repr() !! rightChain.Repr()
      && leftChain.Value() == rightChain.Value()
    }

    constructor ()
      ensures Valid() && fresh(Repr())
      ensures leftChain.Value() == rightChain.Value() == InitialChain()
    {
      leftChain := new MonoChain();
      rightChain := new MonoChain();
    }

    /** `updateLowCutFilters`: designs the low-cut sections once and writes
        the same sections into the low-cut filter of both chains. */
    method UpdateLowCutFilters(chainSettings: ChainSettings, sampleRate: real, design: FilterDesign)
      requires Valid() && design.Sound()
      modifies Repr()
      ensures Valid()
      ensures leftChain.Value() == LowCutUpdated(old(leftChain.Value()), chainSettings, sampleRate, design)
      ensures rightChain.Value() == LowCutUpdated(old(rightChain.Value()), chainSettings, sampleRate, design)
    {
      var lowCutCoefficients := design.highpass(chainSettings.lowCutFreq, sampleRate, ButterworthOrder(chainSettings.lowCutSlope));
      leftChain.lowCut.UpdateCutCoefficients(lowCutCoefficients, chainSettings.lowCutSlope);
      rightChain.lowCut.UpdateCutCoefficients(lowCutCoefficients, chainSettings.lowCutSlope);
    }

    /** `updatePeakFilter`: designs the peak once, into an object of its own,
        and copies it into the peak filter of both chains. No bypass flag is
        written. */
    method UpdatePeakFilter(chainSettings: ChainSettings, sampleRate: real, design: FilterDesign)
      requires Valid()
      modifies Repr()
      ensures Valid()
      ensures leftChain.Value() == PeakUpdated(old(leftChain.Value()), chainSettings, sampleRate, design)
      ensures rightChain.Value() == PeakUpdated(old(rightChain.Value()), chainSettings, sampleRate, design)
    {
      var peakCoefficients := new CoefficientsRef(
        design.peak(sampleRate, chainSettings.peakFreq, chainSettings.peakQuality, chainSettings.peakGainInDecibels));
      ReplaceCoefficients(leftChain.peak, peakCoefficients);
      ReplaceCoefficients(rightChain.peak, peakCoefficients);
    }

    /** `updateHighCutFilters`: designs the high-cut sections once and writes
        the same sections into the high-cut filter of both chains. */
    method UpdateHighCutFilters(chainSettings: ChainSettings, sampleRate: real, design: FilterDesign)
      requires Valid() && design.Sound()
      modifies Repr()
      ensures Valid()
      ensures leftChain.Value() == HighCutUpdated(old(leftChain.Value()), chainSettings, sampleRate, design)
      ensures rightChain.Value() == HighCutUpdated(old(rightChain.Value()), chainSettings, sampleRate, design)
    {
      var highCutCoefficients := design.lowpass(chainSettings.highCutFreq, sampleRate, ButterworthOrder(chainSettings.highCutSlope));
      leftChain.highCut.UpdateCutCoefficients(highCutCoefficients, chainSettings.highCutSlope);
      rightChain.highCut.UpdateCutCoefficients(highCutCoefficients, chainSettings.highCutSlope);
    }

    /** `updateFilters`: one settings snapshot drives the low-cut, then the
        peak, then the high-cut update. */
    method UpdateFilters(chainSettings: ChainSettings, sampleRate: real, design: FilterDesign)
      requires Valid() && design.Sound()
      modifies Repr()
      ensures Valid()
      ensures leftChain.Value() == FiltersUpdated(old(leftChain.Value()), chainSettings, sampleRate, design)
      ensures rightChain.Value() == FiltersUpdated(old(rightChain.Value()), chainSettings, sampleRate, design)
    {
      UpdateLowCutFilters(chainSettings, sampleRate, design);
      UpdatePeakFilter(chainSettings, sampleRate, design);
      UpdateHighCutFilters(chainSettings, sampleRate, design);
    }

    /** `prepareToPlay`: after the chains are prepared, the filters are
        brought up to date with the current settings. */
    method PrepareToPlay(chainSettings: ChainSettings, sampleRate: real, design: FilterDesign)
      requires Valid() && design.Sound()
      modifies Repr()
      ensures Valid()
      ensures leftChain.Value() == FiltersUpdated(old(leftChain.Value()), chainSettings, sampleRate, design)
      ensures rightChain.Value() == FiltersUpdated(old(rightChain.Value()), chainSettings, sampleRate, design)
    {
      UpdateFilters(chainSettings, sampleRate, design);
    }

    /** `processBlock`, up to the filtering itself: clears every output
        channel that has no input, then updates the filters from the
        snapshot, so that both chains process the block with the updated
        coefficients. The buffer has a channel per output. */
    method ProcessBlock(buffer: array2<real>, totalNumInputChannels: nat, totalNumOutputChannels: nat,
                        chainSettings: ChainSettings, sampleRate: real, design: FilterDesign)
      requires Valid() && design.Sound()
      requires totalNumOutputChannels <= buffer.Length0
      modifies buffer, Repr()
      ensures Valid()
      ensures forall channel, sample | 0 <= channel < buffer.Length0 && 0 <= sample < buffer.Length1 ::
        buffer[channel, sample] ==
          if totalNumInputChannels <= channel < totalNumOutputChannels then 0.0 else old(buffer[channel, sample])
      ensures leftChain.Value() == FiltersUpdated(old(leftChain.Value()), chainSettings, sampleRate, design)
      ensures rightChain.Value() == FiltersUpdated(old(rightChain.Value()), chainSettings, sampleRate, design)
    {
      var i := totalNumInputChannels;
      while i < totalNumOutputChannels
        modifies buffer
        invariant i == totalNumInputChannels || totalNumInputChannels <= i <= totalNumOutputChannels
        invariant forall channel, sample | 0 <= channel < buffer.Length0 && 0 <= sample < buffer.Length1 ::
          buffer[channel, sample] ==
            if totalNumInputChannels <= channel < i then 0.0 else old(buffer[channel, sample])
      {
        ClearChannel(buffer, i);
        i := i + 1;
      }
      UpdateFilters(chainSettings, sampleRate, design);
    }
  }

  /** `AudioBuffer::clear(channel, 0, numSamples)`: zeroes one channel. */
  method ClearChannel(buffer: array2<real>, channel: nat)
    requires channel < buffer.Length0
    modifies buffer
    ensures forall c, s | 0 <= c < buffer.Length0 && 0 <= s < buffer.Length1 ::
      buffer[c, s] == if c == channel then 0.0 else old(buffer[c, s])
  {
    for sample := 0 to buffer.Length1
      invariant forall c, s | 0 <= c < buffer.Length0 && 0 <= s < buffer.Length1 ::
        buffer[c, s] == if c == channel && s < sample then 0.0 else old(buffer[c, s])
    {
      buffer[channel, sample] := 0.0;
    }
  }
}
