/** Biquad coefficient sets, the heap objects that hold them, and the filter
    designers that produce them.

    The designers are JUCE's (`FilterDesign` and `IIR::Coefficients`), whose
    floating-point trigonometry is not part of this model: here a designer is
    a function supplied by the caller, and a coefficient set is a value that is
    only ever copied and compared. */
module Coefficients {

  /** The normalised coefficients of one IIR section, as a JUCE
      `IIR::Coefficients` object stores them. Only equality is used. */
  datatype CoefficientSet = CoefficientSet(raw: seq<real>)

  /** What a freshly constructed JUCE `IIR::Filter` holds (b0 = 1, b1 = 0,
      a1 = 0): a first-order section that passes the signal through. */
  const PassThrough: CoefficientSet := CoefficientSet([1.0, 0.0, 0.0])

  /** The object a `CoefficientsPtr` points to. Two pointers may name the
      same object, which is why it is a class and not a value. */
  class CoefficientsRef {
    var value: CoefficientSet

    constructor (value: CoefficientSet)
      ensures this.value == value
    {
      this.value := value;
    }
  }

  /** `replaceCoefficients(old, replacements)`: afterwards the object behind
      `target` holds what the object behind `replacements` held, whether or
      not the two pointers name the same object, and `replacements` keeps its
      value. The copy is made only when the pointers differ. Both pointers
      are non-null, which the source asserts and the types here enforce. */
  method ReplaceCoefficients(target: CoefficientsRef, replacements: CoefficientsRef)
    modifies target
    ensures target.value == old(replacements.value)
    ensures replacements.value == old(replacements.value)
  {
    if target != replacements {
      target.value := replacements.value;
    }
  }

  /** The three JUCE designers the processor calls, with the arguments it
      passes them:
      - `highpass(cutoff, sampleRate, order)`:
        `designIIRHighpassHighOrderButterworthMethod`;
      - `lowpass(cutoff, sampleRate, order)`:
        `designIIRLowpassHighOrderButterworthMethod`;
      - `peak(sampleRate, frequency, quality, gainInDecibels)`:
        `makePeakFilter` after `Decibels::decibelsToGain`. */
  datatype FilterDesign = FilterDesign(
    highpass: (real, real, nat) -> seq<CoefficientSet>,
    lowpass: (real, real, nat) -> seq<CoefficientSet>,
    peak: (real, real, real, real) -> CoefficientSet)
  {
    /** A high-order Butterworth design of even order is factored into one
        second-order section per two orders. */
    ghost predicate Sound() {
      && (forall cutoff, sampleRate, order: nat ::
            order % 2 == 0 ==> |highpass(cutoff, sampleRate, order)| == order / 2)
      && (forall cutoff, sampleRate, order: nat ::
            order % 2 == 0 ==> |lowpass(cutoff, sampleRate, order)| == order / 2)
    }
  }
}
