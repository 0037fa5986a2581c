/** The four-stage cut filter (`CutFilter`, a JUCE `ProcessorChain` of four
    IIR filters) and the rule by which a slope and a designed cascade are
    written into it (`update<index>`, `updateCutCoefficients`). */
module CutFilters {
  import opened Coefficients
  import opened Settings

  /** A cut filter is a fixed chain of exactly four IIR stages. */
  const StageCount: nat := 4

  /** The abstract state of a cut filter: per stage, the installed
      coefficients and whether the stage is bypassed. */
  datatype CutState = CutState(coefficients: seq<CoefficientSet>, bypassed: seq<bool>) {
    predicate WellFormed() {
      |coefficients| == StageCount && |bypassed| == StageCount
    }
  }

  /** No stage is active while an earlier one is bypassed. */
  predicate NoGap(bypassed: seq<bool>) {
    forall i, j :: 0 <= i < j < |bypassed| && !bypassed[j] ==> !bypassed[i]
  }

  /** The number of stages that are not bypassed. */
  function ActiveCount(bypassed: seq<bool>): (n: nat)
    ensures n <= |bypassed|
  {
    if bypassed == [] then 0 else (if bypassed[0] then 0 else 1) + ActiveCount(bypassed[1..])
  }

  /** The bypass mask of `n` stages whose first `k` stages are active. */
  function PrefixMask(n: nat, k: nat): (m: seq<bool>)
    ensures |m| == n
  {
    seq(n, i => i >= k)
  }

  /** A prefix mask has no gap, and exactly `k` of its stages are active. */
  lemma {:induction false} PrefixMaskShape(n: nat, k: nat)
    requires k <= n
    ensures NoGap(PrefixMask(n, k))
    ensures ActiveCount(PrefixMask(n, k)) == k
  {
    if n > 0 {
      var k' := if k == 0 then 0 else k - 1;
      assert PrefixMask(n, k)[1..] == PrefixMask(n - 1, k');
      PrefixMaskShape(n - 1, k');
    }
  }

  /** Conversely, a mask without a gap is the prefix mask of its active
      count: activation is always a contiguous prefix. */
  lemma {:induction false} NoGapIsPrefix(m: seq<bool>)
    requires NoGap(m)
    ensures m == PrefixMask(|m|, ActiveCount(m))
  {
    if m != [] {
      var tail := m[1..];
      assert NoGap(tail) by {
        forall i, j | 0 <= i < j < |tail| && !tail[j] ensures !tail[i] {
          assert m[i + 1] == tail[i] && m[j + 1] == tail[j];
        }
      }
      NoGapIsPrefix(tail);
      var c := ActiveCount(tail);
      if m[0] {
        // The first stage is bypassed, so every stage is.
        forall j | 0 <= j < |tail| ensures tail[j] {
          assert m[j + 1] == tail[j];
        }
      }
      var expected := PrefixMask(|m|, ActiveCount(m));
      forall i | 0 <= i < |m| ensures m[i] == expected[i] {
        if i > 0 {
          assert m[i] == tail[i - 1];
        }
      }
    }
  }

  /** The state `updateCutCoefficients(chain, cutCoefficients, slope)`
      leaves: the first `slope + 1` stages carry the designed sections in
      order and are active; the others are bypassed and keep their old
      coefficients. */
  function Updated(before: CutState, cutCoefficients: seq<CoefficientSet>, slope: Slope): (after: CutState)
    requires before.WellFormed() && slope.Index() < |cutCoefficients|
    ensures after.WellFormed()
  {
    CutState(
      seq(StageCount, i requires 0 <= i < StageCount =>
        if i <= slope.Index() then cutCoefficients[i] else before.coefficients[i]),
      PrefixMask(StageCount, slope.Index() + 1))
  }

  /** Stage by stage: stage `i` is active exactly when `i <= slope`; an
      active stage holds designed section `i`; a bypassed stage keeps its
      old coefficients. */
  lemma UpdatedStages(before: CutState, cutCoefficients: seq<CoefficientSet>, slope: Slope, i: nat)
    requires before.WellFormed() && slope.Index() < |cutCoefficients| && i < StageCount
    ensures !Updated(before, cutCoefficients, slope).bypassed[i] <==> i <= slope.Index()
    ensures i <= slope.Index() ==> Updated(before, cutCoefficients, slope).coefficients[i] == cutCoefficients[i]
    ensures i > slope.Index() ==> Updated(before, cutCoefficients, slope).coefficients[i] == before.coefficients[i]
  {
  }

  /** The activated stages form a gap-free prefix of length `slope + 1`, one
      stage per designed section. */
  lemma UpdatedIsPrefix(before: CutState, cutCoefficients: seq<CoefficientSet>, slope: Slope)
    requires before.WellFormed() && slope.Index() < |cutCoefficients|
    ensures NoGap(Updated(before, cutCoefficients, slope).bypassed)
    ensures ActiveCount(Updated(before, cutCoefficients, slope).bypassed) == slope.Index() + 1
  {
    PrefixMaskShape(StageCount, slope.Index() + 1);
  }

  /** Updating twice with the same sections and slope leaves what updating
      once leaves. */
  lemma UpdatedIdempotent(before: CutState, cutCoefficients: seq<CoefficientSet>, slope: Slope)
    requires before.WellFormed() && slope.Index() < |cutCoefficients|
    ensures Updated(Updated(before, cutCoefficients, slope), cutCoefficients, slope)
         == Updated(before, cutCoefficients, slope)
  {
  }

  /** Two filters updated with the same sections and slope agree on every
      bypass flag and on every active stage; only the stale coefficients of
      bypassed stages can tell them apart. */
  lemma UpdatedForgetsActive(one: CutState, other: CutState, cutCoefficients: seq<CoefficientSet>, slope: Slope)
    requires one.WellFormed() && other.WellFormed() && slope.Index() < |cutCoefficients|
    ensures Updated(one, cutCoefficients, slope).bypassed == Updated(other, cutCoefficients, slope).bypassed
    ensures Updated(one, cutCoefficients, slope).coefficients[..slope.Index() + 1]
         == Updated(other, cutCoefficients, slope).coefficients[..slope.Index() + 1]
         == cutCoefficients[..slope.Index() + 1]
  {
  }

  /** `CutFilter`: four IIR stages, each with its own coefficients and the
      chain's bypass flag for it. */
  class CutFilter {
    const coefficients: array<CoefficientSet>
    const bypassed: array<bool>

    ghost predicate Valid() {
      coefficients.Length == StageCount && bypassed.Length == StageCount
    }

    function State(): (s: CutState)
      requires Valid()
      reads coefficients, bypassed
      ensures s.WellFormed()
    {
      CutState(coefficients[..], bypassed[..])
    }

    /** The monotonic-prefix invariant of a cut filter. */
    ghost predicate ActivePrefix()
      requires Valid()
      reads bypassed
    {
      NoGap(bypassed[..])
    }

    /** A new chain: every stage passes through and none is bypassed. */
    constructor ()
      ensures Valid() && fresh(coefficients) && fresh(bypassed)
      ensures State() == CutState(seq(StageCount, _ => PassThrough), seq(StageCount, _ => false))
      ensures ActivePrefix()
    {
      coefficients := new CoefficientSet[StageCount](_ => PassThrough);
      bypassed := new bool[StageCount](_ => false);
    }

    /** `setBypassed<index>(shouldBypass)`. */
    method SetBypassed(index: nat, shouldBypass: bool)
      requires Valid() && index < StageCount
      modifies bypassed
      ensures bypassed[..] == old(bypassed[..])[index := shouldBypass]
    {
      bypassed[index] := shouldBypass;
    }

    /** `update<index>`: installs designed section `index` into stage `index`
        and activates that stage. The stage's coefficient object and the
        designed one are distinct, so `replaceCoefficients` always copies. */
    method Update(index: nat, cutCoefficients: seq<CoefficientSet>)
      requires Valid() && index < StageCount && index < |cutCoefficients|
      modifies coefficients, bypassed
      ensures coefficients[..] == old(coefficients[..])[index := cutCoefficients[index]]
      ensures bypassed[..] == old(bypassed[..])[index := false]
    {
      coefficients[index] := cutCoefficients[index];
      SetBypassed(index, false);
    }

    /** `updateCutCoefficients`: bypasses all four stages, then enters the
        switch at the case for `cutSlope` and falls through to case 0,
        activating the stages from the highest index down to stage 0. The
        designer returns one section per active stage, and the source reads
        section `i` for every `i <= cutSlope`. */
    method UpdateCutCoefficients(cutCoefficients: seq<CoefficientSet>, cutSlope: Slope)
      requires Valid() && cutSlope.Index() < |cutCoefficients|
      modifies coefficients, bypassed
      ensures State() == Updated(old(State()), cutCoefficients, cutSlope)
      ensures ActivePrefix()
    {
      SetBypassed(0, true);
      SetBypassed(1, true);
      SetBypassed(2, true);
      SetBypassed(3, true);
      // The switch entered at case `cutSlope`, with every later case
      // reached by falling through.
      var entry := cutSlope.Index();
      if entry >= 3 {
        Update(3, cutCoefficients);
      }
      if entry >= 2 {
        Update(2, cutCoefficients);
      }
      if entry >= 1 {
        Update(1, cutCoefficients);
      }
      Update(0, cutCoefficients);
      assert State() == Updated(old(State()), cutCoefficients, cutSlope);
    }

    /** The explicit per-case form of `updateCutCoefficients` that the source
        keeps commented out beside the fall-through switch: after bypassing
        all stages, each case writes its stages in ascending order and
        breaks. It leaves exactly the state the fall-through form leaves. */
    method UpdateCutCoefficientsByCase(cutCoefficients: seq<CoefficientSet>, cutSlope: Slope)
      requires Valid() && cutSlope.Index() < |cutCoefficients|
      modifies coefficients, bypassed
      ensures State() == Updated(old(State()), cutCoefficients, cutSlope)
      ensures ActivePrefix()
    {
      SetBypassed(0, true);
      SetBypassed(1, true);
      SetBypassed(2, true);
      SetBypassed(3, true);
      match cutSlope
      case Slope12 =>
        coefficients[0] := cutCoefficients[0];
        SetBypassed(0, false);
      case Slope24 =>
        coefficients[0] := cutCoefficients[0];
        SetBypassed(0, false);
        coefficients[1] := cutCoefficients[1];
        SetBypassed(1, false);
      case Slope36 =>
        coefficients[0] := cutCoefficients[0];
        SetBypassed(0, false);
        coefficients[1] := cutCoefficients[1];
        SetBypassed(1, false);
        coefficients[2] := cutCoefficients[2];
        SetBypassed(2, false);
      case Slope48 =>
        coefficients[0] := cutCoefficients[0];
        SetBypassed(0, false);
        coefficients[1] := cutCoefficients[1];
        SetBypassed(1, false);
        coefficients[2] := cutCoefficients[2];
        SetBypassed(2, false);
        coefficients[3] := cutCoefficients[3];
        SetBypassed(3, false);
      assert State() == Updated(old(State()), cutCoefficients, cutSlope);
    }
  }
}
