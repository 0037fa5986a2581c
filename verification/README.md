# SimpleEQ filter-chain management, modelled in Dafny

SimpleEQ is a JUCE audio plug-in: a three-band equaliser with a low-cut band,
a peak (bell) band and a high-cut band. The same chain runs on the left and
right channels. Each channel's `MonoChain` is a JUCE `ProcessorChain` of three
positions: a low-cut `CutFilter`, a peak IIR filter, and a high-cut
`CutFilter`. A `CutFilter` is itself a chain of exactly four IIR stages. A
slope of 12, 24, 36 or 48 dB/oct is realised by activating the first one, two,
three or four stages and bypassing the rest.

This project models the logic that keeps those chains up to date:

- `updateCutCoefficients` and `update<index>`: how a designed cascade and a
  slope are written into the four stages of a cut filter. All stages are
  bypassed, then a fall-through `switch` activates stages from the highest
  index down to stage 0.
- `replaceCoefficients`: the pointer-guarded coefficient copy.
- `updateLowCutFilters`, `updatePeakFilter`, `updateHighCutFilters` and
  `updateFilters`: one design per band, installed into both channels.
- The part of `processBlock` that clears surplus output channels and updates
  the filters before the chains run.
- `createParameterLayout`: parameter ranges, defaults and slope labels.

The filter designers are JUCE's floating-point code. Here they are a
`FilterDesign` value of three functions supplied by the caller. The only
assumption about them is the one the code relies on: an even-order Butterworth
design yields `order / 2` second-order sections. Coefficient sets are values
that are only copied and compared.

Modules:

- `Coefficients` (`coefficients.dfy`): coefficient sets, the heap object
  behind a `CoefficientsPtr`, `ReplaceCoefficients`, and the designers.
- `Settings` (`settings.dfy`): `Slope`, `ChainSettings` and the Butterworth
  order of a slope.
- `CutFilters` (`cut_filter.dfy`): the `CutFilter` class, a length-4 array of
  coefficients plus a length-4 array of bypass flags. It also holds the
  specification function `Updated` and its lemmas.
- `Processor` (`processor.dfy`): `MonoChain`, the processor class with its
  update methods and `ProcessBlock`, and lemmas about a whole filter update.
- `ParameterLayout` (`parameter_layout.dfy`): decimal spelling and
  `CreateParameterLayout`.

The processor's invariant `SimpleEqProcessor.Valid` states three things. The
two chains share no object. Each cut filter's bypass mask has no gap (the
monotonic-prefix invariant). The left and right chains hold identical values.
The constructor establishes it and every method preserves it. So every
reachable state satisfies it.

## Model

| member | source | states |
|---|---|---|
| `Settings.SlopeOf` | SimpleEQ/Source/PluginProcessor.h:13-19 | the slope with integer value `i`, for `i` in 0..3, has that value |
| `Settings.SlopeEnumeration` | SimpleEQ/Source/PluginProcessor.h:13-19 | `Slope` has exactly the four values 12/24/36/48 dB/oct; they map one-to-one onto 0..3, and value `i` names `12 * (i + 1)` dB/oct |
| `Settings.ButterworthOrder` | SimpleEQ/Source/PluginProcessor.cpp:244 | the requested order `2 * (slope + 1)` is even, between 2 and 8, gives one second-order section per active stage (`order / 2 == slope + 1`), and is the slope's dB/oct divided by 6 |
| `Settings.DefaultChainSettings` | SimpleEQ/Source/PluginProcessor.h:21-25 | a default `ChainSettings` has both cut slopes at `Slope_12` (order 2), peak quality 1, peak gain 0 and all frequencies 0 |
| `Coefficients.ReplaceCoefficients` | SimpleEQ/Source/PluginProcessor.cpp:235-241 | afterwards the object behind the target holds the replacement's value, whether or not the two pointers name the same object; the replacement is never modified |
| `CutFilters.PrefixMaskShape` | SimpleEQ/Source/PluginProcessor.h:102-123 | the mask whose first `k` stages are active has no gap and exactly `k` active stages |
| `CutFilters.NoGapIsPrefix` | SimpleEQ/Source/PluginProcessor.h:102-123 | conversely, a bypass mask without a gap is the prefix mask of its active count, so any gap-free state activates a contiguous prefix |
| `CutFilters.UpdatedStages` | SimpleEQ/Source/PluginProcessor.h:102-123 | after an update, stage `i` is active exactly when `i <= slope`; an active stage holds designed section `i`; a bypassed stage keeps its old coefficients |
| `CutFilters.UpdatedIsPrefix` | SimpleEQ/Source/PluginProcessor.h:102-123 | after an update the active stages form a gap-free prefix of exactly `slope + 1` stages |
| `CutFilters.UpdatedIdempotent` | SimpleEQ/Source/PluginProcessor.h:101-123 | updating twice with the same sections and slope leaves the state one update leaves |
| `CutFilters.UpdatedForgetsActive` | SimpleEQ/Source/PluginProcessor.h:106-123 | two filters updated with the same sections and slope agree on all bypass flags and active stages, whatever they held before |
| `CutFilters.CutFilter.constructor` | SimpleEQ/Source/PluginProcessor.h:78 | a new cut filter has four pass-through stages, none bypassed, which is a gap-free mask |
| `CutFilters.CutFilter.SetBypassed` | SimpleEQ/Source/PluginProcessor.h:102-105 | sets one stage's bypass flag and leaves the other flags as they were |
| `CutFilters.CutFilter.Update` | SimpleEQ/Source/PluginProcessor.h:95-99 | `update<index>` writes designed section `index` into stage `index` and clears that stage's bypass flag; no other stage changes |
| `CutFilters.CutFilter.UpdateCutCoefficients` | SimpleEQ/Source/PluginProcessor.h:100-123 | the fall-through switch, which writes stages in descending order, leaves exactly the state `Updated` describes and keeps the gap-free invariant |
| `CutFilters.CutFilter.UpdateCutCoefficientsByCase` | SimpleEQ/Source/PluginProcessor.h:125-158 | the commented-out per-case version, which writes stages in ascending order, leaves that same state |
| `Processor.InitialChain` | SimpleEQ/Source/PluginProcessor.h:80-82 | a new mono chain has both cut filters fully active as a gap-free prefix of four stages |
| `Processor.LowCutDesign` | SimpleEQ/Source/PluginProcessor.cpp:244 | the low-cut band's Butterworth high-pass of order `2 * (slope + 1)` has exactly `slope + 1` sections |
| `Processor.HighCutDesign` | SimpleEQ/Source/PluginProcessor.cpp:254 | the high-cut band's Butterworth low-pass of order `2 * (slope + 1)` has exactly `slope + 1` sections |
| `Processor.FiltersUpdatedInstalls` | SimpleEQ/Source/PluginProcessor.cpp:262-267 | after `updateFilters`, for each cut band: stage `i` is active iff `i <= slope`, active stages hold the designed sections, and bypassed stages keep old coefficients. The peak holds the designed peak. The chain's own bypass flags, the peak's included, are unchanged |
| `Processor.ActiveStagesMatchOrder` | SimpleEQ/Source/PluginProcessor.cpp:243-261 | after `updateFilters` both cut bands are gap-free, and twice their active stage count is the requested Butterworth order |
| `Processor.FiltersUpdatedIdempotent` | SimpleEQ/Source/PluginProcessor.cpp:262-267 | running `updateFilters` twice with an unchanged snapshot leaves the state one run leaves |
| `Processor.ChannelsAgreeAfterUpdate` | SimpleEQ/Source/PluginProcessor.cpp:243-261 | two chains updated from one snapshot agree on every bypass flag, every active cut stage and the peak: left and right receive identical coefficient values |
| `Processor.MonoChain.constructor` | SimpleEQ/Source/PluginProcessor.h:80-82 | a new mono chain is built from objects of its own and holds the initial chain value |
| `Processor.SimpleEqProcessor.constructor` | SimpleEQ/Source/PluginProcessor.h:82 | the left and right chains are distinct objects holding identical initial values, and the processor invariant holds |
| `Processor.SimpleEqProcessor.UpdateLowCutFilters` | SimpleEQ/Source/PluginProcessor.cpp:243-251 | one high-pass design of order `2 * (slope + 1)` is written into the low-cut filter of both chains; nothing else changes, and the invariant is kept |
| `Processor.SimpleEqProcessor.UpdatePeakFilter` | SimpleEQ/Source/PluginProcessor.cpp:227-233 | one peak design is copied into both chains' peak filter; no bypass flag or cut stage changes |
| `Processor.SimpleEqProcessor.UpdateHighCutFilters` | SimpleEQ/Source/PluginProcessor.cpp:253-261 | one low-pass design of order `2 * (slope + 1)` is written into the high-cut filter of both chains; nothing else changes |
| `Processor.SimpleEqProcessor.UpdateFilters` | SimpleEQ/Source/PluginProcessor.cpp:262-267 | the low-cut, then peak, then high-cut update, all from one snapshot, leave `FiltersUpdated` of the old state in both chains |
| `Processor.SimpleEqProcessor.PrepareToPlay` | SimpleEQ/Source/PluginProcessor.cpp:94-114 | preparing brings both chains up to date with the snapshot, as one `updateFilters` does |
| `Processor.SimpleEqProcessor.ProcessBlock` | SimpleEQ/Source/PluginProcessor.cpp:148-174 | for a buffer of any channel count, zeroes exactly the output channels with index in `[inputs, outputs)` and leaves every other sample alone; both chains then hold the updated filters they process the block with |
| `Processor.ClearChannel` | SimpleEQ/Source/PluginProcessor.cpp:160-161 | clearing a channel zeroes every sample of it and no other sample |
| `ParameterLayout.Decimal` | SimpleEQ/Source/PluginProcessor.cpp:286-287 | the decimal spelling of a number is a non-empty run of digits with no leading zero |
| `ParameterLayout.DecimalRoundTrip` | SimpleEQ/Source/PluginProcessor.cpp:286-287 | reading the decimal spelling back gives the number spelt |
| `ParameterLayout.SlopeLabelsSpelled` | SimpleEQ/Source/PluginProcessor.cpp:284-290 | the four slope labels are "12 db/Oct", "24 db/Oct", "36 db/Oct" and "48 db/Oct" |
| `ParameterLayout.SlopeLabelNamesSlope` | SimpleEQ/Source/PluginProcessor.cpp:284-293 | the label of slope choice `i` is digits plus " db/Oct", and those digits read back as the dB/oct of the slope with value `i` |
| `ParameterLayout.CreateParameterLayout` | SimpleEQ/Source/PluginProcessor.cpp:268-298 | seven parameters in source order, each with its name equal to its id. The three frequencies range over [20, 20000] in steps of 1, with defaults 20, 20000 and 750. Gain ranges over [-24, 24] in steps of 0.5, with default 0. Quality ranges over [0.1, 10] in steps of 0.05, with default 1. Every range has skew 0.25. Every default lies in its range and on its interval's grid. Both slope choices hold the four loop-built labels and default to index 0 (`Slope_12`) |

## Left out

- Filter design mathematics: JUCE's `FilterDesign::designIIR*HighOrderButterworthMethod`, `IIR::Coefficients::makePeakFilter` and `Decibels::decibelsToGain` are floating-point code outside this repository. They are the caller-supplied functions of `FilterDesign`.
- Per-sample filtering: `ProcessorChain::process`, `AudioBlock` and `ProcessContextReplacing` are JUCE DSP. `ProcessBlock` therefore ends with the filters updated. The requirement that the update happens before either chain processes the block appears only as that final state.
- Filter history, and resetting it in `prepare`: these are JUCE-internal state. `PrepareToPlay` models only its `updateFilters` call.
- `getChainSettings`: it reads the parameter atomics and casts a float to `Slope`. The settings snapshot is an input value instead. `getSampleRate()` and the input/output channel counts are inputs too.
- Host glue is not modelled: bus-layout negotiation, MIDI and program stubs, editor creation, state save/load, `releaseResources`, `ScopedNoDenormals`, and the empty per-channel loop at the end of `processBlock`.
- Floating point: frequencies, gains and range bounds are exact reals, so `0.1f` and `0.05f` are exactly 0.1 and 0.05. `NormalisableRange`'s interval snapping and skew mapping are not modelled beyond the grid check on defaults.
- Cut-filter stages hold their coefficients as values in an array, not as separate reference-counted objects. In `update<index>` the stage's object and the freshly designed one are always distinct, so `replaceCoefficients` always takes its copying branch. Pointer identity, and `ReplaceCoefficients` itself, are modelled only for the peak filter.
- ProcessBlock: the model accepts a buffer of any channel count, mono included, since the bus-layout code (SimpleEQ/Source/PluginProcessor.cpp:133-134) accepts a mono layout. The channel-1 block taken at SimpleEQ/Source/PluginProcessor.cpp:168 is not modelled. On a mono buffer that call reads a channel that does not exist.
- Behaviour the model keeps from the code:
  - `processBlock` runs whether or not `prepareToPlay` has been called; nothing rejects it.
  - `replaceCoefficients` compares pointers, not coefficient values.
  - Output channels beyond the inputs are cleared.
  - Bypassed stages keep their filter history.
