# Resampler engine parameter records

OpenUtau hands every note to an external resampler engine. The engine gets a
fixed-shape parameter record, `EngineInput`. This project models how that
record is filled (`DriverModels` in
`OpenUtau/Core/ResamplerDriver/DriverModels.cs`) and proves what each field
holds.

- `CreateInputModel()` is the record with every field at a neutral default.
- `CreateInputModel(RenderItem)` builds the record from a note's precomputed
  render data. It does three things:
  - copies the paths, levels and timings, using 0 when the voicebank timing
    entry (`Oto`) is absent;
  - copies the pitch curve along with its sample count;
  - packs the five-point amplitude envelope into eleven slots.
- `EngineInfo.ToString` gives an engine's display text.

The record shapes `EngineFlagItem`, `EngineInfo` and `EngineInput` are Dafny
datatypes. `double` fields are `real`. C# `int` fields are the subset type
`Int32`. The nullable `Oto` is an `Option`.

In the source, both builder overloads are named `CreateInputModel`. Dafny has
no overloading, so the render-item builder is called
`CreateInputModelFromRenderItem` here. Its envelope expression is the
separate function `PackEnvelope`.

`Math.Round(x, 5)` is modelled in module `MathRound` as .NET defines it:
- scale by 10^5;
- round to the nearest integer, with ties going to the even integer
  (`MidpointRounding.ToEven`);
- scale back.

The rounding works on exact reals.

`MusicMath.GetNoteString` is not part of this model. The render-item builder
takes it as a parameter `noteName: int -> string`.

The render item's types (`RenderItem`, `Oto`, `Phoneme`, the envelope points)
are not part of this model either. They are datatypes holding just the fields
the builder reads, typed as the `EngineInput` fields they are copied into.

Three points about the code's behaviour need stating:
- **Sustain slot.** The code writes the sustain slot (index 9) as
  `min(max(0, X2 - X1), X3 - X2)`. The clamp at zero comes before the
  minimum. So slot 9 equals `max(0, min(X2 - X1, X3 - X2))` only when
  X2 <= X3 (`SustainIsClampedMinimum`). Otherwise it is negative
  (`SustainNegativeWhenPointsCross`).
- **Short envelope.** The code indexes `Envelope[4]` without any check, so a
  render item with fewer than five envelope points raises an index error. It
  does not raise any dedicated envelope error. The model makes
  `|envelope| >= 5` a precondition.
- **`lastnote` field.** Neither builder assigns `lastnote`, so it keeps the C#
  default `false`. The model states this.

## Model

| member | source | states |
|---|---|---|
| `DriverModels.CreateInputModel` | OpenUtau/Core/ResamplerDriver/DriverModels.cs:134-159 | Every field of the default record holds its neutral value: velocity, volume and modulation 100, tempo 120, every text field empty, every timing 0, `lastnote` false. The pitch-bend array is empty with count 0, and the envelope is two zeros. |
| `DriverModels.CreateInputModelFromRenderItem` | OpenUtau/Core/ResamplerDriver/DriverModels.cs:164-200 | The three paths come from RawFile, MidFile and OutFile. The note name is that of the note number. Velocity, flags, required length, volume, modulation, tempo and duration ticks are copied. Adjustment comes from LengthAdjustment and stp from SkipOver. Offset, consonant and cutoff are 0 without an `Oto` and copied from it otherwise. The pitch-bend array equals the pitch data and its count equals its length. The envelope is `PackEnvelope` of the points, pre-utterance and overlap. |
| `DriverModels.PackEnvelope` | OpenUtau/Core/ResamplerDriver/DriverModels.cs:186-196 | The envelope has exactly 11 slots. Slot 0 is X0 + pre-utterance rounded to five decimals: on the five-digit grid and within half a unit of it. Slots 1 and 2 are the gaps X1 - X0 and X4 - X3. Slots 3-6 are Y0, Y1, Y3, Y4. Slot 7 is the overlap, slot 8 is 0 and slot 10 is Y2. Slot 9 is the smaller of max(0, X2 - X1) and X3 - X2, with each case stated. |
| `DriverModels.MonotoneEnvelopeWidths` | OpenUtau/Core/ResamplerDriver/DriverModels.cs:188-195 | For points in time order, the attack, release and sustain widths are non-negative. The sustain is at most X3 - X2. The three widths together fit within X4 - X0. |
| `DriverModels.SustainIsClampedMinimum` | OpenUtau/Core/ResamplerDriver/DriverModels.cs:194-195 | When X2 <= X3, the sustain slot equals max(0, min(X2 - X1, X3 - X2)). |
| `DriverModels.SustainNegativeWhenPointsCross` | OpenUtau/Core/ResamplerDriver/DriverModels.cs:194-195 | When X3 < X2, the sustain slot is negative: the clamp at zero comes before the minimum. |
| `DriverModels.EnvelopeShiftInvariant` | OpenUtau/Core/ResamplerDriver/DriverModels.cs:186-196 | Shifting every point by the same amount in time, in either direction, leaves slots 1-10 unchanged. Slot 0 becomes the rounded shifted start. When the shift is later in time, slot 0 does not decrease. |
| `DriverModels.EnvelopeExample` | OpenUtau/Core/ResamplerDriver/DriverModels.cs:186-196 | Worked example: X = 0, 5, 40, 45, 50, Y = 0, 100, 100, 0, 0, pre-utterance 3 and overlap 5 give [3, 5, 5, 0, 100, 0, 0, 5, 0, 5, 100]. |
| `DriverModels.NeutralItemGivesDefaults` | OpenUtau/Core/ResamplerDriver/DriverModels.cs:134-200 | A render item carrying only neutral values builds a record equal to the default record in every field except the note name and the envelope. |
| `DriverModels.EngineInfo.ToString` | OpenUtau/Core/ResamplerDriver/DriverModels.cs:98 | The display text is the name, one space, then the version. |
| `DriverModels.ToStringSplitsBack` | OpenUtau/Core/ResamplerDriver/DriverModels.cs:98 | For a name without spaces, splitting the display text at its first space gives back the name and the version. |
| `MathRound.RoundHalfEven` | OpenUtau/Core/ResamplerDriver/DriverModels.cs:187 | Gives an integer within one half of the value. On a tie it gives the even one. |
| `MathRound.RoundHalfEvenUnique` | OpenUtau/Core/ResamplerDriver/DriverModels.cs:187 | Any integer meeting those two conditions is the rounding result. |
| `MathRound.RoundHalfEvenMonotone` | OpenUtau/Core/ResamplerDriver/DriverModels.cs:187 | Rounding to an integer preserves order. |
| `MathRound.Round5` | OpenUtau/Core/ResamplerDriver/DriverModels.cs:187 | `Math.Round(x, 5)` has at most five decimals and is within 0.000005 of x. When x lies exactly half a unit from the result, that result's fifth digit is even. |
| `MathRound.Round5OnGrid` | OpenUtau/Core/ResamplerDriver/DriverModels.cs:187 | A value with at most five decimals is returned unchanged. |
| `MathRound.Round5Idempotent` | OpenUtau/Core/ResamplerDriver/DriverModels.cs:187 | Rounding twice gives the same result as rounding once. |
| `MathRound.Round5Monotone` | OpenUtau/Core/ResamplerDriver/DriverModels.cs:187 | Rounding to five decimals preserves order. |
| `MathRound.Round5TiesToEven` | OpenUtau/Core/ResamplerDriver/DriverModels.cs:187 | Ties go to the even fifth digit: 0.015625 rounds down to 0.01562 and 0.046875 rounds up to 0.04688. Both inputs are exact in binary doubles. |

## Left out

- Floating point: doubles are exact reals. The representation error of
  binary doubles, and its effect on `Math.Round(x, 5)` and on the
  subtractions, is not modelled.
- Floating-point ties: a decimal tie such as 0.000035 is usually not a tie
  in binary doubles, so for such an input the program's result can differ
  from the exact-real `Round5`. `MathRound.Round5TiesToEven` uses only ties
  that are exact in binary.
- C# `null` strings and lists: text fields are plain strings, and the pitch
  data and envelope are sequences that are never null. A null `PitchData`,
  `Phoneme` or `Envelope`, which would raise an exception in the source, is
  not modelled.
- Short envelopes: a render item with fewer than five envelope points is
  excluded by precondition. The source raises an index error for it.
- `MusicMath.GetNoteString` is not part of this model. It is a parameter of
  the render-item builder.
- `EngineOutput` (DriverModels.cs:208-212) holds only data and has no
  behaviour, so it is not modelled.
- Struct layout and marshalling attributes are left out. So are the
  reflection, native-export and executable binding conventions described in
  the file's header comment. They concern binary interop and have no
  behaviour in this file.
- The following are not in this file and are not part of this model:
  - engine discovery, the engine registry and its cache;
  - the three invocation bindings;
  - dispatching a render, process launching and timeouts;
  - the editor window's UI logic (`OpenUtau/UI/MainWindow.xaml.cs`).
- `EngineInfo.flagItemCount` is not required to match the number of flag
  items, and a flag's Min <= Default <= Max is not required either. The
  source checks neither.
