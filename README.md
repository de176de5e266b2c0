# Equalizer manager model

A Dafny model of `EqualizerManager`, the Android-side controller of a music
player that drives the platform's system equalizer effect. The manager
presents seven fixed logical bands (60, 150, 400, 1000, 2400, 6000 and
15000 Hz) to the app, and maps each one onto the hardware band whose
centre frequency is nearest. It also converts gains between dB and the
platform's millibels, applies whole presets, resets all bands to 0 dB,
tracks an enabled flag, and reports a status map.

Files and modules:

- `conversions.dfy`, module `Conversions`: the JVM arithmetic the manager uses. This is Kotlin's
  integer division rounded toward zero, `Double.toInt()` (truncate, then
  saturate), `Int.toShort()` (keep the low 16 bits), and the dB-to-millibel
  conversion built from them.
- `bandmapping.dfy`, module `BandMapping`: the band table, the
  nearest-band specification `Closest` and its characterisation
  `IsClosest`, and the band levels that one write, a preset and a reset
  leave behind (`WriteLogical`, `WriteAll`, `PresetLevels`, `ResetLevels`).
  The lemmas about these are here too.
- `audioeffect.dfy`, module `AudioEffect`: an abstract platform `Equalizer`
  class. It holds the hardware band centres in milliHertz, a mutable
  `array<int>` of band levels in millibels, the `enabled` and `released`
  flags, the level range and whether this instance has control of the
  effect. A new effect takes its enabled state from the device. `Device` describes what the platform hands back when it creates one.
- `manager.dfy`, module `EqualizerControl`: the `EqualizerManager` class.
  Its fields are `equalizer: Equalizer?` and `isEnabled`. Every method that
  writes bands states the new band-level array as a function of the old
  one, and says that the manager's fields and the effect's flags do not
  change. `Initialize` and `Release` also say that the released effect
  keeps its enabled flag.

Behaviours reproduced as the code has them:

- `Initialize` ignores its `audioSessionId`. It always creates the global
  effect (session 0, priority 0) and switches it off.
- Neither `Initialize` nor `Release` resets `isEnabled`. So after
  `SetEnabled(true)` and `Initialize`, the report says `enabled = true` while
  the fresh effect is disabled, whenever this instance has control of it
  (`StaleEnabledAfterInitialize`).
- `SetEnabled` records the flag even when no effect is held. The report
  then still says `enabled = false`, because it only shows the flag for a
  live effect.
- With no hardware bands, the nearest-band search returns band 0. The
  platform refuses that write, and the level array is unchanged.
- A logical band's write goes to its nearest hardware band. When several
  logical bands share one hardware band, the last write in index order
  wins (`FiveBandPreset`).

Other points where the model follows the code closely:

- `Release` and a failed `Initialize` keep `isEnabled` as it was.
- A failed initialization is only logged, and `Initialize` returns nothing.
- `Initialize` switches the new effect off with `enabled = false`. The
  platform only honours that when this instance has control of the effect.
  Otherwise the effect keeps the enabled state it was created with.

Platform calls become parameters or abstract operations:

- The outcome of `Equalizer(0, 0)` is the `device: Option<Device>`
  argument of `Initialize`. `None` stands for the constructor, or the
  logging reads that follow it, throwing.
- A platform `setBandLevel` that would throw is a refused write
  (`ok = false`). That happens on a released effect, without control of the
  effect, or for a band the effect lacks. The manager's catch block turns it
  into "no change".
- Band levels are given as `real` dB.

## Model

| member | source | states |
|---|---|---|
| Conversions.TruncDiv | android/app/src/main/kotlin/com/example/reproductor_mp3/EqualizerManager.kt:169-170 | the quotient rounds toward zero: `q*d` lies between 0 and the dividend, less than `d` from it, for either sign |
| Conversions.MillibelsToDbTruncates | android/app/src/main/kotlin/com/example/reproductor_mp3/EqualizerManager.kt:169-170 | -1250 mB reports -12 dB (Euclidean `/` would give -13); 1250 gives 12, -1500 gives -15 |
| Conversions.TruncReal | android/app/src/main/kotlin/com/example/reproductor_mp3/EqualizerManager.kt:90 | the integer part of a real, rounded toward zero: within 1 of it, on the zero side |
| Conversions.DoubleToInt | android/app/src/main/kotlin/com/example/reproductor_mp3/EqualizerManager.kt:90 | `toInt()` is always an Int; it equals the truncation when that fits, and otherwise `Int.MAX_VALUE` or `Int.MIN_VALUE` |
| Conversions.MillibelsToDb | android/app/src/main/kotlin/com/example/reproductor_mp3/EqualizerManager.kt:169-170 | a millibel level in whole dB: one hundred times the result lies between 0 and the level, less than 100 from it, for either sign |
| Conversions.ToShort | android/app/src/main/kotlin/com/example/reproductor_mp3/EqualizerManager.kt:90 | `toShort()` is a short congruent to its argument modulo 65536 |
| Conversions.ToShortKeepsShorts | android/app/src/main/kotlin/com/example/reproductor_mp3/EqualizerManager.kt:90 | a value already in the short range is unchanged by `toShort()` |
| Conversions.ToMillibels | android/app/src/main/kotlin/com/example/reproductor_mp3/EqualizerManager.kt:90 | the converted level always fits the platform's short |
| Conversions.ToMillibelsInRange | android/app/src/main/kotlin/com/example/reproductor_mp3/EqualizerManager.kt:89-90 | for gains from -327.68 to 327.67 dB, the millibel value is exactly `level*100` truncated toward zero; it equals `level*100` when that is whole |
| Conversions.ToMillibelsExamples | android/app/src/main/kotlin/com/example/reproductor_mp3/EqualizerManager.kt:89-90 | 3.5 dB gives 350 mB, -12 dB gives -1200, 0 gives 0, and -0.259 gives -25 (truncated, not rounded) |
| Conversions.ToMillibelsWraps | android/app/src/main/kotlin/com/example/reproductor_mp3/EqualizerManager.kt:90 | an out-of-range 400 dB wraps to -25536 mB instead of clamping |
| BandMapping.Distance | android/app/src/main/kotlin/com/example/reproductor_mp3/EqualizerManager.kt:112-113 | the distance is the gap, in either direction, between the band centre in Hz (milliHertz divided toward zero) and the target |
| BandMapping.Closest | android/app/src/main/kotlin/com/example/reproductor_mp3/EqualizerManager.kt:105-122 | the nearest band is 0 when there are no bands, and otherwise a valid band index |
| BandMapping.ClosestIsClosest | android/app/src/main/kotlin/com/example/reproductor_mp3/EqualizerManager.kt:105-122 | `Closest` is at least as near as every band (distance in whole Hz after truncating milliHertz) and strictly nearer than every lower-indexed band |
| BandMapping.ClosestCharacterization | android/app/src/main/kotlin/com/example/reproductor_mp3/EqualizerManager.kt:108-119 | a band index satisfies the nearest-with-lowest-index-tie-break property if and only if it is `Closest`, so that band is unique |
| BandMapping.ClosestTieBreak | android/app/src/main/kotlin/com/example/reproductor_mp3/EqualizerManager.kt:115 | bands at 100 Hz and 200 Hz are equally far from 150 Hz, and the lower index wins in either order |
| BandMapping.FiveBandLayout | android/app/src/main/kotlin/com/example/reproductor_mp3/EqualizerManager.kt:15-23 | on hardware bands at 60, 230, 910, 3600 and 14000 Hz, the seven targets map to bands 0, 1, 1, 2, 3, 3, 4 (150 Hz goes to band 1) |
| BandMapping.FiveBandNearest | android/app/src/main/kotlin/com/example/reproductor_mp3/EqualizerManager.kt:111-119 | on that five-band layout, a band strictly nearer than all lower bands and no farther than any band is the search's answer |
| BandMapping.FiveBandDistances | android/app/src/main/kotlin/com/example/reproductor_mp3/EqualizerManager.kt:112-113 | on that layout, each band's distance is its centre in Hz minus the target, in absolute value |
| BandMapping.TargetBand | android/app/src/main/kotlin/com/example/reproductor_mp3/EqualizerManager.kt:87 | the hardware band a logical band is written to is 0 when there are no bands, and otherwise a valid band index |
| BandMapping.TargetBandIsNearest | android/app/src/main/kotlin/com/example/reproductor_mp3/EqualizerManager.kt:87 | the hardware band a logical band is written to is the nearest one to its table frequency, with lowest-index tie-break |
| BandMapping.WriteLogical | android/app/src/main/kotlin/com/example/reproductor_mp3/EqualizerManager.kt:81-93 | one logical write keeps the number of hardware bands; what it writes is stated by `WriteAllAt` and `EqualizerManager.SetBandLevel` |
| BandMapping.WriteAll | android/app/src/main/kotlin/com/example/reproductor_mp3/EqualizerManager.kt:150-152 | writing the first `n` logical bands in order keeps the number of hardware bands |
| BandMapping.PresetLevels | android/app/src/main/kotlin/com/example/reproductor_mp3/EqualizerManager.kt:144-152 | a preset keeps the number of hardware bands (its per-band effect is `PresetLevelsAt`) |
| BandMapping.WriteAllAt | android/app/src/main/kotlin/com/example/reproductor_mp3/EqualizerManager.kt:150-152 | after in-order writes of logical bands 0..n-1: a hardware band no write reaches (or every band, without control) keeps its level; a reached band holds the value of the highest logical band mapped onto it, and some mapped logical band's value in any case |
| BandMapping.PresetLevelsAt | android/app/src/main/kotlin/com/example/reproductor_mp3/EqualizerManager.kt:144-152 | a preset whose length is not 7 changes nothing; with 7 values, untargeted bands keep their level and each targeted band ends with the value of the last logical band mapped onto it |
| BandMapping.ResetLevels | android/app/src/main/kotlin/com/example/reproductor_mp3/EqualizerManager.kt:127-133 | a reset keeps the band count; with control, every band some logical band maps to is 0 mB; every other band (or every band, without control) keeps its level |
| BandMapping.FlatPresetIsReset | android/app/src/main/kotlin/com/example/reproductor_mp3/EqualizerManager.kt:127-133 | applying seven zeros gives the same levels as a reset: targeted bands become 0 mB, the others are untouched |
| BandMapping.FiveBandPreset | android/app/src/main/kotlin/com/example/reproductor_mp3/EqualizerManager.kt:150-152 | on the five-band layout, a preset leaves logical values 0, 2, 3, 5 and 6 in hardware bands 0..4; values 1 and 4 are overwritten |
| AudioEffect.Equalizer.constructor | android/app/src/main/kotlin/com/example/reproductor_mp3/EqualizerManager.kt:37 | a new platform effect records its priority and session, takes the device's bands, range, control, levels and enabled state, and starts not released |
| AudioEffect.Equalizer.NumberOfBands | android/app/src/main/kotlin/com/example/reproductor_mp3/EqualizerManager.kt:111 | `numberOfBands` is the length of the band-level array, and fits a short |
| AudioEffect.Equalizer.SetBandLevel | android/app/src/main/kotlin/com/example/reproductor_mp3/EqualizerManager.kt:93 | the platform write succeeds exactly when the effect is live, has control and the band exists; then only that band changes, otherwise nothing does |
| AudioEffect.Equalizer.SetEnabled | android/app/src/main/kotlin/com/example/reproductor_mp3/EqualizerManager.kt:64 | the effect's enabled flag takes the new value when it has control, and is otherwise unchanged |
| AudioEffect.Equalizer.Release | android/app/src/main/kotlin/com/example/reproductor_mp3/EqualizerManager.kt:186 | the effect is marked released |
| EqualizerControl.EqualizerManager.constructor | android/app/src/main/kotlin/com/example/reproductor_mp3/EqualizerManager.kt:7-9 | a new manager holds no effect and `isEnabled` is false |
| EqualizerControl.EqualizerManager.Initialize | android/app/src/main/kotlin/com/example/reproductor_mp3/EqualizerManager.kt:29-57 | the prior effect, if any, is released; the old effect's enabled flag is left as it was. Then either a fresh effect on session 0 at priority 0 with the device's bands and levels is held, whatever session id was passed, or none is held (failure). The fresh effect is disabled when it has control, and otherwise keeps its initial enabled state. `isEnabled` is unchanged |
| EqualizerControl.EqualizerManager.SetEnabled | android/app/src/main/kotlin/com/example/reproductor_mp3/EqualizerManager.kt:62-66 | `isEnabled` always becomes the argument; the held effect, if any, gets it too (when in control); the same effect stays held and no band level changes |
| EqualizerControl.EqualizerManager.FindClosestBand | android/app/src/main/kotlin/com/example/reproductor_mp3/EqualizerManager.kt:105-122 | 0 without an effect; otherwise the nearest band with lowest-index tie-break (0 when there are no bands), equal to `Closest` |
| EqualizerControl.EqualizerManager.SetBandLevel | android/app/src/main/kotlin/com/example/reproductor_mp3/EqualizerManager.kt:73-100 | without an effect, or for an index outside 0..6, nothing changes; otherwise exactly the nearest band to the logical band's target takes `ToMillibels(level)`, when the platform accepts; manager fields and the effect's flags are unchanged |
| EqualizerControl.EqualizerManager.ResetBands | android/app/src/main/kotlin/com/example/reproductor_mp3/EqualizerManager.kt:127-139 | without an effect nothing changes; otherwise every targeted band becomes 0 mB and the rest keep their level |
| EqualizerControl.EqualizerManager.ApplyPreset | android/app/src/main/kotlin/com/example/reproductor_mp3/EqualizerManager.kt:144-155 | a list whose length is not 7 changes nothing; otherwise the levels become `PresetLevels` of the old levels (seven in-order writes); nothing else changes |
| EqualizerControl.EqualizerManager.GetEqualizerInfo | android/app/src/main/kotlin/com/example/reproductor_mp3/EqualizerManager.kt:160-179 | `initialized` holds iff an effect is held; `enabled` holds iff an effect is held and `isEnabled` is set; band count and range in whole dB (truncated) are present exactly when initialized |
| EqualizerControl.EqualizerManager.Release | android/app/src/main/kotlin/com/example/reproductor_mp3/EqualizerManager.kt:184-192 | afterwards no effect is held, and any prior one is released with its enabled flag unchanged; `isEnabled` is kept; with no effect held, nothing changes, so a second call is a no-op |
| EqualizerControl.StaleEnabledAfterInitialize | android/app/src/main/kotlin/com/example/reproductor_mp3/EqualizerManager.kt:29-66 | after `setEnabled(true)` then `initialize` on a device whose new effect has control, the report says initialized and enabled while the new effect is disabled |
| EqualizerControl.CallsBeforeInitialize | android/app/src/main/kotlin/com/example/reproductor_mp3/EqualizerManager.kt:73-84 | before initialization, every mutating call and a double release are no-ops; the report says neither initialized nor enabled, though `isEnabled` is set |
| EqualizerControl.DistanceBelowIntMax | android/app/src/main/kotlin/com/example/reproductor_mp3/EqualizerManager.kt:109-115 | for any Int centre and a table target, the distance is below `Int.MAX_VALUE`, so the first band always replaces the initial minimum |

## Left out

- Logging (`Log.d/w/e`) and `printStackTrace`: they have no effect on state.
- The audio processing of the platform equalizer, and how it runs: the effect is an abstract object.
- Platform exceptions other than a refused band write, such as a dead effect service: these are not modelled. A failed construction is the `None` device.
- Platform `release()` is taken never to throw. The `catch` in `release`, which would keep the old reference, is not modelled.
- A change of effect control while the manager holds the effect: `hasControl` is fixed at creation.
- IEEE-754 behaviour of `level * 100` (rounding artefacts such as 0.29 × 100 → 28), NaN and infinities: levels are exact reals. `Double.toInt` saturation and the 16-bit wrap are modelled.
- The Flutter method-channel dispatch in `MainActivity.kt`, its argument defaults and the activity lifecycle: they only forward to the manager.
- Session-id generation in `AudioSessionHelper.kt` and `MainActivity.getLastAudioSessionId`: a single operating-system call. The manager ignores the id in any case.
- EqualizerControl.EqualizerManager.FindClosestBand: requires the target to be one of the seven table frequencies. Those are its only callers, and the requirement keeps `Math.abs` of the difference inside `Int`.
- EqualizerControl.EqualizerManager.Initialize: requires a created device to report values of the platform's own types. That means a band count that fits a short, Int centre frequencies and a short level range.
