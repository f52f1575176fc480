# Audio codec driver layer, modelled in Dafny

This project models `src/Driver.h` of the Arduino AudioDriver library. That file
gives one control interface over a family of audio codec chips: AC101, CS43L22,
ES7210, ES7243, ES7243e, ES8156, ES8311, ES8374, ES8388, TAS5805M and WM8994. It
also has a composite "LyraT Mini" driver that runs an ES8311 DAC and an ES7243 ADC
as one codec. The model covers:

- **`CodecConfig`**: the conversions between numeric and enumerated bit depth and
  sample rate, and the codec mode derived from the input and output selectors.
- **The `AudioDriver` lifecycle**: `begin` runs init, then controlState, then
  configInterface, then switches on the power-amplifier pin. `end` calls deinit.
  The file also has the `limitVolume` clamp and the power-amplifier pin rule.
- **The chip adapters**: volume caches, ES7243e's mute done through `setVolume(0)`,
  the ES8388 microphone gain, the CS43l22/WM8994 frequency and output tables and
  their own `begin`/`deinit`, and the inherited default hooks that fail.
- **`AudioDriverLyratMiniClass`**: which sub-driver it starts, how it combines their
  results, and which sub-driver each volume call goes to.

Modules and files:

- `common.dfy` (`Common`): the enumerations of `codec_config_t`, `I2SDefinition`,
  and `Headers`. `Headers` holds the integer values of header constants that are
  not part of this model: the `samplerate_t` codes, `RESULT_OK`,
  `DEFAULT_VOLMIN/MAX`, `OUTPUT_DEVICE_*` and `AUDIO_MUTE_ON`. The only thing
  assumed about them is that the eight rate codes are distinct, since they are the
  case labels of one `switch`.
- `codec_config.dfy` (`CodecConfigs`): `CodecConfig` as a value, because `begin`
  takes and stores a copy. Its setters return the updated value.
- `chip_bus.dfy` (`ChipBus`): the chip-library calls, the event log, the pin
  mapping, and Arduino's `map`.
- `driver_steps.dfy` (`DriverSteps`): each lifecycle stage as a pure function
  giving a `Step`, meaning the stage's verdict plus the events it causes. The
  lemmas about `begin` are here.
- `audio_driver.dfy` (`Drivers`): one class `AudioDriver`. Its `chip` field picks
  the overriding member, so each method is the virtual call after dispatch. The
  methods are proved to produce exactly the `Step` functions' events and results.
- `lyrat_mini.dfy` (`LyratMini`): the composite class. It owns its two
  `AudioDriver` objects.

Chip libraries are not modelled. An oracle `ChipLib` answers each call. Each call
and each power-amplifier pin write is appended to the ghost `trace` of the adapter
that made it. This is what lets the model state ordering and "nothing is called
after a failure".

Some behaviour of the code is easy to misread; the model follows the code:

- `setRateNumeric` measures distance from the integer value of each `rate_code`
  enumerator, not from the rate in Hz. So an unsupported rate does not always get
  the nearest supported rate (`FallbackMeasuresCodes`).
- Base `begin` drives the power-amplifier pin only when init and controlState both
  succeeded. It is not driven unconditionally.
- The composite `end` adds up successes (`rc += dac.end()`), so it reports success
  only when both sub-drivers fail to end.
- ES7243e unmute re-applies the cached volume. Muting has already set that cache
  to 0, so the unmute does not restore the earlier volume.
- CS43l22 `begin` never checks for the CODEC I2C pins. WM8994 checks for them only
  after it has driven the power-amplifier pin.
- Every chip adapter defines `deinit`. ES8388 and TAS5805M do not define
  `controlState`/`configInterface`, so their `begin` always fails.
- `getFrequency` maps `RATE_11K` to 11024, not 11025.

## Model

| member | source | states |
|---|---|---|
| `CodecConfigs.DefaultConfig` | src/Driver.h:33-41 | the default configuration has 16 bits, the RATE_44K code and mode BOTH (input LINE1, output ALL) |
| `CodecConfigs.GetBitsNumeric` | src/Driver.h:44-56 | the result is 16, 24, 32 or 0, and is 0 exactly for an enumerator other than the three named ones |
| `CodecConfigs.SetBitsNumeric` | src/Driver.h:59-72 | for 16, 24 or 32 it returns the argument and getBitsNumeric then returns it too; any other number returns 0 and leaves the configuration unchanged; only i2s.bits ever changes |
| `CodecConfigs.GetRateNumeric` | src/Driver.h:75-83 | returns rate_num[j] for the entry whose code is i2s.rate, and 0 when i2s.rate matches none of the eight codes |
| `CodecConfigs.SetRateNumeric` | src/Driver.h:86-106 | an exact rate_num entry is returned and its code stored; any other number stores rate_code[r] and returns rate_num[r], where r is the first index with the strictly smallest code distance below 99999, or 0 if there is none; only i2s.rate changes |
| `CodecConfigs.FallbackIndexUnique` | src/Driver.h:94-100 | the fallback index is unique, so the fallback rate is fully determined |
| `CodecConfigs.SetThenGetRate` | src/Driver.h:75-106 | reading the rate back after setRateNumeric gives the number it returned, which is always a rate_num entry, and is the requested rate when that is one of the eight |
| `CodecConfigs.FallbackMeasuresCodes` | src/Driver.h:95 | with enumerators numbered 1 to 8, a request for 45000 Hz gives 48000 Hz, not the nearest rate 44100 Hz |
| `CodecConfigs.GetMode` | src/Driver.h:109-137 | BOTH when input and output are both set, DECODE when only the output is, ENCODE when only the input is, NONE otherwise (each as an if-and-only-if) |
| `ChipBus.ScaleVolume` | src/Driver.h:279 | map(volume, 0, 100, DEFAULT_VOLMIN, DEFAULT_VOLMAX) sends 0 and 100 to the ends of the chip range, and any volume in 0..100 into that range |
| `DriverSteps.LimitVolume` | src/Driver.h:202-208 | with min <= max the result is in [min, max], equals the volume when it is in range, and is max above the range and min below it; with min > max the result is min |
| `DriverSteps.Limit` | src/Driver.h:202 | the default range: always within 0..100, and the identity on 0..100 |
| `DriverSteps.MicGain` | src/Driver.h:579-584 | the ES8388 gain limitVolume(volume)/10 is in 0..10 and is the tenth of the clamped volume, rounded down |
| `DriverSteps.GetFrequency` | src/Driver.h:295-315 | each rate code maps to its entry of 8000, 11024, 16000, 22050, 24000, 32000, 44100, 48000; a value that is none of the codes maps to 44100 |
| `DriverSteps.FrequencyAgreesWithRateNum` | src/Driver.h:691-711 | getFrequency equals rate_num on every code except RATE_11K, where it is one lower |
| `DriverSteps.GetOutput` | src/Driver.h:317-329 | NONE goes to 0, LINE1 to SPEAKER, LINE2 to HEADPHONE, and ALL or any other value to BOTH |
| `DriverSteps.BeginStagesInOrder` | src/Driver.h:148-166 | begin's events go stage by stage (init calls, then controlState, then configInterface, then the PA write) and never return to an earlier stage |
| `DriverSteps.BeginShortCircuits` | src/Driver.h:151-163 | a failed init leaves only init calls; a failed controlState leaves no configInterface call and no PA write; begin succeeds iff init, controlState and configInterface all succeed |
| `DriverSteps.BeginPowersAmplifier` | src/Driver.h:155-165 | begin writes the PA pin iff init and controlState succeeded and the pin is mapped; the write is "on", is the last event, and happens whatever configInterface returned |
| `DriverSteps.InheritedHooksFail` | src/Driver.h:192-197 | ES8388 and TAS5805M inherit controlState = false: their begin always fails right after init and never writes the PA pin |
| `DriverSteps.MissingI2CFailsSilently` | src/Driver.h:229-236 | without CODEC I2C pins, an adapter using the base begin fails with no chip call and no pin write |
| `DriverSteps.Es8311NeedsMclkSource` | src/Driver.h:502-513 | without a MCLK_SOURCE pin, ES8311's begin fails with no chip call and no pin write, even when I2C pins are present |
| `DriverSteps.BoardBeginOrder` | src/Driver.h:648-666 | the CS43l22/WM8994 begin writes the PA pin of the previously stored mapping first; WM8994 without I2C pins then fails with no chip call; CS43l22 always ends with its init call |
| `DriverSteps.BoardDeinitPowersDown` | src/Driver.h:288-293 | CS43l22/WM8994 deinit calls stop then reset, then switches a mapped PA pin off as its last event, and succeeds iff the two results add up to 0 |
| `Drivers.VolumeCallClamped` | src/Driver.h:492-494 | every adapter other than CS43l22/WM8994 sends a volume level in 0..100, and sends the argument itself when it is in range |
| `Drivers.Es7243eMuteResult` | src/Driver.h:411-414 | ES7243e setMute compares setVolume's bool with RESULT_OK: its result is setVolume's success if RESULT_OK is 1, the opposite if RESULT_OK is 0, and false for any other value |
| `Drivers.AudioDriver.constructor` | src/Driver.h:254-256 | a new adapter has the default configuration, no pins, the field initializers of `volume`, and the default device address (0x94 for CS43l22, 0x34 for WM8994) |
| `Drivers.AudioDriver.WithAddress` | src/Driver.h:642-644 | a CS43l22/WM8994 adapter built with a given device address |
| `Drivers.AudioDriver.SetI2CAddress` | src/Driver.h:258 | stores the device address and changes nothing else |
| `Drivers.AudioDriver.SetPAPower` | src/Driver.h:179-186 | an unmapped (-1) PA pin returns false and writes nothing; otherwise it writes the pin once and returns true |
| `Drivers.AudioDriver.Init` | src/Driver.h:229-237 | logs exactly the calls of InitStep and returns its verdict: no CODEC I2C pins fails with no call, AC101 sets the I2C handle before init, ES8311 also needs MCLK_SOURCE, and ES8374 passes the stored configuration's mode |
| `Drivers.AudioDriver.ControlState` | src/Driver.h:239-241 | one ctrl_state_active call that succeeds iff it returns RESULT_OK; with the inherited default it fails with no call |
| `Drivers.AudioDriver.ConfigInterface` | src/Driver.h:242-244 | one config_i2s call that succeeds iff it returns RESULT_OK; with the inherited default it fails with no call |
| `Drivers.AudioDriver.Begin` | src/Driver.h:148-166 | stores the configuration and pins, and appends exactly begin's events (base sequence, or the board sequence for CS43l22/WM8994), returning its verdict; volume and address are unchanged |
| `Drivers.AudioDriver.BoardBegin` | src/Driver.h:260-270 | PA write through the old pins, then one init call with the mapped volume, the frequency and the output mask; succeeds iff that call returns 0 |
| `Drivers.AudioDriver.End` | src/Driver.h:167 | appends exactly deinit's events and returns its verdict |
| `Drivers.AudioDriver.SetVolume` | src/Driver.h:277-281 | the caching adapters store the raw, unclamped argument; the board codecs send the mapped raw volume, and the others send limitVolume(volume); AC101 reports a nonzero reply as success |
| `Drivers.AudioDriver.SetMute` | src/Driver.h:411-414 | ES7243e mute sets the cache to 0 and sends 0, and unmute re-sends the cache; the board codecs pause/resume; the other adapters make one mute call |
| `Drivers.AudioDriver.GetVolume` | src/Driver.h:222-225 | CS43l22, ES7210 and WM8994 return the cache with no call; the others return the value the chip reports |
| `Drivers.AudioDriver.SetMicrophoneGain` | src/Driver.h:586-588 | one es8388_set_mic_gain call that succeeds iff it returns RESULT_OK |
| `Drivers.AudioDriver.SetInputVolume` | src/Driver.h:579-584 | ES8388 sets the gain MicGain(volume); every other adapter returns false with no call |
| `Drivers.AudioDriver.IsVolumeSupported` | src/Driver.h:173 | every adapter reports volume as supported (no adapter overrides the default) |
| `Drivers.AudioDriver.IsInputVolumeSupported` | src/Driver.h:590 | true exactly for ES8388 |
| `Drivers.Es7243eMuteForgetsVolume` | src/Driver.h:411-417 | after setVolume(70), mute and unmute, the cache is 0 and the chip was sent 70, then 0, then 0 again |
| `Drivers.CachedVolumeReadBack` | src/Driver.h:277-282 | on the caching adapters, getVolume after setVolume(v) returns v itself, even when v is out of range |
| `LyratMini.AudioDriverLyratMini.constructor` | src/Driver.h:757-758 | owns a fresh ES8311 DAC adapter and a separate fresh ES7243 ADC adapter, each with the default configuration, no pins and an empty trace |
| `LyratMini.AudioDriverLyratMini.Begin` | src/Driver.h:735-742 | runs the DAC's begin iff an output is selected and the ADC's iff an input is; an adapter that is not started is left unchanged; the result is true iff every begin it ran succeeded |
| `LyratMini.AudioDriverLyratMini.End` | src/Driver.h:743-748 | always ends both adapters, and returns true iff both deinit calls failed; only their traces change |
| `LyratMini.AudioDriverLyratMini.SetMute` | src/Driver.h:749 | only the DAC is muted; only the DAC's trace changes (ES8311 keeps no volume cache); the ADC is unchanged |
| `LyratMini.AudioDriverLyratMini.SetVolume` | src/Driver.h:750 | only the DAC gets the clamped volume; only the DAC's trace changes (ES8311 keeps no volume cache); the ADC is unchanged |
| `LyratMini.AudioDriverLyratMini.GetVolume` | src/Driver.h:751 | reads the DAC's volume, changing only the DAC's trace; the ADC is unchanged |
| `LyratMini.AudioDriverLyratMini.SetInputVolume` | src/Driver.h:752 | the ADC's setVolume with the clamped volume; only the ADC's trace changes (ES7243 keeps no volume cache); the DAC is unchanged |
| `LyratMini.AudioDriverLyratMini.GetInputVolume` | src/Driver.h:753 | reads the ADC's volume, changing only the ADC's trace; the DAC is unchanged |
| `LyratMini.AudioDriverLyratMini.IsInputVolumeSupported` | src/Driver.h:754 | the composite always reports input volume as supported |
| `LyratMini.InputOnlyBoard` | src/Driver.h:735-750 | with no output and an input selected, begin starts only the ADC and returns its result; a later setVolume reaches only the DAC, and the ADC's volume is unchanged |

## Left out

- The chip register libraries (`ac101_*`, `es7210_*`, `cs43l22_*`, `wm8994_*`, ...) are not modelled, because they are foreign calls. A `ChipLib` oracle answers each call. It gives the same reply to the same call within one method.
- I2C bus handles (`p_wire`) are not modelled. `DriverPins` is reduced to: whether the CODEC role has I2C pins, plus the PA and MCLK_SOURCE pin IDs (-1 when unmapped). `DriverPins` internals are not part of this model.
- `p_pins` is a non-owning pointer in the source but is stored here as a value. A caller that later changes its `DriverPins` is not modelled (no aliasing).
- `digitalWrite` is modelled only as a trace event. `delay(10)` and all `AD_LOG*` logging are left out, because they are hardware timing and output.
- Drivers.AudioDriver.Begin: requires a stored pin mapping before a CS43l22/WM8994 `begin`. This is a defect in the source: these adapters call `setPAPower` before they store `p_pins`, so every first `begin` dereferences a null `p_pins`. No modelled operation can meet this precondition. The constructors leave `pins` empty, and `begin` is the only operation that stores pins, so a caller has to set the `pins` field directly.
- Drivers.AudioDriver.SetPAPower: requires a stored pin mapping. `setPAPower` is public, and before any `begin` it dereferences a null `p_pins` on every adapter.
- Drivers.AudioDriver.End: requires a stored pin mapping on CS43l22/WM8994 for the same reason (their `deinit` calls `setPAPower`). It adds the two library results as unbounded integers, with no 32-bit wrap-around.
- Drivers.AudioDriver.GetVolume: requires that ES7210's uninitialized `volume` has been set. The value a failing `get_voice_volume` leaves in `vol` is not modelled: the oracle's value is returned.
- CodecConfigs.SetBitsNumeric: returns the updated configuration instead of updating it in place. `CodecConfig` is a value that `begin` copies, so nothing else sees the difference.
- CodecConfigs.SetRateNumeric: returns the updated configuration instead of updating it in place (same reason). It uses unbounded integers, so `abs(INT_MIN)` and the overflow of `rate_code[j] - rateNum` are not modelled.
- ChipBus.ScaleVolume: uses unbounded integers instead of Arduino's `long`. Arduino's `map` is not part of this model; its usual definition, truncating division included, is written out.
- The integer values of the header enumerations and constants are parameters (`Headers`). Enumerators not named in Driver.h are collapsed into one `Other` case per enumeration.
- `pins()` is not modelled as a separate operation: it is the stored `pins` field.
- The composite driver's inherited fields and hooks (`codec_cfg`, `p_pins`, `setPAPower`, `init`...) are not modelled, because it never uses them.
- The static global driver instances (src/Driver.h:763-783) are not modelled, because they are plain construction.
