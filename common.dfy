/** Types and constants that src/Driver.h takes from headers outside this model
    (the fields of codec_config_t, samplerate_t, RESULT_OK, the volume range of the
    board codecs, ...). Where Driver.h only compares such a constant, its integer value
    is unknown here and is carried as a field of Headers. */
module Common {

  datatype Option<+T> = None | Some(value: T)

  /** C's conversion of a bool to an int. */
  function BoolToInt(b: bool): int
  {
    if b then 1 else 0
  }

  /** The unsigned 16-bit device address of the CS43l22 and WM8994 adapters. */
  newtype uint16 = x: int | 0 <= x < 0x1_0000

  /** Integer values of the header constants that Driver.h uses. */
  datatype Headers = Headers(
    rateCode: seq<int>,      // RATE_08K, RATE_11K, RATE_16K, ..., RATE_48K, in the order of rate_code
    resultOk: int,           // RESULT_OK
    volMin: int,             // DEFAULT_VOLMIN
    volMax: int,             // DEFAULT_VOLMAX
    outputSpeaker: int,      // OUTPUT_DEVICE_SPEAKER
    outputHeadphone: int,    // OUTPUT_DEVICE_HEADPHONE
    outputBoth: int,         // OUTPUT_DEVICE_BOTH
    audioMuteOn: int)        // AUDIO_MUTE_ON
  {
    /** rate_code has eight entries, and they are distinct: they are the case
        labels of the switch in getFrequency. */
    predicate Valid()
    {
      |rateCode| == 8 &&
      forall i, j | 0 <= i < j < 8 :: rateCode[i] != rateCode[j]
    }
  }

  /** codec_config_t.adc_input: only ADC_INPUT_NONE and ADC_INPUT_LINE1 are named
      in Driver.h; every other enumerator is AdcOther. */
  datatype AdcInput = AdcNone | AdcLine1 | AdcOther(code: int)

  /** codec_config_t.dac_output; DacOther is any value outside the four named ones,
      which the default branch of getOutput handles. */
  datatype DacOutput = DacNone | DacLine1 | DacLine2 | DacAll | DacOther(code: int)

  /** i2s.bits; BitsOther is any other enumerator (getBitsNumeric's default branch). */
  datatype BitLength = Bits16 | Bits24 | Bits32 | BitsOther(code: int)

  /** i2s.fmt; only I2S_NORMAL is named in Driver.h. */
  datatype I2SFormat = I2SNormal | I2SOtherFormat(code: int)

  /** i2s.mode: whether the codec is I2S master or slave. */
  datatype I2SRole = RoleSlave | RoleMaster

  /** codec_mode_t. */
  datatype CodecMode = ModeNone | ModeEncode | ModeDecode | ModeBoth

  /** I2SDefinition; `rate` is the integer value of a samplerate_t. */
  datatype I2SDefinition = I2SDefinition(bits: BitLength, rate: int, fmt: I2SFormat, role: I2SRole)
}
