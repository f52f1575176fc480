/** What the adapters see of the outside world: the chip libraries, the pin
    mapping and the power-amplifier pin. A chip-library call is not executed;
    its reply comes from a ChipLib oracle, and every call and every pin write is
    logged as an Event. */
module ChipBus {
  import opened Common
  import opened CodecConfigs

  /** The chips Driver.h has an adapter for; each names one chip library. */
  datatype Chip =
    | AC101 | CS43l22 | ES7210 | ES7243 | ES7243e | ES8156
    | ES8311 | ES8374 | ES8388 | TAS5805M | WM8994

  /** One call into a chip library, with the arguments the adapter passes
      (bus handles and the constant `true` of ctrl_state_active are left out). */
  datatype ChipCall =
    | SetI2CHandle(chip: Chip)                                  // ac101_set_i2c_handle
    | ChipInit(chip: Chip, cfg: CodecConfig)                      // <chip>_init(&codec_cfg, wire)
    | Es8311Init(cfg: CodecConfig, mclkSource: int)              // es8311_codec_init(&codec_cfg, wire, mclk_src)
    | Es8374Init(cfg: CodecConfig, mode: CodecMode)              // es8374_codec_init(&codec_cfg, mode, wire)
    | Deinit(chip: Chip)                                         // <chip>_deinit()
    | CtrlStateActive(chip: Chip, mode: CodecMode)               // <chip>_ctrl_state_active(mode, true)
    | ConfigI2S(chip: Chip, mode: CodecMode, iface: I2SDefinition) // <chip>_config_i2s(mode, &iface)
    | SetVoiceMute(chip: Chip, enable: bool)                     // <chip>_set_voice_mute / _set_mute
    | SetVoiceVolume(chip: Chip, level: int)                     // <chip>_set_voice_volume / _set_volume
    | GetVoiceVolume(chip: Chip)                                 // <chip>_get_voice_volume(&vol)
    | SetMicGain(chip: Chip, gain: int)                          // es8388_set_mic_gain
    | BoardInit(chip: Chip, addr: int, outputDevice: int, level: int, freq: int) // cs43l22_Init / wm8994_Init
    | BoardPause(chip: Chip, addr: int)
    | BoardResume(chip: Chip, addr: int)
    | BoardSetVolume(chip: Chip, addr: int, level: int)
    | BoardStop(chip: Chip, addr: int, option: int)
    | BoardReset(chip: Chip, addr: int)

  /** What the adapters do to the outside, in order. */
  datatype Event =
    | Called(call: ChipCall)
    | WritePin(pin: int, high: bool)    // digitalWrite(pin, high ? HIGH : LOW)

  /** The value each library call returns. For GetVoiceVolume it is the volume the
      library writes through its pointer argument (its own return value is ignored). */
  type ChipLib = ChipCall -> int

  /** getPinID's answer for a role without a pin. */
  const Unmapped: int := -1

  /** The part of DriverPins the adapters use: whether the CODEC role has I2C
      pins, and the pin IDs of the PA and MCLK_SOURCE roles (Unmapped when absent). */
  datatype DriverPins = DriverPins(hasCodecI2C: bool, paPin: int, mclkSourcePin: int)

  /** C's integer division, which truncates toward zero. */
  function TruncDiv(a: int, b: int): (q: int)
    requires b != 0
    ensures a >= 0 && b > 0 ==> q == a / b
  {
    if a >= 0 then (if b > 0 then a / b else -(a / -b))
    else (if b > 0 then -((-a) / b) else (-a) / (-b))
  }

  /** Arduino's map(x, inMin, inMax, outMin, outMax). */
  function ArduinoMap(x: int, inMin: int, inMax: int, outMin: int, outMax: int): int
    requires inMax != inMin
  {
    TruncDiv((x - inMin) * (outMax - outMin), inMax - inMin) + outMin
  }

  lemma ScaledWithin(v: int, width: int)
    requires 0 <= v <= 100 && 0 <= width
    ensures 0 <= (v * width) / 100 <= width
  {
    assert 0 <= v * width <= 100 * width;
  }

  /** map(volume, 0, 100, DEFAULT_VOLMIN, DEFAULT_VOLMAX): the board codecs'
      volume scale. A volume in 0..100 lands in the chip's range, with the ends
      mapped to the ends. */
  function ScaleVolume(hdr: Headers, volume: int): (level: int)
    ensures volume == 0 ==> level == hdr.volMin
    ensures volume == 100 ==> level == hdr.volMax
    ensures 0 <= volume <= 100 && hdr.volMin <= hdr.volMax ==>
              hdr.volMin <= level <= hdr.volMax
  {
    if 0 <= volume <= 100 && hdr.volMin <= hdr.volMax then
      ScaledWithin(volume, hdr.volMax - hdr.volMin);
      ArduinoMap(volume, 0, 100, hdr.volMin, hdr.volMax)
    else
      ArduinoMap(volume, 0, 100, hdr.volMin, hdr.volMax)
  }
}
