/** The adapters of Driver.h as one class. AudioDriver and its eleven chip
    subclasses become a single class whose `chip` field selects the overriding
    member, so each method below is the virtual call after dispatch. Chip-library
    calls are answered by a ChipLib oracle and logged, with the PA pin writes,
    in the ghost `trace`. */
module Drivers {
  import opened Common
  import opened CodecConfigs
  import opened ChipBus
  import opened DriverSteps

  /** The `volume` field initializers: 100 for CS43l22 and WM8994, 0 for ES7243e.
      ES7210 leaves its field uninitialized (see volumeSet); the other adapters
      have no such field. */
  function InitialVolume(chip: Chip): int
  {
    match chip
    case CS43l22 => 100
    case WM8994 => 100
    case _ => 0
  }

  /** The default constructor arguments: CS43l22 at 0x94, WM8994 at 0x34. */
  function DefaultAddress(chip: Chip): uint16
  {
    match chip
    case CS43l22 => 0x94
    case WM8994 => 0x34
    case _ => 0
  }

  /** How an adapter turns a library reply into its bool result: the board codecs
      test for 0, AC101 returns the reply itself converted to bool, the others
      compare with RESULT_OK. */
  function Accepts(chip: Chip, hdr: Headers, reply: int): bool
  {
    if IsBoardChip(chip) then reply == 0
    else if chip == AC101 then reply != 0
    else reply == hdr.resultOk
  }

  /** The chip call of setMute(enable), for every adapter but ES7243e. */
  function MuteCall(chip: Chip, addr: int, enable: bool): ChipCall
  {
    if IsBoardChip(chip) then (if enable then BoardPause(chip, addr) else BoardResume(chip, addr))
    else SetVoiceMute(chip, enable)
  }

  /** The chip call of setVolume(volume): the board codecs map the raw volume onto
      their own scale, every other adapter passes limitVolume(volume). */
  function VolumeCall(chip: Chip, hdr: Headers, addr: int, volume: int): ChipCall
  {
    if IsBoardChip(chip) then BoardSetVolume(chip, addr, ScaleVolume(hdr, volume))
    else SetVoiceVolume(chip, Limit(volume))
  }

  /** The level an adapter other than CS43l22 and WM8994 sends on setVolume is
      always within 0..100, and is the volume itself when that is in range. */
  lemma VolumeCallClamped(chip: Chip, hdr: Headers, addr: int, volume: int)
    requires !IsBoardChip(chip)
    ensures VolumeCall(chip, hdr, addr, volume).SetVoiceVolume?
    ensures 0 <= VolumeCall(chip, hdr, addr, volume).level <= 100
    ensures 0 <= volume <= 100 ==> VolumeCall(chip, hdr, addr, volume).level == volume
  {
  }

  /** ES7243e's setMute compares setVolume's bool result with RESULT_OK, an int: it
      reports success when RESULT_OK is 1 and setVolume succeeded, or when
      RESULT_OK is 0 and setVolume failed; for any other RESULT_OK it never does. */
  function Es7243eMuteResult(applied: bool, resultOk: int): (r: bool)
    ensures resultOk == 1 ==> r == applied
    ensures resultOk == 0 ==> r == !applied
    ensures resultOk != 0 && resultOk != 1 ==> !r
  {
    BoolToInt(applied) == resultOk
  }

  class AudioDriver {
    const chip: Chip
    const hdr: Headers
    /** codec_cfg: the copy begin stores. */
    var codecCfg: CodecConfig
    /** p_pins: None until the first begin (nullptr). */
    var pins: Option<DriverPins>
    /** The cached volume of CS43l22, ES7210, ES7243e and WM8994. */
    var volume: int
    /** deviceAddr of CS43l22 and WM8994. */
    var deviceAddr: uint16
    /** Whether `volume` holds a value: false for ES7210 until its first setVolume. */
    ghost var volumeSet: bool
    /** Every chip-library call and PA pin write, in order. */
    ghost var trace: seq<Event>

    ghost predicate Valid()
    {
      hdr.Valid()
    }

    /** The default constructor of the chip's adapter. */
    constructor (chip: Chip, hdr: Headers)
      requires hdr.Valid()
      ensures this.chip == chip && this.hdr == hdr && Valid()
      ensures codecCfg == DefaultConfig(hdr) && pins == None
      ensures volume == InitialVolume(chip) && volumeSet == (chip != ES7210)
      ensures deviceAddr == DefaultAddress(chip) && trace == []
    {
      this.chip := chip;
      this.hdr := hdr;
      codecCfg := DefaultConfig(hdr);
      pins := None;
      volume := InitialVolume(chip);
      volumeSet := chip != ES7210;
      deviceAddr := DefaultAddress(chip);
      trace := [];
    }

    /** The CS43l22 and WM8994 constructor given a device address. */
    constructor WithAddress(chip: Chip, hdr: Headers, addr: uint16)
      requires hdr.Valid() && IsBoardChip(chip)
      ensures this.chip == chip && this.hdr == hdr && Valid()
      ensures codecCfg == DefaultConfig(hdr) && pins == None
      ensures volume == 100 && volumeSet
      ensures deviceAddr == addr && trace == []
    {
      this.chip := chip;
      this.hdr := hdr;
      codecCfg := DefaultConfig(hdr);
      pins := None;
      volume := InitialVolume(chip);
      volumeSet := true;
      deviceAddr := addr;
      trace := [];
    }

    /** setI2CAddress of CS43l22 and WM8994. */
    method SetI2CAddress(addr: uint16)
      requires IsBoardChip(chip)
      modifies this`deviceAddr
      ensures deviceAddr == addr
    {
      deviceAddr := addr;
    }

    /** One library call: logged, and answered by the oracle. */
    method Call(call: ChipCall, lib: ChipLib) returns (reply: int)
      modifies this`trace
      ensures trace == old(trace) + [Called(call)] && reply == lib(call)
    {
      trace := trace + [Called(call)];
      reply := lib(call);
    }

    /** setPAPower(enable) through the stored pin mapping. */
    method SetPAPower(enable: bool) returns (ok: bool)
      requires pins.Some?
      modifies this`trace
      ensures ok == PAPowerStep(pins.value, enable).ok
      ensures trace == old(trace) + PAPowerStep(pins.value, enable).events
    {
      var pin := pins.value.paPin;
      if pin == Unmapped {
        return false;
      }
      trace := trace + [WritePin(pin, enable)];
      ok := true;
    }

    /** init(codec_cfg), called by begin with the stored configuration. */
    method Init(lib: ChipLib) returns (ok: bool)
      requires pins.Some?
      modifies this`trace
      ensures ok == InitStep(chip, hdr, codecCfg, pins.value, lib).ok
      ensures trace == old(trace) + InitStep(chip, hdr, codecCfg, pins.value, lib).events
    {
      if IsBoardChip(chip) || !pins.value.hasCodecI2C {
        return false;
      }
      var reply;
      if chip == AC101 {
        var _ := Call(SetI2CHandle(AC101), lib);
        reply := Call(ChipInit(AC101, codecCfg), lib);
      } else if chip == ES8311 {
        var mclkSource := pins.value.mclkSourcePin;
        if mclkSource == Unmapped {
          return false;
        }
        reply := Call(Es8311Init(codecCfg, mclkSource), lib);
      } else if chip == ES8374 {
        var mode := GetMode(codecCfg);
        reply := Call(Es8374Init(codecCfg, mode), lib);
      } else {
        reply := Call(ChipInit(chip, codecCfg), lib);
      }
      ok := reply == hdr.resultOk;
    }

    /** controlState(mode). */
    method ControlState(mode: CodecMode, lib: ChipLib) returns (ok: bool)
      modifies this`trace
      ensures ok == ControlStep(chip, hdr, mode, lib).ok
      ensures trace == old(trace) + ControlStep(chip, hdr, mode, lib).events
    {
      if !HasStageHooks(chip) {
        return false;
      }
      var reply := Call(CtrlStateActive(chip, mode), lib);
      ok := reply == hdr.resultOk;
    }

    /** configInterface(mode, iface). */
    method ConfigInterface(mode: CodecMode, iface: I2SDefinition, lib: ChipLib) returns (ok: bool)
      modifies this`trace
      ensures ok == InterfaceStep(chip, hdr, mode, iface, lib).ok
      ensures trace == old(trace) + InterfaceStep(chip, hdr, mode, iface, lib).events
    {
      if !HasStageHooks(chip) {
        return false;
      }
      var reply := Call(ConfigI2S(chip, mode, iface), lib);
      ok := reply == hdr.resultOk;
    }

    /** begin(codecCfg, pins). The base sequence stores the configuration and pins,
        then runs init, controlState, configInterface and setPAPower(true);
        CS43l22 and WM8994 run their own sequence (BoardBegin), which drives the
        PA pin through the pins of an earlier begin, hence the precondition. */
    method Begin(cfg: CodecConfig, p: DriverPins, lib: ChipLib) returns (ok: bool)
      requires Valid()
      requires IsBoardChip(chip) ==> pins.Some?
      modifies this`codecCfg, this`pins, this`trace
      ensures codecCfg == cfg && pins == Some(p)
      ensures !IsBoardChip(chip) ==>
                ok == BaseBeginStep(chip, hdr, cfg, p, lib).ok &&
                trace == old(trace) + BaseBeginStep(chip, hdr, cfg, p, lib).events
      ensures IsBoardChip(chip) ==>
                ok == BoardBeginStep(chip, hdr, cfg, old(pins).value, p, volume, deviceAddr as int, lib).ok &&
                trace == old(trace) + BoardBeginStep(chip, hdr, cfg, old(pins).value, p, volume, deviceAddr as int, lib).events
    {
      if IsBoardChip(chip) {
        ok := BoardBegin(cfg, p, lib);
        return;
      }
      codecCfg := cfg;
      pins := Some(p);
      ok := Init(lib);
      if !ok {
        return;
      }
      var mode := GetMode(codecCfg);
      ok := ControlState(mode, lib);
      if !ok {
        return;
      }
      var result := ConfigInterface(mode, codecCfg.i2s, lib);
      var _ := SetPAPower(true);
      ok := result;
    }

    /** begin of CS43l22 and WM8994. */
    method BoardBegin(cfg: CodecConfig, p: DriverPins, lib: ChipLib) returns (ok: bool)
      requires Valid() && IsBoardChip(chip) && pins.Some?
      modifies this`codecCfg, this`pins, this`trace
      ensures codecCfg == cfg && pins == Some(p)
      ensures ok == BoardBeginStep(chip, hdr, cfg, old(pins).value, p, volume, deviceAddr as int, lib).ok
      ensures trace == old(trace) + BoardBeginStep(chip, hdr, cfg, old(pins).value, p, volume, deviceAddr as int, lib).events
    {
      codecCfg := cfg;
      var _ := SetPAPower(true);
      pins := Some(p);
      var level := ScaleVolume(hdr, volume);
      var freq := GetFrequency(hdr, codecCfg.i2s.rate);
      var device := GetOutput(hdr, codecCfg.dacOutput);
      if chip == WM8994 && !p.hasCodecI2C {
        return false;
      }
      var reply := Call(BoardInit(chip, deviceAddr as int, device, level, freq), lib);
      ok := reply == 0;
    }

    /** end(), that is deinit(). */
    method End(lib: ChipLib) returns (ok: bool)
      requires IsBoardChip(chip) ==> pins.Some?
      modifies this`trace
      ensures ok == DeinitStep(chip, hdr, pins, deviceAddr as int, lib).ok
      ensures trace == old(trace) + DeinitStep(chip, hdr, pins, deviceAddr as int, lib).events
    {
      if IsBoardChip(chip) {
        var stop := Call(BoardStop(chip, deviceAddr as int, hdr.audioMuteOn), lib);
        var reset := Call(BoardReset(chip, deviceAddr as int), lib);
        var cnt := stop + reset;
        var _ := SetPAPower(false);
        ok := cnt == 0;
      } else {
        var reply := Call(Deinit(chip), lib);
        ok := reply == hdr.resultOk;
      }
    }

    /** setVolume(volume): the chips with a cache store the raw, unclamped argument
        first; the call made is VolumeCall. */
    method SetVolume(v: int, lib: ChipLib) returns (ok: bool)
      modifies this`volume, this`volumeSet, this`trace
      ensures HasVolumeCache(chip) ==> volume == v && volumeSet
      ensures !HasVolumeCache(chip) ==> volume == old(volume) && volumeSet == old(volumeSet)
      ensures trace == old(trace) + [Called(VolumeCall(chip, hdr, deviceAddr as int, v))]
      ensures ok == Accepts(chip, hdr, lib(VolumeCall(chip, hdr, deviceAddr as int, v)))
    {
      if HasVolumeCache(chip) {
        volume := v;
        volumeSet := true;
      }
      var reply := Call(VolumeCall(chip, hdr, deviceAddr as int, v), lib);
      ok := Accepts(chip, hdr, reply);
    }

    /** setMute(enable). ES7243e emulates it with setVolume(0), which overwrites the
        cache, and unmutes with setVolume(volume), re-applying whatever the cache
        then holds; every other adapter makes one mute call. */
    method SetMute(enable: bool, lib: ChipLib) returns (ok: bool)
      modifies this`volume, this`volumeSet, this`trace
      ensures chip == ES7243e ==>
                var level := if enable then 0 else old(volume);
                volume == level && volumeSet &&
                trace == old(trace) + [Called(SetVoiceVolume(ES7243e, Limit(level)))] &&
                ok == Es7243eMuteResult(lib(SetVoiceVolume(ES7243e, Limit(level))) == hdr.resultOk,
                                        hdr.resultOk)
      ensures chip != ES7243e ==>
                volume == old(volume) && volumeSet == old(volumeSet) &&
                trace == old(trace) + [Called(MuteCall(chip, deviceAddr as int, enable))] &&
                ok == Accepts(chip, hdr, lib(MuteCall(chip, deviceAddr as int, enable)))
    {
      if chip == ES7243e {
        var applied := SetVolume(if enable then 0 else volume, lib);
        ok := BoolToInt(applied) == hdr.resultOk;
      } else {
        var reply := Call(MuteCall(chip, deviceAddr as int, enable), lib);
        ok := Accepts(chip, hdr, reply);
      }
    }

    /** getVolume(): CS43l22, ES7210 and WM8994 answer from the cache without a
        chip call; the others read the chip. */
    method GetVolume(lib: ChipLib) returns (v: int)
      requires chip == ES7210 ==> volumeSet
      modifies this`trace
      ensures ReportsCachedVolume(chip) ==> v == volume && trace == old(trace)
      ensures !ReportsCachedVolume(chip) ==>
                v == lib(GetVoiceVolume(chip)) && trace == old(trace) + [Called(GetVoiceVolume(chip))]
    {
      if ReportsCachedVolume(chip) {
        v := volume;
      } else {
        v := Call(GetVoiceVolume(chip), lib);
      }
    }

    /** setMicrophoneGain(gain) of ES8388. */
    method SetMicrophoneGain(gain: int, lib: ChipLib) returns (ok: bool)
      requires chip == ES8388
      modifies this`trace
      ensures trace == old(trace) + [Called(SetMicGain(ES8388, gain))]
      ensures ok == (lib(SetMicGain(ES8388, gain)) == hdr.resultOk)
    {
      var reply := Call(SetMicGain(ES8388, gain), lib);
      ok := reply == hdr.resultOk;
    }

    /** setInputVolume(volume): ES8388 sets the microphone gain MicGain(volume), in
        0..10; the inherited default fails with no call. */
    method SetInputVolume(v: int, lib: ChipLib) returns (ok: bool)
      modifies this`trace
      ensures chip == ES8388 ==>
                trace == old(trace) + [Called(SetMicGain(ES8388, MicGain(v)))] &&
                ok == (lib(SetMicGain(ES8388, MicGain(v))) == hdr.resultOk)
      ensures chip != ES8388 ==> !ok && trace == old(trace)
    {
      if chip != ES8388 {
        return false;
      }
      var gain := Limit(v) / 10;
      ok := SetMicrophoneGain(gain, lib);
    }

    /** isVolumeSupported(): no adapter overrides the default. */
    predicate IsVolumeSupported(): (r: bool)
      ensures r
    {
      true
    }

    /** isInputVolumeSupported(): only ES8388 overrides the default false. */
    function IsInputVolumeSupported(): (r: bool)
      ensures r <==> chip == ES8388
    {
      match chip
      case ES8388 => true
      case _ => false
    }
  }

  /** Setting 70, muting and unmuting an ES7243e: the mute overwrote the cache,
      so the unmute re-applies 0, not 70. */
  method Es7243eMuteForgetsVolume(d: AudioDriver, lib: ChipLib)
    requires d.chip == ES7243e
    modifies d`volume, d`volumeSet, d`trace
    ensures d.volume == 0
    ensures d.trace == old(d.trace) + [Called(SetVoiceVolume(ES7243e, 70)),
                                       Called(SetVoiceVolume(ES7243e, 0)),
                                       Called(SetVoiceVolume(ES7243e, 0))]
  {
    var _ := d.SetVolume(70, lib);
    var _ := d.SetMute(true, lib);
    var _ := d.SetMute(false, lib);
  }

  /** On the adapters that report their cache, getVolume returns the raw argument
      of the last setVolume, out-of-range values included. */
  method CachedVolumeReadBack(d: AudioDriver, v: int, lib: ChipLib) returns (readBack: int)
    requires ReportsCachedVolume(d.chip)
    modifies d`volume, d`volumeSet, d`trace
    ensures readBack == v
  {
    var _ := d.SetVolume(v, lib);
    readBack := d.GetVolume(lib);
  }
}
