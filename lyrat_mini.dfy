/** AudioDriverLyratMiniClass: a board with an ES8311 DAC and an ES7243 ADC
    driven as one codec. It owns the two adapters; no chip library is called
    directly. */
module LyratMini {
  import opened Common
  import opened CodecConfigs
  import opened ChipBus
  import opened DriverSteps
  import opened Drivers

  class AudioDriverLyratMini {
    const dac: AudioDriver
    const adc: AudioDriver

    ghost predicate Valid()
    {
      dac != adc && dac.chip == ES8311 && adc.chip == ES7243 &&
      dac.Valid() && adc.Valid() && dac.hdr == adc.hdr
    }

    constructor (hdr: Headers)
      requires hdr.Valid()
      ensures Valid() && fresh(dac) && fresh(adc) && dac.hdr == hdr
      ensures dac.trace == [] && adc.trace == []
      ensures dac.codecCfg == DefaultConfig(hdr) && adc.codecCfg == DefaultConfig(hdr)
      ensures dac.pins == None && adc.pins == None
    {
      dac := new AudioDriver(ES8311, hdr);
      adc := new AudioDriver(ES7243, hdr);
    }

    /** begin: starts the DAC only when an output is selected and the ADC only when
        an input is selected, and succeeds when every begin it made succeeded
        (so also when it made none). */
    method Begin(cfg: CodecConfig, p: DriverPins, lib: ChipLib) returns (ok: bool)
      requires Valid()
      modifies dac`codecCfg, dac`pins, dac`trace, adc`codecCfg, adc`pins, adc`trace
      ensures Valid()
      ensures cfg.dacOutput != DacNone ==>
                dac.codecCfg == cfg && dac.pins == Some(p) && dac.volume == old(dac.volume) &&
                dac.trace == old(dac.trace) + BaseBeginStep(ES8311, dac.hdr, cfg, p, lib).events
      ensures cfg.dacOutput == DacNone ==> unchanged(dac)
      ensures cfg.adcInput != AdcNone ==>
                adc.codecCfg == cfg && adc.pins == Some(p) && adc.volume == old(adc.volume) &&
                adc.trace == old(adc.trace) + BaseBeginStep(ES7243, adc.hdr, cfg, p, lib).events
      ensures cfg.adcInput == AdcNone ==> unchanged(adc)
      ensures ok <==> (cfg.dacOutput != DacNone ==> BaseBeginStep(ES8311, dac.hdr, cfg, p, lib).ok) &&
                      (cfg.adcInput != AdcNone ==> BaseBeginStep(ES7243, adc.hdr, cfg, p, lib).ok)
    {
      var rc := 0;
      if cfg.dacOutput != DacNone {
        var started := dac.Begin(cfg, p, lib);
        rc := rc + BoolToInt(!started);
      }
      if cfg.adcInput != AdcNone {
        var started := adc.Begin(cfg, p, lib);
        rc := rc + BoolToInt(!started);
      }
      ok := rc == 0;
    }

    /** end: always ends both adapters, but adds up their SUCCESSES, so it reports
        success exactly when both of them failed. */
    method End(lib: ChipLib) returns (ok: bool)
      requires Valid()
      modifies dac`trace, adc`trace
      ensures dac.trace == old(dac.trace) + [Called(Deinit(ES8311))]
      ensures adc.trace == old(adc.trace) + [Called(Deinit(ES7243))]
      ensures ok <==> !DeinitStep(ES8311, dac.hdr, dac.pins, dac.deviceAddr as int, lib).ok &&
                      !DeinitStep(ES7243, adc.hdr, adc.pins, adc.deviceAddr as int, lib).ok
      ensures ok <==> lib(Deinit(ES8311)) != dac.hdr.resultOk && lib(Deinit(ES7243)) != dac.hdr.resultOk
    {
      var rc := 0;
      var dacEnded := dac.End(lib);
      rc := rc + BoolToInt(dacEnded);
      var adcEnded := adc.End(lib);
      rc := rc + BoolToInt(adcEnded);
      ok := rc == 0;
    }

    /** setMute goes to the DAC only. */
    method SetMute(enable: bool, lib: ChipLib) returns (ok: bool)
      requires Valid()
      modifies dac`volume, dac`volumeSet, dac`trace
      ensures dac.trace == old(dac.trace) + [Called(SetVoiceMute(ES8311, enable))]
      ensures dac.volume == old(dac.volume) && dac.volumeSet == old(dac.volumeSet)
      ensures ok == (lib(SetVoiceMute(ES8311, enable)) == dac.hdr.resultOk)
      ensures unchanged(adc)
    {
      ok := dac.SetMute(enable, lib);
    }

    /** setVolume goes to the DAC only, clamped to 0..100. */
    method SetVolume(v: int, lib: ChipLib) returns (ok: bool)
      requires Valid()
      modifies dac`volume, dac`volumeSet, dac`trace
      ensures dac.trace == old(dac.trace) + [Called(SetVoiceVolume(ES8311, Limit(v)))]
      ensures dac.volume == old(dac.volume) && dac.volumeSet == old(dac.volumeSet)
      ensures ok == (lib(SetVoiceVolume(ES8311, Limit(v))) == dac.hdr.resultOk)
      ensures unchanged(adc)
    {
      ok := dac.SetVolume(v, lib);
    }

    /** getVolume reads the DAC. */
    method GetVolume(lib: ChipLib) returns (v: int)
      requires Valid()
      modifies dac`trace
      ensures dac.trace == old(dac.trace) + [Called(GetVoiceVolume(ES8311))]
      ensures v == lib(GetVoiceVolume(ES8311))
      ensures unchanged(adc)
    {
      v := dac.GetVolume(lib);
    }

    /** setInputVolume is the ADC's setVolume, clamped to 0..100. */
    method SetInputVolume(v: int, lib: ChipLib) returns (ok: bool)
      requires Valid()
      modifies adc`volume, adc`volumeSet, adc`trace
      ensures adc.trace == old(adc.trace) + [Called(SetVoiceVolume(ES7243, Limit(v)))]
      ensures adc.volume == old(adc.volume) && adc.volumeSet == old(adc.volumeSet)
      ensures ok == (lib(SetVoiceVolume(ES7243, Limit(v))) == adc.hdr.resultOk)
      ensures unchanged(dac)
    {
      ok := adc.SetVolume(v, lib);
    }

    /** getInputVolume reads the ADC. */
    method GetInputVolume(lib: ChipLib) returns (v: int)
      requires Valid()
      modifies adc`trace
      ensures adc.trace == old(adc.trace) + [Called(GetVoiceVolume(ES7243))]
      ensures v == lib(GetVoiceVolume(ES7243))
      ensures unchanged(dac)
    {
      v := adc.GetVolume(lib);
    }

    /** isInputVolumeSupported() is overridden to true. */
    predicate IsInputVolumeSupported(): (r: bool)
      ensures r
    {
      true
    }
  }

  /** With no output and an input selected, begin starts only the ADC and reports
      its result; a later setVolume reaches the DAC alone and leaves the ADC,
      its trace and its volume untouched. */
  method InputOnlyBoard(board: AudioDriverLyratMini, cfg: CodecConfig, p: DriverPins, lib: ChipLib)
    returns (started: bool)
    requires board.Valid() && cfg.dacOutput == DacNone && cfg.adcInput != AdcNone
    modifies board.dac`codecCfg, board.dac`pins, board.dac`volume, board.dac`volumeSet, board.dac`trace
    modifies board.adc`codecCfg, board.adc`pins, board.adc`trace
    ensures board.dac.trace == old(board.dac.trace) + [Called(SetVoiceVolume(ES8311, 50))]
    ensures started == BaseBeginStep(ES7243, board.adc.hdr, cfg, p, lib).ok
    ensures board.adc.trace == old(board.adc.trace) + BaseBeginStep(ES7243, board.adc.hdr, cfg, p, lib).events
    ensures board.adc.volume == old(board.adc.volume)
  {
    started := board.Begin(cfg, p, lib);
    var _ := board.SetVolume(50, lib);
  }
}
