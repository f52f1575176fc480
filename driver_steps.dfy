/** The AudioDriver lifecycle as functions: each stage of begin and end gives a
    Step, its verdict and the events it causes. The methods of Drivers.AudioDriver
    are proved to produce exactly these steps; the lemmas here state what the
    steps guarantee (short-circuiting, ordering, when the PA pin is driven). */
module DriverSteps {
  import opened Common
  import opened CodecConfigs
  import opened ChipBus

  datatype Step = Step(ok: bool, events: seq<Event>)

  /** A stage that fails without touching any chip or pin. */
  const Fail: Step := Step(false, [])

  /** One library call that succeeds when it returns RESULT_OK. */
  function StatusCall(hdr: Headers, lib: ChipLib, call: ChipCall): Step
  {
    Step(lib(call) == hdr.resultOk, [Called(call)])
  }

  /** CS43l22 and WM8994: the adapters with a device address and their own begin. */
  predicate IsBoardChip(chip: Chip)
  {
    chip == CS43l22 || chip == WM8994
  }

  /** The adapters that override controlState and configInterface. */
  predicate HasStageHooks(chip: Chip)
  {
    chip in {AC101, ES7210, ES7243, ES7243e, ES8156, ES8311, ES8374}
  }

  /** The adapters whose setVolume stores its argument in a `volume` field. */
  predicate HasVolumeCache(chip: Chip)
  {
    chip in {CS43l22, ES7210, ES7243e, WM8994}
  }

  /** The adapters whose getVolume answers from that field, without a chip call. */
  predicate ReportsCachedVolume(chip: Chip)
  {
    chip in {CS43l22, ES7210, WM8994}
  }

  /** limitVolume(volume, min, max): clamps into [min, max]; when min > max the
      second comparison wins and the result is min. */
  function LimitVolume(volume: int, lo: int, hi: int): (r: int)
    ensures lo <= hi ==> lo <= r <= hi
    ensures lo <= volume <= hi ==> r == volume
    ensures lo <= hi < volume ==> r == hi
    ensures volume < lo ==> r == lo
    ensures hi < lo ==> r == lo
  {
    var capped := if volume > hi then hi else volume;
    if capped < lo then lo else capped
  }

  /** limitVolume with its default range 0..100. */
  function Limit(volume: int): (r: int)
    ensures 0 <= r <= 100
    ensures 0 <= volume <= 100 ==> r == volume
  {
    LimitVolume(volume, 0, 100)
  }

  /** The gain ES8388's setInputVolume passes on: limitVolume(volume) / 10, one of
      0..10, the tenth of the clamped volume rounded down. */
  function MicGain(volume: int): (gain: int)
    ensures 0 <= gain <= 10
    ensures 10 * gain <= Limit(volume) < 10 * gain + 10
  {
    Limit(volume) / 10
  }

  /** setPAPower(enable): an unmapped PA pin fails with no write; otherwise the
      pin is written and the call succeeds. */
  function PAPowerStep(pins: DriverPins, enable: bool): Step
  {
    if pins.paPin == Unmapped then Fail
    else Step(true, [WritePin(pins.paPin, enable)])
  }

  /** init(codec_cfg) of each adapter. Every adapter that overrides it first needs
      the CODEC I2C pins; ES8311 also needs the MCLK_SOURCE pin; ES8374 passes the
      mode of the stored configuration (the same one begin passes in). CS43l22 and
      WM8994 keep the inherited default, which fails. */
  function InitStep(chip: Chip, hdr: Headers, cfg: CodecConfig, pins: DriverPins,
                    lib: ChipLib): Step
  {
    if IsBoardChip(chip) || !pins.hasCodecI2C then Fail
    else
      match chip
      case AC101 =>
        var init := StatusCall(hdr, lib, ChipInit(AC101, cfg));
        Step(init.ok, [Called(SetI2CHandle(AC101))] + init.events)
      case ES8311 =>
        if pins.mclkSourcePin == Unmapped then Fail
        else StatusCall(hdr, lib, Es8311Init(cfg, pins.mclkSourcePin))
      case ES8374 =>
        StatusCall(hdr, lib, Es8374Init(cfg, GetMode(cfg)))
      case _ =>
        StatusCall(hdr, lib, ChipInit(chip, cfg))
  }

  /** controlState(mode); the inherited default fails. */
  function ControlStep(chip: Chip, hdr: Headers, mode: CodecMode, lib: ChipLib): Step
  {
    if HasStageHooks(chip) then StatusCall(hdr, lib, CtrlStateActive(chip, mode)) else Fail
  }

  /** configInterface(mode, iface); the inherited default fails. */
  function InterfaceStep(chip: Chip, hdr: Headers, mode: CodecMode, iface: I2SDefinition,
                         lib: ChipLib): Step
  {
    if HasStageHooks(chip) then StatusCall(hdr, lib, ConfigI2S(chip, mode, iface)) else Fail
  }

  /** AudioDriver::begin after storing the configuration and pins: init, then
      controlState, each returning false at once on failure; then configInterface,
      setPAPower(true), and the result of configInterface. */
  function BaseBeginStep(chip: Chip, hdr: Headers, cfg: CodecConfig, pins: DriverPins,
                         lib: ChipLib): Step
  {
    var init := InitStep(chip, hdr, cfg, pins, lib);
    if !init.ok then Step(false, init.events)
    else
      var mode := GetMode(cfg);
      var ctrl := ControlStep(chip, hdr, mode, lib);
      if !ctrl.ok then Step(false, init.events + ctrl.events)
      else
        var iface := InterfaceStep(chip, hdr, mode, cfg.i2s, lib);
        Step(iface.ok, init.events + ctrl.events + iface.events + PAPowerStep(pins, true).events)
  }

  /** The frequency table of getFrequency, in rate_code order: 11024, not 11025,
      for RATE_11K. */
  const Frequency: seq<int> := [8000, 11024, 16000, 22050, 24000, 32000, 44100, 48000]

  /** getFrequency(rate) of CS43l22 and WM8994: the table frequency of the code,
      44100 for a value that is none of the codes. */
  function GetFrequency(hdr: Headers, rate: int): (f: int)
    requires hdr.Valid()
    ensures forall j | 0 <= j < 8 && hdr.rateCode[j] == rate :: f == Frequency[j]
    ensures (forall j | 0 <= j < 8 :: hdr.rateCode[j] != rate) ==> f == 44100
  {
    var code := hdr.rateCode;
    if rate == code[0] then 8000
    else if rate == code[1] then 11024
    else if rate == code[2] then 16000
    else if rate == code[3] then 22050
    else if rate == code[4] then 24000
    else if rate == code[5] then 32000
    else if rate == code[6] then 44100
    else if rate == code[7] then 48000
    else 44100
  }

  /** getFrequency agrees with rate_num on every code but RATE_11K, where it is
      one below. */
  lemma FrequencyAgreesWithRateNum(hdr: Headers, j: int)
    requires hdr.Valid() && 0 <= j < 8
    ensures j != 1 ==> GetFrequency(hdr, hdr.rateCode[j]) == RateNum[j]
    ensures j == 1 ==> GetFrequency(hdr, hdr.rateCode[j]) == RateNum[j] - 1
  {
  }

  /** getOutput(dac_output) of CS43l22 and WM8994: the output-device mask passed
      to the chip's init. */
  function GetOutput(hdr: Headers, output: DacOutput): (device: int)
    ensures output == DacNone ==> device == 0
    ensures output == DacLine1 ==> device == hdr.outputSpeaker
    ensures output == DacLine2 ==> device == hdr.outputHeadphone
    ensures output == DacAll || output.DacOther? ==> device == hdr.outputBoth
  {
    match output
    case DacNone => 0
    case DacLine1 => hdr.outputSpeaker
    case DacLine2 => hdr.outputHeadphone
    case DacAll => hdr.outputBoth
    case DacOther(_) => hdr.outputBoth
  }

  /** The begin that CS43l22 and WM8994 define instead: setPAPower(true) through
      the pins stored by an EARLIER begin (oldPins), then one combined init call
      with the mapped volume, the frequency and the output mask. WM8994 first
      checks the CODEC I2C pins of the new mapping, after the PA write. */
  function BoardBeginStep(chip: Chip, hdr: Headers, cfg: CodecConfig, oldPins: DriverPins,
                          pins: DriverPins, volume: int, addr: int, lib: ChipLib): Step
    requires hdr.Valid()
  {
    var pa := PAPowerStep(oldPins, true);
    var init := BoardInit(chip, addr, GetOutput(hdr, cfg.dacOutput), ScaleVolume(hdr, volume),
                          GetFrequency(hdr, cfg.i2s.rate));
    if chip == WM8994 && !pins.hasCodecI2C then Step(false, pa.events)
    else Step(lib(init) == 0, pa.events + [Called(init)])
  }

  /** deinit of each adapter (all of them override it). CS43l22 and WM8994 stop
      and reset the chip, switch the PA pin off, and succeed when the two
      results add up to 0; the others make one deinit call. */
  function DeinitStep(chip: Chip, hdr: Headers, pins: Option<DriverPins>, addr: int,
                      lib: ChipLib): Step
    requires IsBoardChip(chip) ==> pins.Some?
  {
    if IsBoardChip(chip) then
      var stop := BoardStop(chip, addr, hdr.audioMuteOn);
      var reset := BoardReset(chip, addr);
      Step(lib(stop) + lib(reset) == 0,
           [Called(stop), Called(reset)] + PAPowerStep(pins.value, false).events)
    else
      StatusCall(hdr, lib, Deinit(chip))
  }

  // ---------------------------------------------------------------------------
  // Properties of begin

  const InitStage: nat := 0
  const ControlStage: nat := 1
  const InterfaceStage: nat := 2
  const PowerStage: nat := 3

  /** The lifecycle stage an event of the base begin belongs to. */
  function StageOf(e: Event): nat
  {
    match e
    case WritePin(_, _) => PowerStage
    case Called(c) =>
      match c
      case CtrlStateActive(_, _) => ControlStage
      case ConfigI2S(_, _, _) => InterfaceStage
      case _ => InitStage
  }

  predicate StagesOrdered(events: seq<Event>)
  {
    forall i, j | 0 <= i < j < |events| :: StageOf(events[i]) <= StageOf(events[j])
  }

  predicate AllAtStage(events: seq<Event>, stage: nat)
  {
    forall i | 0 <= i < |events| :: StageOf(events[i]) == stage
  }

  predicate AllUpToStage(events: seq<Event>, stage: nat)
  {
    forall i | 0 <= i < |events| :: StageOf(events[i]) <= stage
  }

  /** Appending events of one stage to an ordered prefix of earlier stages keeps
      the sequence ordered. */
  lemma AppendInOrder(prefix: seq<Event>, suffix: seq<Event>, stage: nat)
    requires StagesOrdered(prefix) && AllUpToStage(prefix, stage)
    requires AllAtStage(suffix, stage)
    ensures StagesOrdered(prefix + suffix) && AllUpToStage(prefix + suffix, stage)
  {
    var all := prefix + suffix;
    forall i, j | 0 <= i < j < |all|
      ensures StageOf(all[i]) <= StageOf(all[j])
    {
      if j < |prefix| {
        assert all[i] == prefix[i] && all[j] == prefix[j];
      } else if i < |prefix| {
        assert all[i] == prefix[i] && all[j] == suffix[j - |prefix|];
      } else {
        assert all[i] == suffix[i - |prefix|] && all[j] == suffix[j - |prefix|];
      }
    }
    forall i | 0 <= i < |all|
      ensures StageOf(all[i]) <= stage
    {
      if i < |prefix| {
        assert all[i] == prefix[i];
      } else {
        assert all[i] == suffix[i - |prefix|];
      }
    }
  }

  lemma StageEvents(chip: Chip, hdr: Headers, cfg: CodecConfig, pins: DriverPins, lib: ChipLib)
    requires !IsBoardChip(chip)
    ensures AllAtStage(InitStep(chip, hdr, cfg, pins, lib).events, InitStage)
    ensures StagesOrdered(InitStep(chip, hdr, cfg, pins, lib).events)
    ensures AllAtStage(ControlStep(chip, hdr, GetMode(cfg), lib).events, ControlStage)
    ensures AllAtStage(InterfaceStep(chip, hdr, GetMode(cfg), cfg.i2s, lib).events, InterfaceStage)
    ensures AllAtStage(PAPowerStep(pins, true).events, PowerStage)
  {
  }

  /** begin's events come stage by stage: init calls, then controlState, then
      configInterface, then the PA write; never an earlier stage after a later one. */
  lemma BeginStagesInOrder(chip: Chip, hdr: Headers, cfg: CodecConfig, pins: DriverPins,
                           lib: ChipLib)
    requires !IsBoardChip(chip)
    ensures StagesOrdered(BaseBeginStep(chip, hdr, cfg, pins, lib).events)
  {
    var mode := GetMode(cfg);
    var init := InitStep(chip, hdr, cfg, pins, lib);
    var ctrl := ControlStep(chip, hdr, mode, lib);
    var iface := InterfaceStep(chip, hdr, mode, cfg.i2s, lib);
    var pa := PAPowerStep(pins, true);
    StageEvents(chip, hdr, cfg, pins, lib);
    AppendInOrder(init.events, ctrl.events, ControlStage);
    AppendInOrder(init.events + ctrl.events, iface.events, InterfaceStage);
    AppendInOrder(init.events + ctrl.events + iface.events, pa.events, PowerStage);
  }

  /** begin short-circuits: after a failed init nothing but init calls happened;
      after a failed controlState there is no configInterface call and no PA
      write; otherwise begin reports configInterface's verdict. */
  lemma BeginShortCircuits(chip: Chip, hdr: Headers, cfg: CodecConfig, pins: DriverPins,
                           lib: ChipLib)
    requires !IsBoardChip(chip)
    ensures var s := BaseBeginStep(chip, hdr, cfg, pins, lib);
            var init := InitStep(chip, hdr, cfg, pins, lib);
            var ctrl := ControlStep(chip, hdr, GetMode(cfg), lib);
            var iface := InterfaceStep(chip, hdr, GetMode(cfg), cfg.i2s, lib);
            (!init.ok ==> !s.ok && AllUpToStage(s.events, InitStage)) &&
            (init.ok && !ctrl.ok ==> !s.ok && AllUpToStage(s.events, ControlStage)) &&
            (s.ok <==> init.ok && ctrl.ok && iface.ok)
  {
    var mode := GetMode(cfg);
    var init := InitStep(chip, hdr, cfg, pins, lib);
    var ctrl := ControlStep(chip, hdr, mode, lib);
    StageEvents(chip, hdr, cfg, pins, lib);
    if init.ok && !ctrl.ok {
      AppendInOrder(init.events, ctrl.events, ControlStage);
    }
  }

  /** The PA pin is driven during begin exactly when init and controlState both
      succeeded and the pin is mapped; the write switches it on and is the last
      event, whatever configInterface returned. */
  lemma BeginPowersAmplifier(chip: Chip, hdr: Headers, cfg: CodecConfig, pins: DriverPins,
                             lib: ChipLib)
    requires !IsBoardChip(chip)
    ensures var s := BaseBeginStep(chip, hdr, cfg, pins, lib);
            var powered := InitStep(chip, hdr, cfg, pins, lib).ok &&
                           ControlStep(chip, hdr, GetMode(cfg), lib).ok &&
                           pins.paPin != Unmapped;
            (WritePin(pins.paPin, true) in s.events <==> powered) &&
            (forall e | e in s.events && e.WritePin? :: e == WritePin(pins.paPin, true)) &&
            (powered ==> s.events[|s.events| - 1] == WritePin(pins.paPin, true))
  {
    var s := BaseBeginStep(chip, hdr, cfg, pins, lib);
    StageEvents(chip, hdr, cfg, pins, lib);
    BeginShortCircuits(chip, hdr, cfg, pins, lib);
    forall e | e in s.events && e.WritePin?
      ensures e == WritePin(pins.paPin, true)
    {
      var i :| 0 <= i < |s.events| && s.events[i] == e;
      assert StageOf(e) == PowerStage;
    }
  }

  /** ES8388 and TAS5805M never override controlState or configInterface, so their
      begin always fails, right after init, and never drives the PA pin. */
  lemma InheritedHooksFail(chip: Chip, hdr: Headers, cfg: CodecConfig, pins: DriverPins,
                           lib: ChipLib)
    requires chip == ES8388 || chip == TAS5805M
    ensures var s := BaseBeginStep(chip, hdr, cfg, pins, lib);
            !s.ok && s.events == InitStep(chip, hdr, cfg, pins, lib).events &&
            forall e | e in s.events :: !e.WritePin?
  {
  }

  /** Without CODEC I2C pins, begin of an adapter using the base sequence fails
      before any chip call or pin write. */
  lemma MissingI2CFailsSilently(chip: Chip, hdr: Headers, cfg: CodecConfig, pins: DriverPins,
                                lib: ChipLib)
    requires !IsBoardChip(chip) && !pins.hasCodecI2C
    ensures BaseBeginStep(chip, hdr, cfg, pins, lib) == Fail
  {
  }

  /** ES8311 also needs the MCLK_SOURCE pin: without it begin fails before any
      chip call, even with I2C pins. */
  lemma Es8311NeedsMclkSource(hdr: Headers, cfg: CodecConfig, pins: DriverPins, lib: ChipLib)
    requires pins.mclkSourcePin == Unmapped
    ensures BaseBeginStep(ES8311, hdr, cfg, pins, lib) == Fail
  {
  }

  /** The board begin drives the PA pin of the previously stored mapping first.
      WM8994 without CODEC I2C pins then stops with no chip call; CS43l22 never
      checks the I2C pins and always makes its init call. */
  lemma BoardBeginOrder(chip: Chip, hdr: Headers, cfg: CodecConfig, oldPins: DriverPins,
                        pins: DriverPins, volume: int, addr: int, lib: ChipLib)
    requires hdr.Valid() && IsBoardChip(chip)
    ensures var s := BoardBeginStep(chip, hdr, cfg, oldPins, pins, volume, addr, lib);
            (oldPins.paPin != Unmapped ==> s.events[0] == WritePin(oldPins.paPin, true)) &&
            (chip == WM8994 && !pins.hasCodecI2C ==>
               !s.ok && forall e | e in s.events :: !e.Called?) &&
            (chip == CS43l22 ==>
               s.events[|s.events| - 1] ==
                 Called(BoardInit(CS43l22, addr, GetOutput(hdr, cfg.dacOutput),
                                  ScaleVolume(hdr, volume), GetFrequency(hdr, cfg.i2s.rate))))
  {
  }

  /** CS43l22 and WM8994 deinit: always drives a mapped PA pin low, after the stop
      and reset calls, and succeeds exactly when their results add up to 0. */
  lemma BoardDeinitPowersDown(chip: Chip, hdr: Headers, pins: DriverPins, addr: int, lib: ChipLib)
    requires IsBoardChip(chip)
    ensures var s := DeinitStep(chip, hdr, Some(pins), addr, lib);
            (s.ok <==> lib(BoardStop(chip, addr, hdr.audioMuteOn)) + lib(BoardReset(chip, addr)) == 0) &&
            (pins.paPin != Unmapped ==> s.events[|s.events| - 1] == WritePin(pins.paPin, false)) &&
            s.events[..2] == [Called(BoardStop(chip, addr, hdr.audioMuteOn)), Called(BoardReset(chip, addr))]
  {
  }
}
