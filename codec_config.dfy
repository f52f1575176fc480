/** CodecConfig: the I2S configuration with the selected input and output, its
    conversions between numeric and enumerated bit depth and sample rate, and the
    codec mode derived from the input and output selectors. */
module CodecConfigs {
  import opened Common

  /** rate_num: the sample rate, in Hz, of each entry of rate_code. */
  const RateNum: seq<int> := [8000, 11025, 16000, 22050, 24000, 32000, 44100, 48000]

  /** The distance setRateNumeric starts its search with. */
  const InitialDiff: int := 99999

  /** CodecConfig is a value: begin receives and stores a copy of it. */
  datatype CodecConfig = CodecConfig(adcInput: AdcInput, dacOutput: DacOutput, i2s: I2SDefinition)

  /** The default constructor: input LINE1, output ALL, 16 bits, 44.1 kHz, normal
      format, codec as slave. */
  function DefaultConfig(hdr: Headers): (c: CodecConfig)
    requires hdr.Valid()
    ensures GetBitsNumeric(c) == 16 && c.i2s.rate == hdr.rateCode[6]
    ensures GetMode(c) == ModeBoth
  {
    CodecConfig(AdcLine1, DacAll, I2SDefinition(Bits16, hdr.rateCode[6], I2SNormal, RoleSlave))
  }

  predicate SupportedBits(bits: int)
  {
    bits == 16 || bits == 24 || bits == 32
  }

  /** getBitsNumeric: the bit depth as a number, 0 for an unnamed enumerator. */
  function GetBitsNumeric(c: CodecConfig): (n: int)
    ensures SupportedBits(n) || n == 0
    ensures n == 0 <==> c.i2s.bits.BitsOther?
  {
    match c.i2s.bits
    case Bits16 => 16
    case Bits24 => 24
    case Bits32 => 32
    case BitsOther(_) => 0
  }

  /** setBitsNumeric: a supported depth is stored and returned; any other number
      returns 0 and leaves the configuration as it was. Only i2s.bits can change. */
  method SetBitsNumeric(c: CodecConfig, bits: int) returns (r: int, updated: CodecConfig)
    ensures SupportedBits(bits) ==> r == bits && GetBitsNumeric(updated) == bits
    ensures !SupportedBits(bits) ==> r == 0 && updated == c
    ensures updated == c.(i2s := c.i2s.(bits := updated.i2s.bits))
  {
    match bits
    case 16 =>
      updated := c.(i2s := c.i2s.(bits := Bits16));
      r := bits;
    case 24 =>
      updated := c.(i2s := c.i2s.(bits := Bits24));
      r := bits;
    case 32 =>
      updated := c.(i2s := c.i2s.(bits := Bits32));
      r := bits;
    case _ =>
      updated := c;
      r := 0;
  }

  /** getRateNumeric: the rate in Hz of the table entry whose code is i2s.rate,
      or 0 when i2s.rate is none of the codes. */
  method GetRateNumeric(hdr: Headers, c: CodecConfig) returns (n: int)
    requires hdr.Valid()
    ensures forall j | 0 <= j < 8 && hdr.rateCode[j] == c.i2s.rate :: n == RateNum[j]
    ensures (forall j | 0 <= j < 8 :: hdr.rateCode[j] != c.i2s.rate) ==> n == 0
  {
    for j := 0 to 8
      invariant forall k | 0 <= k < j :: hdr.rateCode[k] != c.i2s.rate
    {
      if hdr.rateCode[j] == c.i2s.rate {
        return RateNum[j];
      }
    }
    return 0;
  }

  function Abs(x: int): int
  {
    if x < 0 then -x else x
  }

  /** The distance setRateNumeric compares: from the integer value of the
      enumerator rate_code[j] to the requested number, not from rate_num[j]. */
  function Distance(code: int, rateNum: int): int
  {
    Abs(code - rateNum)
  }

  /** The table index setRateNumeric falls back to when rateNum is not in rate_num:
      the first index whose distance is strictly the smallest and below
      InitialDiff, or index 0 when no distance is below InitialDiff. */
  ghost predicate IsFallbackIndex(codes: seq<int>, rateNum: int, r: int)
    requires |codes| == 8
  {
    0 <= r < 8 &&
    if exists j | 0 <= j < 8 :: Distance(codes[j], rateNum) < InitialDiff then
      Distance(codes[r], rateNum) < InitialDiff &&
      (forall j | 0 <= j < 8 :: Distance(codes[r], rateNum) <= Distance(codes[j], rateNum)) &&
      (forall j | 0 <= j < r :: Distance(codes[r], rateNum) < Distance(codes[j], rateNum))
    else
      r == 0
  }

  /** The fallback index is unique, so setRateNumeric's result is determined. */
  lemma FallbackIndexUnique(codes: seq<int>, rateNum: int, r1: int, r2: int)
    requires |codes| == 8
    requires IsFallbackIndex(codes, rateNum, r1) && IsFallbackIndex(codes, rateNum, r2)
    ensures r1 == r2
  {
  }

  /** setRateNumeric: an exact rate is stored and returned; any other number
      stores the code of the fallback index and returns that entry's rate.
      Only i2s.rate can change. */
  method SetRateNumeric(hdr: Headers, c: CodecConfig, rateNum: int) returns (r: int, updated: CodecConfig)
    requires hdr.Valid()
    ensures updated == c.(i2s := c.i2s.(rate := updated.i2s.rate))
    ensures forall k | 0 <= k < 8 && RateNum[k] == rateNum ::
              r == rateNum && updated.i2s.rate == hdr.rateCode[k]
    ensures rateNum !in RateNum ==>
              exists k :: IsFallbackIndex(hdr.rateCode, rateNum, k) &&
                          r == RateNum[k] && updated.i2s.rate == hdr.rateCode[k]
  {
    var diff := InitialDiff;
    var result := 0;
    for j := 0 to 8
      invariant forall k | 0 <= k < j :: RateNum[k] != rateNum
      invariant 0 <= result < 8 && diff <= InitialDiff
      invariant diff < InitialDiff ==> result < j && diff == Distance(hdr.rateCode[result], rateNum)
      invariant diff == InitialDiff ==> result == 0
      invariant forall k | 0 <= k < j :: diff <= Distance(hdr.rateCode[k], rateNum)
      invariant forall k | 0 <= k < result :: diff < Distance(hdr.rateCode[k], rateNum)
    {
      if RateNum[j] == rateNum {
        updated := c.(i2s := c.i2s.(rate := hdr.rateCode[j]));
        return rateNum, updated;
      } else {
        var newDiff := Abs(hdr.rateCode[j] - rateNum);
        if newDiff < diff {
          result := j;
          diff := newDiff;
        }
      }
    }
    updated := c.(i2s := c.i2s.(rate := hdr.rateCode[result]));
    r := RateNum[result];
    assert IsFallbackIndex(hdr.rateCode, rateNum, result);
  }

  /** Setting a rate and reading it back gives the number setRateNumeric
      returned; for one of the eight table rates that is the requested rate. */
  method SetThenGetRate(hdr: Headers, c: CodecConfig, rateNum: int) returns (applied: int, readBack: int)
    requires hdr.Valid()
    ensures readBack == applied
    ensures rateNum in RateNum ==> applied == rateNum
    ensures applied in RateNum
  {
    var updated;
    applied, updated := SetRateNumeric(hdr, c, rateNum);
    readBack := GetRateNumeric(hdr, updated);
  }

  /** With enumerators numbered 1 to 8, a request for 45000 Hz falls back to
      48000 Hz, not to the nearest rate 44100 Hz: the distance is taken
      from the codes. */
  lemma FallbackMeasuresCodes()
    ensures IsFallbackIndex([1, 2, 3, 4, 5, 6, 7, 8], 45000, 7)
    ensures RateNum[7] == 48000
  {
  }

  /** get_mode: BOTH when input and output are selected, DECODE when only the
      output is, ENCODE when only the input is, NONE otherwise. */
  function GetMode(c: CodecConfig): (m: CodecMode)
    ensures m == ModeBoth <==> c.adcInput != AdcNone && c.dacOutput != DacNone
    ensures m == ModeDecode <==> c.adcInput == AdcNone && c.dacOutput != DacNone
    ensures m == ModeEncode <==> c.adcInput != AdcNone && c.dacOutput == DacNone
    ensures m == ModeNone <==> c.adcInput == AdcNone && c.dacOutput == DacNone
  {
    var isInput := c.adcInput != AdcNone;
    var isOutput := c.dacOutput != DacNone;
    if isInput && isOutput then ModeBoth
    else if isOutput then ModeDecode
    else if isInput then ModeEncode
    else ModeNone
  }
}
