/** The camera's parameter setters: each one caches the logical value in a field
    and translates it into writes on the sensor's register file. The control bus
    is modelled as a sequence of 256 bytes held in a field of the camera, which
    the bus write replaces. */
module Accessors {
  import opened Registers

  /** Capture resolution. `Unrecognized` stands for any other value the
      resolution field can hold. */
  datatype Resolution = QVGA | VGA | Unrecognized(code: int)

  /** Every cached value the camera keeps, as one record. */
  datatype Settings = Settings(
    autoGain: bool, awb: bool, aec: bool, framerate: int, testPattern: bool,
    exposure: int, sharpness: int, contrast: int, brightness: int, hue: int,
    redBalance: int, blueBalance: int, greenBalance: int,
    flipH: bool, flipV: bool, gain: int, saturation: int,
    resolution: Resolution, streaming: bool)

  /** The byte `set_gain` writes to register 0x00 for a requested gain byte `b`:
      the low nibble of `b` is kept, and bits 0x30 of `b` select one of four
      ranges whose high nibble is 0x0, 0x3, 0x7 or 0xF. Bits 0xC0 of `b` are
      ignored. */
  function GainByte(b: bv8): (r: bv8)
    ensures r & 0x0F == b & 0x0F
    ensures b & 0x30 == 0x00 ==> r & 0xF0 == 0x00
    ensures b & 0x30 == 0x10 ==> r & 0xF0 == 0x30
    ensures b & 0x30 == 0x20 ==> r & 0xF0 == 0x70
    ensures b & 0x30 == 0x30 ==> r & 0xF0 == 0xF0
    ensures r == GainByte(b & 0x3F)
  {
    var range := b & 0x30;
    if range == 0x00 then b & 0x0F
    else if range == 0x10 then (b & 0x0F) | 0x30
    else if range == 0x20 then (b & 0x0F) | 0x70
    else (b & 0x0F) | 0xF0 // the remaining case, 0x30
  }

  /** Within the range 0..0x3F the gain remap is strictly increasing: a higher
      requested gain always yields a higher register value. */
  lemma GainByteIncreasing(a: bv8, b: bv8)
    requires a < b <= 0x3F
    ensures GainByte(a) < GainByte(b)
  {
  }

  /** The bytes `set_exposure` writes: register 0x08 gets `e >> 7`, register
      0x10 gets the low byte of `e << 1`. */
  function ExposureRegisters(e: int): (r: (bv8, bv8))
    ensures r.0 as int == (e / 128) % 256
    ensures r.1 as int == (e * 2) % 256
  {
    (ToByte(e / 128), ToByte(e * 2))
  }

  /** Read as one big-endian 16-bit value, the two exposure registers hold
      exactly `2 * e` for every exposure below 0x8000, so halving that value
      gives the exposure back; the lowest bit of register 0x10 is always clear. */
  lemma ExposureRoundTrip(e: int)
    ensures ExposureRegisters(e).1 as int % 2 == 0
    ensures 0 <= e < 0x8000 ==>
      ExposureRegisters(e).0 as int * 256 + ExposureRegisters(e).1 as int == 2 * e
    ensures 0 <= e < 0x8000 ==>
      (ExposureRegisters(e).0 as int * 256 + ExposureRegisters(e).1 as int) / 2 == e
  {
    ExposureSplit(e);
    var hi, lo := ExposureRegisters(e).0 as int, ExposureRegisters(e).1 as int;
    var q, r := e / 128, e % 128;
    assert lo == 2 * r;
    if 0 <= e < 0x8000 {
      assert hi == q;
      assert e == 128 * q + r;
      assert hi * 256 + lo == 2 * (128 * q + r);
    }
  }

  /** The integer arithmetic behind the exposure encoding: `e << 1` modulo 256
      is twice the low seven bits of `e`, and `e >> 7` fits a byte when `e`
      fits 15 bits. */
  lemma ExposureSplit(e: int)
    ensures (e * 2) % 256 == 2 * (e % 128)
    ensures 0 <= e < 0x8000 ==> 0 <= e / 128 < 256
  {
    var q, r := e / 128, e % 128;
    assert e == 128 * q + r;
    assert e * 2 == 256 * q + 2 * r;
  }

  /** The byte written to register 0x0C by `set_flip_status`: bits 0xC0 are
      first cleared, then bit 0x40 is set when the image is not mirrored
      horizontally and bit 0x80 when it is not flipped vertically. */
  function FlipRegister(b: bv8, horizontal: bool, vertical: bool): (r: bv8)
    ensures r & 0x40 != 0 <==> !horizontal
    ensures r & 0x80 != 0 <==> !vertical
    ensures r & 0x3F == b & 0x3F
  {
    var cleared := SetBits(b, 0xC0, false);
    var withH := if !horizontal then SetBits(cleared, 0x40, true) else cleared;
    if !vertical then SetBits(withH, 0x80, true) else withH
  }

  /** A byte widened to 16 bits, as `uint16_t x = (uint8_t)...` does: the
      value is unchanged, so it is never negative and narrowing it back gives
      the byte. */
  function Widen(b: bv8): (w: bv16)
    ensures w < 0x100
    ensures w as bv8 == b
  {
    b as bv16
  }

  /** A camera session: the cached parameters and the sensor's register file. */
  class Camera {
    /** The sensor's register file, addresses 0x00..0xFF. */
    var regs: seq<bv8>

    var autoGain: bool
    var awb: bool
    var aec: bool
    var framerate: int
    var testPattern: bool
    var exposure: int
    var sharpness: int
    var contrast: int
    var brightness: int
    var hue: int
    var redBalance: int
    var blueBalance: int
    var greenBalance: int
    var flipH: bool
    var flipV: bool
    var gain: int
    var saturation: int
    var resolution: Resolution
    var streaming: bool

    ghost predicate Valid()
      reads this
    {
      |regs| == REGISTER_COUNT
    }

    /** The cached values, as one record. */
    ghost function Cached(): Settings
      reads this
    {
      Settings(autoGain, awb, aec, framerate, testPattern, exposure, sharpness,
               contrast, brightness, hue, redBalance, blueBalance, greenBalance,
               flipH, flipV, gain, saturation, resolution, streaming)
    }

    /** A session over a sensor whose registers hold `registerFile`. */
    constructor (registerFile: seq<bv8>, initial: Settings)
      requires |registerFile| == REGISTER_COUNT
      ensures Valid()
      ensures regs == registerFile
      ensures Cached() == initial
    {
      regs := registerFile;
      autoGain, awb, aec, framerate, testPattern := initial.autoGain, initial.awb, initial.aec, initial.framerate, initial.testPattern;
      exposure, sharpness, contrast, brightness, hue := initial.exposure, initial.sharpness, initial.contrast, initial.brightness, initial.hue;
      redBalance, blueBalance, greenBalance := initial.redBalance, initial.blueBalance, initial.greenBalance;
      flipH, flipV, gain, saturation := initial.flipH, initial.flipV, initial.gain, initial.saturation;
      resolution, streaming := initial.resolution, initial.streaming;
    }

    /** Bus read of one register. */
    method RegRead(reg: nat) returns (v: bv8)
      requires Valid() && reg < REGISTER_COUNT
      ensures v == regs[reg]
    {
      v := regs[reg];
    }

    /** Bus write of one register; no other register is touched. */
    method RegWrite(reg: nat, v: bv8)
      requires Valid() && reg < REGISTER_COUNT
      modifies this
      ensures regs == old(regs)[reg := v]
      ensures Cached() == old(Cached())
    {
      regs := regs[reg := v];
    }

    /** Automatic gain control: bit 0x04 of register 0x13 together with the
        gamma selection bits 0x03 of register 0x64. */
    method SetAutoGain(val: bool)
      requires Valid()
      modifies this
      ensures Valid()
      ensures Cached() == old(Cached()).(autoGain := val)
      ensures BitsWritten(old(regs), regs, 0x13, 0x04, val)
      ensures BitsWritten(old(regs), regs, 0x64, 0x03, val)
      ensures OnlyChanged(old(regs), regs, {0x13, 0x64})
    {
      autoGain := val;
      if val {
        var r := RegRead(0x13);
        RegWrite(0x13, SetBits(r, 0x04, true));
        r := RegRead(0x64);
        RegWrite(0x64, SetBits(r, 0x03, true));
      } else {
        var r := RegRead(0x13);
        RegWrite(0x13, SetBits(r, 0x04, false));
        r := RegRead(0x64);
        RegWrite(0x64, SetBits(r, 0x03, false));
      }
    }

    /** Automatic white balance: bit 0x02 of register 0x13 together with the
        white-balance calculation bit 0x40 of register 0x63. */
    method SetAwb(val: bool)
      requires Valid()
      modifies this
      ensures Valid()
      ensures Cached() == old(Cached()).(awb := val)
      ensures BitsWritten(old(regs), regs, 0x13, 0x02, val)
      ensures BitsWritten(old(regs), regs, 0x63, 0x40, val)
      ensures OnlyChanged(old(regs), regs, {0x13, 0x63})
    {
      awb := val;
      if val {
        var r := RegRead(0x13);
        RegWrite(0x13, SetBits(r, 0x02, true));
        r := RegRead(0x63);
        RegWrite(0x63, SetBits(r, 0x40, true));
      } else {
        var r := RegRead(0x13);
        RegWrite(0x13, SetBits(r, 0x02, false));
        r := RegRead(0x63);
        RegWrite(0x63, SetBits(r, 0x40, false));
      }
    }

    /** Automatic exposure control: bit 0x01 of register 0x13 alone. */
    method SetAec(val: bool)
      requires Valid()
      modifies this
      ensures Valid()
      ensures Cached() == old(Cached()).(aec := val)
      ensures BitsWritten(old(regs), regs, 0x13, 0x01, val)
      ensures OnlyChanged(old(regs), regs, {0x13})
    {
      aec := val;
      if val {
        var r := RegRead(0x13);
        RegWrite(0x13, SetBits(r, 0x01, true));
      } else {
        var r := RegRead(0x13);
        RegWrite(0x13, SetBits(r, 0x01, false));
      }
    }

    /** The frame rate may change only while the camera is not streaming; then
        it becomes the rate `normalize` picks for `val`. No register is written
        either way. */
    method SetFramerate(val: int, normalize: int -> int)
      modifies this
      ensures old(streaming) ==> Cached() == old(Cached())
      ensures !old(streaming) ==> Cached() == old(Cached()).(framerate := normalize(val))
      ensures regs == old(regs)
    {
      if !streaming {
        framerate := normalize(val);
      }
    }

    /** Test pattern: bit 0x01 of register 0x0C. */
    method SetTestPatternStatus(enable: bool)
      requires Valid()
      modifies this
      ensures Valid()
      ensures Cached() == old(Cached()).(testPattern := enable)
      ensures BitsWritten(old(regs), regs, 0x0C, 0x01, enable)
      ensures OnlyChanged(old(regs), regs, {0x0C})
    {
      testPattern := enable;
      var val := RegRead(0x0C);
      val := SetBits(val, 0x01, false);
      if testPattern {
        val := SetBits(val, 0x01, true);
      }
      SetBitsAbsorbs(old(regs[0x0C]), 0x01, enable);
      RegWrite(0x0C, val);
    }

    /** Exposure: the split encoding of `ExposureRegisters` into registers 0x08
        and 0x10. */
    method SetExposure(val: int)
      requires Valid()
      modifies this
      ensures Valid()
      ensures Cached() == old(Cached()).(exposure := val)
      ensures regs[0x08] == ExposureRegisters(val).0 && regs[0x10] == ExposureRegisters(val).1
      ensures OnlyChanged(old(regs), regs, {0x08, 0x10})
    {
      exposure := val;
      RegWrite(0x08, ToByte(exposure / 128));
      RegWrite(0x10, ToByte(exposure * 2));
    }

    /** Sharpness: the same byte to both noise thresholds, 0x91 and 0x8E. */
    method SetSharpness(val: int)
      requires Valid()
      modifies this
      ensures Valid()
      ensures Cached() == old(Cached()).(sharpness := val)
      ensures regs[0x91] == ToByte(val) && regs[0x8E] == ToByte(val)
      ensures OnlyChanged(old(regs), regs, {0x91, 0x8E})
    {
      sharpness := val;
      RegWrite(0x91, ToByte(sharpness));
      RegWrite(0x8E, ToByte(sharpness));
    }

    /** Contrast: a full-byte write of register 0x9C. */
    method SetContrast(val: int)
      requires Valid()
      modifies this
      ensures Valid()
      ensures Cached() == old(Cached()).(contrast := val)
      ensures regs[0x9C] == ToByte(val)
      ensures OnlyChanged(old(regs), regs, {0x9C})
    {
      contrast := val;
      RegWrite(0x9C, ToByte(contrast));
    }

    /** Brightness: a full-byte write of register 0x9B. */
    method SetBrightness(val: int)
      requires Valid()
      modifies this
      ensures Valid()
      ensures Cached() == old(Cached()).(brightness := val)
      ensures regs[0x9B] == ToByte(val)
      ensures OnlyChanged(old(regs), regs, {0x9B})
    {
      brightness := val;
      RegWrite(0x9B, ToByte(brightness));
    }

    /** Hue: the cosine byte goes to 0xA9, the sine byte to 0xAA, and the sign
        bit 0x02 of register 0xAB is always cleared, because the sine byte is
        held in an unsigned variable whose "negative" test never holds.
        `sinByte` and `cosByte` give `(uint8_t)(sin(x) * 0x80)` and
        `(uint8_t)(cos(x) * 0x80)`, which the model does not compute. */
    method SetHue(val: int, sinByte: int -> bv8, cosByte: int -> bv8)
      requires Valid()
      modifies this
      ensures Valid()
      ensures Cached() == old(Cached()).(hue := val)
      ensures BitsWritten(old(regs), regs, 0xAB, 0x02, false)
      ensures regs[0xA9] == cosByte(val - 90) && regs[0xAA] == sinByte(val - 90)
      ensures OnlyChanged(old(regs), regs, {0xAB, 0xA9, 0xAA})
    {
      hue := val;
      var angle := val - 90;
      var huesin: bv16 := Widen(sinByte(angle));
      var huecos: bv16 := Widen(cosByte(angle));
      if huesin < 0 {
        // An unsigned 16-bit value is never negative: the sign bit is never set.
        assert false;
      } else {
        var r := RegRead(0xAB);
        RegWrite(0xAB, SetBits(r, 0x02, false));
      }
      RegWrite(0xA9, huecos as bv8);
      RegWrite(0xAA, huesin as bv8);
    }

    /** Red channel gain of the white balance: register 0x02. */
    method SetRedBalance(val: int)
      requires Valid()
      modifies this
      ensures Valid()
      ensures Cached() == old(Cached()).(redBalance := val)
      ensures regs[0x02] == ToByte(val)
      ensures OnlyChanged(old(regs), regs, {0x02})
    {
      redBalance := val;
      RegWrite(0x02, ToByte(redBalance));
    }

    /** Blue channel gain of the white balance: register 0x01. */
    method SetBlueBalance(val: int)
      requires Valid()
      modifies this
      ensures Valid()
      ensures Cached() == old(Cached()).(blueBalance := val)
      ensures regs[0x01] == ToByte(val)
      ensures OnlyChanged(old(regs), regs, {0x01})
    {
      blueBalance := val;
      RegWrite(0x01, ToByte(blueBalance));
    }

    /** Green channel gain of the white balance: register 0x03. */
    method SetGreenBalance(val: int)
      requires Valid()
      modifies this
      ensures Valid()
      ensures Cached() == old(Cached()).(greenBalance := val)
      ensures regs[0x03] == ToByte(val)
      ensures OnlyChanged(old(regs), regs, {0x03})
    {
      greenBalance := val;
      RegWrite(0x03, ToByte(greenBalance));
    }

    /** Mirroring, in register 0x0C with inverted sense: bit 0x40 is set exactly
        when the image is NOT flipped horizontally, bit 0x80 exactly when it is
        NOT flipped vertically; the other six bits are kept. */
    method SetFlipStatus(horizontal: bool, vertical: bool)
      requires Valid()
      modifies this
      ensures Valid()
      ensures Cached() == old(Cached()).(flipH := horizontal, flipV := vertical)
      ensures regs[0x0C] == FlipRegister(old(regs[0x0C]), horizontal, vertical)
      ensures OnlyChanged(old(regs), regs, {0x0C})
    {
      flipH := horizontal;
      flipV := vertical;
      var val := RegRead(0x0C);
      val := SetBits(val, 0xC0, false);
      if !horizontal {
        val := SetBits(val, 0x40, true);
      }
      if !vertical {
        val := SetBits(val, 0x80, true);
      }
      RegWrite(0x0C, val);
    }

    /** Gain: the requested value is cached unchanged, and register 0x00 gets
        the remap `GainByte` of the request's low byte: the switch masks an
        `int` only with constants below 0x100, so only the low byte matters. */
    method SetGain(val: int)
      requires Valid()
      modifies this
      ensures Valid()
      ensures Cached() == old(Cached()).(gain := val)
      ensures regs[0x00] == GainByte(ToByte(val))
      ensures OnlyChanged(old(regs), regs, {0x00})
    {
      gain := val;
      RegWrite(0x00, GainByte(ToByte(gain)));
    }

    /** Saturation: the same byte to the U and V saturation registers, 0xA7 and 0xA8. */
    method SetSaturation(val: int)
      requires Valid()
      modifies this
      ensures Valid()
      ensures Cached() == old(Cached()).(saturation := val)
      ensures regs[0xA7] == ToByte(val) && regs[0xA8] == ToByte(val)
      ensures OnlyChanged(old(regs), regs, {0xA7, 0xA8})
    {
      saturation := val;
      RegWrite(0xA7, ToByte(saturation));
      RegWrite(0xA8, ToByte(saturation));
    }

    /** Frame dimensions of the current resolution: QVGA is 320x240, and VGA as
        well as every unrecognised value is 640x480. Both keep a 4:3 aspect. */
    function Size(): (wh: (int, int))
      reads this
      ensures resolution == QVGA <==> wh == (320, 240)
      ensures resolution != QVGA <==> wh == (640, 480)
      ensures wh.0 * 3 == wh.1 * 4
    {
      match resolution
      case QVGA => (320, 240)
      case _ => (640, 480)
    }
  }
}
