/**
 * The arithmetic of the AXP228 charger driver: ADC sample conversions, the encodings of
 * the charge and input current limits, and the bytes its probe writes into the power-key,
 * IPS, warning-level, battery-resistance and full-capacity registers.
 */
module Axp228ChargerCodec {
  import opened Wrappers
  import opened CTypes
  import opened Bits

  /** A C `uint16_t`. */
  type U16 = x: int | 0 <= x < 0x1_0000

  // ---------------------------------------------------------------------------------
  // ADC samples
  // ---------------------------------------------------------------------------------

  /**
   * The 12-bit ADC sample held in a result register pair read as one 16-bit word: the
   * high byte supplies bits 11..4 and the low nibble of the low byte bits 3..0.
   * (On the non-negative word, C's shifts are divisions and multiplications by powers of
   * two, and the OR joins disjoint bit ranges, so it is a sum.)
   */
  function AdcCode(reg: U16): (code: int)
    ensures 0 <= code < 4096
    ensures code / 16 == reg / 256 && code % 16 == reg % 16
  {
    (reg / 256) * 16 + reg % 16
  }

  /** The sample scaled by `perMille` / 1000 with C's truncating division: the largest `r` with `1000 r <= code * perMille`. */
  function AdcScaled(reg: U16, perMille: nat): (r: int)
    ensures 0 <= r
    ensures r * 1000 <= AdcCode(reg) * perMille < (r + 1) * 1000
  {
    AdcCode(reg) * perMille / 1000
  }

  /** Lemma for the bounds below: scaling is monotone in the sample. */
  lemma ScaledBound(reg: U16, perMille: nat)
    ensures AdcScaled(reg, perMille) <= 4095 * perMille / 1000
  {
    var code := AdcCode(reg);
    assert code * perMille <= 4095 * perMille by {
      assert code <= 4095;
    }
  }

  /** Battery voltage in mV (1.1 mV per step). */
  function VbatToMv(reg: U16): (mv: int)
    ensures 0 <= mv <= 4504
  {
    ScaledBound(reg, 1100);
    AdcScaled(reg, 1100)
  }

  /** Open-circuit battery voltage in mV (1.1 mV per step). */
  function OcvbatToMv(reg: U16): (mv: int)
    ensures 0 <= mv <= 4504
  {
    ScaledBound(reg, 1100);
    AdcScaled(reg, 1100)
  }

  /** Input (VBUS/ACIN) voltage in mV (1.7 mV per step). */
  function VdcToMv(reg: U16): (mv: int)
    ensures 0 <= mv <= 6961
  {
    ScaledBound(reg, 1700);
    AdcScaled(reg, 1700)
  }

  /** Battery discharge current in mA (1 mA per step). */
  function IbatToMa(reg: U16): (ma: int)
    ensures 0 <= ma <= 4095
  {
    AdcCode(reg)
  }

  /** Battery charge current in mA (1 mA per step). */
  function IchargeToMa(reg: U16): (ma: int)
    ensures 0 <= ma <= 4095
  {
    AdcCode(reg)
  }

  /** Adapter current in mA (0.625 mA per step). */
  function IacToMa(reg: U16): (ma: int)
    ensures 0 <= ma <= 2559
  {
    ScaledBound(reg, 625);
    AdcScaled(reg, 625)
  }

  /** USB current in mA (0.375 mA per step). */
  function IusbToMa(reg: U16): (ma: int)
    ensures 0 <= ma <= 1535
  {
    ScaledBound(reg, 375);
    AdcScaled(reg, 375)
  }

  // ---------------------------------------------------------------------------------
  // Charge current and adapter current limit: 300 mA + 150 mA per step, 16 steps
  // ---------------------------------------------------------------------------------

  const CURRENT_MIN := 300000
  const CURRENT_MAX := 2550000
  const CURRENT_STEP := 150000

  /**
   * The 4-bit code for a requested current in microamps. Requests below the range get
   * code 0 and above it code 15; inside it the code is the step whose current lies in
   * `[request - 99999, request + 50000]`.
   */
  function CurrentCode(uA: int): (code: int)
    ensures 0 <= code < 16
    ensures uA < CURRENT_MIN ==> code == 0
    ensures uA > CURRENT_MAX ==> code == 15
    ensures CURRENT_MIN <= uA <= CURRENT_MAX ==>
      200001 + CURRENT_STEP * code <= uA < 200001 + CURRENT_STEP * (code + 1)
  {
    if CURRENT_MIN <= uA <= CURRENT_MAX then (uA - 200001) / CURRENT_STEP
    else if uA < CURRENT_MIN then 0
    else 15
  }

  /** The current in microamps a register nibble selects. */
  function CurrentOf(nibble: int): (uA: int)
    requires 0 <= nibble < 16
    ensures CURRENT_MIN <= uA <= CURRENT_MAX
    ensures uA == CURRENT_MIN + nibble * CURRENT_STEP
  {
    (nibble * 150 + 300) * 1000
  }

  /** Decoding a code and encoding the current again gives the code back. */
  lemma CurrentCodeRoundTrip(nibble: int)
    requires 0 <= nibble < 16
    ensures CurrentCode(CurrentOf(nibble)) == nibble
  {
    var uA := CurrentOf(nibble);
    var code := CurrentCode(uA);
    assert 200001 + CURRENT_STEP * code <= uA < 200001 + CURRENT_STEP * (code + 1);
  }

  /**
   * The current the encoded request selects is the request, clamped to the supported
   * range, rounded to a step at most 50 mA below it or less than 100 mA above it.
   */
  lemma CurrentCodeNear(uA: int)
    ensures var d := CurrentOf(CurrentCode(uA)) - Clamp(uA, CURRENT_MIN, CURRENT_MAX);
      -50000 <= d <= 99999
  {
  }

  // ---------------------------------------------------------------------------------
  // USB input current limit: IPS_SET bits 1..0
  // ---------------------------------------------------------------------------------

  /** The USB input current limit in microamps that IPS_SET selects; 0 stands for no limit. */
  function UsbLimitOf(ips: bv8): (uA: int)
    ensures FieldIs(ips, 3, 0) ==> uA == 900000
    ensures FieldIs(ips, 3, 1) ==> uA == 500000
    ensures uA == 0 <==> AllSet(ips, 2)
  {
    if FieldIs(ips, 3, 0) then 900 * 1000
    else if FieldIs(ips, 3, 1) then 500 * 1000
    else 0
  }

  /** The IPS_SET code for a requested USB current limit. */
  function UsbLimitCode(uA: int): (code: bv8)
    ensures code == 0 || code == 1 || code == 3
  {
    if uA < 900000 then 0x01 else if uA < 1500000 then 0x00 else 0x03
  }

  /** Codes 0 and 1 survive decoding and encoding again; codes 2 and 3 ("no limit") come back as 1. */
  lemma UsbLimitRoundTrip(ips: bv8)
    ensures FieldIs(ips, 3, 0) ==> UsbLimitCode(UsbLimitOf(ips)) == 0
    ensures FieldIs(ips, 3, 1) ==> UsbLimitCode(UsbLimitOf(ips)) == 1
    ensures AllSet(ips, 2) ==> UsbLimitCode(UsbLimitOf(ips)) == 1
  {
  }

  /**
   * A request of 0.5 A up to 1.5 A gets the largest supported limit (0.5 A or 0.9 A) not
   * above it; a smaller one still gets 0.5 A, a larger one no limit.
   */
  lemma UsbLimitChoice(uA: int)
    ensures 500000 <= uA < 1500000 ==>
      var l := UsbLimitOf(UsbLimitCode(uA));
      (l == 500000 || l == 900000) && l <= uA && (900000 <= uA ==> l == 900000)
    ensures uA < 500000 ==> UsbLimitOf(UsbLimitCode(uA)) == 500000
    ensures uA >= 1500000 ==> UsbLimitOf(UsbLimitCode(uA)) == 0
  {
  }

  // ---------------------------------------------------------------------------------
  // POK_SET: power-key timings
  // ---------------------------------------------------------------------------------

  /** The power-on press time field (bits 7..6): whole seconds, 3 for 3 s and more. */
  function PekOnBits(ms: int): (b: bv8)
    ensures NoneSet(b, 0x3F)
    ensures b == 0x00 <==> ms < 1000
    ensures b == 0x40 <==> 1000 <= ms < 2000
    ensures b == 0x80 <==> 2000 <= ms < 3000
    ensures b == 0xC0 <==> ms >= 3000
  {
    if ms < 1000 then 0x00 else if ms < 2000 then 0x40 else if ms < 3000 then 0x80 else 0xC0
  }

  /** The long-press time code (bits 5..4): 1 s + 0.5 s per step, the request clamped to 1..2.5 s and rounded down. */
  function PekLongCode(ms: int): (k: int)
    ensures 0 <= k < 4
    ensures 1000 + 500 * k <= Clamp(ms, 1000, 2500) < 1500 + 500 * k
  {
    (Clamp(ms, 1000, 2500) - 1000) / 500
  }

  /** The power-off press time code (bits 1..0): 4 s + 2 s per step, the request clamped to 4..10 s and rounded down. */
  function PekOffCode(ms: int): (k: int)
    ensures 0 <= k < 4
    ensures 4000 + 2000 * k <= Clamp(ms, 4000, 10000) < 6000 + 2000 * k
  {
    (Clamp(ms, 4000, 10000) - 4000) / 2000
  }

  /** `0x00`, or `bit` when the flag is not zero: how the driver turns a boolean property into a register bit. */
  function FlagBit(flag: int, bit: bv8): (b: bv8)
    ensures flag != 0 ==> b == bit
    ensures flag == 0 ==> b == 0
  {
    if flag != 0 then bit else 0
  }

  /** Replace the bits of `mask` in `v` by `bits`. */
  function SetField(v: bv8, mask: bv8, bits: bv8): (r: bv8)
  {
    (v & !mask) | bits
  }

  /** A field replaced by bits inside its mask reads those bits, and nothing else changes. */
  lemma SetFieldEffect(v: bv8, mask: bv8, bits: bv8)
    requires NoneSet(bits, !mask)
    ensures FieldIs(SetField(v, mask, bits), mask, bits)
    ensures SameOutside(SetField(v, mask, bits), v, mask)
  {
  }

  /** The four-valued codes used in the low bit pairs fit those pairs. */
  lemma TwoBitCode(k: int)
    requires 0 <= k < 4
    ensures NoneSet(Low8(k), !3) && NoneSet(Low8(k) << 4, !0x30)
  {
    assert Low8(k) < 4;
    SmallFieldFits(Low8(k));
  }

  /** A byte below 4 fits bits 1..0 and, shifted, bits 5..4; a byte below 8 fits bits 5..3 once shifted. */
  lemma SmallFieldFits(b: bv8)
    ensures b < 4 ==> NoneSet(b, !3) && NoneSet(b << 4, !0x30)
    ensures b < 8 ==> NoneSet(b << 3, !0x38)
  {
  }

  /** The power-key properties the probe applies to POK_SET; an absent one leaves its field alone. */
  datatype PekConfig = PekConfig(
    pekOn: Option<int>, pekLong: Option<int>, pekOffEn: Option<int>,
    pekOffRestart: Option<int>, pekOff: Option<int>)

  /** Replace the bits of `mask` in `v` when a property was read, and keep `v` otherwise. */
  function SetIfRead(v: bv8, mask: bv8, bits: Option<bv8>): bv8
  {
    if bits.Some? then SetField(v, mask, bits.value) else v
  }

  /** Bits inside the mask, when a property was read. */
  predicate FitsMask(bits: Option<bv8>, mask: bv8) {
    bits.Some? ==> NoneSet(bits.value, !mask)
  }

  /** A field replaced from a read property holds the property's bits; an absent one keeps its bits. */
  lemma SetIfReadField(v: bv8, mask: bv8, bits: Option<bv8>)
    requires FitsMask(bits, mask)
    ensures SetIfRead(v, mask, bits) & mask == if bits.Some? then bits.value else v & mask
  {
    if bits.Some? {
      SetFieldEffect(v, mask, bits.value);
    }
  }

  /** Replacing a field, or not, leaves every bit of a disjoint mask as it was. */
  lemma SetIfReadKeeps(v: bv8, mask: bv8, bits: Option<bv8>, other: bv8)
    requires FitsMask(bits, mask) && mask & other == 0
    ensures SetIfRead(v, mask, bits) & other == v & other
  {
    if bits.Some? {
      SetFieldEffect(v, mask, bits.value);
      assert SetIfRead(v, mask, bits) & !mask == v & !mask;
    }
  }

  /** The bits 7..6 for a `pek_on` that was read. */
  function PekOnField(o: Option<int>): (b: Option<bv8>)
    ensures FitsMask(b, 0xC0)
  {
    if o.Some? then Some(PekOnBits(o.value)) else None
  }

  /** The bits 5..4 for a `pek_long` that was read. */
  function PekLongField(o: Option<int>): (b: Option<bv8>)
    ensures FitsMask(b, 0x30)
  {
    if o.Some? then TwoBitCode(PekLongCode(o.value)); Some(Low8(PekLongCode(o.value)) << 4) else None
  }

  /** The bit `bit` for a flag that was read. */
  function FlagField(o: Option<int>, bit: bv8): (b: Option<bv8>)
    ensures FitsMask(b, bit)
  {
    if o.Some? then Some(FlagBit(o.value, bit)) else None
  }

  /** The bits 1..0 for a `pek_off` that was read. */
  function PekOffField(o: Option<int>): (b: Option<bv8>)
    ensures FitsMask(b, 0x03)
  {
    if o.Some? then TwoBitCode(PekOffCode(o.value)); Some(Low8(PekOffCode(o.value))) else None
  }

  /** The byte the probe writes to POK_SET, starting from the byte it read. */
  function PokSetValue(reg: bv8, p: PekConfig): (r: bv8)
  {
    var r1 := SetIfRead(reg, 0xC0, PekOnField(p.pekOn));
    var r2 := SetIfRead(r1, 0x30, PekLongField(p.pekLong));
    var r3 := SetIfRead(r2, 0x08, FlagField(p.pekOffEn, 0x08));
    var r4 := SetIfRead(r3, 0x04, FlagField(p.pekOffRestart, 0x04));
    SetIfRead(r4, 0x03, PekOffField(p.pekOff))
  }

  /** The power-on time field (bits 7..6) holds the code of `pek_on` when present and is kept otherwise. */
  lemma PokSetPekOn(reg: bv8, p: PekConfig)
    ensures FieldIs(PokSetValue(reg, p), 0xC0, if p.pekOn.Some? then PekOnBits(p.pekOn.value) else reg & 0xC0)
  {
    var r1 := SetIfRead(reg, 0xC0, PekOnField(p.pekOn));
    var r2 := SetIfRead(r1, 0x30, PekLongField(p.pekLong));
    var r3 := SetIfRead(r2, 0x08, FlagField(p.pekOffEn, 0x08));
    var r4 := SetIfRead(r3, 0x04, FlagField(p.pekOffRestart, 0x04));
    SetIfReadField(reg, 0xC0, PekOnField(p.pekOn));
    SetIfReadKeeps(r1, 0x30, PekLongField(p.pekLong), 0xC0);
    SetIfReadKeeps(r2, 0x08, FlagField(p.pekOffEn, 0x08), 0xC0);
    SetIfReadKeeps(r3, 0x04, FlagField(p.pekOffRestart, 0x04), 0xC0);
    SetIfReadKeeps(r4, 0x03, PekOffField(p.pekOff), 0xC0);
  }

  /** The long-press field (bits 5..4) holds the code of `pek_long` when present and is kept otherwise. */
  lemma PokSetPekLong(reg: bv8, p: PekConfig)
    ensures FieldIs(PokSetValue(reg, p), 0x30, if p.pekLong.Some? then Low8(PekLongCode(p.pekLong.value)) << 4 else reg & 0x30)
  {
    var r1 := SetIfRead(reg, 0xC0, PekOnField(p.pekOn));
    var r2 := SetIfRead(r1, 0x30, PekLongField(p.pekLong));
    var r3 := SetIfRead(r2, 0x08, FlagField(p.pekOffEn, 0x08));
    var r4 := SetIfRead(r3, 0x04, FlagField(p.pekOffRestart, 0x04));
    SetIfReadKeeps(reg, 0xC0, PekOnField(p.pekOn), 0x30);
    SetIfReadField(r1, 0x30, PekLongField(p.pekLong));
    SetIfReadKeeps(r2, 0x08, FlagField(p.pekOffEn, 0x08), 0x30);
    SetIfReadKeeps(r3, 0x04, FlagField(p.pekOffRestart, 0x04), 0x30);
    SetIfReadKeeps(r4, 0x03, PekOffField(p.pekOff), 0x30);
  }

  /** The power-off enable (bit 3) and restart (bit 2) bits follow their flags when present and are kept otherwise. */
  lemma PokSetPekOffFlags(reg: bv8, p: PekConfig)
    ensures FieldIs(PokSetValue(reg, p), 0x08, if p.pekOffEn.Some? then FlagBit(p.pekOffEn.value, 0x08) else reg & 0x08)
    ensures FieldIs(PokSetValue(reg, p), 0x04, if p.pekOffRestart.Some? then FlagBit(p.pekOffRestart.value, 0x04) else reg & 0x04)
  {
    var r1 := SetIfRead(reg, 0xC0, PekOnField(p.pekOn));
    var r2 := SetIfRead(r1, 0x30, PekLongField(p.pekLong));
    var r3 := SetIfRead(r2, 0x08, FlagField(p.pekOffEn, 0x08));
    var r4 := SetIfRead(r3, 0x04, FlagField(p.pekOffRestart, 0x04));
    SetIfReadKeeps(reg, 0xC0, PekOnField(p.pekOn), 0x08);
    SetIfReadKeeps(r1, 0x30, PekLongField(p.pekLong), 0x08);
    SetIfReadField(r2, 0x08, FlagField(p.pekOffEn, 0x08));
    SetIfReadKeeps(r3, 0x04, FlagField(p.pekOffRestart, 0x04), 0x08);
    SetIfReadKeeps(r4, 0x03, PekOffField(p.pekOff), 0x08);
    SetIfReadKeeps(reg, 0xC0, PekOnField(p.pekOn), 0x04);
    SetIfReadKeeps(r1, 0x30, PekLongField(p.pekLong), 0x04);
    SetIfReadKeeps(r2, 0x08, FlagField(p.pekOffEn, 0x08), 0x04);
    SetIfReadField(r3, 0x04, FlagField(p.pekOffRestart, 0x04));
    SetIfReadKeeps(r4, 0x03, PekOffField(p.pekOff), 0x04);
  }

  /** The power-off time field (bits 1..0) holds the code of `pek_off` when present and is kept otherwise. */
  lemma PokSetPekOff(reg: bv8, p: PekConfig)
    ensures FieldIs(PokSetValue(reg, p), 0x03, if p.pekOff.Some? then Low8(PekOffCode(p.pekOff.value)) else reg & 0x03)
  {
    var r1 := SetIfRead(reg, 0xC0, PekOnField(p.pekOn));
    var r2 := SetIfRead(r1, 0x30, PekLongField(p.pekLong));
    var r3 := SetIfRead(r2, 0x08, FlagField(p.pekOffEn, 0x08));
    var r4 := SetIfRead(r3, 0x04, FlagField(p.pekOffRestart, 0x04));
    SetIfReadField(r4, 0x03, PekOffField(p.pekOff));
  }

  // ---------------------------------------------------------------------------------
  // OFF_CTL: power-key delay and CHGLED function
  // ---------------------------------------------------------------------------------

  /**
   * The byte the probe writes to OFF_CTL. The delay code `pek_delay / 8 - 1` is ORed in
   * without a mask, so it reaches above bits 1..0 when it is negative or larger than 3.
   */
  function OffCtlValue(reg: bv8, pekDelay: Option<int>, ghcledfun: Option<int>): (r: bv8)
  {
    var r1 := if pekDelay.Some? then (reg & 0xFC) | Low8(CDiv(pekDelay.value, 8) - 1) else reg;
    if ghcledfun.Some? then SetField(r1, 0x08, FlagBit(ghcledfun.value, 0x08)) else r1
  }

  /** A delay of 8, 16, 24 or 32 ms is encoded as 0..3 in bits 1..0, and the other bits are kept. */
  lemma OffCtlDelay(reg: bv8, k: int)
    requires 0 <= k < 4
    ensures var r := OffCtlValue(reg, Some(8 * (k + 1)), None);
      FieldIs(r, 0x03, Low8(k)) && SameOutside(r, reg, 0x03)
  {
    assert CDiv(8 * (k + 1), 8) - 1 == k;
    TwoBitCode(k);
  }

  /**
   * A delay whose truncated quotient by 8 is 0 (from -7 to 7 ms) gives the code -1, which
   * sets every bit of OFF_CTL.
   */
  lemma OffCtlShortDelay(reg: bv8, d: int)
    requires -8 < d < 8
    ensures OffCtlValue(reg, Some(d), None) == 0xFF
  {
    assert CDiv(d, 8) - 1 == -1;
    assert Low8(-1) == 0xFF;
  }

  /** The CHGLED function bit (bit 3) follows the property, and the other bits are kept. */
  lemma OffCtlChgled(reg: bv8, flag: int)
    ensures var r := OffCtlValue(reg, None, Some(flag));
      FieldIs(r, 0x08, FlagBit(flag, 0x08)) && SameOutside(r, reg, 0x08)
  {
  }

  // ---------------------------------------------------------------------------------
  // IPS_SET: USB voltage and current limits
  // ---------------------------------------------------------------------------------

  /** The USB properties the probe applies to IPS_SET; the register is touched only when all four are present. */
  datatype UsbConfig = UsbConfig(volim: int, vollimen: int, curlim: int, curlimen: int)

  /** The hold-voltage code (bits 5..3) for a limit in mV: 4.0 V + 0.1 V per step, rounded down. */
  function UsbVoltageCode(mv: int): (k: int)
    requires 4000 <= mv <= 4700
    ensures 0 <= k < 8
    ensures 4000 + 100 * k <= mv < 4100 + 100 * k
  {
    (mv * 1000 - 4000000) / 100000
  }

  /** The byte the probe writes to IPS_SET, starting from the byte it read. */
  function IpsSetValue(reg: bv8, u: UsbConfig): (r: bv8)
  {
    var r1 :=
      if u.volim != 0 && u.vollimen != 0 then
        (if 4000 <= u.volim <= 4700 then SetField(reg, 0x38, Low8(UsbVoltageCode(u.volim)) << 3) else reg)
      else reg & !0x40;
    if u.curlim != 0 && u.curlimen != 0 then
      SetField(r1, 0x03, if u.curlim * 1000 == 500000 then 0x01 else 0x00)
    else r1 | 0x03
  }

  /** The three-bit voltage code fits bits 5..3. */
  lemma ThreeBitCode(k: int)
    requires 0 <= k < 8
    ensures NoneSet(Low8(k) << 3, !0x38)
  {
    assert Low8(k) < 8;
    SmallFieldFits(Low8(k));
  }

  /**
   * With the voltage limit enabled and in 4.0..4.7 V, bits 5..3 hold its code; with it
   * enabled but out of range they are kept; with it disabled bit 6 is cleared. Bit 7 is
   * always kept.
   */
  lemma IpsSetVoltage(reg: bv8, u: UsbConfig)
    ensures var r := IpsSetValue(reg, u);
      && FieldIs(r, 0x80, reg & 0x80)
      && (u.volim != 0 && u.vollimen != 0 && 4000 <= u.volim <= 4700 ==>
            FieldIs(r, 0x38, Low8(UsbVoltageCode(u.volim)) << 3) && FieldIs(r, 0x40, reg & 0x40))
      && (u.volim != 0 && u.vollimen != 0 && !(4000 <= u.volim <= 4700) ==> FieldIs(r, 0x78, reg & 0x78))
      && (u.volim == 0 || u.vollimen == 0 ==> NoneSet(r, 0x40) && FieldIs(r, 0x38, reg & 0x38))
  {
    if u.volim != 0 && u.vollimen != 0 && 4000 <= u.volim <= 4700 {
      ThreeBitCode(UsbVoltageCode(u.volim));
    }
  }

  /**
   * With the current limit enabled, bits 1..0 hold 01 (0.5 A) for exactly 500 mA and 00
   * (0.9 A) otherwise; with it disabled they hold 11 (no limit). Bit 2 is always kept.
   */
  lemma IpsSetCurrent(reg: bv8, u: UsbConfig)
    ensures var r := IpsSetValue(reg, u);
      && FieldIs(r, 0x04, reg & 0x04)
      && (u.curlim != 0 && u.curlimen != 0 ==>
            FieldIs(r, 0x03, if u.curlim == 500 then 0x01 else 0x00) &&
            UsbLimitOf(r) == (if u.curlim == 500 then 500000 else 900000))
      && (u.curlim == 0 || u.curlimen == 0 ==> FieldIs(r, 0x03, 0x03) && UsbLimitOf(r) == 0)
  {
  }

  // ---------------------------------------------------------------------------------
  // WARNING_LEVEL, RDC and full capacity
  // ---------------------------------------------------------------------------------

  /**
   * The int the probe assigns to WARNING_LEVEL from the two battery warning levels; the
   * byte written is its low eight bits.
   */
  function WarningLevel(lv1: int, lv2: int): (x: int)
    ensures 5 <= lv1 < 21 && 0 <= lv2 < 16 ==> 0 <= x < 256 && x / 16 == lv1 - 5 && x % 16 == lv2
  {
    (lv1 - 5) * 16 + lv2
  }

  /**
   * The battery resistance code for a resistance in milliohms: `batrdc / 1.0742` rounded
   * to the nearest step (C's truncating division, which for a negative value rounds up).
   */
  function RdcCode(batrdc: int): (rdc: int)
    ensures batrdc >= 0 ==> 0 <= rdc && 10742 * rdc <= 10000 * batrdc + 5371 < 10742 * (rdc + 1)
  {
    CDiv(batrdc * 10000 + 5371, 10742)
  }

  /** The int the probe assigns to RDC0: bits 12..8 of the code, with bit 7 set. */
  function Rdc0(rdc: int): (x: int)
    ensures 128 <= x < 160
  {
    (rdc / 256) % 32 + 0x80
  }

  /** The int the probe assigns to RDC1: bits 7..0 of the code. */
  function Rdc1(rdc: int): (x: int)
    ensures 0 <= x < 256
  {
    rdc % 256
  }

  /** RDC0 and RDC1 hold the code modulo 2^13. */
  lemma RdcDecode(rdc: int)
    ensures (Rdc0(rdc) - 0x80) * 256 + Rdc1(rdc) == rdc % 8192
  {
  }

  /**
   * The byte written to RDC0 has bit 7 set and bit 6 clear: the probe's test "bit 6 of
   * RDC0 is clear" for "RDC not yet programmed" still holds after it programs RDC.
   */
  lemma Rdc0Flags(rdc: int)
    ensures AllSet(Low8(Rdc0(rdc)), 0x80) && NoneSet(Low8(Rdc0(rdc)), 0x40)
  {
  }

  /** The coulomb-counter full-capacity code for a capacity in mAh: 1.456 mAh per count, truncated. */
  function FullCapCode(batcap: int): (cap: int)
    ensures batcap >= 0 ==> 0 <= cap && 1456 * cap <= 1000 * batcap < 1456 * (cap + 1)
  {
    CDiv(batcap * 1000, 1456)
  }

  /**
   * The int the probe assigns to BATFULLCAPH: the code shifted right by 8 (C's shift of an
   * int, which rounds down), truncated to a byte, with bit 7 set.
   */
  function FullCapH(cap: int): (x: int)
    ensures 128 <= x < 256
  {
    var h := (cap / 256) % 256;
    if h < 128 then h + 128 else h
  }

  /** The int the probe assigns to BATFULLCAPL: bits 7..0 of the code. */
  function FullCapL(cap: int): (x: int)
    ensures 0 <= x < 256
  {
    cap % 256
  }

  /** For a code below 2^15 the register pair holds it exactly, below the flag bit. */
  lemma FullCapDecode(cap: int)
    requires 0 <= cap < 32768
    ensures (FullCapH(cap) - 0x80) * 256 + FullCapL(cap) == cap
  {
  }

  /** The byte written to BATFULLCAPH has bit 7 set, so a later probe sees the capacity as programmed. */
  lemma FullCapFlag(cap: int)
    ensures AllSet(Low8(FullCapH(cap)), 0x80)
  {
  }
}
