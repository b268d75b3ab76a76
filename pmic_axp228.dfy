/**
 * The AXP228 PMIC driver's register primitives and its probe
 * (drivers/power/pmic/axp228.c): conditional read-modify-write helpers, the
 * interrupt-table initialisation and the device-tree driven setup.
 */
module Axp228Pmic {
  import opened Wrappers
  import opened CTypes
  import opened Axp228Regs
  import opened Axp228Device
  import opened Bits

  // ---------------------------------------------------------------------------
  // Read-modify-write helpers
  // ---------------------------------------------------------------------------

  /** `axp228_set_bits`: set the bits of `mask`, writing only if one of them was clear. */
  function SetBitsSpec(c: Chip, f: Faults, reg: Reg, mask: bv8): (r: (int, Chip))
    ensures r.0 == 0 || r.0 == -EIO
    ensures reg in f.readFail ==> r == (-EIO, c)
    ensures reg !in f.readFail && AllSet(c.regs[reg], mask) ==> r == (0, c)
    ensures reg !in f.readFail && !AllSet(c.regs[reg], mask) ==>
      r.1.writes == c.writes + [BusWrite(reg, c.regs[reg] | mask)] &&
      (r.0 == 0 <==> reg !in f.writeFail)
    ensures r.0 != 0 ==> r.1.regs == c.regs
    ensures r.1.regs == c.regs[reg := r.1.regs[reg]]
  {
    if reg in f.readFail then (-EIO, c)
    else if !AllSet(c.regs[reg], mask) then WriteSpec(c, f, reg, c.regs[reg] | mask)
    else (0, c)
  }

  /** `axp228_clr_bits`: clear the bits of `mask`, writing only if one of them was set. */
  function ClrBitsSpec(c: Chip, f: Faults, reg: Reg, mask: bv8): (r: (int, Chip))
    ensures r.0 == 0 || r.0 == -EIO
    ensures reg in f.readFail ==> r == (-EIO, c)
    ensures reg !in f.readFail && NoneSet(c.regs[reg], mask) ==> r == (0, c)
    ensures reg !in f.readFail && !NoneSet(c.regs[reg], mask) ==>
      r.1.writes == c.writes + [BusWrite(reg, c.regs[reg] & !mask)] &&
      (r.0 == 0 <==> reg !in f.writeFail)
    ensures r.0 != 0 ==> r.1.regs == c.regs
    ensures r.1.regs == c.regs[reg := r.1.regs[reg]]
  {
    if reg in f.readFail then (-EIO, c)
    else if !NoneSet(c.regs[reg], mask) then WriteSpec(c, f, reg, c.regs[reg] & !mask)
    else (0, c)
  }

  /**
   * `axp228_update`: put `val` into the field `mask`, writing only if the field
   * differs from `val`. The comparison is against `val` itself, so the field is
   * guaranteed to hold `val` afterwards only when `val` has no bit outside `mask`.
   */
  function UpdateSpec(c: Chip, f: Faults, reg: Reg, val: bv8, mask: bv8): (r: (int, Chip))
    ensures r.0 == 0 || r.0 == -EIO
    ensures reg in f.readFail ==> r == (-EIO, c)
    ensures reg !in f.readFail && FieldIs(c.regs[reg], mask, val) ==> r == (0, c)
    ensures reg !in f.readFail && !FieldIs(c.regs[reg], mask, val) ==>
      r.1.writes == c.writes + [BusWrite(reg, (c.regs[reg] & !mask) | val)] &&
      (r.0 == 0 <==> reg !in f.writeFail)
    ensures r.0 != 0 ==> r.1.regs == c.regs
    ensures r.1.regs == c.regs[reg := r.1.regs[reg]]
  {
    if reg in f.readFail then (-EIO, c)
    else if !FieldIs(c.regs[reg], mask, val) then WriteSpec(c, f, reg, (c.regs[reg] & !mask) | val)
    else (0, c)
  }

  /** After a successful `axp228_set_bits` every bit of `mask` is set and no other bit has changed. */
  lemma SetBitsEffect(c: Chip, f: Faults, reg: Reg, mask: bv8)
    ensures var r := SetBitsSpec(c, f, reg, mask);
      r.0 == 0 ==> AllSet(r.1.regs[reg], mask) && SameOutside(r.1.regs[reg], c.regs[reg], mask)
  {
  }

  /** After a successful `axp228_clr_bits` no bit of `mask` is set and no other bit has changed. */
  lemma ClrBitsEffect(c: Chip, f: Faults, reg: Reg, mask: bv8)
    ensures var r := ClrBitsSpec(c, f, reg, mask);
      r.0 == 0 ==> NoneSet(r.1.regs[reg], mask) && SameOutside(r.1.regs[reg], c.regs[reg], mask)
  {
  }

  /**
   * After a successful `axp228_update` with `val` inside `mask`, the field holds `val`
   * and no bit outside it has changed.
   */
  lemma UpdateEffect(c: Chip, f: Faults, reg: Reg, val: bv8, mask: bv8)
    requires NoneSet(val, !mask)
    ensures var r := UpdateSpec(c, f, reg, val, mask);
      r.0 == 0 ==> FieldIs(r.1.regs[reg], mask, val) && SameOutside(r.1.regs[reg], c.regs[reg], mask)
  {
  }

  /** Setting bits a second time after a successful first call issues no write. */
  lemma SetBitsIdempotent(c: Chip, f: Faults, reg: Reg, mask: bv8)
    requires SetBitsSpec(c, f, reg, mask).0 == 0
    ensures var once := SetBitsSpec(c, f, reg, mask).1;
      SetBitsSpec(once, f, reg, mask) == (0, once)
  {
  }

  /** Clearing bits a second time after a successful first call issues no write. */
  lemma ClrBitsIdempotent(c: Chip, f: Faults, reg: Reg, mask: bv8)
    requires ClrBitsSpec(c, f, reg, mask).0 == 0
    ensures var once := ClrBitsSpec(c, f, reg, mask).1;
      ClrBitsSpec(once, f, reg, mask) == (0, once)
  {
  }

  /**
   * With `val` inside `mask`, updating twice issues at most one write, and the
   * second call changes nothing.
   */
  lemma UpdateIdempotent(c: Chip, f: Faults, reg: Reg, val: bv8, mask: bv8)
    requires NoneSet(val, !mask)
    requires UpdateSpec(c, f, reg, val, mask).0 == 0
    ensures var once := UpdateSpec(c, f, reg, val, mask).1;
      UpdateSpec(once, f, reg, val, mask) == (0, once) &&
      |once.writes| <= |c.writes| + 1
  {
  }

  /** A field masked by `mask` never equals a value with a bit outside `mask`. */
  lemma FieldNeverMatches(v: bv8, mask: bv8, val: bv8)
    requires !NoneSet(val, !mask)
    ensures !FieldIs(v, mask, val)
  {
    assert (v & mask) & !mask == 0;
  }

  /**
   * With a bit of `val` outside `mask`, the field can never compare equal to `val`,
   * so every call whose read succeeds writes, however often it is repeated.
   */
  lemma UpdateAlwaysWritesOutsideMask(c: Chip, f: Faults, reg: Reg, val: bv8, mask: bv8)
    requires !NoneSet(val, !mask)
    requires reg !in f.readFail
    ensures UpdateSpec(c, f, reg, val, mask).1.writes == c.writes + [BusWrite(reg, (c.regs[reg] & !mask) | val)]
  {
    FieldNeverMatches(c.regs[reg], mask, val);
  }

  method SetBits(dev: Axp228, reg: Reg, mask: bv8) returns (ret: int)
    modifies dev
    ensures (ret, dev.State()) == SetBitsSpec(old(dev.State()), dev.faults, reg, mask)
  {
    var regVal: bv8;
    ret, regVal := dev.Read(reg, 0);
    if ret != 0 {
      return;
    }
    if !AllSet(regVal, mask) {
      regVal := regVal | mask;
      ret := dev.Write(reg, regVal);
    }
  }

  method ClrBits(dev: Axp228, reg: Reg, mask: bv8) returns (ret: int)
    modifies dev
    ensures (ret, dev.State()) == ClrBitsSpec(old(dev.State()), dev.faults, reg, mask)
  {
    var regVal: bv8;
    ret, regVal := dev.Read(reg, 0);
    if ret != 0 {
      return;
    }
    if !NoneSet(regVal, mask) {
      regVal := regVal & !mask;
      ret := dev.Write(reg, regVal);
    }
  }

  method Update(dev: Axp228, reg: Reg, val: bv8, mask: bv8) returns (ret: int)
    modifies dev
    ensures (ret, dev.State()) == UpdateSpec(old(dev.State()), dev.faults, reg, val, mask)
  {
    var regVal: bv8;
    ret, regVal := dev.Read(reg, 0);
    if ret != 0 {
      return;
    }
    if !FieldIs(regVal, mask, val) {
      regVal := (regVal & !mask) | val;
      ret := dev.Write(reg, regVal);
    }
  }

  // ---------------------------------------------------------------------------
  // Writing a table, stopping at the first failure
  // ---------------------------------------------------------------------------

  /** Issue the writes of `ws` in order, returning the error of the first that fails. */
  function WriteSeq(c: Chip, f: Faults, ws: seq<BusWrite>): (r: (int, Chip))
    decreases |ws|
  {
    if ws == [] then (0, c)
    else
      var (err, c1) := WriteSpec(c, f, ws[0].reg, ws[0].val);
      if err != 0 then (err, c1) else WriteSeq(c1, f, ws[1..])
  }

  /** The index of the first write of `ws` to a failing register, or `|ws|` if none fails. */
  function FirstFail(f: Faults, ws: seq<BusWrite>): (k: nat)
    ensures k <= |ws|
    ensures forall j :: 0 <= j < k ==> ws[j].reg !in f.writeFail
    ensures k < |ws| ==> ws[k].reg in f.writeFail
    decreases |ws|
  {
    if ws == [] then 0
    else if ws[0].reg in f.writeFail then 0
    else 1 + FirstFail(f, ws[1..])
  }

  /** The register file after the writes of `ws` all take effect, in order. */
  function Apply(regs: RegFile, ws: seq<BusWrite>): RegFile
    decreases |ws|
  {
    if ws == [] then regs else Apply(regs[ws[0].reg := ws[0].val], ws[1..])
  }

  /**
   * `WriteSeq` issues the writes up to and including the first failing one, and no
   * more; the registers hold the effect of the writes before it; it succeeds iff
   * no write fails.
   */
  lemma {:induction false} WriteSeqEffect(c: Chip, f: Faults, ws: seq<BusWrite>)
    ensures var r := WriteSeq(c, f, ws);
      var k := FirstFail(f, ws);
      (r.0 == 0 <==> k == |ws|) && (r.0 == 0 || r.0 == -EIO) &&
      r.1.writes == c.writes + ws[..if k < |ws| then k + 1 else k] &&
      r.1.regs == Apply(c.regs, ws[..k])
    decreases |ws|
  {
    if ws == [] {
    } else if ws[0].reg in f.writeFail {
      assert ws[..1] == [ws[0]];
    } else {
      var c1 := WriteSpec(c, f, ws[0].reg, ws[0].val).1;
      assert WriteSeq(c, f, ws) == WriteSeq(c1, f, ws[1..]);
      WriteSeqEffect(c1, f, ws[1..]);
      var k' := FirstFail(f, ws[1..]);
      assert FirstFail(f, ws) == k' + 1;
      var n' := if k' < |ws[1..]| then k' + 1 else k';
      assert (if k' + 1 < |ws| then k' + 2 else k' + 1) == n' + 1;
      assert ws[..n' + 1] == [ws[0]] + ws[1..][..n'];
      assert c1.writes + ws[1..][..n'] == c.writes + ws[..n' + 1];
      assert ws[..k' + 1][1..] == ws[1..][..k'];
      assert Apply(c.regs, ws[..k' + 1]) == Apply(c1.regs, ws[1..][..k']);
    }
  }

  /** A register no write of `ws` touches keeps its value. */
  lemma {:induction false} ApplyUntouched(regs: RegFile, ws: seq<BusWrite>, reg: Reg)
    requires forall j :: 0 <= j < |ws| ==> ws[j].reg != reg
    ensures Apply(regs, ws)[reg] == regs[reg]
    decreases |ws|
  {
    if ws != [] {
      ApplyUntouched(regs[ws[0].reg := ws[0].val], ws[1..], reg);
    }
  }

  /** When the registers of `ws` are all different, each holds the value written to it. */
  lemma {:induction false} ApplyDistinct(regs: RegFile, ws: seq<BusWrite>, k: nat)
    requires forall i, j :: 0 <= i < j < |ws| ==> ws[i].reg != ws[j].reg
    requires k < |ws|
    ensures Apply(regs, ws)[ws[k].reg] == ws[k].val
    decreases |ws|
  {
    var regs1 := regs[ws[0].reg := ws[0].val];
    if k == 0 {
      ApplyUntouched(regs1, ws[1..], ws[0].reg);
    } else {
      ApplyDistinct(regs1, ws[1..], k - 1);
    }
  }

  // ---------------------------------------------------------------------------
  // axp228_init_chip
  // ---------------------------------------------------------------------------

  /** Interrupt enables, then write-one-to-clear of every interrupt status register. */
  const IrqTable: seq<BusWrite> := [
    BusWrite(INTEN1, 0xd8), BusWrite(INTEN2, 0xff), BusWrite(INTEN3, 0x00),
    BusWrite(INTEN4, 0x01), BusWrite(INTEN5, 0x00),
    BusWrite(INTSTS1, 0xff), BusWrite(INTSTS2, 0xff), BusWrite(INTSTS3, 0xff),
    BusWrite(INTSTS4, 0xff), BusWrite(INTSTS5, 0xff)]

  /** The table names INTEN1..INTEN5, then INTSTS1..INTSTS5, each once. */
  lemma IrqTableDistinct()
    ensures forall i, j :: 0 <= i < j < |IrqTable| ==> IrqTable[i].reg != IrqTable[j].reg
  {
    assert forall i :: 0 <= i < 10 ==> IrqTable[i].reg == if i < 5 then INTEN1 + i else INTSTS1 + i - 5;
  }

  /** `axp228_init_chip`: read the chip id, then write the interrupt table in order. */
  function InitChipSpec(c: Chip, f: Faults): (r: (int, Chip))
    ensures IC_TYPE in f.readFail ==> r == (-EIO, c)
    ensures IC_TYPE !in f.readFail ==> r == WriteSeq(c, f, IrqTable)
  {
    var (err, _) := ReadSpec(c, f, IC_TYPE, 0);
    if err != 0 then (err, c) else WriteSeq(c, f, IrqTable)
  }

  /**
   * `axp228_init_chip` issues the table's writes in order up to the first failing
   * one; it succeeds iff the chip id is read and every write succeeds, and then
   * each interrupt register holds its table value and every other register is as
   * it was.
   */
  lemma InitChipEffect(c: Chip, f: Faults)
    ensures var r := InitChipSpec(c, f);
      var k := FirstFail(f, IrqTable);
      (r.0 == 0 || r.0 == -EIO) &&
      (r.0 == 0 <==> IC_TYPE !in f.readFail && k == 10) &&
      (IC_TYPE !in f.readFail ==> r.1.writes == c.writes + IrqTable[..if k < 10 then k + 1 else k])
    ensures var r := InitChipSpec(c, f);
      r.0 == 0 ==>
        (forall j :: 0 <= j < 10 ==> r.1.regs[IrqTable[j].reg] == IrqTable[j].val) &&
        (forall reg: Reg :: !(INTEN1 <= reg <= INTEN5 || INTSTS1 <= reg <= INTSTS5) ==>
           r.1.regs[reg] == c.regs[reg])
  {
    if IC_TYPE !in f.readFail {
      WriteSeqEffect(c, f, IrqTable);
      var r := InitChipSpec(c, f);
      if r.0 == 0 {
        assert IrqTable[..10] == IrqTable;
        IrqTableDistinct();
        forall j | 0 <= j < 10
          ensures r.1.regs[IrqTable[j].reg] == IrqTable[j].val
        {
          ApplyDistinct(c.regs, IrqTable, j);
        }
        forall reg: Reg | !(INTEN1 <= reg <= INTEN5 || INTSTS1 <= reg <= INTSTS5)
          ensures r.1.regs[reg] == c.regs[reg]
        {
          ApplyUntouched(c.regs, IrqTable, reg);
        }
      }
    }
  }

  method InitChip(dev: Axp228) returns (err: int)
    modifies dev
    ensures (err, dev.State()) == InitChipSpec(old(dev.State()), dev.faults)
  {
    var chipId: bv8;
    err, chipId := dev.Read(IC_TYPE, 0);
    if err != 0 {
      return;
    }
    var i := 0;
    while i < 10
      invariant 0 <= i <= 10
      invariant WriteSeq(old(dev.State()), dev.faults, IrqTable) == WriteSeq(dev.State(), dev.faults, IrqTable[i..])
    {
      err := dev.Write(IrqTable[i].reg, IrqTable[i].val);
      if err != 0 {
        return;
      }
      i := i + 1;
    }
    err := 0;
  }

  // ---------------------------------------------------------------------------
  // axp228_device_setup
  // ---------------------------------------------------------------------------

  /** The PMIC's device-tree properties (node `init-axp228`); `None` when absent. */
  datatype PmicConfig = PmicConfig(
    freqSpreadEn: Option<int>, spreadFreq: Option<int>,
    polyPhaseFunction: Option<int>, switchFreq: Option<int>,
    voffSet: Option<int>, adcControl3: Option<int>,
    irqWakeup: Option<int>, vbusacinFunc: Option<int>, vbusacinStatus: Option<int>,
    vbusEn: Option<int>, pmuReset: Option<int>, overtmuPwrOff: Option<int>)

  predicate FreqSetPresent(cfg: PmicConfig) {
    cfg.freqSpreadEn.Some? && cfg.spreadFreq.Some? && cfg.polyPhaseFunction.Some? && cfg.switchFreq.Some?
  }

  predicate HotOverPresent(cfg: PmicConfig) {
    cfg.irqWakeup.Some? && cfg.vbusacinFunc.Some? && cfg.vbusacinStatus.Some? &&
    cfg.vbusEn.Some? && cfg.pmuReset.Some? && cfg.overtmuPwrOff.Some?
  }

  /**
   * The DCDC_FREQSET byte: spread enable in bit 7, spread frequency in bit 6, poly-phase
   * in bits 5:4, switching frequency in bits 3:0.
   */
  function FreqSetValue(fse: bv8, sf: bv8, ppf: bv8, sw: bv8): (r: bv8)
    ensures fse < 2 && sf < 2 && ppf < 4 && sw < 16 ==>
      r >> 7 == fse && (r >> 6) & 1 == sf && (r >> 4) & 3 == ppf && r & 0xF == sw
  {
    (fse << 7) | (sf << 6) | (ppf << 4) | sw
  }

  /**
   * The HOTOVER_CTL byte: wake-up on IRQ in bit 7, VBUS/ACIN function bit 6, its status
   * bit 5, VBUS enable bit 4, PMU reset bit 3, power-off on over-temperature bit 2,
   * and bit 0 always set.
   */
  function HotOverValue(iw: bv8, vf: bv8, vs: bv8, ve: bv8, pr: bv8, op: bv8): (r: bv8)
    ensures r & 1 == 1
    ensures iw < 2 && vf < 2 && vs < 2 && ve < 2 && pr < 2 && op < 2 ==>
      r >> 7 == iw && (r >> 6) & 1 == vf && (r >> 5) & 1 == vs &&
      (r >> 4) & 1 == ve && (r >> 3) & 1 == pr && (r >> 2) & 1 == op && r & 2 == 0
  {
    (iw << 7) | (vf << 6) | (vs << 5) | (ve << 4) | (pr << 3) | (op << 2) | 1
  }

  /*
   * The C expressions are evaluated on `int` and stored into a byte. The low 8 bits
   * of a shift or an OR depend only on the low 8 bits of the operands, so each
   * property is truncated first.
   */

  function FreqSetByte(cfg: PmicConfig): bv8
    requires FreqSetPresent(cfg)
  {
    FreqSetValue(Low8(cfg.freqSpreadEn.value), Low8(cfg.spreadFreq.value),
      Low8(cfg.polyPhaseFunction.value), Low8(cfg.switchFreq.value))
  }

  function HotOverByte(cfg: PmicConfig): bv8
    requires HotOverPresent(cfg)
  {
    HotOverValue(Low8(cfg.irqWakeup.value), Low8(cfg.vbusacinFunc.value), Low8(cfg.vbusacinStatus.value),
      Low8(cfg.vbusEn.value), Low8(cfg.pmuReset.value), Low8(cfg.overtmuPwrOff.value))
  }

  /*
   * The four steps of `axp228_device_setup`, each taking and giving
   * (status of the last operation, chip).
   */

  function FreqSetStep(s: (int, Chip), f: Faults, cfg: PmicConfig): (r: (int, Chip))
    ensures r.1.writes == s.1.writes + if FreqSetPresent(cfg) then [BusWrite(DCDC_FREQSET, FreqSetByte(cfg))] else []
  {
    if FreqSetPresent(cfg) then WriteSpec(s.1, f, DCDC_FREQSET, FreqSetByte(cfg)) else s
  }

  /** The VOFF_SET step passes the value of `freq_spread_en`, not of `voff_set`. */
  function VoffStep(s: (int, Chip), f: Faults, cfg: PmicConfig): (r: (int, Chip))
    ensures Appends(s.1.writes, r.1.writes, {VOFF_SET}) && |r.1.writes| <= |s.1.writes| + 1
    ensures cfg.voffSet.None? ==> r == s
  {
    if cfg.voffSet.Some? then UpdateSpec(s.1, f, VOFF_SET, Low8(Raw(cfg.freqSpreadEn)), 0x7) else s
  }

  function AdcStep(s: (int, Chip), f: Faults, cfg: PmicConfig): (r: (int, Chip))
    ensures Appends(s.1.writes, r.1.writes, {ADC_CONTROL3}) && |r.1.writes| <= |s.1.writes| + 1
    ensures cfg.adcControl3.None? ==> r == s
  {
    if cfg.adcControl3.Some? then SetBitsSpec(s.1, f, ADC_CONTROL3, Low8(cfg.adcControl3.value)) else s
  }

  function HotOverStep(s: (int, Chip), f: Faults, cfg: PmicConfig): (r: (int, Chip))
    ensures r.1.writes == s.1.writes + if HotOverPresent(cfg) then [BusWrite(HOTOVER_CTL, HotOverByte(cfg))] else []
  {
    if HotOverPresent(cfg) then WriteSpec(s.1, f, HOTOVER_CTL, HotOverByte(cfg)) else s
  }

  /**
   * `axp228_device_setup`, as (status of the last operation, new chip): the four
   * steps run one after the other, and each overwrites the status only when it runs.
   */
  function DeviceSetupSpec(c: Chip, f: Faults, cfg: PmicConfig): (int, Chip)
  {
    HotOverStep(AdcStep(VoffStep(FreqSetStep((0, c), f, cfg), f, cfg), f, cfg), f, cfg)
  }

  /**
   * DCDC_FREQSET is written iff all four frequency properties are present, and then
   * first, with their composite byte.
   */
  lemma DeviceSetupFreqSet(c: Chip, f: Faults, cfg: PmicConfig)
    ensures var w := DeviceSetupSpec(c, f, cfg).1.writes[|c.writes|..];
      (FreqSetPresent(cfg) ==> |w| > 0 && w[0] == BusWrite(DCDC_FREQSET, FreqSetByte(cfg))) &&
      (!FreqSetPresent(cfg) ==> forall j :: 0 <= j < |w| ==> w[j].reg != DCDC_FREQSET)
  {
    var s1 := FreqSetStep((0, c), f, cfg);
    var s2 := VoffStep(s1, f, cfg);
    var s3 := AdcStep(s2, f, cfg);
    var s4 := HotOverStep(s3, f, cfg);
    AppendsTrans(s1.1.writes, s2.1.writes, s3.1.writes, {VOFF_SET}, {ADC_CONTROL3});
    assert Appends(s3.1.writes, s4.1.writes, {HOTOVER_CTL});
    AppendsTrans(s1.1.writes, s3.1.writes, s4.1.writes, {VOFF_SET, ADC_CONTROL3}, {HOTOVER_CTL});
    assert |c.writes| < |s1.1.writes| ==> s4.1.writes[|c.writes|] == s1.1.writes[|c.writes|];
  }

  /**
   * HOTOVER_CTL is written iff all six properties are present, and then last, with
   * bit 0 set.
   */
  lemma DeviceSetupHotOver(c: Chip, f: Faults, cfg: PmicConfig)
    ensures var w := DeviceSetupSpec(c, f, cfg).1.writes[|c.writes|..];
      (HotOverPresent(cfg) ==> |w| > 0 && w[|w| - 1].reg == HOTOVER_CTL && w[|w| - 1].val & 1 == 1) &&
      (!HotOverPresent(cfg) ==> forall j :: 0 <= j < |w| ==> w[j].reg != HOTOVER_CTL)
  {
    var s1 := FreqSetStep((0, c), f, cfg);
    var s2 := VoffStep(s1, f, cfg);
    var s3 := AdcStep(s2, f, cfg);
    assert Appends(c.writes, s1.1.writes, {DCDC_FREQSET});
    AppendsTrans(c.writes, s1.1.writes, s2.1.writes, {DCDC_FREQSET}, {VOFF_SET});
    AppendsTrans(c.writes, s2.1.writes, s3.1.writes, {DCDC_FREQSET, VOFF_SET}, {ADC_CONTROL3});
  }

  /**
   * When `voff_set` is present, the low three bits of VOFF_SET end up holding the
   * byte of `freq_spread_en` (on a working bus, when that byte fits in three bits).
   */
  lemma DeviceSetupVoff(c: Chip, f: Faults, cfg: PmicConfig)
    requires cfg.voffSet.Some? && cfg.freqSpreadEn.Some? && NoneSet(Low8(cfg.freqSpreadEn.value), !7)
    requires VOFF_SET !in f.readFail && VOFF_SET !in f.writeFail
    ensures FieldIs(DeviceSetupSpec(c, f, cfg).1.regs[VOFF_SET], 7, Low8(cfg.freqSpreadEn.value))
  {
    var s1 := FreqSetStep((0, c), f, cfg);
    UpdateEffect(s1.1, f, VOFF_SET, Low8(cfg.freqSpreadEn.value), 7);
  }

  /** The value of `voff_set` plays no part: only whether it is present. */
  lemma DeviceSetupVoffIgnored(c: Chip, f: Faults, cfg: PmicConfig, other: int)
    requires cfg.voffSet.Some?
    ensures DeviceSetupSpec(c, f, cfg.(voffSet := Some(other))) == DeviceSetupSpec(c, f, cfg)
  {
  }

  /** With none of the properties present, the setup touches nothing and reports success. */
  lemma DeviceSetupNothing(c: Chip, f: Faults, cfg: PmicConfig)
    requires !FreqSetPresent(cfg) && cfg.voffSet.None? && cfg.adcControl3.None? && !HotOverPresent(cfg)
    ensures DeviceSetupSpec(c, f, cfg) == (0, c)
  {
  }

  /**
   * The status reports only the last step that ran: a successful HOTOVER_CTL write
   * hides any failure before it.
   */
  lemma DeviceSetupLastStatus(c: Chip, f: Faults, cfg: PmicConfig)
    requires HotOverPresent(cfg) && HOTOVER_CTL !in f.writeFail
    ensures DeviceSetupSpec(c, f, cfg).0 == 0
  {
  }

  /** `axp228_device_setup`; returns whether it reports a failure. */
  method DeviceSetup(dev: Axp228, cfg: PmicConfig) returns (failed: bool)
    modifies dev
    ensures var r := DeviceSetupSpec(old(dev.State()), dev.faults, cfg);
      dev.State() == r.1 && failed == (r.0 != 0)
  {
    var regVal: bv8 := 0;
    var ret := 0;
    if FreqSetPresent(cfg) {
      regVal := FreqSetByte(cfg);
      ret := dev.Write(DCDC_FREQSET, regVal);
    }
    if cfg.voffSet.Some? {
      ret := Update(dev, VOFF_SET, Low8(Raw(cfg.freqSpreadEn)), 0x7);
    }
    if cfg.adcControl3.Some? {
      ret := SetBits(dev, ADC_CONTROL3, Low8(cfg.adcControl3.value));
    }
    if HotOverPresent(cfg) {
      regVal := HotOverByte(cfg);
      ret := dev.Write(HOTOVER_CTL, regVal);
    }
    failed := ret != 0;
  }

  /** `axp228_probe`: setup, then interrupt initialisation; always reports success. */
  method Probe(dev: Axp228, cfg: PmicConfig) returns (ret: int)
    modifies dev
    ensures ret == 0
    ensures dev.State() == InitChipSpec(DeviceSetupSpec(old(dev.State()), dev.faults, cfg).1, dev.faults).1
  {
    var _ := DeviceSetup(dev, cfg);
    var _ := InitChip(dev);
    ret := 0;
  }
}
