/** Register map of the X-Powers AXP228 PMIC/charger and the values the drivers use. */
module Axp228Regs {
  const STATUS := 0x00
  const MODE_CHGSTATUS := 0x01
  const IC_TYPE := 0x03
  const IPS_SET := 0x30
  const VOFF_SET := 0x31
  /** OFF_CTL and PDBC are two names for one address. */
  const OFF_CTL := 0x32
  const PDBC := 0x32
  const CHARGE1 := 0x33
  const CHARGE2 := 0x34
  const CHARGE3 := 0x35
  const POK_SET := 0x36
  const DCDC_FREQSET := 0x37
  const ADC_CONTROL3 := 0x84
  const HOTOVER_CTL := 0x8F
  const INTEN1 := 0x40
  const INTEN2 := 0x41
  const INTEN3 := 0x42
  const INTEN4 := 0x43
  const INTEN5 := 0x44
  /** The register that holds the CHGLED indication type bit (written by number in the charger). */
  const CHGLED_CTL := 0x45
  const INTSTS1 := 0x48
  const INTSTS2 := 0x49
  const INTSTS3 := 0x4A
  const INTSTS4 := 0x4B
  const INTSTS5 := 0x4C
  const VBATH_RES := 0x78
  const VBATL_RES := 0x79
  const COULOMB_CTL := 0xB8
  const CAP := 0xB9
  const RDC0 := 0xBA
  const RDC1 := 0xBB
  const OCV_TABLE := 0xC0
  const BATFULLCAPH_RES := 0xE0
  const BATFULLCAPL_RES := 0xE1
  const WARNING_LEVEL := 0xE6

  /** STATUS register bits. */
  const STATUS_USBEN: bv8 := 0x20
  const STATUS_ACVA: bv8 := 0x40
  const STATUS_ACEN: bv8 := 0x80

  /** The charge current the charger falls back to without an adapter, in microamps. */
  const CHARGE_CURRENT_500 := 500 * 1000
}

/**
 * The AXP228 as its drivers see it over I2C: a file of 256 byte registers, behind a
 * bus whose read or write of a given register may fail.
 */
module Axp228Device {
  import opened CTypes

  type Reg = r: int | 0 <= r < 256

  /** The 256 registers of the chip. */
  type RegFile = s: seq<bv8> | |s| == 256 witness seq(256, _ => 0)

  /** One write transaction issued on the bus. */
  datatype BusWrite = BusWrite(reg: Reg, val: bv8)

  /** The registers whose bus transactions fail. */
  datatype Faults = Faults(readFail: set<Reg>, writeFail: set<Reg>)

  /** The chip's state: register contents and every write issued so far, oldest first. */
  datatype Chip = Chip(regs: RegFile, writes: seq<BusWrite>)

  /** `axp228_read` of one byte into a buffer that held `buf`: the buffer is left as it was on failure. */
  function ReadSpec(c: Chip, f: Faults, reg: Reg, buf: bv8): (r: (int, bv8))
    ensures r.0 == 0 <==> reg !in f.readFail
    ensures r.0 != 0 ==> r == (-EIO, buf)
    ensures r.0 == 0 ==> r.1 == c.regs[reg]
  {
    if reg in f.readFail then (-EIO, buf) else (0, c.regs[reg])
  }

  /** `axp228_write` of one byte: the transaction is always issued; it takes effect only on success. */
  function WriteSpec(c: Chip, f: Faults, reg: Reg, val: bv8): (r: (int, Chip))
    ensures r.0 == 0 <==> reg !in f.writeFail
    ensures r.0 != 0 ==> r.0 == -EIO && r.1.regs == c.regs
    ensures r.0 == 0 ==> r.1.regs == c.regs[reg := val]
    ensures r.1.writes == c.writes + [BusWrite(reg, val)]
  {
    if reg in f.writeFail then (-EIO, Chip(c.regs, c.writes + [BusWrite(reg, val)]))
    else (0, Chip(c.regs[reg := val], c.writes + [BusWrite(reg, val)]))
  }

  /**
   * `pmic_clrsetbits`, which the charger uses: read the register, clear `clr`, set `bits`
   * and write the result back. It writes even when nothing changes.
   */
  function ClrSetBitsSpec(c: Chip, f: Faults, reg: Reg, clr: bv8, bits: bv8): (r: (int, Chip))
    ensures reg in f.readFail ==> r == (-EIO, c)
    ensures reg !in f.readFail ==> r == WriteSpec(c, f, reg, (c.regs[reg] & !clr) | bits)
  {
    var (ret, v) := ReadSpec(c, f, reg, 0);
    if ret != 0 then (ret, c) else WriteSpec(c, f, reg, (v & !clr) | bits)
  }

  /** Every write of `ws` issued in order, each result ignored. */
  function WriteAll(c: Chip, f: Faults, ws: seq<BusWrite>): (r: Chip)
    decreases |ws|
  {
    if ws == [] then c
    else
      var last := ws[|ws| - 1];
      WriteSpec(WriteAll(c, f, ws[..|ws| - 1]), f, last.reg, last.val).1
  }

  /** The writes of `ws` are appended to the log in order, whether or not they fail. */
  lemma {:induction false} WriteAllLog(c: Chip, f: Faults, ws: seq<BusWrite>)
    ensures WriteAll(c, f, ws).writes == c.writes + ws
    decreases |ws|
  {
    if ws != [] {
      WriteAllLog(c, f, ws[..|ws| - 1]);
      assert ws == ws[..|ws| - 1] + [ws[|ws| - 1]];
    }
  }

  /**
   * After `WriteAll`, a register that `ws` writes without failing holds the value of its
   * last write; a register `ws` never writes successfully is unchanged.
   */
  lemma {:induction false} WriteAllRegs(c: Chip, f: Faults, ws: seq<BusWrite>, reg: Reg)
    ensures reg in f.writeFail || (forall k :: 0 <= k < |ws| ==> ws[k].reg != reg) ==>
      WriteAll(c, f, ws).regs[reg] == c.regs[reg]
    ensures reg !in f.writeFail && |ws| > 0 && ws[|ws| - 1].reg == reg ==>
      WriteAll(c, f, ws).regs[reg] == ws[|ws| - 1].val
    decreases |ws|
  {
    if ws != [] {
      WriteAllRegs(c, f, ws[..|ws| - 1], reg);
    }
  }

  /** `b` extends `a` with writes to registers of `regs` only. */
  predicate Appends(a: seq<BusWrite>, b: seq<BusWrite>, regs: set<Reg>) {
    a <= b && forall j :: |a| <= j < |b| ==> b[j].reg in regs
  }

  lemma AppendsTrans(a: seq<BusWrite>, b: seq<BusWrite>, d: seq<BusWrite>, r1: set<Reg>, r2: set<Reg>)
    requires Appends(a, b, r1) && Appends(b, d, r2)
    ensures Appends(a, d, r1 + r2)
  {
  }

  class Axp228 {
    var regs: RegFile
    var writes: seq<BusWrite>
    const faults: Faults

    constructor (regs: RegFile, faults: Faults)
      ensures this.regs == regs && writes == [] && this.faults == faults
    {
      this.regs := regs;
      this.writes := [];
      this.faults := faults;
    }

    function State(): Chip
      reads this
    {
      Chip(regs, writes)
    }

    /** `axp228_read` (drivers/power/pmic/axp228.c): 0 on bus success, -EIO on failure. */
    method Read(reg: Reg, buf: bv8) returns (ret: int, val: bv8)
      ensures (ret, val) == ReadSpec(State(), faults, reg, buf)
      ensures ret == 0 || ret == -EIO
    {
      if reg in faults.readFail {
        ret, val := -EIO, buf;
      } else {
        ret, val := 0, regs[reg];
      }
    }

    /** `axp228_write` (drivers/power/pmic/axp228.c): 0 on bus success, -EIO on failure. */
    method Write(reg: Reg, val: bv8) returns (ret: int)
      modifies this
      ensures (ret, State()) == WriteSpec(old(State()), faults, reg, val)
    {
      writes := writes + [BusWrite(reg, val)];
      if reg in faults.writeFail {
        ret := -EIO;
      } else {
        regs := regs[reg := val];
        ret := 0;
      }
    }
  }

  /** `pmic_clrsetbits` on the chip. */
  method ClrSetBits(dev: Axp228, reg: Reg, clr: bv8, bits: bv8) returns (ret: int)
    modifies dev
    ensures (ret, dev.State()) == ClrSetBitsSpec(old(dev.State()), dev.faults, reg, clr, bits)
  {
    var v: bv8;
    ret, v := dev.Read(reg, 0);
    if ret != 0 {
      return;
    }
    ret := dev.Write(reg, (v & !clr) | bits);
  }
}
