/**
 * The probe of the AXP228 charger driver, as ten steps over the chip and the three byte
 * variables the driver reuses as read buffers (`reg_val`, `val`) and the OCV comparison
 * flag. A failed read leaves its buffer as it was, so a step can see the byte an earlier
 * step left behind.
 */
module Axp228ChargerProbe {
  import opened Wrappers
  import opened CTypes
  import opened Bits
  import opened Axp228Regs
  import opened Axp228Device
  import opened Axp228ChargerCodec
  import opened Axp228Charger

  /** The probe's local byte variables that carry values from one step to the next. */
  datatype Locals = Locals(regVal: bv8, val: bv8, ocvCmp: bool)

  /** The OCV table fits the register window from OCV_TABLE up to the last register. */
  predicate OcvFits(cfg: ChgConfig) {
    cfg.ocv.Some? ==> |cfg.ocv.value| <= 0x100 - OCV_TABLE
  }

  /** The register of OCV table entry `i`. */
  function OcvReg(i: int): (reg: Reg)
    requires 0 <= i < 0x100 - OCV_TABLE
    ensures reg == OCV_TABLE + i
  {
    OCV_TABLE + i
  }

  // ---------------------------------------------------------------------------------
  // Power key
  // ---------------------------------------------------------------------------------

  /** Program POK_SET from the byte read into `reg_val`. */
  function PokStep(s: (Locals, Chip), f: Faults, cfg: ChgConfig): (r: (Locals, Chip))
    ensures r.1.writes == s.1.writes + [BusWrite(POK_SET, r.0.regVal)]
    ensures r.0.regVal == PokSetValue(ReadSpec(s.1, f, POK_SET, s.0.regVal).1, cfg.pek)
  {
    var v := ReadSpec(s.1, f, POK_SET, s.0.regVal).1;
    var w := PokSetValue(v, cfg.pek);
    (s.0.(regVal := w), WriteSpec(s.1, f, POK_SET, w).1)
  }

  method PokPass(dev: Axp228, l: Locals, cfg: ChgConfig) returns (l': Locals)
    modifies dev
    ensures (l', dev.State()) == PokStep((l, old(dev.State())), dev.faults, cfg)
  {
    var ret, v := dev.Read(POK_SET, l.regVal);
    var w := PokSetValue(v, cfg.pek);
    ret := dev.Write(POK_SET, w);
    l' := l.(regVal := w);
  }

  /** Program OFF_CTL from the byte read into `reg_val`. */
  function OffCtlStep(s: (Locals, Chip), f: Faults, cfg: ChgConfig): (r: (Locals, Chip))
    ensures r.1.writes == s.1.writes + [BusWrite(OFF_CTL, r.0.regVal)]
    ensures r.0.regVal == OffCtlValue(ReadSpec(s.1, f, OFF_CTL, s.0.regVal).1, cfg.pekDelay, cfg.ghcledfun)
  {
    var v := ReadSpec(s.1, f, OFF_CTL, s.0.regVal).1;
    var w := OffCtlValue(v, cfg.pekDelay, cfg.ghcledfun);
    (s.0.(regVal := w), WriteSpec(s.1, f, OFF_CTL, w).1)
  }

  method OffCtlPass(dev: Axp228, l: Locals, cfg: ChgConfig) returns (l': Locals)
    modifies dev
    ensures (l', dev.State()) == OffCtlStep((l, old(dev.State())), dev.faults, cfg)
  {
    var ret, v := dev.Read(OFF_CTL, l.regVal);
    var w := OffCtlValue(v, cfg.pekDelay, cfg.ghcledfun);
    ret := dev.Write(OFF_CTL, w);
    l' := l.(regVal := w);
  }

  // ---------------------------------------------------------------------------------
  // Single-bit options
  // ---------------------------------------------------------------------------------

  /** Set or clear `bit` of `reg` after an optional flag property; nothing when it is absent. */
  function FlagOption(c: Chip, f: Faults, p: Option<int>, reg: Reg, bit: bv8): (r: Chip)
    ensures Appends(c.writes, r.writes, {reg}) && |r.writes| <= |c.writes| + 1
    ensures p.None? ==> r == c
  {
    if p.Some? then ClrSetBitsSpec(c, f, reg, bit, FlagBit(p.value, bit)).1 else c
  }

  /** On a working bus, a present flag sets its bit when non-zero and clears it when zero; nothing else changes. */
  lemma FlagOptionEffect(c: Chip, f: Faults, p: Option<int>, reg: Reg, bit: bv8)
    requires reg !in f.readFail && reg !in f.writeFail && p.Some?
    ensures var r := FlagOption(c, f, p, reg, bit);
      && FieldIs(r.regs[reg], bit, FlagBit(p.value, bit))
      && SameOutside(r.regs[reg], c.regs[reg], bit)
      && r.regs == c.regs[reg := r.regs[reg]]
  {
    SetFieldEffect(c.regs[reg], bit, FlagBit(p.value, bit));
  }

  method FlagOptionPass(dev: Axp228, p: Option<int>, reg: Reg, bit: bv8)
    modifies dev
    ensures dev.State() == FlagOption(old(dev.State()), dev.faults, p, reg, bit)
  {
    if p.Some? {
      var ret := ClrSetBits(dev, reg, bit, FlagBit(p.value, bit));
    }
  }

  /** The CHGLED type, capacity-correction, regulation and battery-detection bits. */
  function FlagsStep(s: (Locals, Chip), f: Faults, cfg: ChgConfig): (r: (Locals, Chip))
    ensures r.0 == s.0
    ensures Appends(s.1.writes, r.1.writes, {CHGLED_CTL, COULOMB_CTL, CHARGE2, PDBC})
  {
    var c1 := FlagOption(s.1, f, cfg.chgledtype, CHGLED_CTL, 0x10);
    var c2 := FlagOption(c1, f, cfg.batcapcorrent, COULOMB_CTL, 0x20);
    var c3 := FlagOption(c2, f, cfg.batreguen, CHARGE2, 0x20);
    var c4 := FlagOption(c3, f, cfg.batdet, PDBC, 0x40);
    AppendsTrans(s.1.writes, c1.writes, c2.writes, {CHGLED_CTL}, {COULOMB_CTL});
    AppendsTrans(s.1.writes, c2.writes, c3.writes, {CHGLED_CTL, COULOMB_CTL}, {CHARGE2});
    AppendsTrans(s.1.writes, c3.writes, c4.writes, {CHGLED_CTL, COULOMB_CTL, CHARGE2}, {PDBC});
    (s.0, c4)
  }

  method FlagsPass(dev: Axp228, l: Locals, cfg: ChgConfig)
    modifies dev
    ensures (l, dev.State()) == FlagsStep((l, old(dev.State())), dev.faults, cfg)
  {
    FlagOptionPass(dev, cfg.chgledtype, CHGLED_CTL, 0x10);
    FlagOptionPass(dev, cfg.batcapcorrent, COULOMB_CTL, 0x20);
    FlagOptionPass(dev, cfg.batreguen, CHARGE2, 0x20);
    FlagOptionPass(dev, cfg.batdet, PDBC, 0x40);
  }

  // ---------------------------------------------------------------------------------
  // USB input limits, adapter limit and charge current
  // ---------------------------------------------------------------------------------

  predicate UsbPresent(cfg: ChgConfig) {
    cfg.usbvolim.Some? && cfg.usbvollimen.Some? && cfg.usbcurlim.Some? && cfg.usbcurlimen.Some?
  }

  /** Program IPS_SET from the byte read into `reg_val`, when all four USB properties are present. */
  function IpsStep(s: (Locals, Chip), f: Faults, cfg: ChgConfig): (r: (Locals, Chip))
    ensures !UsbPresent(cfg) ==> r == s
    ensures UsbPresent(cfg) ==> r.1.writes == s.1.writes + [BusWrite(IPS_SET, r.0.regVal)]
  {
    if UsbPresent(cfg) then
      var u := UsbConfig(cfg.usbvolim.value, cfg.usbvollimen.value, cfg.usbcurlim.value, cfg.usbcurlimen.value);
      var v := ReadSpec(s.1, f, IPS_SET, s.0.regVal).1;
      var w := IpsSetValue(v, u);
      (s.0.(regVal := w), WriteSpec(s.1, f, IPS_SET, w).1)
    else s
  }

  method IpsPass(dev: Axp228, l: Locals, cfg: ChgConfig) returns (l': Locals)
    modifies dev
    ensures (l', dev.State()) == IpsStep((l, old(dev.State())), dev.faults, cfg)
  {
    l' := l;
    if UsbPresent(cfg) {
      var u := UsbConfig(cfg.usbvolim.value, cfg.usbvollimen.value, cfg.usbcurlim.value, cfg.usbcurlimen.value);
      var ret, v := dev.Read(IPS_SET, l.regVal);
      var w := IpsSetValue(v, u);
      ret := dev.Write(IPS_SET, w);
      l' := l.(regVal := w);
    }
  }

  /**
   * Program the adapter limit in CHARGE3. The driver computes the in-range code into
   * `val` before it tests the range, so `val` holds it whatever the range.
   */
  function LimitStep(s: (Locals, Chip), f: Faults, cfg: ChgConfig): (r: (Locals, Chip))
    ensures Appends(s.1.writes, r.1.writes, {CHARGE3}) && |r.1.writes| <= |s.1.writes| + 1
    ensures cfg.limitCurrent.None? ==> r == s
  {
    if cfg.limitCurrent.Some? then
      var lc := cfg.limitCurrent.value;
      var val := Low8(CDiv(lc - 200001, 150000));
      var bits: bv8 := if CURRENT_MIN <= lc <= CURRENT_MAX then val else if lc < CURRENT_MIN then 0x00 else 0x0F;
      (s.0.(val := val), ClrSetBitsSpec(s.1, f, CHARGE3, 0x0F, bits).1)
    else s
  }

  /** The probe's adapter limit programs CHARGE3 exactly as `set_limit_current` for an adapter does. */
  lemma LimitStepIsSetLimitCurrent(s: (Locals, Chip), f: Faults, cfg: ChgConfig)
    requires cfg.limitCurrent.Some?
    ensures LimitStep(s, f, cfg).1 == SetLimitCurrentSpec(s.1, f, Ta, cfg.limitCurrent.value).1
  {
    LimitBits(cfg.limitCurrent.value);
  }

  /** The byte the probe chooses for an adapter limit is the low byte of `set_limit_current`'s code. */
  lemma LimitBits(lc: int)
    ensures (if CURRENT_MIN <= lc <= CURRENT_MAX then Low8(CDiv(lc - 200001, 150000))
             else if lc < CURRENT_MIN then 0x00 else 0x0F) == Low8(CurrentCode(lc))
  {
    if CURRENT_MIN <= lc <= CURRENT_MAX {
      assert CDiv(lc - 200001, 150000) == CurrentCode(lc);
    } else if lc < CURRENT_MIN {
      assert Low8(CurrentCode(lc)) == 0x00;
    } else {
      assert Low8(CurrentCode(lc)) == 0x0F;
    }
  }

  method LimitPass(dev: Axp228, l: Locals, cfg: ChgConfig) returns (l': Locals)
    modifies dev
    ensures (l', dev.State()) == LimitStep((l, old(dev.State())), dev.faults, cfg)
  {
    l' := l;
    if cfg.limitCurrent.Some? {
      var lc := cfg.limitCurrent.value;
      var val := Low8(CDiv(lc - 200001, 150000));
      var ret: int;
      if CURRENT_MIN <= lc <= CURRENT_MAX {
        ret := ClrSetBits(dev, CHARGE3, 0x0F, val);
      } else if lc < CURRENT_MIN {
        ret := ClrSetBits(dev, CHARGE3, 0x0F, 0x00);
      } else {
        ret := ClrSetBits(dev, CHARGE3, 0x0F, 0x0F);
      }
      l' := l.(val := val);
    }
  }

  /**
   * Enable or disable charging (CHARGE1 bit 7), then program the charge current: the
   * configured one when STATUS reports a usable adapter (bit 6), 500 mA otherwise. The
   * STATUS byte is read into `val`, which ends as 1 or 0.
   */
  function ChargeStep(s: (Locals, Chip), f: Faults, cfg: ChgConfig): (r: (Locals, Chip))
    ensures cfg.chargeCurrent.None? ==> r == s
    ensures Appends(s.1.writes, r.1.writes, {CHARGE1}) && |r.1.writes| <= |s.1.writes| + 2
  {
    if cfg.chargeCurrent.Some? then
      var cc := cfg.chargeCurrent.value;
      var c1 := ClrSetBitsSpec(s.1, f, CHARGE1, 0x80, FlagBit(cc, 0x80)).1;
      var v := ReadSpec(c1, f, STATUS, s.0.val).1;
      var acva := AllSet(v, STATUS_ACVA);
      var c2 := SetChargeCurrentSpec(c1, f, if acva then cc else CHARGE_CURRENT_500).1;
      AppendsTrans(s.1.writes, c1.writes, c2.writes, {CHARGE1}, {CHARGE1});
      (s.0.(val := if acva then 1 else 0), c2)
    else s
  }

  /**
   * On a working bus CHARGE1 ends with bit 7 set exactly when the charge current is
   * non-zero, and its current code selects the configured current when STATUS reports a
   * usable adapter and 500 mA otherwise; bits 6..4 and every other register are kept.
   */
  lemma ChargeStepEffect(s: (Locals, Chip), f: Faults, cfg: ChgConfig)
    requires cfg.chargeCurrent.Some?
    requires CHARGE1 !in f.readFail && CHARGE1 !in f.writeFail && STATUS !in f.readFail
    ensures var r := ChargeStep(s, f, cfg);
      var uA := if AllSet(s.1.regs[STATUS], STATUS_ACVA) then cfg.chargeCurrent.value else CHARGE_CURRENT_500;
      && FieldIs(r.1.regs[CHARGE1], 0x80, FlagBit(cfg.chargeCurrent.value, 0x80))
      && GetChargeCurrentSpec(r.1, f) == CurrentOf(CurrentCode(uA))
      && FieldIs(r.1.regs[CHARGE1], 0x70, s.1.regs[CHARGE1] & 0x70)
      && r.1.regs == s.1.regs[CHARGE1 := r.1.regs[CHARGE1]]
  {
    var cc := cfg.chargeCurrent.value;
    var c1 := ClrSetBitsSpec(s.1, f, CHARGE1, 0x80, FlagBit(cc, 0x80)).1;
    SetFieldEffect(s.1.regs[CHARGE1], 0x80, FlagBit(cc, 0x80));
    assert c1.regs[STATUS] == s.1.regs[STATUS];
    var uA := if AllSet(s.1.regs[STATUS], STATUS_ACVA) then cc else CHARGE_CURRENT_500;
    ChargeCurrentSetGet(c1, f, uA);
  }

  method ChargePass(dev: Axp228, l: Locals, cfg: ChgConfig) returns (l': Locals)
    modifies dev
    ensures (l', dev.State()) == ChargeStep((l, old(dev.State())), dev.faults, cfg)
  {
    l' := l;
    if cfg.chargeCurrent.Some? {
      var cc := cfg.chargeCurrent.value;
      var ret := ClrSetBits(dev, CHARGE1, 0x80, FlagBit(cc, 0x80));
      var v: bv8;
      ret, v := dev.Read(STATUS, l.val);
      var acva := AllSet(v, STATUS_ACVA);
      ret := SetChargeCurrent(dev, if acva then cc else CHARGE_CURRENT_500);
      l' := l.(val := if acva then 1 else 0);
    }
  }

  /** Program WARNING_LEVEL from the two warning levels, when both are present. */
  function WarnStep(s: (Locals, Chip), f: Faults, cfg: ChgConfig): (r: (Locals, Chip))
    ensures !(cfg.batlowlv1.Some? && cfg.batlowlv2.Some?) ==> r == s
    ensures cfg.batlowlv1.Some? && cfg.batlowlv2.Some? ==>
      r.1.writes == s.1.writes + [BusWrite(WARNING_LEVEL, Low8(WarningLevel(cfg.batlowlv1.value, cfg.batlowlv2.value)))]
  {
    if cfg.batlowlv1.Some? && cfg.batlowlv2.Some? then
      var w := Low8(WarningLevel(cfg.batlowlv1.value, cfg.batlowlv2.value));
      (s.0.(regVal := w), WriteSpec(s.1, f, WARNING_LEVEL, w).1)
    else s
  }

  method WarnPass(dev: Axp228, l: Locals, cfg: ChgConfig) returns (l': Locals)
    modifies dev
    ensures (l', dev.State()) == WarnStep((l, old(dev.State())), dev.faults, cfg)
  {
    l' := l;
    if cfg.batlowlv1.Some? && cfg.batlowlv2.Some? {
      var w := Low8(WarningLevel(cfg.batlowlv1.value, cfg.batlowlv2.value));
      var ret := dev.Write(WARNING_LEVEL, w);
      l' := l.(regVal := w);
    }
  }

  // ---------------------------------------------------------------------------------
  // OCV table
  // ---------------------------------------------------------------------------------

  /**
   * The comparison loop from entry `i` on, reading each register into the buffer that
   * held `buf`: whether some entry differs, and the buffer's last value.
   */
  function OcvMismatch(c: Chip, f: Faults, t: seq<bv8>, i: nat, buf: bv8): (r: (bool, bv8))
    requires |t| <= 0x100 - OCV_TABLE && i <= |t|
    decreases |t| - i
  {
    if i == |t| then (false, buf)
    else
      var v := ReadSpec(c, f, OcvReg(i), buf).1;
      if v != t[i] then (true, v) else OcvMismatch(c, f, t, i + 1, v)
  }


  /** On a working bus the loop reports a difference exactly when some register differs from its entry. */
  lemma {:induction false} OcvMismatchCorrect(c: Chip, f: Faults, t: seq<bv8>, i: nat, buf: bv8)
    requires |t| <= 0x100 - OCV_TABLE && i <= |t|
    requires forall j :: i <= j < |t| ==> OcvReg(j) !in f.readFail
    ensures OcvMismatch(c, f, t, i, buf).0 <==> exists j :: i <= j < |t| && c.regs[OcvReg(j)] != t[j]
    decreases |t| - i
  {
    if i < |t| {
      var v := ReadSpec(c, f, OcvReg(i), buf).1;
      if v == t[i] {
        OcvMismatchCorrect(c, f, t, i + 1, v);
        if exists j :: i <= j < |t| && c.regs[OcvReg(j)] != t[j] {
          var j :| i <= j < |t| && c.regs[OcvReg(j)] != t[j];
          assert j != i;
        }
      }
    }
  }

  /** The compare loop of the probe, which reads only. */
  method OcvCompare(dev: Axp228, t: seq<bv8>, buf: bv8) returns (cmp: bool, v: bv8)
    requires |t| <= 0x100 - OCV_TABLE
    ensures (cmp, v) == OcvMismatch(dev.State(), dev.faults, t, 0, buf)
  {
    v := buf;
    cmp := false;
    var i := 0;
    while i < |t|
      invariant 0 <= i <= |t|
      invariant OcvMismatch(dev.State(), dev.faults, t, 0, buf) == OcvMismatch(dev.State(), dev.faults, t, i, v)
    {
      var ret: int;
      ret, v := dev.Read(OcvReg(i), v);
      if v != t[i] {
        cmp := true;
        return;
      }
      i := i + 1;
    }
  }

  /** The writes of the table to the OCV window, entry by entry. */
  function OcvWrites(t: seq<bv8>): (ws: seq<BusWrite>)
    requires |t| <= 0x100 - OCV_TABLE
    ensures |ws| == |t|
    ensures forall i :: 0 <= i < |t| ==> ws[i] == BusWrite(OcvReg(i), t[i])
  {
    seq(|t|, i requires 0 <= i < |t| => BusWrite(OcvReg(i), t[i]))
  }

  /**
   * After writing the first `n` entries on a working bus, each of those registers holds
   * its entry and every other register is unchanged.
   */
  lemma {:induction false} OcvWritesEffect(c: Chip, f: Faults, t: seq<bv8>, n: nat)
    requires |t| <= 0x100 - OCV_TABLE && n <= |t|
    requires forall j :: 0 <= j < |t| ==> OcvReg(j) !in f.writeFail
    ensures forall j :: 0 <= j < n ==> WriteAll(c, f, OcvWrites(t)[..n]).regs[OcvReg(j)] == t[j]
    ensures forall r: Reg :: !(OCV_TABLE <= r < OCV_TABLE + n) ==> WriteAll(c, f, OcvWrites(t)[..n]).regs[r] == c.regs[r]
  {
    if n > 0 {
      OcvWritesEffect(c, f, t, n - 1);
      var ws := OcvWrites(t)[..n];
      assert ws[..n - 1] == OcvWrites(t)[..n - 1];
      assert ws[n - 1] == BusWrite(OcvReg(n - 1), t[n - 1]);
    }
  }

  /** The rewrite loop of the probe: every entry written in order, errors ignored. */
  method OcvRewrite(dev: Axp228, t: seq<bv8>)
    requires |t| <= 0x100 - OCV_TABLE
    modifies dev
    ensures dev.State() == WriteAll(old(dev.State()), dev.faults, OcvWrites(t))
  {
    var i := 0;
    while i < |t|
      invariant 0 <= i <= |t|
      invariant dev.State() == WriteAll(old(dev.State()), dev.faults, OcvWrites(t)[..i])
    {
      var ret := dev.Write(OcvReg(i), t[i]);
      assert OcvWrites(t)[..i + 1][..i] == OcvWrites(t)[..i];
      i := i + 1;
    }
    assert OcvWrites(t)[..|t|] == OcvWrites(t);
  }

  /** Compare the OCV table with the chip (through `val`) and rewrite all of it at the first difference. */
  function OcvStep(s: (Locals, Chip), f: Faults, cfg: ChgConfig): (r: (Locals, Chip))
    requires OcvFits(cfg)
    ensures cfg.ocv.None? ==> r == s
  {
    if cfg.ocv.Some? then
      var t := cfg.ocv.value;
      var (cmp, v) := OcvMismatch(s.1, f, t, 0, s.0.val);
      (s.0.(val := v, ocvCmp := cmp), if cmp then WriteAll(s.1, f, OcvWrites(t)) else s.1)
    else s
  }

  /** A bus on which no OCV register transaction fails. */
  predicate OcvBusOk(f: Faults, t: seq<bv8>) {
    && |t| <= 0x100 - OCV_TABLE
    && forall j :: 0 <= j < |t| ==> OcvReg(j) !in f.readFail && OcvReg(j) !in f.writeFail
  }

  /**
   * On a working bus the table is rewritten exactly when some register differs from it;
   * afterwards every register of the table holds its entry, and nothing else changed.
   */
  lemma OcvStepEffect(s: (Locals, Chip), f: Faults, cfg: ChgConfig)
    requires OcvFits(cfg) && cfg.ocv.Some? && OcvBusOk(f, cfg.ocv.value)
    ensures var t := cfg.ocv.value;
      var r := OcvStep(s, f, cfg);
      && (r.0.ocvCmp <==> exists j :: 0 <= j < |t| && s.1.regs[OcvReg(j)] != t[j])
      && (r.0.ocvCmp ==> r.1.writes == s.1.writes + OcvWrites(t))
      && (!r.0.ocvCmp ==> r.1 == s.1)
      && (forall j :: 0 <= j < |t| ==> r.1.regs[OcvReg(j)] == t[j])
      && (forall reg: Reg :: !(OCV_TABLE <= reg < OCV_TABLE + |t|) ==> r.1.regs[reg] == s.1.regs[reg])
  {
    var t := cfg.ocv.value;
    OcvMismatchCorrect(s.1, f, t, 0, s.0.val);
    OcvWritesEffect(s.1, f, t, |t|);
    assert OcvWrites(t)[..|t|] == OcvWrites(t);
    WriteAllLog(s.1, f, OcvWrites(t));
  }

  method OcvPass(dev: Axp228, l: Locals, cfg: ChgConfig) returns (l': Locals)
    requires OcvFits(cfg)
    modifies dev
    ensures (l', dev.State()) == OcvStep((l, old(dev.State())), dev.faults, cfg)
  {
    l' := l;
    if cfg.ocv.Some? {
      var t := cfg.ocv.value;
      var cmp, v := OcvCompare(dev, t, l.val);
      if cmp {
        OcvRewrite(dev, t);
      }
      l' := l.(val := v, ocvCmp := cmp);
    }
  }

  // ---------------------------------------------------------------------------------
  // Battery resistance and full capacity
  // ---------------------------------------------------------------------------------

  /**
   * Program RDC0 and RDC1 after an OCV rewrite, or when a non-zero resistance is
   * configured and bit 6 of RDC0 (read into `reg_val`) is clear.
   */
  function RdcStep(s: (Locals, Chip), f: Faults, cfg: ChgConfig): (r: (Locals, Chip))
    ensures cfg.batrdc.None? ==> r == s
  {
    if cfg.batrdc.Some? then
      var b := cfg.batrdc.value;
      var v := ReadSpec(s.1, f, RDC0, s.0.regVal).1;
      if s.0.ocvCmp || (b != 0 && NoneSet(v, 0x40)) then
        var rdc := RdcCode(b);
        var c1 := WriteSpec(s.1, f, RDC0, Low8(Rdc0(rdc))).1;
        (s.0.(regVal := Low8(Rdc1(rdc))), WriteSpec(c1, f, RDC1, Low8(Rdc1(rdc))).1)
      else (s.0.(regVal := v), s.1)
    else s
  }

  /** A bus on which the transactions on these registers succeed. */
  predicate BusOk(f: Faults, regs: set<Reg>) {
    forall r :: r in regs ==> r !in f.readFail && r !in f.writeFail
  }

  /**
   * When RDC is programmed on a working bus, RDC0 and RDC1 hold the resistance code, and
   * RDC0's bit 6 is clear: the "not yet programmed" test passes again on the next probe,
   * so a non-zero resistance is rewritten at every probe.
   */
  lemma RdcStepEffect(s: (Locals, Chip), f: Faults, cfg: ChgConfig)
    requires cfg.batrdc.Some? && BusOk(f, {RDC0, RDC1})
    requires s.0.ocvCmp || (cfg.batrdc.value != 0 && NoneSet(s.1.regs[RDC0], 0x40))
    ensures var r := RdcStep(s, f, cfg);
      var rdc := RdcCode(cfg.batrdc.value);
      && r.1.writes == s.1.writes + [BusWrite(RDC0, Low8(Rdc0(rdc))), BusWrite(RDC1, Low8(Rdc1(rdc)))]
      && r.1.regs == s.1.regs[RDC0 := Low8(Rdc0(rdc))][RDC1 := Low8(Rdc1(rdc))]
      && (cfg.batrdc.value != 0 ==> NoneSet(r.1.regs[RDC0], 0x40))
  {
    Rdc0Flags(RdcCode(cfg.batrdc.value));
  }

  /** Without an OCV rewrite, a zero resistance or bit 6 of RDC0 set leaves RDC alone. */
  lemma RdcStepSkipped(s: (Locals, Chip), f: Faults, cfg: ChgConfig)
    requires cfg.batrdc.Some? && RDC0 !in f.readFail
    requires !s.0.ocvCmp && (cfg.batrdc.value == 0 || !NoneSet(s.1.regs[RDC0], 0x40))
    ensures RdcStep(s, f, cfg).1 == s.1
  {
  }

  method RdcPass(dev: Axp228, l: Locals, cfg: ChgConfig) returns (l': Locals)
    modifies dev
    ensures (l', dev.State()) == RdcStep((l, old(dev.State())), dev.faults, cfg)
  {
    l' := l;
    if cfg.batrdc.Some? {
      var b := cfg.batrdc.value;
      var ret, v := dev.Read(RDC0, l.regVal);
      if l.ocvCmp || (b != 0 && NoneSet(v, 0x40)) {
        var rdc := RdcCode(b);
        ret := dev.Write(RDC0, Low8(Rdc0(rdc)));
        ret := dev.Write(RDC1, Low8(Rdc1(rdc)));
        l' := l.(regVal := Low8(Rdc1(rdc)));
      } else {
        l' := l.(regVal := v);
      }
    }
  }

  /**
   * Program BATFULLCAPH and BATFULLCAPL after an OCV rewrite, or when a non-zero capacity
   * is configured and bit 7 of BATFULLCAPH (read into `reg_val`) is clear; a zero capacity
   * otherwise clears both registers.
   */
  function CapStep(s: (Locals, Chip), f: Faults, cfg: ChgConfig): (r: (Locals, Chip))
    ensures cfg.batcap.None? ==> r == s
  {
    if cfg.batcap.Some? then
      var b := cfg.batcap.value;
      var v := ReadSpec(s.1, f, BATFULLCAPH_RES, s.0.regVal).1;
      if s.0.ocvCmp || (b != 0 && NoneSet(v, 0x80)) then
        var cap := FullCapCode(b);
        var c1 := WriteSpec(s.1, f, BATFULLCAPH_RES, Low8(FullCapH(cap))).1;
        (s.0.(regVal := Low8(FullCapL(cap))), WriteSpec(c1, f, BATFULLCAPL_RES, Low8(FullCapL(cap))).1)
      else if b == 0 then
        var c1 := WriteSpec(s.1, f, BATFULLCAPH_RES, 0).1;
        (s.0.(regVal := 0), WriteSpec(c1, f, BATFULLCAPL_RES, 0).1)
      else (s.0.(regVal := v), s.1)
    else s
  }

  /**
   * When the capacity is programmed on a working bus, the register pair holds its code
   * with BATFULLCAPH's bit 7 set, so the next probe without an OCV rewrite leaves it alone.
   */
  lemma CapStepEffect(s: (Locals, Chip), f: Faults, cfg: ChgConfig)
    requires cfg.batcap.Some? && BusOk(f, {BATFULLCAPH_RES, BATFULLCAPL_RES})
    requires s.0.ocvCmp || (cfg.batcap.value != 0 && NoneSet(s.1.regs[BATFULLCAPH_RES], 0x80))
    ensures var r := CapStep(s, f, cfg);
      var cap := FullCapCode(cfg.batcap.value);
      && r.1.writes == s.1.writes + [BusWrite(BATFULLCAPH_RES, Low8(FullCapH(cap))), BusWrite(BATFULLCAPL_RES, Low8(FullCapL(cap)))]
      && r.1.regs == s.1.regs[BATFULLCAPH_RES := Low8(FullCapH(cap))][BATFULLCAPL_RES := Low8(FullCapL(cap))]
      && AllSet(r.1.regs[BATFULLCAPH_RES], 0x80)
      && (cfg.batcap.value != 0 ==> CapStep((r.0.(ocvCmp := false), r.1), f, cfg).1 == r.1)
  {
    FullCapFlag(FullCapCode(cfg.batcap.value));
  }

  /** A zero capacity without an OCV rewrite writes zero to both capacity registers. */
  lemma CapStepZero(s: (Locals, Chip), f: Faults, cfg: ChgConfig)
    requires cfg.batcap == Some(0) && !s.0.ocvCmp
    ensures CapStep(s, f, cfg).1.writes == s.1.writes + [BusWrite(BATFULLCAPH_RES, 0), BusWrite(BATFULLCAPL_RES, 0)]
  {
  }

  /**
   * A non-zero capacity without an OCV rewrite, with bit 7 of BATFULLCAPH (as read into
   * `reg_val`) already set, writes nothing.
   */
  lemma CapStepSkipped(s: (Locals, Chip), f: Faults, cfg: ChgConfig)
    requires cfg.batcap.Some? && cfg.batcap.value != 0 && !s.0.ocvCmp
    requires AllSet(ReadSpec(s.1, f, BATFULLCAPH_RES, s.0.regVal).1, 0x80)
    ensures CapStep(s, f, cfg).1 == s.1
  {
  }

  method CapPass(dev: Axp228, l: Locals, cfg: ChgConfig) returns (l': Locals)
    modifies dev
    ensures (l', dev.State()) == CapStep((l, old(dev.State())), dev.faults, cfg)
  {
    l' := l;
    if cfg.batcap.Some? {
      var b := cfg.batcap.value;
      var ret, v := dev.Read(BATFULLCAPH_RES, l.regVal);
      if l.ocvCmp || (b != 0 && NoneSet(v, 0x80)) {
        var cap := FullCapCode(b);
        ret := dev.Write(BATFULLCAPH_RES, Low8(FullCapH(cap)));
        ret := dev.Write(BATFULLCAPL_RES, Low8(FullCapL(cap)));
        l' := l.(regVal := Low8(FullCapL(cap)));
      } else if b == 0 {
        ret := dev.Write(BATFULLCAPH_RES, 0);
        ret := dev.Write(BATFULLCAPL_RES, 0);
        l' := l.(regVal := 0);
      } else {
        l' := l.(regVal := v);
      }
    }
  }

  // ---------------------------------------------------------------------------------
  // The probe
  // ---------------------------------------------------------------------------------

  /** The state after the power-key, option and USB steps. */
  function EarlySteps(c: Chip, f: Faults, cfg: ChgConfig): (Locals, Chip)
  {
    var s1 := PokStep((Locals(0, 0, false), c), f, cfg);
    var s2 := OffCtlStep(s1, f, cfg);
    var s3 := FlagsStep(s2, f, cfg);
    IpsStep(s3, f, cfg)
  }

  /** The probe: every step in the driver's order. */
  function ProbeSpec(c: Chip, f: Faults, cfg: ChgConfig): (Locals, Chip)
    requires OcvFits(cfg)
  {
    var s4 := EarlySteps(c, f, cfg);
    var s5 := LimitStep(s4, f, cfg);
    var s6 := ChargeStep(s5, f, cfg);
    var s7 := WarnStep(s6, f, cfg);
    var s8 := OcvStep(s7, f, cfg);
    var s9 := RdcStep(s8, f, cfg);
    CapStep(s9, f, cfg)
  }

  /** The probe first writes POK_SET and then OFF_CTL, each computed from the byte read from it. */
  lemma ProbePowerKeyFirst(c: Chip, f: Faults, cfg: ChgConfig)
    ensures var r := EarlySteps(c, f, cfg).1;
      var n := |c.writes|;
      var pok := PokSetValue(ReadSpec(c, f, POK_SET, 0).1, cfg.pek);
      var c1 := WriteSpec(c, f, POK_SET, pok).1;
      && |r.writes| >= n + 2
      && r.writes[n] == BusWrite(POK_SET, pok)
      && r.writes[n + 1] == BusWrite(OFF_CTL, OffCtlValue(ReadSpec(c1, f, OFF_CTL, pok).1, cfg.pekDelay, cfg.ghcledfun))
  {
    var s1 := PokStep((Locals(0, 0, false), c), f, cfg);
    var s2 := OffCtlStep(s1, f, cfg);
    var s3 := FlagsStep(s2, f, cfg);
    var s4 := IpsStep(s3, f, cfg);
    assert s2.1.writes <= s3.1.writes <= s4.1.writes;
  }

  /**
   * When the IPS_SET read fails, the probe writes IPS_SET from the byte it last wrote to
   * OFF_CTL: the read buffer still holds it.
   */
  lemma ProbeIpsStaleBuffer(c: Chip, f: Faults, cfg: ChgConfig)
    requires UsbPresent(cfg) && IPS_SET in f.readFail
    ensures var r := EarlySteps(c, f, cfg);
      var s2 := OffCtlStep(PokStep((Locals(0, 0, false), c), f, cfg), f, cfg);
      var u := UsbConfig(cfg.usbvolim.value, cfg.usbvollimen.value, cfg.usbcurlim.value, cfg.usbcurlimen.value);
      r.1.writes[|r.1.writes| - 1] == BusWrite(IPS_SET, IpsSetValue(s2.0.regVal, u))
  {
  }

  /** `chg_probe`: always returns 0, whatever the bus does. */
  method Probe(dev: Axp228, cfg: ChgConfig) returns (ret: int)
    requires OcvFits(cfg)
    modifies dev
    ensures ret == 0
    ensures dev.State() == ProbeSpec(old(dev.State()), dev.faults, cfg).1
  {
    var l := Locals(0, 0, false);
    l := PokPass(dev, l, cfg);
    l := OffCtlPass(dev, l, cfg);
    FlagsPass(dev, l, cfg);
    l := IpsPass(dev, l, cfg);
    l := LimitPass(dev, l, cfg);
    l := ChargePass(dev, l, cfg);
    l := WarnPass(dev, l, cfg);
    l := OcvPass(dev, l, cfg);
    l := RdcPass(dev, l, cfg);
    l := CapPass(dev, l, cfg);
    ret := 0;
  }
}
