/**
 * The AXP228 charger driver: its charger operations (battery voltage and gauge, charger
 * type, charge current and input current limit), its reading of the device-tree node, and
 * its probe, which programs the power key, USB input, charge current, warning level, OCV
 * table, battery resistance and full capacity.
 */
module Axp228Charger {
  import opened Wrappers
  import opened CTypes
  import opened Bits
  import opened Axp228Regs
  import opened Axp228Device
  import opened Axp228ChargerCodec

  /** What `get_charge_type` reports: an adapter (TA), a USB host, or nothing. */
  datatype ChargerType = Ta | Usb | NoCharger

  /** The IPS_SET code for a 0.5 A USB input limit. */
  const USB_LIMIT_500: bv8 := 0x01

  // ---------------------------------------------------------------------------------
  // Reading registers as numbers
  // ---------------------------------------------------------------------------------

  /** The low nibble of a register as a number. */
  function Nibble(v: bv8): (n: int)
    ensures 0 <= n < 16
  {
    (v & 0xF) as int
  }

  /** A nibble code written into the low nibble reads back as that code. */
  lemma NibbleOfCode(v: bv8, k: int)
    requires 0 <= k < 16
    ensures Nibble(SetField(v, 0x0F, Low8(k))) == k
  {
  }

  /** Writing back the nibble just read leaves the byte as it was. */
  lemma NibbleRewrite(v: bv8)
    ensures SetField(v, 0x0F, Low8(Nibble(v))) == v
  {
  }

  /** The 16-bit word `(high << 8) | low` of a result register pair. */
  function Word(high: bv8, low: bv8): (w: U16)
    ensures w / 256 == high as int && w % 256 == low as int
  {
    high as int * 256 + low as int
  }

  /** The state-of-charge percentage in CAP: bits 6..0. */
  function Percent(v: bv8): (p: int)
    ensures 0 <= p < 128
  {
    (v & 0x7F) as int
  }

  /** Bit 7 of CAP does not take part in the percentage. */
  lemma PercentIgnoresFlag(v: bv8)
    ensures Percent(v | 0x80) == Percent(v & 0x7F) == Percent(v)
  {
  }

  // ---------------------------------------------------------------------------------
  // Battery voltage and gauge
  // ---------------------------------------------------------------------------------

  /** The running total of `n` equal samples `x`. */
  function Total(n: nat, x: int): (t: int)
  {
    if n == 0 then 0 else Total(n - 1, x) + x
  }

  /** The average of five equal samples, in microvolts, is the sample. */
  lemma AverageOfEqualSamples(mv: int)
    requires 0 <= mv <= 4504
    ensures (Total(5, mv) / 5) * 1000 == mv * 1000
    ensures 0 <= mv * 1000 <= 4504000
  {
    assert Total(1, mv) == mv;
    assert Total(3, mv) == 3 * mv;
    assert Total(5, mv) == 5 * mv;
  }

  /**
   * `get_value_vbatt`: five samples of the battery-voltage register pair, averaged, in
   * microvolts. The read buffers are not initialised in the driver: `high0` and `low0` are
   * what they hold before the first read, and a failed read leaves a buffer as it was.
   * The chip does not change between the samples here, so they are all the same sample.
   */
  method GetValueVbatt(dev: Axp228, high0: bv8, low0: bv8) returns (uV: int)
    ensures var h := ReadSpec(dev.State(), dev.faults, VBATH_RES, high0).1;
      var l := ReadSpec(dev.State(), dev.faults, VBATL_RES, low0).1;
      uV == VbatToMv(Word(h, l)) * 1000
    ensures 0 <= uV <= 4504000
  {
    var h := ReadSpec(dev.State(), dev.faults, VBATH_RES, high0).1;
    var l := ReadSpec(dev.State(), dev.faults, VBATL_RES, low0).1;
    var mv := VbatToMv(Word(h, l));
    var high, low := high0, low0;
    var sum := 0;
    var i := 0;
    while i < 5
      invariant 0 <= i <= 5
      invariant i == 0 ==> high == high0 && low == low0
      invariant i > 0 ==> high == h && low == l
      invariant sum == Total(i, mv)
    {
      var ret: int;
      ret, high := dev.Read(VBATH_RES, high);
      ret, low := dev.Read(VBATL_RES, low);
      var sample := VbatToMv(Word(high, low));
      assert sample == mv;
      sum := sum + sample;
      i := i + 1;
    }
    AverageOfEqualSamples(mv);
    uV := (sum / 5) * 1000;
  }

  /** `get_value_gauge`: the state of charge in percent; `buf` is the uninitialised buffer a failed read leaves. */
  method GetValueGauge(dev: Axp228, buf: bv8) returns (pct: int)
    ensures pct == Percent(ReadSpec(dev.State(), dev.faults, CAP, buf).1)
    ensures CAP !in dev.faults.readFail ==> pct == Percent(dev.regs[CAP])
  {
    var ret, v := dev.Read(CAP, buf);
    pct := Percent(v);
  }

  // ---------------------------------------------------------------------------------
  // Charger type
  // ---------------------------------------------------------------------------------

  /** `set_usb_limit`: select the USB input limit code `data` in IPS_SET bits 1..0, ignoring errors. */
  function SetUsbLimitSpec(c: Chip, f: Faults, data: bv8): Chip
  {
    var v := ReadSpec(c, f, IPS_SET, 0).1;
    WriteSpec(c, f, IPS_SET, SetField(v, 0x03, data)).1
  }

  /**
   * `set_usb_limit` always writes IPS_SET once. When the bus works the limit bits take
   * `data` and the rest of IPS_SET is kept; when the read fails the driver writes `data`
   * over a zero byte, clearing the other bits.
   */
  lemma SetUsbLimitEffect(c: Chip, f: Faults, data: bv8)
    requires NoneSet(data, 0xFC)
    ensures var r := SetUsbLimitSpec(c, f, data);
      && r.writes == c.writes + [BusWrite(IPS_SET, r.writes[|c.writes|].val)]
      && (IPS_SET in f.readFail ==> r.writes[|c.writes|].val == data)
      && (IPS_SET !in f.readFail ==>
            FieldIs(r.writes[|c.writes|].val, 0x03, data) &&
            SameOutside(r.writes[|c.writes|].val, c.regs[IPS_SET], 0x03))
      && (IPS_SET in f.writeFail ==> r.regs == c.regs)
      && (IPS_SET !in f.writeFail ==> r.regs == c.regs[IPS_SET := r.writes[|c.writes|].val])
  {
    var v := ReadSpec(c, f, IPS_SET, 0).1;
    SetFieldEffect(v, 0x03, data);
  }

  method SetUsbLimit(dev: Axp228, data: bv8)
    modifies dev
    ensures dev.State() == SetUsbLimitSpec(old(dev.State()), dev.faults, data)
  {
    var ret, v := dev.Read(IPS_SET, 0);
    ret := dev.Write(IPS_SET, SetField(v, 0x03, data));
  }

  /** `get_charge_type`: a present adapter wins over USB; without an adapter the 0.5 A USB limit is selected. */
  function GetChargeTypeSpec(c: Chip, f: Faults): (ChargerType, Chip)
  {
    var v := ReadSpec(c, f, STATUS, 0).1;
    if AllSet(v, STATUS_ACEN) then (Ta, c)
    else if AllSet(v, STATUS_USBEN) then (Usb, SetUsbLimitSpec(c, f, USB_LIMIT_500))
    else (NoCharger, SetUsbLimitSpec(c, f, USB_LIMIT_500))
  }

  /**
   * The type follows STATUS bit 7 (adapter) and then bit 5 (USB); a failed read counts as
   * nothing connected. Only an adapter leaves the chip untouched.
   */
  lemma GetChargeTypeEffect(c: Chip, f: Faults)
    ensures var (t, r) := GetChargeTypeSpec(c, f);
      && (t == Ta <==> STATUS !in f.readFail && AllSet(c.regs[STATUS], STATUS_ACEN))
      && (t == Usb <==> STATUS !in f.readFail && !AllSet(c.regs[STATUS], STATUS_ACEN) && AllSet(c.regs[STATUS], STATUS_USBEN))
      && (t == Ta ==> r == c)
      && (t != Ta ==> r == SetUsbLimitSpec(c, f, USB_LIMIT_500))
  {
  }

  method GetChargeType(dev: Axp228) returns (t: ChargerType)
    modifies dev
    ensures (t, dev.State()) == GetChargeTypeSpec(old(dev.State()), dev.faults)
  {
    var ret, v := dev.Read(STATUS, 0);
    if AllSet(v, STATUS_ACEN) {
      t := Ta;
    } else if AllSet(v, STATUS_USBEN) {
      SetUsbLimit(dev, USB_LIMIT_500);
      t := Usb;
    } else {
      SetUsbLimit(dev, USB_LIMIT_500);
      t := NoCharger;
    }
  }

  // ---------------------------------------------------------------------------------
  // Charge current and input current limit
  // ---------------------------------------------------------------------------------

  /** `get_charge_current`: the charge current CHARGE1 selects, or -EIO. */
  function GetChargeCurrentSpec(c: Chip, f: Faults): (uA: int)
  {
    var (ret, v) := ReadSpec(c, f, CHARGE1, 0);
    if ret >= 0 then CurrentOf(Nibble(v)) else ret
  }

  method GetChargeCurrent(dev: Axp228) returns (uA: int)
    ensures uA == GetChargeCurrentSpec(dev.State(), dev.faults)
    ensures uA == -EIO || CURRENT_MIN <= uA <= CURRENT_MAX
  {
    var ret, v := dev.Read(CHARGE1, 0);
    uA := ret;
    if ret >= 0 {
      uA := CurrentOf(Nibble(v));
    }
  }

  /** `set_charge_current`: write the code of `uA` into the low nibble of CHARGE1. */
  function SetChargeCurrentSpec(c: Chip, f: Faults, uA: int): (int, Chip)
  {
    ClrSetBitsSpec(c, f, CHARGE1, 0x0F, Low8(CurrentCode(uA)))
  }

  method SetChargeCurrent(dev: Axp228, uA: int) returns (ret: int)
    modifies dev
    ensures (ret, dev.State()) == SetChargeCurrentSpec(old(dev.State()), dev.faults, uA)
  {
    ret := ClrSetBits(dev, CHARGE1, 0x0F, Low8(CurrentCode(uA)));
  }

  /**
   * Setting a charge current and reading it back gives the supported current that the
   * request rounds to, and the other bits of CHARGE1 are kept.
   */
  lemma ChargeCurrentSetGet(c: Chip, f: Faults, uA: int)
    requires CHARGE1 !in f.readFail && CHARGE1 !in f.writeFail
    ensures var (ret, r) := SetChargeCurrentSpec(c, f, uA);
      && ret == 0
      && GetChargeCurrentSpec(r, f) == CurrentOf(CurrentCode(uA))
      && SameOutside(r.regs[CHARGE1], c.regs[CHARGE1], 0x0F)
      && r.regs == c.regs[CHARGE1 := r.regs[CHARGE1]]
  {
    var k := CurrentCode(uA);
    var v := SetField(c.regs[CHARGE1], 0x0F, Low8(k));
    var r := SetChargeCurrentSpec(c, f, uA).1;
    assert r.regs == c.regs[CHARGE1 := v];
    NibbleOfCode(c.regs[CHARGE1], k);
    NibbleFits(k);
    SetFieldEffect(c.regs[CHARGE1], 0x0F, Low8(k));
  }

  /** A nibble code fits the low nibble. */
  lemma NibbleFits(k: int)
    requires 0 <= k < 16
    ensures NoneSet(Low8(k), !0x0F)
  {
    assert Low8(k) < 16;
  }

  /** Setting the charge current just read leaves every register as it was. */
  lemma ChargeCurrentGetSet(c: Chip, f: Faults)
    requires CHARGE1 !in f.readFail && CHARGE1 !in f.writeFail
    ensures SetChargeCurrentSpec(c, f, GetChargeCurrentSpec(c, f)).1.regs == c.regs
  {
    var n := Nibble(c.regs[CHARGE1]);
    CurrentCodeRoundTrip(n);
    NibbleRewrite(c.regs[CHARGE1]);
    assert c.regs[CHARGE1 := c.regs[CHARGE1]] == c.regs;
  }

  /** `get_limit_current`: the adapter limit from CHARGE3, the USB limit from IPS_SET, else -EINVAL. */
  function GetLimitCurrentSpec(c: Chip, f: Faults, t: ChargerType): (uA: int)
  {
    match t
    case Ta =>
      var (ret, v) := ReadSpec(c, f, CHARGE3, 0);
      if ret >= 0 then CurrentOf(Nibble(v)) else ret
    case Usb =>
      var (ret, v) := ReadSpec(c, f, IPS_SET, 0);
      if ret >= 0 then UsbLimitOf(v) else ret
    case NoCharger => -EINVAL
  }

  method GetLimitCurrent(dev: Axp228, t: ChargerType) returns (uA: int)
    ensures uA == GetLimitCurrentSpec(dev.State(), dev.faults, t)
    ensures t == NoCharger <==> uA == -EINVAL
  {
    var ret: int;
    var v: bv8;
    match t {
      case Ta =>
        ret, v := dev.Read(CHARGE3, 0);
        uA := ret;
        if ret >= 0 {
          uA := CurrentOf(Nibble(v));
        }
      case Usb =>
        ret, v := dev.Read(IPS_SET, 0);
        uA := ret;
        if ret >= 0 {
          uA := UsbLimitOf(v);
        }
      case NoCharger =>
        uA := -EINVAL;
    }
  }

  /** `set_limit_current`: the adapter limit into CHARGE3, the USB limit into IPS_SET, else -EINVAL. */
  function SetLimitCurrentSpec(c: Chip, f: Faults, t: ChargerType, uA: int): (int, Chip)
  {
    match t
    case Ta => ClrSetBitsSpec(c, f, CHARGE3, 0x0F, Low8(CurrentCode(uA)))
    case Usb => ClrSetBitsSpec(c, f, IPS_SET, 0x03, UsbLimitCode(uA))
    case NoCharger => (-EINVAL, c)
  }

  method SetLimitCurrent(dev: Axp228, t: ChargerType, uA: int) returns (ret: int)
    modifies dev
    ensures (ret, dev.State()) == SetLimitCurrentSpec(old(dev.State()), dev.faults, t, uA)
  {
    match t {
      case Ta =>
        ret := ClrSetBits(dev, CHARGE3, 0x0F, Low8(CurrentCode(uA)));
      case Usb =>
        ret := ClrSetBits(dev, IPS_SET, 0x03, UsbLimitCode(uA));
      case NoCharger =>
        ret := -EINVAL;
    }
  }

  /** The register that holds the input limit of a charger type. */
  function LimitReg(t: ChargerType): (reg: Reg)
    requires t != NoCharger
    ensures reg == CHARGE3 || reg == IPS_SET
  {
    if t == Ta then CHARGE3 else IPS_SET
  }

  /**
   * Setting an input limit and reading it back gives the supported limit the request
   * selects; any other charger type is refused by both with -EINVAL and changes nothing.
   */
  lemma LimitCurrentSetGet(c: Chip, f: Faults, t: ChargerType, uA: int)
    requires t != NoCharger ==> LimitReg(t) !in f.readFail && LimitReg(t) !in f.writeFail
    ensures var (ret, r) := SetLimitCurrentSpec(c, f, t, uA);
      && (t == Ta ==> ret == 0 && GetLimitCurrentSpec(r, f, t) == CurrentOf(CurrentCode(uA)))
      && (t == Usb ==> ret == 0 && GetLimitCurrentSpec(r, f, t) == UsbLimitOf(UsbLimitCode(uA)))
      && (t == NoCharger ==> ret == -EINVAL && r == c && GetLimitCurrentSpec(r, f, t) == -EINVAL)
  {
    if t == Ta {
      NibbleOfCode(c.regs[CHARGE3], CurrentCode(uA));
    } else if t == Usb {
      var code := UsbLimitCode(uA);
      SetFieldEffect(c.regs[IPS_SET], 0x03, code);
    }
  }

  // ---------------------------------------------------------------------------------
  // The device-tree node
  // ---------------------------------------------------------------------------------

  /** Everything the probe takes from the device tree; `None` is a property the driver treats as absent. */
  datatype ChgConfig = ChgConfig(
    pek: PekConfig, pekDelay: Option<int>, ghcledfun: Option<int>,
    chgledtype: Option<int>, batcapcorrent: Option<int>, batreguen: Option<int>, batdet: Option<int>,
    usbvolim: Option<int>, usbvollimen: Option<int>, usbcurlim: Option<int>, usbcurlimen: Option<int>,
    chargeCurrent: Option<int>, limitCurrent: Option<int>,
    batlowlv1: Option<int>, batlowlv2: Option<int>,
    ocv: Option<seq<bv8>>, batrdc: Option<int>, batcap: Option<int>, ubcchecktimeout: Option<int>)

  /**
   * An integer property as the driver keeps it: read with the `-ENODATA` default and later
   * compared against that sentinel, so a property that holds -61 reads as absent.
   */
  function Prop(node: map<string, int>, name: string): (p: Option<int>)
    ensures p.Some? <==> name in node && node[name] != -ENODATA
    ensures p.Some? ==> p.value == node[name]
  {
    if name in node && node[name] != -ENODATA then Some(node[name]) else None
  }

  /**
   * The OCV table taken from a property of big-endian 32-bit cells: one entry per whole
   * cell, at most `tableSize` of them, each the low byte of its cell.
   */
  function OcvTable(prop: seq<bv8>, tableSize: nat): (t: seq<bv8>)
    ensures |t| == if |prop| / 4 > tableSize then tableSize else |prop| / 4
    ensures forall i :: 0 <= i < |t| ==> 4 * i + 3 < |prop| && t[i] == prop[4 * i + 3]
  {
    var n := if |prop| / 4 > tableSize then tableSize else |prop| / 4;
    seq(n, i requires 0 <= i < n => prop[4 * i + 3])
  }

  /** The copying loop of `ofdata_to_platdata` for the OCV property. */
  method ParseOcv(prop: seq<bv8>, tableSize: nat) returns (t: seq<bv8>)
    ensures t == OcvTable(prop, tableSize)
  {
    var len := |prop| / 4;
    if len > tableSize {
      len := tableSize;
    }
    t := [];
    var i := 0;
    while i < len
      invariant 0 <= i <= len
      invariant |t| == i
      invariant forall j :: 0 <= j < i ==> t[j] == prop[4 * j + 3]
    {
      t := t + [prop[4 * i + 3]];
      i := i + 1;
    }
  }

  /** `ofdata_to_platdata`. */
  method OfdataToPlatdata(node: map<string, int>, ocvreg: Option<seq<bv8>>, tableSize: nat) returns (cfg: ChgConfig)
    ensures cfg.pek == PekConfig(Prop(node, "chg,pek_on"), Prop(node, "chg,pek_long"), Prop(node, "chg,pek_off_en"),
                                 Prop(node, "chg,pek_off_restart"), Prop(node, "chg,pek_off"))
    ensures cfg.pekDelay == Prop(node, "chg,pek_delay") && cfg.ghcledfun == Prop(node, "chg,ghcledfun")
    ensures cfg.chgledtype == Prop(node, "chg,chgledtype") && cfg.batcapcorrent == Prop(node, "chg,batcapcorrent")
    ensures cfg.batreguen == Prop(node, "chg,batreguen") && cfg.batdet == Prop(node, "chg,batdet")
    ensures cfg.usbvolim == Prop(node, "chg,usbvolim") && cfg.usbvollimen == Prop(node, "chg,usbvollimen")
    ensures cfg.usbcurlim == Prop(node, "chg,usbcurlim") && cfg.usbcurlimen == Prop(node, "chg,usbcurlimen")
    ensures cfg.chargeCurrent == Prop(node, "chg,charge_current") && cfg.limitCurrent == Prop(node, "chg,limit_current")
    ensures cfg.batlowlv1 == Prop(node, "chg,batlowlv1") && cfg.batlowlv2 == Prop(node, "chg,batlowlv2")
    ensures cfg.ocv == if ocvreg.Some? then Some(OcvTable(ocvreg.value, tableSize)) else None
    ensures cfg.ocv.Some? ==> |cfg.ocv.value| <= tableSize
    ensures cfg.batrdc == Prop(node, "chg,batrdc") && cfg.batcap == Prop(node, "chg,batcap")
    ensures cfg.ubcchecktimeout == Prop(node, "chg,ubcchecktimeout")
  {
    var ocv: Option<seq<bv8>> := None;
    if ocvreg.Some? {
      var t := ParseOcv(ocvreg.value, tableSize);
      ocv := Some(t);
    }
    cfg := ChgConfig(
      PekConfig(Prop(node, "chg,pek_on"), Prop(node, "chg,pek_long"), Prop(node, "chg,pek_off_en"),
                Prop(node, "chg,pek_off_restart"), Prop(node, "chg,pek_off")),
      Prop(node, "chg,pek_delay"), Prop(node, "chg,ghcledfun"),
      Prop(node, "chg,chgledtype"), Prop(node, "chg,batcapcorrent"), Prop(node, "chg,batreguen"),
      Prop(node, "chg,batdet"),
      Prop(node, "chg,usbvolim"), Prop(node, "chg,usbvollimen"), Prop(node, "chg,usbcurlim"),
      Prop(node, "chg,usbcurlimen"),
      Prop(node, "chg,charge_current"), Prop(node, "chg,limit_current"),
      Prop(node, "chg,batlowlv1"), Prop(node, "chg,batlowlv2"),
      ocv,
      Prop(node, "chg,batrdc"), Prop(node, "chg,batcap"), Prop(node, "chg,ubcchecktimeout"));
  }
}
