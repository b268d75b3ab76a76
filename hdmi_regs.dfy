/**
 * The S5Pxx18 HDMI block as its driver sees it through `nx_hdmi_set_reg`,
 * `nx_hdmi_set_regb` and `nx_hdmi_get_reg`: a file of registers, named rather than
 * numbered, and the log of every write issued to it.
 */
module HdmiRegs {
  import opened Wrappers

  /** The three InfoFrame packets of the link: vendor-specific, AVI and audio. */
  datatype Packet = Vsi | Avi | Aui

  /** The 16-bit timing values of the link, each held in a pair of byte registers. */
  datatype Field16 =
    | HBlank | V1Blank | V2Blank | VLine | HLine | HSyncStart | HSyncEnd
    | VSyncLineBef(n: int) | VSyncLineAft(n: int) | VSyncLineAftPxl(n: int) | VactSpace(n: int)

  datatype Color = Red | Green | Blue

  /**
   * The registers the driver names. PHY registers are named by their offset in the
   * PHY block, which the table loop of `hdmi_phy_enable` addresses as REG04 + 4 * i;
   * byte n of a packet sits 4 * (n - 1) past byte 1, which the checksum loop relies on.
   * The header giving the link offsets is not part of this model, so the link
   * registers are distinct names with no addresses.
   */
  datatype HdmiReg =
    | PhyReg(offset: int)
    | HdmiCon(n: int)
    | BlueScreen(color: Color, n: int)
    | IntcCon0 | StatusEn | Hpd | ModeSel | HsyncPol | VsyncPol | IntProMode
    | Timing(field: Field16, n: int)
    | CscMux | SyncGenMux | SendStart(n: int) | SendEnd(n: int)
    | DcControl | VideoPatternGen | GcpCon
    | PacketCon(packet: Packet)
    | Header(packet: Packet, n: int)
    | PacketByte(packet: Packet, n: int)
    | CheckSum(packet: Packet)
    | AcrN(n: int) | AcrCon

  const PHY_REG04 := PhyReg(0x04)
  const PHY_REG24 := PhyReg(0x24)
  const PHY_REG7C := PhyReg(0x7C)

  /**
   * The values of the link's headers that this model does not contain: packet
   * control codes, two AVI flag bytes, the vendor-specific field macros, the ACR
   * control codes and the `HDMI_ACR_N*_VAL` byte selectors. `aspectIs43` is whether
   * `HDMI_AVI_PICTURE_ASPECT_16_9` equals `HDMI_PICTURE_ASPECT_4_3`.
   */
  datatype LinkConsts = LinkConsts(
    vsiConDoNotTransmit: int, vsiConEveryVsync: int, aviConEveryVsync: int, auiConEveryVsync: int,
    underscannedValid: bv8, pictureAspect169: bv8, aspectIs43: bool,
    vsiVideoFormat: int -> int, vsi3dStructure: int -> int, vsi3dExtData: int -> int,
    acrConNoTx: int, acrConMeasuredCts: int, acrNVal: (int, int) -> int)

  /** One register write. */
  datatype HdmiWrite = HdmiWrite(reg: HdmiReg, val: int)

  /** The write `nx_hdmi_set_regb(r, v)` issues: the low byte of `v`. */
  function ByteWrite(r: HdmiReg, v: int): HdmiWrite {
    HdmiWrite(r, v % 256)
  }

  /** A write no later write to the same register overwrites. */
  lemma LastOf(a: seq<HdmiWrite>, w: HdmiWrite, b: seq<HdmiWrite>)
    requires forall x | x in b :: x.reg != w.reg
    ensures Last(a + [w] + b, w.reg) == Some(w.val)
  {
    LastAppend(a + [w], b, w.reg);
    LastNone(b, w.reg);
  }

  /** The value of the last write to `r` in `ws`; `None` when no write names `r`. */
  function Last(ws: seq<HdmiWrite>, r: HdmiReg): Option<int>
    decreases |ws|
  {
    if ws == [] then None
    else if ws[|ws| - 1].reg == r then Some(ws[|ws| - 1].val)
    else Last(ws[..|ws| - 1], r)
  }

  /**
   * What register `r` holds after the writes of `log`: the last value written to it,
   * or `power(r)`, what it held before the first of them.
   */
  function Value(power: HdmiReg -> int, log: seq<HdmiWrite>, r: HdmiReg): int {
    match Last(log, r)
    case Some(v) => v
    case None => power(r)
  }

  /** The last write to `r` in `a + b` is its last write in `b` if `b` has one. */
  lemma {:induction false} LastAppend(a: seq<HdmiWrite>, b: seq<HdmiWrite>, r: HdmiReg)
    ensures Last(a + b, r) == if Last(b, r).Some? then Last(b, r) else Last(a, r)
    decreases |b|
  {
    if b == [] {
      assert a + b == a;
    } else {
      assert (a + b)[..|a + b| - 1] == a + b[..|b| - 1];
      LastAppend(a, b[..|b| - 1], r);
    }
  }

  /** `ws` has no last write to `r` exactly when no write of `ws` names `r`. */
  lemma {:induction false} LastNone(ws: seq<HdmiWrite>, r: HdmiReg)
    ensures Last(ws, r).None? <==> forall w | w in ws :: w.reg != r
    decreases |ws|
  {
    if ws != [] {
      var init := ws[..|ws| - 1];
      assert ws == init + [ws[|ws| - 1]];
      assert forall w | w in ws :: w in init || w == ws[|ws| - 1];
      LastNone(init, r);
    }
  }

  /** A write that no later write overwrites is the register's last write. */
  lemma {:induction false} LastAt(ws: seq<HdmiWrite>, i: int)
    requires 0 <= i < |ws|
    requires forall j | i < j < |ws| :: ws[j].reg != ws[i].reg
    ensures Last(ws, ws[i].reg) == Some(ws[i].val)
    decreases |ws|
  {
    if i < |ws| - 1 {
      LastAt(ws[..|ws| - 1], i);
    }
  }

  /** Three steps that append `a`, `b` and `c` append `a + b + c`. */
  lemma Concat3<T>(l0: seq<T>, a: seq<T>, b: seq<T>, c: seq<T>, l1: seq<T>, l2: seq<T>, l3: seq<T>)
    requires l1 == l0 + a && l2 == l1 + b && l3 == l2 + c
    ensures l3 == l0 + (a + b + c)
  {
  }

  /** A register's value after `log` and then `ws`. */
  lemma ValueAfter(power: HdmiReg -> int, log: seq<HdmiWrite>, ws: seq<HdmiWrite>, r: HdmiReg)
    ensures Value(power, log + ws, r)
         == if Last(ws, r).Some? then Last(ws, r).value else Value(power, log, r)
  {
    LastAppend(log, ws, r);
  }

  /** Every write of `cs` issued twice in a row. */
  function Twice(cs: seq<HdmiWrite>): (ws: seq<HdmiWrite>)
    ensures |ws| == 2 * |cs|
    decreases |cs|
  {
    if cs == [] then [] else Twice(cs[..|cs| - 1]) + [cs[|cs| - 1], cs[|cs| - 1]]
  }

  lemma {:induction false} TwiceAppend(a: seq<HdmiWrite>, b: seq<HdmiWrite>)
    ensures Twice(a + b) == Twice(a) + Twice(b)
    decreases |b|
  {
    if b == [] {
      assert a + b == a;
    } else {
      assert (a + b)[..|a + b| - 1] == a + b[..|b| - 1];
      TwiceAppend(a, b[..|b| - 1]);
    }
  }

  lemma TwiceSnoc(cs: seq<HdmiWrite>, w: HdmiWrite)
    ensures Twice(cs + [w]) == Twice(cs) + [w, w]
  {
    assert (cs + [w])[..|cs|] == cs;
  }

  /** Writes 2j and 2j + 1 of `Twice(cs)` are both write j of `cs`. */
  lemma {:induction false} TwiceIndex(cs: seq<HdmiWrite>, j: int)
    requires 0 <= j < |cs|
    ensures Twice(cs)[2 * j] == cs[j] && Twice(cs)[2 * j + 1] == cs[j]
    decreases |cs|
  {
    if j < |cs| - 1 {
      TwiceIndex(cs[..|cs| - 1], j);
    }
  }

  /** Issuing every write twice in a row leaves every register as issuing it once. */
  lemma {:induction false} LastTwice(cs: seq<HdmiWrite>, r: HdmiReg)
    ensures Last(Twice(cs), r) == Last(cs, r)
    decreases |cs|
  {
    if cs != [] {
      var c := cs[|cs| - 1];
      var init := Twice(cs[..|cs| - 1]);
      LastTwice(cs[..|cs| - 1], r);
      assert Twice(cs) == init + [c, c];
      LastAppend(init, [c, c], r);
      assert [c, c][..1] == [c];
      assert [c][..0] == [];
      if c.reg != r {
        assert Last([c], r) == Last([], r) == None;
        assert Last([c, c], r) == None;
      }
    }
  }

  /**
   * The block's registers. `power` is what each register held before the first write
   * this model sees; `log` is every write issued since, oldest first.
   */
  class HdmiLink {
    const power: HdmiReg -> int
    var log: seq<HdmiWrite>
    const k: LinkConsts

    constructor (power: HdmiReg -> int, k: LinkConsts)
      ensures this.power == power && log == [] && this.k == k
    {
      this.power := power;
      this.log := [];
      this.k := k;
    }

    /** What register `r` holds now. */
    function Reg(r: HdmiReg): int
      reads this
    {
      Value(power, log, r)
    }

    /** `nx_hdmi_set_reg`: a 32-bit write. */
    method SetReg(r: HdmiReg, v: int)
      modifies this
      ensures log == old(log) + [HdmiWrite(r, v)]
    {
      log := log + [HdmiWrite(r, v)];
    }

    /** `nx_hdmi_set_regb`: a byte write, of `(u8) v`. */
    method SetRegB(r: HdmiReg, v: int)
      modifies this
      ensures log == old(log) + [ByteWrite(r, v)]
    {
      SetReg(r, v % 256);
    }

    /** `nx_hdmi_get_reg`: what the register holds, which here is what was last written to it. */
    method GetReg(r: HdmiReg) returns (v: int)
      ensures v == Reg(r)
    {
      v := match Last(log, r) case Some(x) => x case None => power(r);
    }

    /** The writes of `ws`, one `nx_hdmi_set_reg` each, in order. */
    method WriteList(ws: seq<HdmiWrite>)
      modifies this
      ensures log == old(log) + ws
    {
      ghost var log0 := log;
      var i := 0;
      while i < |ws|
        invariant 0 <= i <= |ws|
        invariant log == log0 + ws[..i]
      {
        SetReg(ws[i].reg, ws[i].val);
        assert ws[..i + 1] == ws[..i] + [ws[i]];
        i := i + 1;
      }
      assert ws[..i] == ws;
    }
  }
}
