/** `hdmi_phy_enable` and `hdmi_wait_phy_ready`: programming the HDMI PHY and waiting for it. */
module HdmiPhy {
  import opened Wrappers
  import opened CTypes
  import opened HdmiTiming
  import opened HdmiRegs

  // ---------------------------------------------------------------------------
  // hdmi_phy_enable
  // ---------------------------------------------------------------------------

  /** The control writes before the table: REG7C = 0, REG04 = 0, REG24 = 0x80. */
  function PhyHead(): seq<HdmiWrite> {
    [HdmiWrite(PHY_REG7C, 0), HdmiWrite(PHY_REG04, 0), HdmiWrite(PHY_REG24, 0x80)]
  }

  /** Entry i of the first `n` entries of `t` goes to REG04 + 4 * i. */
  function TableCommands(t: seq<int>, n: int): (cs: seq<HdmiWrite>)
    requires 0 <= n <= |t|
    ensures |cs| == n
    decreases n
  {
    if n == 0 then [] else TableCommands(t, n - 1) + [HdmiWrite(PhyReg(0x04 + 4 * (n - 1)), t[n - 1])]
  }

  /** The control writes after the table: REG7C = 0x80, twice over. */
  function PhyTail(): seq<HdmiWrite> {
    [HdmiWrite(PHY_REG7C, 0x80), HdmiWrite(PHY_REG7C, 0x80)]
  }

  /** What `hdmi_phy_enable` writes for a table, before every write is doubled. */
  function PhyCommands(p: PhyPreset): seq<HdmiWrite>
    requires 0 <= p.size <= |p.table|
  {
    PhyHead() + TableCommands(p.table, p.size) + PhyTail()
  }

  /** `hdmi_phy_enable(preset, enable)`: its result and the writes it issues. */
  function PhyEnableSpec(preset: int, enable: int): (r: (int, seq<HdmiWrite>))
    ensures r.0 == 0 || r.0 == -EINVAL
    ensures r.0 == -EINVAL <==> enable != 0 && !ValidPreset(preset)
    ensures r.1 == [] <==> enable == 0 || !ValidPreset(preset)
  {
    if enable == 0 then (0, [])
    else match PhyPresetOf(preset)
      case None => (-EINVAL, [])
      case Some(p) => (0, Twice(PhyCommands(p)))
  }

  lemma {:induction false} TableCommandsIndex(t: seq<int>, n: int, i: int)
    requires 0 <= i < n <= |t|
    ensures TableCommands(t, n)[i] == HdmiWrite(PhyReg(0x04 + 4 * i), t[i])
    decreases n
  {
    if i < n - 1 {
      TableCommandsIndex(t, n - 1, i);
    }
  }

  lemma {:induction false} TableCommandsArePhy(t: seq<int>, n: int)
    requires 0 <= n <= |t|
    ensures forall w | w in TableCommands(t, n) :: w.reg.PhyReg?
    decreases n
  {
    if n > 0 {
      TableCommandsArePhy(t, n - 1);
    }
  }

  /** The table writes leave REG04 + 4 * i holding entry i. */
  lemma {:induction false} TableLast(t: seq<int>, n: int, i: int)
    requires 0 <= i < n <= |t|
    ensures Last(TableCommands(t, n), PhyReg(0x04 + 4 * i)) == Some(t[i])
    decreases n
  {
    if i < n - 1 {
      TableLast(t, n - 1, i);
      assert TableCommands(t, n)[..n - 1] == TableCommands(t, n - 1);
    }
  }

  /** The shape every table `PhyPresetOf` selects has: 32 entries, REG7C's entry 0x80. */
  predicate TableShape(p: PhyPreset) {
    |p.table| == 32 && 0 < p.size <= 32 && p.table[30] == 0x80
  }

  /**
   * The doubled writes of a table leave register REG04 + 4 * i holding entry i for
   * every i below the size, REG7C holding 0x80 and REG24 entry 8, and write no link
   * register.
   */
  lemma ProgramEffect(p: PhyPreset)
    requires TableShape(p)
    ensures var ws := Twice(PhyCommands(p));
      && (forall i :: 0 <= i < p.size ==> Last(ws, PhyReg(0x04 + 4 * i)) == Some(p.table[i]))
      && Last(ws, PHY_REG7C) == Some(0x80)
      && (p.size > 8 ==> Last(ws, PHY_REG24) == Some(p.table[8]))
      && (forall reg: HdmiReg :: !reg.PhyReg? ==> Last(ws, reg).None?)
  {
    var body := PhyHead() + TableCommands(p.table, p.size);
    assert PhyCommands(p) == body + PhyTail();
    forall reg: HdmiReg
      ensures Last(Twice(PhyCommands(p)), reg) == Last(body + PhyTail(), reg)
    {
      LastTwice(PhyCommands(p), reg);
    }
    forall i | 0 <= i < p.size
      ensures Last(body + PhyTail(), PhyReg(0x04 + 4 * i)) == Some(p.table[i])
    {
      ProgramRegLast(p, body, i);
    }
    ProgramTailLast(p, body);
    TableCommandsArePhy(p.table, p.size);
    forall reg: HdmiReg | !reg.PhyReg?
      ensures Last(body + PhyTail(), reg).None?
    {
      LastNone(body + PhyTail(), reg);
    }
  }

  lemma ProgramRegLast(p: PhyPreset, body: seq<HdmiWrite>, i: int)
    requires TableShape(p) && body == PhyHead() + TableCommands(p.table, p.size)
    requires 0 <= i < p.size
    ensures Last(body + PhyTail(), PhyReg(0x04 + 4 * i)) == Some(p.table[i])
  {
    var r := PhyReg(0x04 + 4 * i);
    LastAppend(body, PhyTail(), r);
    if i != 30 {
      LastNone(PhyTail(), r);
      LastAppend(PhyHead(), TableCommands(p.table, p.size), r);
      TableLast(p.table, p.size, i);
    } else {
      ProgramTailLast(p, body);
    }
  }

  lemma ProgramTailLast(p: PhyPreset, body: seq<HdmiWrite>)
    requires TableShape(p) && body == PhyHead() + TableCommands(p.table, p.size)
    ensures Last(body + PhyTail(), PHY_REG7C) == Some(0x80)
    ensures p.size > 8 ==> Last(body + PhyTail(), PHY_REG24) == Some(p.table[8])
  {
    LastAppend(body, PhyTail(), PHY_REG7C);
    if p.size > 8 {
      LastAppend(body, PhyTail(), PHY_REG24);
      LastNone(PhyTail(), PHY_REG24);
      LastAppend(PhyHead(), TableCommands(p.table, p.size), PHY_REG24);
      TableLast(p.table, p.size, 8);
    }
  }

  /**
   * With the PHY enabled for a preset, register REG04 + 4 * i holds table entry i for
   * every i below the table size, REG7C ends at 0x80, and no link register changes.
   * REG04 and REG24 lose their control values to the table, which writes over them.
   */
  lemma PhyEnableEffect(power: HdmiReg -> int, log: seq<HdmiWrite>, preset: int)
    requires ValidPreset(preset)
    ensures var r := PhyEnableSpec(preset, 1);
      var p := PhyPresetOf(preset).value;
      && r.0 == 0
      && (forall i :: 0 <= i < p.size ==> Value(power, log + r.1, PhyReg(0x04 + 4 * i)) == p.table[i])
      && Value(power, log + r.1, PHY_REG7C) == 0x80
      && Value(power, log + r.1, PHY_REG24) == p.table[8]
      && (forall reg: HdmiReg :: !reg.PhyReg? ==> Value(power, log + r.1, reg) == Value(power, log, reg))
  {
    var p := PhyPresetOf(preset).value;
    var ws := Twice(PhyCommands(p));
    ProgramEffect(p);
    forall reg: HdmiReg
      ensures Value(power, log + ws, reg)
           == if Last(ws, reg).Some? then Last(ws, reg).value else Value(power, log, reg)
    {
      ValueAfter(power, log, ws, reg);
    }
  }

  /**
   * Every write of `hdmi_phy_enable` is issued twice in a row; write pair 3 + i is
   * table entry i to REG04 + 4 * i; the last write sets REG7C to 0x80.
   */
  lemma PhyWritesDoubled(preset: int)
    requires ValidPreset(preset)
    ensures var p := PhyPresetOf(preset).value;
      var cs := PhyCommands(p);
      var ws := Twice(cs);
      && |cs| == p.size + 5
      && (forall j :: 0 <= j < |cs| ==> ws[2 * j] == cs[j] && ws[2 * j + 1] == cs[j])
      && (forall i :: 0 <= i < p.size ==> cs[3 + i] == HdmiWrite(PhyReg(0x04 + 4 * i), p.table[i]))
      && ws[|ws| - 1] == HdmiWrite(PHY_REG7C, 0x80)
  {
    TableDoubled(PhyPresetOf(preset).value);
  }

  /** `PhyWritesDoubled` for any table of the PHY's shape. */
  lemma TableDoubled(p: PhyPreset)
    requires TableShape(p)
    ensures var cs := PhyCommands(p);
      var ws := Twice(cs);
      && |cs| == p.size + 5
      && (forall j :: 0 <= j < |cs| ==> ws[2 * j] == cs[j] && ws[2 * j + 1] == cs[j])
      && (forall i :: 0 <= i < p.size ==> cs[3 + i] == HdmiWrite(PhyReg(0x04 + 4 * i), p.table[i]))
      && ws[|ws| - 1] == HdmiWrite(PHY_REG7C, 0x80)
  {
    var cs := PhyCommands(p);
    forall j | 0 <= j < |cs|
      ensures Twice(cs)[2 * j] == cs[j] && Twice(cs)[2 * j + 1] == cs[j]
    {
      TwiceIndex(cs, j);
    }
    forall i | 0 <= i < p.size
      ensures cs[3 + i] == HdmiWrite(PhyReg(0x04 + 4 * i), p.table[i])
    {
      TableCommandsIndex(p.table, p.size, i);
    }
    TwiceIndex(cs, |cs| - 1);
  }

  /** One write of `hdmi_phy_enable`: the same value to the same register, twice in a row. */
  method SetRegTwice(h: HdmiLink, r: HdmiReg, v: int)
    modifies h
    ensures h.log == old(h.log) + [HdmiWrite(r, v), HdmiWrite(r, v)]
  {
    h.SetReg(r, v);
    h.SetReg(r, v);
  }

  /** The control writes before the table, each twice. */
  method WriteHead(h: HdmiLink)
    modifies h
    ensures h.log == old(h.log) + Twice(PhyHead())
  {
    SetRegTwice(h, PHY_REG7C, 0);
    SetRegTwice(h, PHY_REG04, 0);
    SetRegTwice(h, PHY_REG24, 0x80);
    ghost var w0, w1, w2 := HdmiWrite(PHY_REG7C, 0), HdmiWrite(PHY_REG04, 0), HdmiWrite(PHY_REG24, 0x80);
    TwiceSnoc([], w0);
    TwiceSnoc([w0], w1);
    TwiceSnoc([w0, w1], w2);
    assert [] + [w0] == [w0] && [w0] + [w1] == [w0, w1] && [w0, w1] + [w2] == PhyHead();
  }

  /** The control writes after the table, each twice. */
  method WriteTail(h: HdmiLink)
    modifies h
    ensures h.log == old(h.log) + Twice(PhyTail())
  {
    SetRegTwice(h, PHY_REG7C, 0x80);
    SetRegTwice(h, PHY_REG7C, 1 * 128);
    ghost var w := HdmiWrite(PHY_REG7C, 0x80);
    TwiceSnoc([], w);
    TwiceSnoc([w], w);
    assert [] + [w] == [w] && [w] + [w] == PhyTail();
  }

  /** The table loop: entry i to REG04 + 4 * i, twice, for the first `n` entries. */
  method WriteTable(h: HdmiLink, t: seq<int>, n: int)
    requires 0 <= n <= |t|
    modifies h
    ensures h.log == old(h.log) + Twice(TableCommands(t, n))
  {
    ghost var log0 := h.log;
    var i := 0;
    var addr := 0x04;
    while i < n
      invariant 0 <= i <= n
      invariant addr == 0x04 + 4 * i
      invariant h.log == log0 + Twice(TableCommands(t, i))
    {
      ghost var w := HdmiWrite(PhyReg(addr), t[i]);
      SetRegTwice(h, PhyReg(addr), t[i]);
      TwiceSnoc(TableCommands(t, i), w);
      assert TableCommands(t, i + 1) == TableCommands(t, i) + [w];
      i := i + 1;
      addr := addr + 4;
    }
  }

  /** The writes of `hdmi_phy_enable` once it has chosen the table of `p`. */
  method ProgramPhy(h: HdmiLink, p: PhyPreset)
    requires 0 <= p.size <= |p.table|
    modifies h
    ensures h.log == old(h.log) + Twice(PhyCommands(p))
  {
    ghost var log0 := h.log;
    WriteHead(h);
    WriteTable(h, p.table, p.size);
    WriteTail(h);
    TwiceAppend(PhyHead(), TableCommands(p.table, p.size));
    TwiceAppend(PhyHead() + TableCommands(p.table, p.size), PhyTail());
    assert h.log == log0 + (Twice(PhyHead()) + Twice(TableCommands(p.table, p.size)) + Twice(PhyTail()));
  }

  /** `hdmi_phy_enable(preset, enable)`. */
  method PhyEnable(h: HdmiLink, preset: int, enable: int) returns (ret: int)
    modifies h
    ensures ret == PhyEnableSpec(preset, enable).0
    ensures h.log == old(h.log) + PhyEnableSpec(preset, enable).1
  {
    if enable == 0 {
      return 0;
    }
    var sel := PhyPresetOf(preset);
    if sel.None? {
      return -EINVAL;
    }
    ProgramPhy(h, sel.value);
    ret := 0;
  }

  // ---------------------------------------------------------------------------
  // hdmi_wait_phy_ready
  // ---------------------------------------------------------------------------

  /** Bit 0 of `HDMI_LINK_PHY_STATUS_0`: the PHY is ready. */
  predicate Ready(v: int) {
    v % 2 == 1
  }

  /** How many times the poll reads the status register at most: count 500, examined after each read. */
  const PHY_POLLS := 501

  /** The first poll, from `from` on, that sees the PHY ready; `PHY_POLLS` if none does. */
  function FirstReady(status: nat -> int, from: nat): (j: nat)
    requires from <= PHY_POLLS
    ensures from <= j <= PHY_POLLS
    ensures j < PHY_POLLS ==> Ready(status(j))
    ensures forall i :: from <= i < j ==> !Ready(status(i))
    decreases PHY_POLLS - from
  {
    if from == PHY_POLLS then PHY_POLLS
    else if Ready(status(from)) then from
    else FirstReady(status, from + 1)
  }

  /**
   * `hdmi_wait_phy_ready`, where `status(j)` is what the j-th read of the status
   * register returns: 1 at the first read with bit 0 set, 0 after 501 polls without.
   */
  method WaitPhyReady(status: nat -> int) returns (ready: int, polls: nat)
    ensures ready == 0 || ready == 1
    ensures 0 < polls <= PHY_POLLS
    ensures ready == 1 <==> exists j :: 0 <= j < PHY_POLLS && Ready(status(j))
    ensures ready == 1 ==> Ready(status(polls - 1))
    ensures forall j :: 0 <= j < polls - 1 ==> !Ready(status(j))
    ensures ready == 0 ==> polls == PHY_POLLS && !Ready(status(polls - 1))
    ensures ready == 1 <==> FirstReady(status, 0) < PHY_POLLS
  {
    var count := 500;
    polls := 0;
    while true
      invariant 0 <= count <= 500 && polls + count == 500
      invariant forall j :: 0 <= j < polls ==> !Ready(status(j))
      decreases count
    {
      var v := status(polls);
      polls := polls + 1;
      if Ready(v) {
        ready := 1;
        return;
      }
      if count == 0 {
        break;
      }
      count := count - 1;
    }
    ready := 0;
  }
}
