/**
 * `hdmi_prepare`, `hdmi_set_acr` and `hdmi_setup`: the writes that program the HDMI
 * link's timing and audio clock regeneration, and the order and error paths of the
 * bring-up that drives the PHY and the link.
 */
module HdmiBringUp {
  import opened Wrappers
  import opened CTypes
  import opened HdmiTiming
  import opened HdmiRegs
  import opened HdmiPhy

  // ---------------------------------------------------------------------------
  // hdmi_prepare
  // ---------------------------------------------------------------------------

  /** The two byte registers of a 16-bit field, low byte first. */
  function Pair(f: Field16, lo: int, hi: int): seq<HdmiWrite> {
    [HdmiWrite(Timing(f, 0), lo), HdmiWrite(Timing(f, 1), hi)]
  }

  /** A 16-bit field written as `x % 256` and `x >> 8`. */
  function Split(f: Field16, x: int): seq<HdmiWrite> {
    Pair(f, LowByte(x), HighByte(x))
  }

  /** Blue screen off, interrupts, status, hot-plug and mode: the writes before the timing. */
  function PrepareHead(): seq<HdmiWrite> {
    [HdmiWrite(HdmiCon(0), 0x10)] + BlueScreenOff() + HeadControl()
  }

  /** The blue-screen colour of every channel, `0x5555` in both bytes. */
  function BlueScreenOff(): seq<HdmiWrite> {
    [ HdmiWrite(BlueScreen(Red, 0), 0x5555), HdmiWrite(BlueScreen(Red, 1), 0x5555),
      HdmiWrite(BlueScreen(Green, 0), 0x5555), HdmiWrite(BlueScreen(Green, 1), 0x5555),
      HdmiWrite(BlueScreen(Blue, 0), 0x5555), HdmiWrite(BlueScreen(Blue, 1), 0x5555) ]
  }

  /** The other control registers, interrupts, status, hot-plug and mode. */
  function HeadControl(): seq<HdmiWrite> {
    [ HdmiWrite(HdmiCon(1), 0), HdmiWrite(HdmiCon(2), 0),
      HdmiWrite(IntcCon0, 0x4c), HdmiWrite(StatusEn, 0x17), HdmiWrite(Hpd, 0), HdmiWrite(ModeSel, 2) ]
  }

  /** The blanking and line totals. */
  function PrepareLines(t: LinkTiming): seq<HdmiWrite> {
    Split(HBlank, t.hBlank) + Split(V1Blank, t.vBlank) + Split(V2Blank, t.v2Blank)
    + Split(VLine, t.vLine) + Split(HLine, t.hLine)
  }

  /** Both sync polarities 1 for a 1280-pixel line, else 0; then progressive mode. */
  function PreparePolarity(width: int): seq<HdmiWrite> {
    var pol := if width == 1280 then 1 else 0;
    [HdmiWrite(HsyncPol, pol), HdmiWrite(VsyncPol, pol), HdmiWrite(IntProMode, 0)]
  }

  /** The sync start and end: the horizontal low bytes less two. */
  function PrepareSyncs(t: LinkTiming): seq<HdmiWrite>
    requires 0 <= t.hSyncStart && 0 <= t.hSyncEnd
  {
    Pair(HSyncStart, SyncLowByte(t.hSyncStart), HighByte(t.hSyncStart))
    + Pair(HSyncEnd, SyncLowByte(t.hSyncEnd), HighByte(t.hSyncEnd))
    + Split(VSyncLineBef(1), t.vSyncBef1) + Split(VSyncLineBef(2), t.vSyncBef2)
  }

  /** `fixed_ffff` into the six fields of group `g` (0: line after, 1: pixel after, 2: active space). */
  function FixedGroup(g: int): seq<HdmiWrite> {
    Split(GroupField(g, 1), 0xffff) + Split(GroupField(g, 2), 0xffff) + Split(GroupField(g, 3), 0xffff)
    + Split(GroupField(g, 4), 0xffff) + Split(GroupField(g, 5), 0xffff) + Split(GroupField(g, 6), 0xffff)
  }

  /** Field `n` of group `g`. */
  function GroupField(g: int, n: int): Field16 {
    if g == 0 then VSyncLineAft(n) else if g == 1 then VSyncLineAftPxl(n) else VactSpace(n)
  }

  function PrepareFixed(): seq<HdmiWrite> {
    FixedGroup(0) + FixedGroup(1) + FixedGroup(2)
  }

  /**
   * Muxes, packet send window, deep colour, pattern generator and general control
   * packet. `CONFIG_HDMI_PATTERN` is not defined by the board, so the pattern
   * generator is off.
   */
  function PrepareTail(): seq<HdmiWrite> {
    SendWindow() + TailControl()
  }

  /** The colour-space and sync muxes and the packet send window. */
  function SendWindow(): seq<HdmiWrite> {
    [ HdmiWrite(CscMux, 0), HdmiWrite(SyncGenMux, 0),
      HdmiWrite(SendStart(0), 0xfd), HdmiWrite(SendStart(1), 0x01),
      HdmiWrite(SendEnd(0), 0x0d), HdmiWrite(SendEnd(1), 0x3a), HdmiWrite(SendEnd(2), 0x08) ]
  }

  function TailControl(): seq<HdmiWrite> {
    [HdmiWrite(DcControl, 0), HdmiWrite(VideoPatternGen, 0), HdmiWrite(GcpCon, 0x0a)]
  }

  /** Every write `hdmi_prepare(sync)` issues, in order. */
  function PrepareWrites(s: SyncInfo): seq<HdmiWrite> {
    var t := PrepareTiming(s);
    PrepareHead() + PrepareLines(t) + PreparePolarity(s.hActive) + PrepareSyncs(t)
    + PrepareFixed() + PrepareTail()
  }

  /** A 16-bit field as its two byte registers hold it. */
  function Reg16(power: HdmiReg -> int, log: seq<HdmiWrite>, f: Field16): int {
    Value(power, log, Timing(f, 0)) + 256 * Value(power, log, Timing(f, 1))
  }

  method WriteHead(h: HdmiLink)
    modifies h
    ensures h.log == old(h.log) + PrepareHead()
  {
    ghost var l0 := h.log;
    h.SetReg(HdmiCon(0), (0 * 32) + (1 * 16));
    ghost var l1 := h.log;
    h.SetReg(BlueScreen(Red, 0), 0x5555);
    h.SetReg(BlueScreen(Red, 1), 0x5555);
    h.SetReg(BlueScreen(Green, 0), 0x5555);
    h.SetReg(BlueScreen(Green, 1), 0x5555);
    h.SetReg(BlueScreen(Blue, 0), 0x5555);
    h.SetReg(BlueScreen(Blue, 1), 0x5555);
    assert h.log == l1 + BlueScreenOff();
    ghost var l2 := h.log;
    h.SetReg(HdmiCon(1), 0);
    h.SetReg(HdmiCon(2), 0);
    h.SetReg(IntcCon0, 64 + 8 + 4);
    h.SetReg(StatusEn, 0x17);
    h.SetReg(Hpd, 0);
    h.SetReg(ModeSel, 2);
    assert h.log == l2 + HeadControl();
    Concat3(l0, [HdmiWrite(HdmiCon(0), 0x10)], BlueScreenOff(), HeadControl(), l1, l2, h.log);
  }

  /** Two `nx_hdmi_set_reg` calls: `lo` to byte 0 of `f`, `hi` to byte 1. */
  method WritePair(h: HdmiLink, f: Field16, lo: int, hi: int)
    modifies h
    ensures h.log == old(h.log) + Pair(f, lo, hi)
  {
    h.SetReg(Timing(f, 0), lo);
    h.SetReg(Timing(f, 1), hi);
  }

  method WriteLines(h: HdmiLink, t: LinkTiming)
    modifies h
    ensures h.log == old(h.log) + PrepareLines(t)
  {
    WritePair(h, HBlank, t.hBlank % 256, t.hBlank / 256);
    WritePair(h, V1Blank, t.vBlank % 256, t.vBlank / 256);
    WritePair(h, V2Blank, t.v2Blank % 256, t.v2Blank / 256);
    WritePair(h, VLine, t.vLine % 256, t.vLine / 256);
    WritePair(h, HLine, t.hLine % 256, t.hLine / 256);
  }

  method WritePolarity(h: HdmiLink, width: int)
    modifies h
    ensures h.log == old(h.log) + PreparePolarity(width)
  {
    if width == 1280 {
      h.SetReg(HsyncPol, 1);
      h.SetReg(VsyncPol, 1);
    } else {
      h.SetReg(HsyncPol, 0);
      h.SetReg(VsyncPol, 0);
    }
    h.SetReg(IntProMode, 0);
  }

  method WriteSyncs(h: HdmiLink, t: LinkTiming)
    requires 0 <= t.hSyncStart && 0 <= t.hSyncEnd
    modifies h
    ensures h.log == old(h.log) + PrepareSyncs(t)
  {
    WritePair(h, HSyncStart, U32(t.hSyncStart % 256 - 2), t.hSyncStart / 256);
    WritePair(h, HSyncEnd, U32(t.hSyncEnd % 256 - 2), t.hSyncEnd / 256);
    WritePair(h, VSyncLineBef(1), t.vSyncBef1 % 256, t.vSyncBef1 / 256);
    WritePair(h, VSyncLineBef(2), t.vSyncBef2 % 256, t.vSyncBef2 / 256);
  }

  method WriteFixedGroup(h: HdmiLink, g: int)
    modifies h
    ensures h.log == old(h.log) + FixedGroup(g)
  {
    var fixedFfff := 0xffff;
    WritePair(h, GroupField(g, 1), fixedFfff % 256, fixedFfff / 256);
    WritePair(h, GroupField(g, 2), fixedFfff % 256, fixedFfff / 256);
    WritePair(h, GroupField(g, 3), fixedFfff % 256, fixedFfff / 256);
    WritePair(h, GroupField(g, 4), fixedFfff % 256, fixedFfff / 256);
    WritePair(h, GroupField(g, 5), fixedFfff % 256, fixedFfff / 256);
    WritePair(h, GroupField(g, 6), fixedFfff % 256, fixedFfff / 256);
  }

  method WriteTail(h: HdmiLink)
    modifies h
    ensures h.log == old(h.log) + PrepareTail()
  {
    ghost var l0 := h.log;
    h.SetReg(CscMux, 0);
    h.SetReg(SyncGenMux, 0);
    h.SetReg(SendStart(0), 0xfd);
    h.SetReg(SendStart(1), 0x01);
    h.SetReg(SendEnd(0), 0x0d);
    h.SetReg(SendEnd(1), 0x3a);
    h.SetReg(SendEnd(2), 0x08);
    assert h.log == l0 + SendWindow();
    ghost var l1 := h.log;
    h.SetReg(DcControl, 0);
    h.SetReg(VideoPatternGen, 0);
    h.SetReg(GcpCon, 0x0a);
    assert h.log == l1 + TailControl();
    Concat3(l0, SendWindow(), TailControl(), [], l1, h.log, h.log);
  }

  /** The six steps of `hdmi_prepare` make up its writes. */
  lemma PrepareChain(s: SyncInfo, l0: seq<HdmiWrite>, l1: seq<HdmiWrite>, l2: seq<HdmiWrite>, l3: seq<HdmiWrite>,
                     l4: seq<HdmiWrite>, l5: seq<HdmiWrite>, l6: seq<HdmiWrite>)
    requires l1 == l0 + PrepareHead()
    requires l2 == l1 + PrepareLines(PrepareTiming(s))
    requires l3 == l2 + PreparePolarity(s.hActive)
    requires l4 == l3 + PrepareSyncs(PrepareTiming(s))
    requires l5 == l4 + PrepareFixed()
    requires l6 == l5 + PrepareTail()
    ensures l6 == l0 + PrepareWrites(s)
  {
    var t := PrepareTiming(s);
    Concat6(l0, PrepareHead(), PrepareLines(t), PreparePolarity(s.hActive), PrepareSyncs(t),
            PrepareFixed(), PrepareTail());
  }

  lemma Concat6<T>(l0: seq<T>, a: seq<T>, b: seq<T>, c: seq<T>, d: seq<T>, e: seq<T>, f: seq<T>)
    ensures l0 + a + b + c + d + e + f == l0 + (a + b + c + d + e + f)
  {
  }

  /** `hdmi_prepare(sync)`: always succeeds. */
  method Prepare(h: HdmiLink, s: SyncInfo) returns (ret: int)
    modifies h
    ensures ret == 0
    ensures h.log == old(h.log) + PrepareWrites(s)
  {
    ghost var l0 := h.log;
    var t := PrepareTiming(s);
    WriteHead(h);
    ghost var l1 := h.log;
    WriteLines(h, t);
    ghost var l2 := h.log;
    WritePolarity(h, s.hActive);
    ghost var l3 := h.log;
    WriteSyncs(h, t);
    ghost var l4 := h.log;
    WriteFixedGroup(h, 0);
    WriteFixedGroup(h, 1);
    WriteFixedGroup(h, 2);
    assert h.log == l4 + PrepareFixed();
    ghost var l5 := h.log;
    WriteTail(h);
    PrepareChain(s, l0, l1, l2, l3, l4, l5, h.log);
    ret := 0;
  }

  // ---------------------------------------------------------------------------
  // What hdmi_prepare leaves in the link registers
  // ---------------------------------------------------------------------------

  /** A write list none of whose writes names `r` leaves `r`'s last write where it was. */
  lemma LastSkip(a: seq<HdmiWrite>, b: seq<HdmiWrite>, r: HdmiReg)
    requires forall w | w in b :: w.reg != r
    ensures Last(a + b, r) == Last(a, r)
  {
    LastNone(b, r);
    LastAppend(a, b, r);
  }

  /** A field's two registers after its pair of writes. */
  lemma PairLast(f: Field16, lo: int, hi: int)
    ensures Last(Pair(f, lo, hi), Timing(f, 0)) == Some(lo)
    ensures Last(Pair(f, lo, hi), Timing(f, 1)) == Some(hi)
  {
    assert Pair(f, lo, hi)[..1] == [HdmiWrite(Timing(f, 0), lo)];
    assert [HdmiWrite(Timing(f, 0), lo)][..0] == [];
  }

  /** After `a` and then a pair of writes to `f`, the last writes to `f`'s registers are that pair. */
  lemma PairHit(a: seq<HdmiWrite>, f: Field16, lo: int, hi: int, n: int)
    requires n == 0 || n == 1
    ensures Last(a + Pair(f, lo, hi), Timing(f, n)) == Some(if n == 0 then lo else hi)
  {
    PairLast(f, lo, hi);
    LastAppend(a, Pair(f, lo, hi), Timing(f, n));
  }

  /** The fields each segment of `hdmi_prepare` writes. */
  predicate LineField(f: Field16) {
    f == HBlank || f == V1Blank || f == V2Blank || f == VLine || f == HLine
  }

  predicate SyncField(f: Field16) {
    f == HSyncStart || f == HSyncEnd || f == VSyncLineBef(1) || f == VSyncLineBef(2)
  }

  predicate FixedField(f: Field16) {
    f.VSyncLineAft? || f.VSyncLineAftPxl? || f.VactSpace?
  }

  /** No write of `ws` names `r`. */
  predicate Misses(ws: seq<HdmiWrite>, r: HdmiReg) {
    forall w | w in ws :: w.reg != r
  }

  /** The registers the writes around the timing segments never name. */
  predicate OutsideTiming(r: HdmiReg) {
    r.Timing? || r == HsyncPol || r == VsyncPol
  }

  /** Two write lists that each miss `r` miss it together. */
  lemma MissesAppend(a: seq<HdmiWrite>, b: seq<HdmiWrite>, r: HdmiReg)
    requires Misses(a, r) && Misses(b, r)
    ensures Misses(a + b, r)
  {
  }

  lemma PairMisses(f: Field16, lo: int, hi: int, r: HdmiReg)
    requires !(r.Timing? && r.field == f)
    ensures Misses(Pair(f, lo, hi), r)
  {
  }

  /** The registers outside the timing fields and the sync polarities. */
  predicate Untimed(r: HdmiReg) {
    !r.Timing? && r != HsyncPol && r != VsyncPol
  }

  /** The head and the tail name no timing register and neither polarity. */
  lemma BlueScreenRegs()
    ensures forall w | w in BlueScreenOff() :: Untimed(w.reg)
  {
  }

  lemma HeadControlRegs()
    ensures forall w | w in HeadControl() :: Untimed(w.reg)
  {
  }

  lemma SendWindowRegs()
    ensures forall w | w in SendWindow() :: Untimed(w.reg)
  {
  }

  lemma TailControlRegs()
    ensures forall w | w in TailControl() :: Untimed(w.reg)
  {
  }

  lemma HeadMisses(r: HdmiReg)
    requires OutsideTiming(r)
    ensures Misses(PrepareHead(), r)
  {
    BlueScreenRegs();
    HeadControlRegs();
    assert Misses([HdmiWrite(HdmiCon(0), 0x10)], r);
    assert Misses(BlueScreenOff(), r);
    assert Misses(HeadControl(), r);
    MissesAppend([HdmiWrite(HdmiCon(0), 0x10)], BlueScreenOff(), r);
    MissesAppend([HdmiWrite(HdmiCon(0), 0x10)] + BlueScreenOff(), HeadControl(), r);
  }

  lemma TailMisses(r: HdmiReg)
    requires OutsideTiming(r)
    ensures Misses(PrepareTail(), r)
  {
    SendWindowRegs();
    TailControlRegs();
    assert Misses(SendWindow(), r);
    assert Misses(TailControl(), r);
    MissesAppend(SendWindow(), TailControl(), r);
  }

  lemma PolarityMisses(width: int, r: HdmiReg)
    requires r.Timing?
    ensures Misses(PreparePolarity(width), r)
  {
  }

  lemma LinesMisses(t: LinkTiming, r: HdmiReg)
    requires !(r.Timing? && LineField(r.field))
    ensures Misses(PrepareLines(t), r)
  {
    PairMisses(HBlank, LowByte(t.hBlank), HighByte(t.hBlank), r);
    PairMisses(V1Blank, LowByte(t.vBlank), HighByte(t.vBlank), r);
    PairMisses(V2Blank, LowByte(t.v2Blank), HighByte(t.v2Blank), r);
    PairMisses(VLine, LowByte(t.vLine), HighByte(t.vLine), r);
    PairMisses(HLine, LowByte(t.hLine), HighByte(t.hLine), r);
    MissesAppend(Split(HBlank, t.hBlank), Split(V1Blank, t.vBlank), r);
    MissesAppend(Split(HBlank, t.hBlank) + Split(V1Blank, t.vBlank), Split(V2Blank, t.v2Blank), r);
    MissesAppend(Split(HBlank, t.hBlank) + Split(V1Blank, t.vBlank) + Split(V2Blank, t.v2Blank), Split(VLine, t.vLine), r);
    MissesAppend(Split(HBlank, t.hBlank) + Split(V1Blank, t.vBlank) + Split(V2Blank, t.v2Blank) + Split(VLine, t.vLine),
                 Split(HLine, t.hLine), r);
  }

  lemma SyncsMisses(t: LinkTiming, r: HdmiReg)
    requires 0 <= t.hSyncStart && 0 <= t.hSyncEnd
    requires !(r.Timing? && SyncField(r.field))
    ensures Misses(PrepareSyncs(t), r)
  {
    var a := Pair(HSyncStart, SyncLowByte(t.hSyncStart), HighByte(t.hSyncStart));
    var b := Pair(HSyncEnd, SyncLowByte(t.hSyncEnd), HighByte(t.hSyncEnd));
    var c := Split(VSyncLineBef(1), t.vSyncBef1);
    var d := Split(VSyncLineBef(2), t.vSyncBef2);
    PairMisses(HSyncStart, SyncLowByte(t.hSyncStart), HighByte(t.hSyncStart), r);
    PairMisses(HSyncEnd, SyncLowByte(t.hSyncEnd), HighByte(t.hSyncEnd), r);
    PairMisses(VSyncLineBef(1), LowByte(t.vSyncBef1), HighByte(t.vSyncBef1), r);
    PairMisses(VSyncLineBef(2), LowByte(t.vSyncBef2), HighByte(t.vSyncBef2), r);
    MissesAppend(a, b, r);
    MissesAppend(a + b, c, r);
    MissesAppend(a + b + c, d, r);
  }

  lemma FixedGroupMisses(g: int, r: HdmiReg)
    requires !(r.Timing? && FixedField(r.field))
    ensures Misses(FixedGroup(g), r)
  {
    var f1 := Split(GroupField(g, 1), 0xffff);
    var f2 := Split(GroupField(g, 2), 0xffff);
    var f3 := Split(GroupField(g, 3), 0xffff);
    var f4 := Split(GroupField(g, 4), 0xffff);
    var f5 := Split(GroupField(g, 5), 0xffff);
    var f6 := Split(GroupField(g, 6), 0xffff);
    PairMisses(GroupField(g, 1), LowByte(0xffff), HighByte(0xffff), r);
    PairMisses(GroupField(g, 2), LowByte(0xffff), HighByte(0xffff), r);
    PairMisses(GroupField(g, 3), LowByte(0xffff), HighByte(0xffff), r);
    PairMisses(GroupField(g, 4), LowByte(0xffff), HighByte(0xffff), r);
    PairMisses(GroupField(g, 5), LowByte(0xffff), HighByte(0xffff), r);
    PairMisses(GroupField(g, 6), LowByte(0xffff), HighByte(0xffff), r);
    MissesAppend(f1, f2, r);
    MissesAppend(f1 + f2, f3, r);
    MissesAppend(f1 + f2 + f3, f4, r);
    MissesAppend(f1 + f2 + f3 + f4, f5, r);
    MissesAppend(f1 + f2 + f3 + f4 + f5, f6, r);
  }

  lemma FixedMisses(r: HdmiReg)
    requires !(r.Timing? && FixedField(r.field))
    ensures Misses(PrepareFixed(), r)
  {
    FixedGroupMisses(0, r);
    FixedGroupMisses(1, r);
    FixedGroupMisses(2, r);
    MissesAppend(FixedGroup(0), FixedGroup(1), r);
    MissesAppend(FixedGroup(0) + FixedGroup(1), FixedGroup(2), r);
  }

  /** A segment that misses `r` has no last write to it. */
  lemma HeadNone(r: HdmiReg)
    requires OutsideTiming(r)
    ensures Last(PrepareHead(), r) == None
  {
    HeadMisses(r);
    LastNone(PrepareHead(), r);
  }

  lemma LinesNone(t: LinkTiming, r: HdmiReg)
    requires !(r.Timing? && LineField(r.field))
    ensures Last(PrepareLines(t), r) == None
  {
    LinesMisses(t, r);
    LastNone(PrepareLines(t), r);
  }

  lemma PolarityNone(width: int, r: HdmiReg)
    requires r.Timing?
    ensures Last(PreparePolarity(width), r) == None
  {
    PolarityMisses(width, r);
    LastNone(PreparePolarity(width), r);
  }

  lemma SyncsNone(t: LinkTiming, r: HdmiReg)
    requires 0 <= t.hSyncStart && 0 <= t.hSyncEnd
    requires !(r.Timing? && SyncField(r.field))
    ensures Last(PrepareSyncs(t), r) == None
  {
    SyncsMisses(t, r);
    LastNone(PrepareSyncs(t), r);
  }

  lemma FixedNone(r: HdmiReg)
    requires !(r.Timing? && FixedField(r.field))
    ensures Last(PrepareFixed(), r) == None
  {
    FixedMisses(r);
    LastNone(PrepareFixed(), r);
  }

  lemma TailNone(r: HdmiReg)
    requires OutsideTiming(r)
    ensures Last(PrepareTail(), r) == None
  {
    TailMisses(r);
    LastNone(PrepareTail(), r);
  }

  /** In six segments of writes, the last write to `r` is in the only segment that names it. */
  lemma LastOfSix(a: seq<HdmiWrite>, b: seq<HdmiWrite>, c: seq<HdmiWrite>, d: seq<HdmiWrite>,
                  e: seq<HdmiWrite>, f: seq<HdmiWrite>, r: HdmiReg)
    ensures Last(c, r) == None && Last(d, r) == None && Last(e, r) == None && Last(f, r) == None
            ==> Last(a + b + c + d + e + f, r) == Last(a + b, r)
    ensures Last(a + b, r) == None && Last(e, r) == None && Last(f, r) == None
            ==> Last(a + b + c + d + e + f, r) == Last(c + d, r)
    ensures Last(a + b + c + d, r) == None && Last(f, r) == None
            ==> Last(a + b + c + d + e + f, r) == Last(e, r)
  {
    LastAppend(a + b + c + d + e, f, r);
    LastAppend(a + b + c + d, e, r);
    LastAppend(a + b + c, d, r);
    LastAppend(a + b, c, r);
    LastAppend(c, d, r);
  }

  /** Two segments neither of which names `r`. */
  lemma BothNone(a: seq<HdmiWrite>, b: seq<HdmiWrite>, r: HdmiReg)
    requires Last(a, r) == None && Last(b, r) == None
    ensures Last(a + b, r) == None
  {
    LastAppend(a, b, r);
  }

  /** The line fields take their last writes in the line segment. */
  lemma PrepareLastLines(s: SyncInfo, r: HdmiReg)
    requires r.Timing? && LineField(r.field)
    ensures Last(PrepareWrites(s), r) == Last(PrepareHead() + PrepareLines(PrepareTiming(s)), r)
  {
    var t := PrepareTiming(s);
    PolarityNone(s.hActive, r);
    SyncsNone(t, r);
    FixedNone(r);
    TailNone(r);
    LastOfSix(PrepareHead(), PrepareLines(t), PreparePolarity(s.hActive), PrepareSyncs(t), PrepareFixed(), PrepareTail(), r);
  }

  /** The sync fields take their last writes in the sync segment. */
  lemma PrepareLastSyncs(s: SyncInfo, r: HdmiReg)
    requires r.Timing? && SyncField(r.field)
    ensures Last(PrepareWrites(s), r) == Last(PrepareSyncs(PrepareTiming(s)), r)
  {
    var t := PrepareTiming(s);
    HeadNone(r);
    LinesNone(t, r);
    BothNone(PrepareHead(), PrepareLines(t), r);
    PolarityNone(s.hActive, r);
    FixedNone(r);
    TailNone(r);
    LastOfSix(PrepareHead(), PrepareLines(t), PreparePolarity(s.hActive), PrepareSyncs(t), PrepareFixed(), PrepareTail(), r);
    LastAppend(PreparePolarity(s.hActive), PrepareSyncs(t), r);
  }

  /** The fixed fields take their last writes in the fixed segment. */
  lemma PrepareLastFixed(s: SyncInfo, r: HdmiReg)
    requires r.Timing? && FixedField(r.field)
    ensures Last(PrepareWrites(s), r) == Last(PrepareFixed(), r)
  {
    var t := PrepareTiming(s);
    HeadNone(r);
    LinesNone(t, r);
    BothNone(PrepareHead(), PrepareLines(t), r);
    PolarityNone(s.hActive, r);
    BothNone(PrepareHead() + PrepareLines(t), PreparePolarity(s.hActive), r);
    SyncsNone(t, r);
    BothNone(PrepareHead() + PrepareLines(t) + PreparePolarity(s.hActive), PrepareSyncs(t), r);
    TailNone(r);
    LastOfSix(PrepareHead(), PrepareLines(t), PreparePolarity(s.hActive), PrepareSyncs(t), PrepareFixed(), PrepareTail(), r);
  }

  /** The polarity registers take their last writes in the polarity segment. */
  lemma PrepareLastPolarity(s: SyncInfo, r: HdmiReg)
    requires r == HsyncPol || r == VsyncPol
    ensures Last(PrepareWrites(s), r) == Last(PreparePolarity(s.hActive), r)
  {
    var t := PrepareTiming(s);
    HeadNone(r);
    LinesNone(t, r);
    BothNone(PrepareHead(), PrepareLines(t), r);
    SyncsNone(t, r);
    FixedNone(r);
    TailNone(r);
    LastOfSix(PrepareHead(), PrepareLines(t), PreparePolarity(s.hActive), PrepareSyncs(t), PrepareFixed(), PrepareTail(), r);
    LastAppend(PreparePolarity(s.hActive), PrepareSyncs(t), r);
  }

  /** The last write a pair of writes makes to any register. */
  lemma PairLastAt(f: Field16, lo: int, hi: int, r: HdmiReg)
    ensures Last(Pair(f, lo, hi), r)
         == if r == Timing(f, 1) then Some(hi) else if r == Timing(f, 0) then Some(lo) else None
  {
    var w0, w1 := [HdmiWrite(Timing(f, 0), lo)], [HdmiWrite(Timing(f, 1), hi)];
    assert w0[..0] == [] && w1[..0] == [];
    assert Last(w0, r) == if r == Timing(f, 0) then Some(lo) else None;
    assert Last(w1, r) == if r == Timing(f, 1) then Some(hi) else None;
    LastAppend(w0, w1, r);
    assert Pair(f, lo, hi) == w0 + w1;
  }

  /** The value `hdmi_prepare` gives line field `f`. */
  function LineValue(t: LinkTiming, f: Field16): int {
    if f == HBlank then t.hBlank else if f == V1Blank then t.vBlank
    else if f == V2Blank then t.v2Blank else if f == VLine then t.vLine else t.hLine
  }

  /** Byte `n` of a value as the pair of writes gives it. */
  function ByteOf(x: int, n: int): int {
    if n == 0 then LowByte(x) else HighByte(x)
  }

  lemma LinesLast(t: LinkTiming, f: Field16, n: int)
    requires LineField(f) && (n == 0 || n == 1)
    ensures Last(PrepareLines(t), Timing(f, n)) == Some(ByteOf(LineValue(t, f), n))
  {
    var r := Timing(f, n);
    var s1, s2, s3, s4, s5 := Split(HBlank, t.hBlank), Split(V1Blank, t.vBlank),
      Split(V2Blank, t.v2Blank), Split(VLine, t.vLine), Split(HLine, t.hLine);
    PairLastAt(HBlank, LowByte(t.hBlank), HighByte(t.hBlank), r);
    PairLastAt(V1Blank, LowByte(t.vBlank), HighByte(t.vBlank), r);
    PairLastAt(V2Blank, LowByte(t.v2Blank), HighByte(t.v2Blank), r);
    PairLastAt(VLine, LowByte(t.vLine), HighByte(t.vLine), r);
    PairLastAt(HLine, LowByte(t.hLine), HighByte(t.hLine), r);
    LastAppend(s1 + s2 + s3 + s4, s5, r);
    LastAppend(s1 + s2 + s3, s4, r);
    LastAppend(s1 + s2, s3, r);
    LastAppend(s1, s2, r);
  }

  /** The bytes `hdmi_prepare` gives sync field `f`: the horizontal ones take the low byte less two. */
  function SyncByte(t: LinkTiming, f: Field16, n: int): int
    requires 0 <= t.hSyncStart && 0 <= t.hSyncEnd
  {
    if f == HSyncStart then (if n == 0 then SyncLowByte(t.hSyncStart) else HighByte(t.hSyncStart))
    else if f == HSyncEnd then (if n == 0 then SyncLowByte(t.hSyncEnd) else HighByte(t.hSyncEnd))
    else if f == VSyncLineBef(1) then ByteOf(t.vSyncBef1, n)
    else ByteOf(t.vSyncBef2, n)
  }

  lemma SyncsLast(t: LinkTiming, f: Field16, n: int)
    requires 0 <= t.hSyncStart && 0 <= t.hSyncEnd
    requires SyncField(f) && (n == 0 || n == 1)
    ensures Last(PrepareSyncs(t), Timing(f, n)) == Some(SyncByte(t, f, n))
  {
    var r := Timing(f, n);
    var a := Pair(HSyncStart, SyncLowByte(t.hSyncStart), HighByte(t.hSyncStart));
    var b := Pair(HSyncEnd, SyncLowByte(t.hSyncEnd), HighByte(t.hSyncEnd));
    var c := Split(VSyncLineBef(1), t.vSyncBef1);
    var d := Split(VSyncLineBef(2), t.vSyncBef2);
    PairLastAt(HSyncStart, SyncLowByte(t.hSyncStart), HighByte(t.hSyncStart), r);
    PairLastAt(HSyncEnd, SyncLowByte(t.hSyncEnd), HighByte(t.hSyncEnd), r);
    PairLastAt(VSyncLineBef(1), LowByte(t.vSyncBef1), HighByte(t.vSyncBef1), r);
    PairLastAt(VSyncLineBef(2), LowByte(t.vSyncBef2), HighByte(t.vSyncBef2), r);
    LastAppend(a + b + c, d, r);
    LastAppend(a + b, c, r);
    LastAppend(a, b, r);
  }

  /** Field `f` is one of the six `hdmi_prepare` writes in fixed group `g`. */
  predicate InGroup(g: int, f: Field16) {
    && (if g == 0 then f.VSyncLineAft? else if g == 1 then f.VSyncLineAftPxl? else f.VactSpace?)
    && 1 <= f.n <= 6
  }

  /** The fields `hdmi_prepare` sets to `0xffff`. */
  predicate FixedWritten(f: Field16) {
    InGroup(0, f) || InGroup(1, f) || InGroup(2, f)
  }

  /** The first `m` fields of fixed group `g`, written in order. */
  function GroupUpTo(g: int, m: nat): seq<HdmiWrite> {
    if m == 0 then [] else GroupUpTo(g, m - 1) + Split(GroupField(g, m), 0xffff)
  }

  lemma GroupUpToSix(g: int)
    ensures FixedGroup(g) == GroupUpTo(g, 6)
  {
    var f1, f2, f3 := Split(GroupField(g, 1), 0xffff), Split(GroupField(g, 2), 0xffff), Split(GroupField(g, 3), 0xffff);
    var f4, f5, f6 := Split(GroupField(g, 4), 0xffff), Split(GroupField(g, 5), 0xffff), Split(GroupField(g, 6), 0xffff);
    assert GroupUpTo(g, 1) == f1;
    assert GroupUpTo(g, 2) == f1 + f2;
    assert GroupUpTo(g, 3) == f1 + f2 + f3;
    assert GroupUpTo(g, 4) == f1 + f2 + f3 + f4;
    assert GroupUpTo(g, 5) == f1 + f2 + f3 + f4 + f5;
  }

  /** The first `m` fields of a group hold 0xff in both bytes; nothing else is named. */
  lemma {:induction false} GroupUpToLast(g: int, m: nat, f: Field16, n: int)
    requires m <= 6 && (n == 0 || n == 1)
    ensures Last(GroupUpTo(g, m), Timing(f, n)) == if InGroup(g, f) && f.n <= m then Some(0xff) else None
  {
    if m > 0 {
      var r, fm := Timing(f, n), GroupField(g, m);
      var pair := Split(fm, 0xffff);
      assert pair == Pair(fm, 0xff, 0xff);
      GroupUpToLast(g, m - 1, f, n);
      GroupFieldIs(g, m, f);
      PairLastAt(fm, 0xff, 0xff, r);
      assert Last(pair, r) == if f == fm then Some(0xff) else None;
      LastAppend(GroupUpTo(g, m - 1), pair, r);
    }
  }

  lemma GroupFieldIs(g: int, m: int, f: Field16)
    requires 1 <= m <= 6
    ensures f == GroupField(g, m) <==> InGroup(g, f) && f.n == m
  {
  }

  /** A fixed group leaves both bytes of each of its fields at 0xff and names no other field. */
  lemma FixedGroupLast(g: int, f: Field16, n: int)
    requires n == 0 || n == 1
    ensures Last(FixedGroup(g), Timing(f, n)) == if InGroup(g, f) then Some(0xff) else None
  {
    GroupUpToSix(g);
    GroupUpToLast(g, 6, f, n);
  }

  lemma FixedLast(f: Field16, n: int)
    requires FixedWritten(f) && (n == 0 || n == 1)
    ensures Last(PrepareFixed(), Timing(f, n)) == Some(0xff)
  {
    var r := Timing(f, n);
    FixedGroupLast(0, f, n);
    FixedGroupLast(1, f, n);
    FixedGroupLast(2, f, n);
    LastAppend(FixedGroup(0) + FixedGroup(1), FixedGroup(2), r);
    LastAppend(FixedGroup(0), FixedGroup(1), r);
  }

  // ---------------------------------------------------------------------------
  // The register values after hdmi_prepare
  // ---------------------------------------------------------------------------

  lemma PrepareLineValue(power: HdmiReg -> int, log: seq<HdmiWrite>, s: SyncInfo, f: Field16, n: int)
    requires LineField(f) && (n == 0 || n == 1)
    ensures Value(power, log + PrepareWrites(s), Timing(f, n)) == ByteOf(LineValue(PrepareTiming(s), f), n)
  {
    var r := Timing(f, n);
    PrepareLastLines(s, r);
    LinesLast(PrepareTiming(s), f, n);
    LastAppend(PrepareHead(), PrepareLines(PrepareTiming(s)), r);
    ValueAfter(power, log, PrepareWrites(s), r);
  }

  lemma PrepareSyncValue(power: HdmiReg -> int, log: seq<HdmiWrite>, s: SyncInfo, f: Field16, n: int)
    requires SyncField(f) && (n == 0 || n == 1)
    ensures Value(power, log + PrepareWrites(s), Timing(f, n)) == SyncByte(PrepareTiming(s), f, n)
  {
    var r := Timing(f, n);
    PrepareLastSyncs(s, r);
    SyncsLast(PrepareTiming(s), f, n);
    ValueAfter(power, log, PrepareWrites(s), r);
  }

  lemma PrepareFixedValue(power: HdmiReg -> int, log: seq<HdmiWrite>, s: SyncInfo, f: Field16, n: int)
    requires FixedWritten(f) && (n == 0 || n == 1)
    ensures Value(power, log + PrepareWrites(s), Timing(f, n)) == 0xff
  {
    var r := Timing(f, n);
    PrepareLastFixed(s, r);
    FixedLast(f, n);
    ValueAfter(power, log, PrepareWrites(s), r);
  }

  /** A single write is the last write to its own register and to no other. */
  lemma LastSingle(w: HdmiWrite, r: HdmiReg)
    ensures Last([w], r) == if w.reg == r then Some(w.val) else None
  {
    assert [w][..0] == [];
  }

  lemma PreparePolarityValue(power: HdmiReg -> int, log: seq<HdmiWrite>, s: SyncInfo, r: HdmiReg)
    requires r == HsyncPol || r == VsyncPol
    ensures Value(power, log + PrepareWrites(s), r) == if s.hActive == 1280 then 1 else 0
  {
    var pol := if s.hActive == 1280 then 1 else 0;
    var a, b, c := HdmiWrite(HsyncPol, pol), HdmiWrite(VsyncPol, pol), HdmiWrite(IntProMode, 0);
    assert PreparePolarity(s.hActive) == [a] + [b] + [c];
    LastSingle(a, r);
    LastSingle(b, r);
    LastSingle(c, r);
    LastAppend([a] + [b], [c], r);
    LastAppend([a], [b], r);
    PrepareLastPolarity(s, r);
    ValueAfter(power, log, PrepareWrites(s), r);
  }

  /** A field whose two bytes hold the low and high byte of `x` reads back as `x`. */
  lemma Reg16Of(power: HdmiReg -> int, l: seq<HdmiWrite>, f: Field16, x: int)
    requires 0 <= x
    requires Value(power, l, Timing(f, 0)) == LowByte(x) && Value(power, l, Timing(f, 1)) == HighByte(x)
    ensures Reg16(power, l, f) == x
  {
    ByteSplit(x);
  }

  lemma PrepareLineReg16(power: HdmiReg -> int, log: seq<HdmiWrite>, s: SyncInfo, f: Field16)
    requires LineField(f)
    ensures Reg16(power, log + PrepareWrites(s), f) == LineValue(PrepareTiming(s), f)
  {
    PrepareLineValue(power, log, s, f, 0);
    PrepareLineValue(power, log, s, f, 1);
    Reg16Of(power, log + PrepareWrites(s), f, LineValue(PrepareTiming(s), f));
  }

  lemma PrepareSyncLineReg16(power: HdmiReg -> int, log: seq<HdmiWrite>, s: SyncInfo, k: int)
    requires k == 1 || k == 2
    ensures Reg16(power, log + PrepareWrites(s), VSyncLineBef(k))
         == if k == 1 then PrepareTiming(s).vSyncBef1 else PrepareTiming(s).vSyncBef2
  {
    PrepareSyncValue(power, log, s, VSyncLineBef(k), 0);
    PrepareSyncValue(power, log, s, VSyncLineBef(k), 1);
    Reg16Of(power, log + PrepareWrites(s), VSyncLineBef(k),
            if k == 1 then PrepareTiming(s).vSyncBef1 else PrepareTiming(s).vSyncBef2);
  }

  lemma PrepareFixedReg16(power: HdmiReg -> int, log: seq<HdmiWrite>, s: SyncInfo)
    ensures forall f | FixedWritten(f) :: Reg16(power, log + PrepareWrites(s), f) == 0xffff
  {
    forall f | FixedWritten(f)
      ensures Reg16(power, log + PrepareWrites(s), f) == 0xffff
    {
      PrepareFixedValue(power, log, s, f, 0);
      PrepareFixedValue(power, log, s, f, 1);
    }
  }

  /** The blanking and totals of a sync whose fields fit the 16-bit sums. */
  lemma PrepareLinesEffect(power: HdmiReg -> int, log: seq<HdmiWrite>, s: SyncInfo)
    requires Timing16(s)
    ensures var l := log + PrepareWrites(s);
      && Reg16(power, l, HBlank) == HTotal(s) - s.hActive
      && Reg16(power, l, V1Blank) == VTotal(s) - s.vActive
      && Reg16(power, l, V2Blank) == VTotal(s)
      && Reg16(power, l, VLine) == VTotal(s)
      && Reg16(power, l, HLine) == HTotal(s)
  {
    PrepareLineReg16(power, log, s, HBlank);
    PrepareLineReg16(power, log, s, V1Blank);
    PrepareLineReg16(power, log, s, V2Blank);
    PrepareLineReg16(power, log, s, VLine);
    PrepareLineReg16(power, log, s, HLine);
  }

  /** The sync edges: vertical at the front porch and its end, horizontal two pixels early. */
  lemma PrepareSyncsEffect(power: HdmiReg -> int, log: seq<HdmiWrite>, s: SyncInfo)
    requires Timing16(s)
    ensures var l := log + PrepareWrites(s);
      && Reg16(power, l, VSyncLineBef(1)) == s.vFrontPorch
      && Reg16(power, l, VSyncLineBef(2)) == s.vFrontPorch + s.vSyncWidth
      && Value(power, l, Timing(HSyncStart, 0)) == SyncLowByte(s.hFrontPorch)
      && Value(power, l, Timing(HSyncStart, 1)) == HighByte(s.hFrontPorch)
      && Value(power, l, Timing(HSyncEnd, 0)) == SyncLowByte(s.hFrontPorch + s.hSyncWidth)
      && Value(power, l, Timing(HSyncEnd, 1)) == HighByte(s.hFrontPorch + s.hSyncWidth)
  {
    PrepareSyncLineReg16(power, log, s, 1);
    PrepareSyncLineReg16(power, log, s, 2);
    PrepareSyncValue(power, log, s, HSyncStart, 0);
    PrepareSyncValue(power, log, s, HSyncStart, 1);
    PrepareSyncValue(power, log, s, HSyncEnd, 0);
    PrepareSyncValue(power, log, s, HSyncEnd, 1);
  }

  /**
   * What `hdmi_prepare` leaves in the link for a sync whose fields fit its 16-bit
   * sums: the blanking and totals of the mode, the sync edges, both sync polarities
   * high exactly for a 1280-pixel line, and `0xffff` in every 3D field.
   */
  lemma PrepareEffect(power: HdmiReg -> int, log: seq<HdmiWrite>, s: SyncInfo)
    requires Timing16(s)
    ensures var l := log + PrepareWrites(s);
      && Reg16(power, l, HLine) == HTotal(s) && Reg16(power, l, VLine) == VTotal(s)
      && Reg16(power, l, HBlank) == HTotal(s) - s.hActive
      && Reg16(power, l, VSyncLineBef(1)) == s.vFrontPorch
      && Value(power, l, HsyncPol) == Value(power, l, VsyncPol) == (if s.hActive == 1280 then 1 else 0)
      && (forall f | FixedWritten(f) :: Reg16(power, l, f) == 0xffff)
  {
    PrepareLinesEffect(power, log, s);
    PrepareSyncsEffect(power, log, s);
    PreparePolarityValue(power, log, s, HsyncPol);
    PreparePolarityValue(power, log, s, VsyncPol);
    PrepareFixedReg16(power, log, s);
  }

  /** At 720p the link holds 370 blanking pixels in a 1650-pixel line of a 750-line frame. */
  lemma Prepare720p(power: HdmiReg -> int, log: seq<HdmiWrite>, s: SyncInfo)
    ensures var l := log + PrepareWrites(PresetSync(PRESET_720P, s));
      && Reg16(power, l, HBlank) == 370 && Reg16(power, l, HLine) == 1650
      && Reg16(power, l, VLine) == 750 && Reg16(power, l, V1Blank) == 30
      && Value(power, l, HsyncPol) == 1
  {
    var ps := PresetSync(PRESET_720P, s);
    PresetLinkTiming(PRESET_720P, s);
    PrepareLineReg16(power, log, ps, HBlank);
    PrepareLineReg16(power, log, ps, HLine);
    PrepareLineReg16(power, log, ps, VLine);
    PrepareLineReg16(power, log, ps, V1Blank);
    PreparePolarityValue(power, log, ps, HsyncPol);
  }

  // ---------------------------------------------------------------------------
  // hdmi_set_acr
  // ---------------------------------------------------------------------------

  /**
   * The writes of `hdmi_set_acr(rate, dvi)`: a DVI sink gets the ACR packet switched
   * off; an HDMI sink gets the three N bytes of the rate's pair and then the packet
   * sent with a measured CTS. CTS itself is never written.
   */
  function AcrWrites(k: LinkConsts, rate: int, dvi: bool): seq<HdmiWrite> {
    if dvi then [HdmiWrite(AcrCon, k.acrConNoTx)]
    else
      var n := AcrFor(rate).n;
      [HdmiWrite(AcrN(0), k.acrNVal(0, n)), HdmiWrite(AcrN(1), k.acrNVal(1, n)),
       HdmiWrite(AcrN(2), k.acrNVal(2, n)), HdmiWrite(AcrCon, k.acrConMeasuredCts)]
  }

  method SetAcr(h: HdmiLink, rate: int, dvi: bool)
    modifies h
    ensures h.log == old(h.log) + AcrWrites(h.k, rate, dvi)
  {
    if dvi {
      h.SetReg(AcrCon, h.k.acrConNoTx);
      return;
    }
    var n, cts;
    if rate == 32000 {
      n, cts := 4096, 27000;
    } else if rate == 44100 {
      n, cts := 6272, 30000;
    } else if rate == 48000 {
      n, cts := 6144, 27000;
    } else if rate == 88200 {
      n, cts := 12544, 30000;
    } else if rate == 96000 {
      n, cts := 12288, 27000;
    } else if rate == 176400 {
      n, cts := 25088, 30000;
    } else if rate == 192000 {
      n, cts := 24576, 27000;
    } else {
      n, cts := 0, 0;
    }
    assert AcrParams(n, cts) == AcrFor(rate);
    h.SetReg(AcrN(0), h.k.acrNVal(0, n));
    h.SetReg(AcrN(1), h.k.acrNVal(1, n));
    h.SetReg(AcrN(2), h.k.acrNVal(2, n));
    h.SetReg(AcrCon, h.k.acrConMeasuredCts);
  }

  /** The registers `hdmi_set_acr` may touch. */
  predicate AcrReg(r: HdmiReg) {
    r == AcrCon || r.AcrN?
  }

  /**
   * After `hdmi_set_acr` for a DVI sink, the ACR control says "no packet" and every
   * other register keeps its value.
   */
  lemma AcrDviEffect(power: HdmiReg -> int, log: seq<HdmiWrite>, k: LinkConsts, rate: int, r: HdmiReg)
    ensures Value(power, log + AcrWrites(k, rate, true), r)
         == if r == AcrCon then k.acrConNoTx else Value(power, log, r)
  {
    LastSingle(HdmiWrite(AcrCon, k.acrConNoTx), r);
    ValueAfter(power, log, AcrWrites(k, rate, true), r);
  }

  /**
   * After `hdmi_set_acr` for an HDMI sink, the ACR control says "measured CTS", the
   * three N bytes are those of the rate's N (0 for a rate without a pair), and every
   * register other than those four keeps its value.
   */
  lemma AcrHdmiEffect(power: HdmiReg -> int, log: seq<HdmiWrite>, k: LinkConsts, rate: int, r: HdmiReg)
    ensures var l := log + AcrWrites(k, rate, false);
      && (r == AcrCon ==> Value(power, l, r) == k.acrConMeasuredCts)
      && (r.AcrN? && 0 <= r.n <= 2 ==> Value(power, l, r) == k.acrNVal(r.n, AcrFor(rate).n))
      && (!AcrReg(r) ==> Value(power, l, r) == Value(power, log, r))
  {
    var ws := AcrWrites(k, rate, false);
    var n := AcrFor(rate).n;
    var a, b, c, d := HdmiWrite(AcrN(0), k.acrNVal(0, n)), HdmiWrite(AcrN(1), k.acrNVal(1, n)),
      HdmiWrite(AcrN(2), k.acrNVal(2, n)), HdmiWrite(AcrCon, k.acrConMeasuredCts);
    assert ws == [a] + [b] + [c] + [d];
    LastSingle(a, r);
    LastSingle(b, r);
    LastSingle(c, r);
    LastSingle(d, r);
    LastAppend([a] + [b] + [c], [d], r);
    LastAppend([a] + [b], [c], r);
    LastAppend([a], [b], r);
    ValueAfter(power, log, ws, r);
  }

  // ---------------------------------------------------------------------------
  // hdmi_setup
  // ---------------------------------------------------------------------------

  /** The display devices `hdmi_setup` is asked to take its picture from. */
  datatype DpDevice = DpDeviceDp0 | DpDeviceDp1 | DpDeviceResConv | OtherDevice(code: int)

  /** The display-top HDMI mux inputs. */
  datatype HdmiSource = PrimaryMlc | SecondaryMlc | ResolutionConv

  /** The mux input of a device, or `None` for a device HDMI cannot take. */
  function SourceOf(input: DpDevice): Option<HdmiSource> {
    match input
    case DpDeviceDp0 => Some(PrimaryMlc)
    case DpDeviceDp1 => Some(SecondaryMlc)
    case DpDeviceResConv => Some(ResolutionConv)
    case OtherDevice(_) => None
  }

  /**
   * The outcome of `hdmi_setup`: its return value, the link and PHY writes, the
   * display-top mux input it selects (if it gets that far), and the sync and control
   * records as it leaves them.
   */
  datatype SetupOut = SetupOut(ret: int, writes: seq<HdmiWrite>, mux: Option<HdmiSource>,
                               sync: SyncInfo, ctrl: CtrlInfo)

  /** `hdmi_setup(input, preset, sync, ctrl)`, where `status(j)` is the j-th read of the PHY status. */
  function SetupSpec(input: DpDevice, preset: int, s: SyncInfo, c: CtrlInfo, status: nat -> int): SetupOut {
    match SourceOf(input)
    case None => SetupOut(-EINVAL, [], None, s, c)
    case Some(sel) =>
      var phy := PhyEnableSpec(preset, 1);
      if phy.0 < 0 then SetupOut(phy.0, phy.1, None, s, c)
      else if FirstReady(status, 0) == PHY_POLLS then SetupOut(-EIO, phy.1, None, s, c)
      else
        var v := GetVsync(preset, s, c, None);
        SetupOut(0, phy.1 + PrepareWrites(v.sync), Some(sel), v.sync, v.ctrl)
  }

  /** The three ways `hdmi_setup` can end once the device is known. */
  lemma SetupCases(sel: HdmiSource, input: DpDevice, preset: int, s: SyncInfo, c: CtrlInfo, status: nat -> int)
    requires SourceOf(input) == Some(sel)
    ensures var phy := PhyEnableSpec(preset, 1); var o := SetupSpec(input, preset, s, c, status);
      && (phy.0 < 0 ==> o == SetupOut(phy.0, phy.1, None, s, c))
      && (phy.0 >= 0 && FirstReady(status, 0) == PHY_POLLS ==> o == SetupOut(-EIO, phy.1, None, s, c))
      && (phy.0 >= 0 && FirstReady(status, 0) < PHY_POLLS ==>
            var v := GetVsync(preset, s, c, None);
            o == SetupOut(0, phy.1 + PrepareWrites(v.sync), Some(sel), v.sync, v.ctrl))
  {
  }

  method Setup(h: HdmiLink, input: DpDevice, preset: int, s: SyncInfo, c: CtrlInfo, status: nat -> int)
    returns (ret: int, mux: Option<HdmiSource>, sync: SyncInfo, ctrl: CtrlInfo)
    modifies h
    ensures var o := SetupSpec(input, preset, s, c, status);
      && ret == o.ret && mux == o.mux && sync == o.sync && ctrl == o.ctrl
      && h.log == old(h.log) + o.writes
  {
    mux, sync, ctrl := None, s, c;
    var sel := SourceOf(input);
    if sel.None? {
      return -EINVAL, mux, sync, ctrl;
    }
    SetupCases(sel.value, input, preset, s, c, status);
    ghost var l0 := h.log;
    ret := PhyEnable(h, preset, 1);
    if 0 > ret {
      return;
    }
    ghost var l1 := h.log;
    ret, mux, sync, ctrl := SetupAfterPhy(h, sel.value, preset, s, c, status);
    AppendThree(l0, PhyEnableSpec(preset, 1).1, h.log[|l1|..]);
  }

  /** `hdmi_setup` once the PHY is programmed: wait for it, then program the link. */
  method SetupAfterPhy(h: HdmiLink, sel: HdmiSource, preset: int, s: SyncInfo, c: CtrlInfo, status: nat -> int)
    returns (ret: int, mux: Option<HdmiSource>, sync: SyncInfo, ctrl: CtrlInfo)
    modifies h
    ensures FirstReady(status, 0) == PHY_POLLS ==>
      ret == -EIO && mux == None && sync == s && ctrl == c && h.log == old(h.log)
    ensures FirstReady(status, 0) < PHY_POLLS ==>
      var v := GetVsync(preset, s, c, None);
      && ret == 0 && mux == Some(sel) && sync == v.sync && ctrl == v.ctrl
      && h.log == old(h.log) + PrepareWrites(v.sync)
  {
    var ready, polls := WaitPhyReady(status);
    if 0 == ready {
      // Switching the PHY off again writes nothing.
      var _ := PhyEnable(h, preset, 0);
      return -EIO, None, s, c;
    }
    mux := Some(sel);
    sync, ctrl := SetupLink(h, preset, s, c);
    ret := 0;
  }

  lemma AppendThree<T>(a: seq<T>, b: seq<T>, c: seq<T>)
    ensures a + b + c == a + (b + c)
  {
  }

  /** The end of a successful `hdmi_setup`: the preset's sync and control, then `hdmi_prepare`. */
  method SetupLink(h: HdmiLink, preset: int, s: SyncInfo, c: CtrlInfo) returns (sync: SyncInfo, ctrl: CtrlInfo)
    modifies h
    ensures var v := GetVsync(preset, s, c, None);
      && sync == v.sync && ctrl == v.ctrl && h.log == old(h.log) + PrepareWrites(v.sync)
  {
    var v := GetVsync(preset, s, c, None);
    sync, ctrl := v.sync, v.ctrl;
    var _ := Prepare(h, sync);
  }

  /** Every preset fits the 16-bit sums of `hdmi_prepare`. */
  lemma PresetTiming16(preset: int, s: SyncInfo)
    requires ValidPreset(preset)
    ensures Timing16(PresetSync(preset, s))
  {
  }

  /**
   * `hdmi_setup` fails with `-EINVAL` for a device it cannot take or a preset it does
   * not know, writing nothing; with `-EIO` when the PHY never reports ready, after
   * the PHY writes; and succeeds otherwise. A failure leaves the sync and control
   * records and the display-top mux alone.
   */
  lemma SetupErrorPaths(input: DpDevice, preset: int, s: SyncInfo, c: CtrlInfo, status: nat -> int)
    ensures var o := SetupSpec(input, preset, s, c, status);
      && (o.ret == -EINVAL <==> SourceOf(input).None? || !ValidPreset(preset))
      && (o.ret == -EINVAL ==> o.writes == [])
      && (o.ret == -EIO <==> SourceOf(input).Some? && ValidPreset(preset) && NeverReady(status))
      && (o.ret == -EIO ==> o.writes == PhyEnableSpec(preset, 1).1 != [])
      && (o.ret == 0 || o.ret == -EINVAL || o.ret == -EIO)
      && (o.ret != 0 ==> o.mux.None? && o.sync == s && o.ctrl == c)
  {
    if SourceOf(input).Some? {
      SetupCases(SourceOf(input).value, input, preset, s, c, status);
      NeverReadyIff(status);
    }
  }

  /** The PHY status never shows ready in any of the polls. */
  predicate NeverReady(status: nat -> int) {
    forall j :: 0 <= j < PHY_POLLS ==> !Ready(status(j))
  }

  /** The polling runs out exactly when the status never shows ready. */
  lemma NeverReadyIff(status: nat -> int)
    ensures FirstReady(status, 0) == PHY_POLLS <==> NeverReady(status)
  {
    var f := FirstReady(status, 0);
    if f < PHY_POLLS {
      assert Ready(status(f));
    }
  }

  /**
   * A successful `hdmi_setup` selects the device's mux input, hands back the
   * preset's sync, and programs the PHY for the preset and then the link with that
   * sync's timing.
   */
  lemma SetupSuccess(input: DpDevice, preset: int, s: SyncInfo, c: CtrlInfo, status: nat -> int)
    requires SetupSpec(input, preset, s, c, status).ret == 0
    ensures var o := SetupSpec(input, preset, s, c, status);
      && ValidPreset(preset) && o.mux == SourceOf(input) && o.mux.Some?
      && o.sync == PresetSync(preset, s)
      && o.writes == PhyEnableSpec(preset, 1).1 + PrepareWrites(o.sync)
  {
    assert SourceOf(input).Some?;
    SetupCases(SourceOf(input).value, input, preset, s, c, status);
  }

  /** After a successful `hdmi_setup` the link holds the preset's line and frame totals. */
  lemma SetupProgramsTotals(power: HdmiReg -> int, log: seq<HdmiWrite>, input: DpDevice, preset: int,
                            s: SyncInfo, c: CtrlInfo, status: nat -> int)
    requires SetupSpec(input, preset, s, c, status).ret == 0
    ensures var o := SetupSpec(input, preset, s, c, status);
      && Reg16(power, log + o.writes, HLine) == HTotal(PresetSync(preset, s))
      && Reg16(power, log + o.writes, VLine) == VTotal(PresetSync(preset, s))
  {
    var o := SetupSpec(input, preset, s, c, status);
    var phy := PhyEnableSpec(preset, 1).1;
    SetupSuccess(input, preset, s, c, status);
    PresetTiming16(preset, s);
    PrepareLineReg16(power, log + phy, PresetSync(preset, s), HLine);
    PrepareLineReg16(power, log + phy, PresetSync(preset, s), VLine);
    assert log + o.writes == (log + phy) + PrepareWrites(PresetSync(preset, s));
  }
}
