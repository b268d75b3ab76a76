/**
 * `hdmi_chksum`, `hdmi_reg_infoframe` and `hdmi_infoframe_set`: the InfoFrame packets of
 * the HDMI link. A frame is three header bytes (type, version, length), a checksum
 * byte and `length` payload bytes; the checksum makes all of them sum to 0 modulo 256
 * (section 5.3.5 of HDMI 1.4b).
 */
module HdmiInfoFrame {
  import opened Wrappers
  import opened HdmiTiming
  import opened HdmiRegs

  /** InfoFrame type codes of CEA-861-D. */
  const INFOFRAME_TYPE_VENDOR := 0x81
  const INFOFRAME_TYPE_AVI := 0x82
  const INFOFRAME_TYPE_AUDIO := 0x84

  const VSI_VERSION := 0x01
  const VSI_LENGTH := 0x05
  const AVI_VERSION := 0x02
  const AVI_LENGTH := 0x0d
  const AUI_VERSION := 0x01
  const AUI_LENGTH := 0x0a

  const VIDEO_FORMAT_2D := 0x0
  const VIDEO_FORMAT_3D := 0x2
  const TYPE_3D_FP := 0x0
  const TYPE_3D_SB_HALF := 0x8
  const H_SUB_SAMPLE := 0x1

  const OUTPUT_RGB888: bv8 := 0x0
  const AVI_ACTIVE_FORMAT_VALID: bv8 := 0x10
  const AVI_SAME_AS_PIC_ASPECT_RATIO: bv8 := 0x08
  const AVI_ITU709: bv8 := 0x80
  /** The header's macros, which replace its `enum color_range` names in the driver. */
  const AVI_LIMITED_RANGE := 4
  const AVI_FULL_RANGE := 8
  /** The VIC the driver sends for a 4:3 720x480 picture. */
  const VIC_4_3 := 17

  /** `infoframe->any`: the three header bytes. */
  datatype FrameHeader = FrameHeader(kind: int, version: int, length: int)

  /** The header fields are `u8`. */
  predicate HeaderBytes(f: FrameHeader) {
    0 <= f.kind < 256 && 0 <= f.version < 256 && 0 <= f.length < 256
  }

  /** `struct hdmi_format`. */
  datatype Format = Format(vformat: int, type3d: int)

  // ---------------------------------------------------------------------------
  // hdmi_chksum
  // ---------------------------------------------------------------------------

  /** The sum of payload bytes 1 to `n` of packet `p` after the writes of `log`. */
  function PacketSum(power: HdmiReg -> int, log: seq<HdmiWrite>, p: Packet, n: nat): int
    decreases n
  {
    if n == 0 then 0 else PacketSum(power, log, p, n - 1) + Value(power, log, PacketByte(p, n))
  }

  /** Writes that name none of the first `n` payload bytes leave their sum as it was. */
  lemma {:induction false} PacketSumMiss(power: HdmiReg -> int, log: seq<HdmiWrite>, ws: seq<HdmiWrite>, p: Packet, n: nat)
    requires forall i | 1 <= i <= n :: Last(ws, PacketByte(p, i)).None?
    ensures PacketSum(power, log + ws, p, n) == PacketSum(power, log, p, n)
    decreases n
  {
    if n > 0 {
      PacketSumMiss(power, log, ws, p, n - 1);
      ValueAfter(power, log, ws, PacketByte(p, n));
    }
  }

  /** Reducing to a `u32` keeps the low byte. */
  lemma U32LowByte(x: int)
    ensures U32(x) % 256 == x % 256
  {
    var q := x / U32_MOD;
    assert x == q * U32_MOD + U32(x);
    assert q * U32_MOD == (q * 0x100_0000) * 256;
  }

  /** A `u32` sum taking one more addend. */
  lemma U32AddStep(x: int, v: int)
    ensures U32(U32(x) + v) == U32(x + v)
  {
    var q := x / U32_MOD;
    assert x + v == (U32(x) + v) + q * U32_MOD;
  }

  /**
   * `hdmi_chksum(start, len, hdr_sum)`: adds payload bytes 1 to `len` of `p`, read back
   * from the registers, to `hdr_sum` in a `u32`, and returns the byte that makes the
   * whole sum 0 modulo 256.
   */
  method Chksum(h: HdmiLink, p: Packet, len: int, hdrSum: int) returns (c: int)
    requires 0 <= len < 256 && 0 <= hdrSum < U32_MOD
    ensures c == ChecksumByte(hdrSum + PacketSum(h.power, h.log, p, len))
    ensures 0 <= c < 256 && (hdrSum + PacketSum(h.power, h.log, p, len) + c) % 256 == 0
  {
    var sum := hdrSum;
    var i := 0;
    while i < len
      invariant 0 <= i <= len
      invariant sum == U32(hdrSum + PacketSum(h.power, h.log, p, i))
    {
      var v := h.GetReg(PacketByte(p, 1 + i));
      ChksumStep(h.power, h.log, p, hdrSum, i, sum, v);
      sum := U32(sum + v);
      i := i + 1;
    }
    c := ChecksumByte(sum);
    U32Checksum(hdrSum + PacketSum(h.power, h.log, p, len));
  }

  /** Adding payload byte `i + 1` to the running `u32` sum of bytes 1 to `i`. */
  lemma ChksumStep(power: HdmiReg -> int, log: seq<HdmiWrite>, p: Packet, hdrSum: int, i: nat, sum: int, v: int)
    requires sum == U32(hdrSum + PacketSum(power, log, p, i))
    requires v == Value(power, log, PacketByte(p, 1 + i))
    ensures U32(sum + v) == U32(hdrSum + PacketSum(power, log, p, i + 1))
  {
    U32AddStep(hdrSum + PacketSum(power, log, p, i), v);
  }

  /** The checksum of a sum reduced to a `u32` is the checksum of the sum. */
  lemma U32Checksum(x: int)
    ensures ChecksumByte(U32(x)) == ChecksumByte(x)
  {
    U32LowByte(x);
  }

  // ---------------------------------------------------------------------------
  // hdmi_reg_infoframe
  // ---------------------------------------------------------------------------

  /** `hdmi_valid_ratio_4_3`: a 720x480 picture at 27 MHz or 27.027 MHz. */
  predicate ValidRatio43(s: SyncInfo) {
    s.hActive == 720 && s.vActive == 480 && (s.pixelClockHz == 27000000 || s.pixelClockHz == 27027000)
  }

  /** AVI byte 1: RGB output, active format valid, underscanned. */
  function AviByte1(k: LinkConsts): int {
    ((OUTPUT_RGB888 << 5) | AVI_ACTIVE_FORMAT_VALID | k.underscannedValid) as int
  }

  /** AVI byte 2: the 16:9 picture aspect, the same active format aspect, ITU-R BT.709. */
  function AviByte2(k: LinkConsts): int {
    (k.pictureAspect169 | AVI_SAME_AS_PIC_ASPECT_RATIO | AVI_ITU709) as int
  }

  /** The VIC of the AVI frame: 17 for a 4:3 picture, else the preset's, else 0. */
  function AviVic(k: LinkConsts, s: SyncInfo, presetVic: Option<int>): int {
    if k.aspectIs43 && ValidRatio43(s) then VIC_4_3
    else if presetVic.Some? then presetVic.value
    else 0
  }

  /** The payload length the vendor frame announces: one more for side-by-side half 3D. */
  function VsiLength(f: FrameHeader, fmt: Format): (len: int)
    requires HeaderBytes(f)
    ensures 0 <= len < 256
    ensures len == f.length <==> fmt.type3d != TYPE_3D_SB_HALF
  {
    if fmt.type3d == TYPE_3D_SB_HALF then (f.length + 1) % 256 else f.length
  }

  /** The vendor frame's control, first two header bytes and first five payload bytes. */
  function VsiFixed(k: LinkConsts, f: FrameHeader, fmt: Format): seq<HdmiWrite> {
    [ ByteWrite(PacketCon(Vsi), k.vsiConEveryVsync),
      ByteWrite(Header(Vsi, 0), f.kind),
      ByteWrite(Header(Vsi, 1), f.version),
      ByteWrite(PacketByte(Vsi, 1), 0x03),
      ByteWrite(PacketByte(Vsi, 2), 0x0c),
      ByteWrite(PacketByte(Vsi, 3), 0x00),
      ByteWrite(PacketByte(Vsi, 4), k.vsiVideoFormat(fmt.vformat)),
      ByteWrite(PacketByte(Vsi, 5), k.vsi3dStructure(fmt.type3d)) ]
  }

  /** Payload byte 6, written for side-by-side half 3D only. */
  function VsiExt(k: LinkConsts, fmt: Format): seq<HdmiWrite> {
    if fmt.type3d == TYPE_3D_SB_HALF then [ByteWrite(PacketByte(Vsi, 6), k.vsi3dExtData(H_SUB_SAMPLE) % 256)] else []
  }

  /** The vendor frame's writes before its checksum; the length byte comes last. */
  function VsiBody(k: LinkConsts, f: FrameHeader, fmt: Format): seq<HdmiWrite>
    requires HeaderBytes(f)
  {
    VsiFixed(k, f, fmt) + VsiExt(k, fmt) + [ByteWrite(Header(Vsi, 2), VsiLength(f, fmt))]
  }

  /** Header bytes 0, 1 and 2 of packet `p`: type, version and length. */
  function HeaderWrites(p: Packet, f: FrameHeader): seq<HdmiWrite> {
    [ ByteWrite(Header(p, 0), f.kind),
      ByteWrite(Header(p, 1), f.version),
      ByteWrite(Header(p, 2), f.length) ]
  }

  /** AVI payload bytes 1 to 4. */
  function AviPayload(k: LinkConsts, s: SyncInfo, presetVic: Option<int>): seq<HdmiWrite> {
    [ ByteWrite(PacketByte(Avi, 1), AviByte1(k)),
      ByteWrite(PacketByte(Avi, 2), AviByte2(k)),
      ByteWrite(PacketByte(Avi, 3), AVI_LIMITED_RANGE),
      ByteWrite(PacketByte(Avi, 4), AviVic(k, s, presetVic)) ]
  }

  /** The AVI frame's writes before its checksum. */
  function AviBody(k: LinkConsts, f: FrameHeader, s: SyncInfo, presetVic: Option<int>): seq<HdmiWrite> {
    [ByteWrite(PacketCon(Avi), k.aviConEveryVsync)] + HeaderWrites(Avi, f) + AviPayload(k, s, presetVic)
  }

  /** The audio frame's writes before its checksum; its control register takes a 32-bit write. */
  function AuiBody(k: LinkConsts, f: FrameHeader): seq<HdmiWrite> {
    [HdmiWrite(PacketCon(Aui), k.auiConEveryVsync)] + HeaderWrites(Aui, f)
  }

  /** A frame's writes: its body, then the checksum of `hdrSum` and `len` payload bytes as the body leaves them. */
  function Framed(power: HdmiReg -> int, log: seq<HdmiWrite>, p: Packet, body: seq<HdmiWrite>, hdrSum: int, len: nat): seq<HdmiWrite> {
    body + [ByteWrite(CheckSum(p), ChecksumByte(hdrSum + PacketSum(power, log + body, p, len)))]
  }

  /** The vendor frame's writes after those of `log`. */
  function VsiFrame(k: LinkConsts, power: HdmiReg -> int, log: seq<HdmiWrite>, f: FrameHeader, fmt: Format): seq<HdmiWrite>
    requires HeaderBytes(f)
  {
    var len := VsiLength(f, fmt);
    Framed(power, log, Vsi, VsiBody(k, f, fmt), f.kind + f.version + len, len)
  }

  /** The AVI frame's writes after those of `log`. */
  function AviFrame(k: LinkConsts, power: HdmiReg -> int, log: seq<HdmiWrite>, f: FrameHeader, s: SyncInfo, presetVic: Option<int>): seq<HdmiWrite>
    requires HeaderBytes(f)
  {
    Framed(power, log, Avi, AviBody(k, f, s, presetVic), f.kind + f.version + f.length, f.length)
  }

  /** The audio frame's writes after those of `log`. */
  function AuiFrame(k: LinkConsts, power: HdmiReg -> int, log: seq<HdmiWrite>, f: FrameHeader): seq<HdmiWrite>
    requires HeaderBytes(f)
  {
    Framed(power, log, Aui, AuiBody(k, f), f.kind + f.version + f.length, f.length)
  }

  /** `hdmi_reg_infoframe(infoframe, format, sync, preset_vic)`: the writes it issues after those of `log`. */
  function RegInfoframeSpec(k: LinkConsts, power: HdmiReg -> int, log: seq<HdmiWrite>,
                            f: FrameHeader, fmt: Format, s: SyncInfo, presetVic: Option<int>): seq<HdmiWrite>
    requires HeaderBytes(f)
  {
    if f.kind == INFOFRAME_TYPE_VENDOR then VsiFrame(k, power, log, f, fmt)
    else if f.kind == INFOFRAME_TYPE_AVI then AviFrame(k, power, log, f, s, presetVic)
    else if f.kind == INFOFRAME_TYPE_AUDIO then AuiFrame(k, power, log, f)
    else []
  }

  /** The vendor frame's control, first two header bytes and first five payload bytes. */
  method WriteVsiFixed(h: HdmiLink, f: FrameHeader, fmt: Format)
    modifies h
    ensures h.log == old(h.log) + VsiFixed(h.k, f, fmt)
  {
    h.SetRegB(PacketCon(Vsi), h.k.vsiConEveryVsync);
    h.SetRegB(Header(Vsi, 0), f.kind);
    h.SetRegB(Header(Vsi, 1), f.version);
    h.SetRegB(PacketByte(Vsi, 1), 0x03);
    h.SetRegB(PacketByte(Vsi, 2), 0x0c);
    h.SetRegB(PacketByte(Vsi, 3), 0x00);
    h.SetRegB(PacketByte(Vsi, 4), h.k.vsiVideoFormat(fmt.vformat));
    h.SetRegB(PacketByte(Vsi, 5), h.k.vsi3dStructure(fmt.type3d));
  }

  /** The vendor frame's writes before its checksum. */
  method WriteVsiBody(h: HdmiLink, f: FrameHeader, fmt: Format)
    requires HeaderBytes(f)
    modifies h
    ensures h.log == old(h.log) + VsiBody(h.k, f, fmt)
  {
    WriteVsiFixed(h, f, fmt);
    var length := f.length;
    if fmt.type3d == TYPE_3D_SB_HALF {
      length := (length + 1) % 256;
      h.SetRegB(PacketByte(Vsi, 6), h.k.vsi3dExtData(H_SUB_SAMPLE) % 256);
    }
    h.SetRegB(Header(Vsi, 2), length);
  }

  /** The three header bytes of packet `p`, in order. */
  method WriteHeader(h: HdmiLink, p: Packet, f: FrameHeader)
    modifies h
    ensures h.log == old(h.log) + HeaderWrites(p, f)
  {
    h.SetRegB(Header(p, 0), f.kind);
    h.SetRegB(Header(p, 1), f.version);
    h.SetRegB(Header(p, 2), f.length);
  }

  /** AVI payload bytes 1 to 4, the VIC chosen between the first two. */
  method WriteAviPayload(h: HdmiLink, s: SyncInfo, presetVic: Option<int>)
    modifies h
    ensures h.log == old(h.log) + AviPayload(h.k, s, presetVic)
  {
    h.SetRegB(PacketByte(Avi, 1), AviByte1(h.k));
    var vic: int;
    if h.k.aspectIs43 && ValidRatio43(s) {
      vic := VIC_4_3;
    } else if presetVic.Some? {
      vic := presetVic.value;
    } else {
      vic := 0;
    }
    h.SetRegB(PacketByte(Avi, 2), AviByte2(h.k));
    // The driver's colour range is fixed at limited, so its full-range branch is never taken.
    h.SetRegB(PacketByte(Avi, 3), AVI_LIMITED_RANGE);
    h.SetRegB(PacketByte(Avi, 4), vic);
  }

  /** The AVI frame's writes before its checksum. */
  method WriteAviBody(h: HdmiLink, f: FrameHeader, s: SyncInfo, presetVic: Option<int>)
    modifies h
    ensures h.log == old(h.log) + AviBody(h.k, f, s, presetVic)
  {
    h.SetRegB(PacketCon(Avi), h.k.aviConEveryVsync);
    WriteHeader(h, Avi, f);
    WriteAviPayload(h, s, presetVic);
  }

  /** The audio frame's writes before its checksum. */
  method WriteAuiBody(h: HdmiLink, f: FrameHeader)
    modifies h
    ensures h.log == old(h.log) + AuiBody(h.k, f)
  {
    h.SetReg(PacketCon(Aui), h.k.auiConEveryVsync);
    WriteHeader(h, Aui, f);
  }

  /** The checksum of a frame whose body has been written, computed and written. */
  method WriteChecksum(h: HdmiLink, p: Packet, len: int, hdrSum: int, ghost log0: seq<HdmiWrite>, ghost body: seq<HdmiWrite>)
    requires 0 <= len < 256 && 0 <= hdrSum < U32_MOD
    requires h.log == log0 + body
    modifies h
    ensures h.log == log0 + Framed(h.power, log0, p, body, hdrSum, len)
  {
    var c := Chksum(h, p, len, hdrSum);
    h.SetRegB(CheckSum(p), c);
    assert h.log == log0 + (body + [ByteWrite(CheckSum(p), c)]);
  }

  /** The vendor case of `hdmi_reg_infoframe`. */
  method RegVsi(h: HdmiLink, f: FrameHeader, fmt: Format)
    requires HeaderBytes(f)
    modifies h
    ensures h.log == old(h.log) + VsiFrame(h.k, h.power, old(h.log), f, fmt)
  {
    ghost var log0 := h.log;
    WriteVsiBody(h, f, fmt);
    var len := VsiLength(f, fmt);
    WriteChecksum(h, Vsi, len, f.kind + f.version + len, log0, VsiBody(h.k, f, fmt));
  }

  /** The AVI case of `hdmi_reg_infoframe`. */
  method RegAvi(h: HdmiLink, f: FrameHeader, s: SyncInfo, presetVic: Option<int>)
    requires HeaderBytes(f)
    modifies h
    ensures h.log == old(h.log) + AviFrame(h.k, h.power, old(h.log), f, s, presetVic)
  {
    ghost var log0 := h.log;
    WriteAviBody(h, f, s, presetVic);
    WriteChecksum(h, Avi, f.length, f.kind + f.version + f.length, log0, AviBody(h.k, f, s, presetVic));
  }

  /** The audio case of `hdmi_reg_infoframe`. */
  method RegAui(h: HdmiLink, f: FrameHeader)
    requires HeaderBytes(f)
    modifies h
    ensures h.log == old(h.log) + AuiFrame(h.k, h.power, old(h.log), f)
  {
    ghost var log0 := h.log;
    WriteAuiBody(h, f);
    WriteChecksum(h, Aui, f.length, f.kind + f.version + f.length, log0, AuiBody(h.k, f));
  }

  /** `hdmi_reg_infoframe(infoframe, format, sync, preset_vic)`. */
  method RegInfoframe(h: HdmiLink, f: FrameHeader, fmt: Format, s: SyncInfo, presetVic: Option<int>)
    requires HeaderBytes(f)
    modifies h
    ensures h.log == old(h.log) + RegInfoframeSpec(h.k, h.power, old(h.log), f, fmt, s, presetVic)
  {
    if f.kind == INFOFRAME_TYPE_VENDOR {
      RegVsi(h, f, fmt);
    } else if f.kind == INFOFRAME_TYPE_AVI {
      RegAvi(h, f, s, presetVic);
    } else if f.kind == INFOFRAME_TYPE_AUDIO {
      RegAui(h, f);
    }
  }

  // ---------------------------------------------------------------------------
  // Properties of the frames
  // ---------------------------------------------------------------------------

  /** The registers of packet `p`'s frame. */
  predicate InFrame(r: HdmiReg, p: Packet) {
    (r.Header? && r.packet == p) || (r.PacketByte? && r.packet == p) || r == CheckSum(p)
  }

  /**
   * What a sink adds up for the frame of `p`: its three header bytes, its checksum and
   * its first `len` payload bytes, as the registers hold them.
   */
  function FrameSum(power: HdmiReg -> int, log: seq<HdmiWrite>, p: Packet, len: nat): int {
    Value(power, log, Header(p, 0)) + Value(power, log, Header(p, 1)) + Value(power, log, Header(p, 2))
    + PacketSum(power, log, p, len) + Value(power, log, CheckSum(p))
  }

  /** Writes outside the frame of `p` leave its sum as it was. */
  lemma FrameSumMiss(power: HdmiReg -> int, log: seq<HdmiWrite>, ws: seq<HdmiWrite>, p: Packet, len: nat)
    requires forall w | w in ws :: !InFrame(w.reg, p)
    ensures FrameSum(power, log + ws, p, len) == FrameSum(power, log, p, len)
  {
    forall r: HdmiReg | InFrame(r, p)
      ensures Value(power, log + ws, r) == Value(power, log, r)
    {
      LastNone(ws, r);
      ValueAfter(power, log, ws, r);
    }
    forall i | 1 <= i <= len
      ensures Last(ws, PacketByte(p, i)).None?
    {
      LastNone(ws, PacketByte(p, i));
    }
    PacketSumMiss(power, log, ws, p, len);
  }

  /**
   * Framing a body whose header registers sum to `hdrSum`: afterwards the frame's
   * bytes add up to 0 modulo 256.
   */
  lemma FramedSumsToZero(power: HdmiReg -> int, log: seq<HdmiWrite>, p: Packet, body: seq<HdmiWrite>, hdrSum: int, len: nat)
    requires Value(power, log + body, Header(p, 0)) + Value(power, log + body, Header(p, 1))
           + Value(power, log + body, Header(p, 2)) == hdrSum
    ensures FrameSum(power, log + Framed(power, log, p, body, hdrSum, len), p, len) % 256 == 0
  {
    var c := ChecksumByte(hdrSum + PacketSum(power, log + body, p, len));
    var cw := ByteWrite(CheckSum(p), c);
    assert Framed(power, log, p, body, hdrSum, len) == body + [cw];
    assert log + (body + [cw]) == (log + body) + [cw];
    assert [cw][..0] == [];
    forall j | 0 <= j < 3
      ensures Value(power, (log + body) + [cw], Header(p, j)) == Value(power, log + body, Header(p, j))
    {
      ValueAfter(power, log + body, [cw], Header(p, j));
    }
    forall i | 1 <= i <= len
      ensures Last([cw], PacketByte(p, i)).None?
    {
    }
    PacketSumMiss(power, log + body, [cw], p, len);
    ValueAfter(power, log + body, [cw], CheckSum(p));
  }

  /** Header write `i` of `body` to byte `n` of `p`'s header, with no later write to that byte. */
  predicate LastHeader(body: seq<HdmiWrite>, p: Packet, n: int, i: int) {
    0 <= i < |body| && body[i].reg == Header(p, n)
    && forall j | i < j < |body| :: body[j].reg != Header(p, n)
  }

  /**
   * Framing a body whose last writes to the three header bytes are writes `i0`, `i1`
   * and `i2`, of values adding up to `hdrSum`: afterwards the header registers hold
   * those values and the frame's bytes add up to 0 modulo 256.
   */
  lemma FrameOf(power: HdmiReg -> int, log: seq<HdmiWrite>, p: Packet, body: seq<HdmiWrite>,
                i0: int, i1: int, i2: int, hdrSum: int, len: nat, ws: seq<HdmiWrite>)
    requires LastHeader(body, p, 0, i0) && LastHeader(body, p, 1, i1) && LastHeader(body, p, 2, i2)
    requires body[i0].val + body[i1].val + body[i2].val == hdrSum
    requires ws == Framed(power, log, p, body, hdrSum, len)
    ensures Value(power, log + ws, Header(p, 0)) == body[i0].val
    ensures Value(power, log + ws, Header(p, 1)) == body[i1].val
    ensures Value(power, log + ws, Header(p, 2)) == body[i2].val
    ensures FrameSum(power, log + ws, p, len) % 256 == 0
  {
    LastAt(body, i0);
    LastAt(body, i1);
    LastAt(body, i2);
    ValueAfter(power, log, body, Header(p, 0));
    ValueAfter(power, log, body, Header(p, 1));
    ValueAfter(power, log, body, Header(p, 2));
    FramedSumsToZero(power, log, p, body, hdrSum, len);
    LastAt(ws, i0);
    LastAt(ws, i1);
    LastAt(ws, i2);
    ValueAfter(power, log, ws, Header(p, 0));
    ValueAfter(power, log, ws, Header(p, 1));
    ValueAfter(power, log, ws, Header(p, 2));
  }

  /** `hdmi_reg_infoframe` dispatches on the header's type. */
  lemma RegInfoframeCases(k: LinkConsts, power: HdmiReg -> int, log: seq<HdmiWrite>,
                          f: FrameHeader, fmt: Format, s: SyncInfo, presetVic: Option<int>)
    requires HeaderBytes(f)
    ensures var ws := RegInfoframeSpec(k, power, log, f, fmt, s, presetVic);
      && (f.kind == INFOFRAME_TYPE_VENDOR ==> ws == VsiFrame(k, power, log, f, fmt))
      && (f.kind == INFOFRAME_TYPE_AVI ==> ws == AviFrame(k, power, log, f, s, presetVic))
      && (f.kind == INFOFRAME_TYPE_AUDIO ==> ws == AuiFrame(k, power, log, f))
  {
  }

  /** The AVI body's last writes to the three header bytes are its writes 1, 2 and 3. */
  lemma AviBodyHeaders(k: LinkConsts, f: FrameHeader, s: SyncInfo, presetVic: Option<int>)
    requires HeaderBytes(f)
    ensures var body := AviBody(k, f, s, presetVic);
      && body[1].val == f.kind && body[2].val == f.version && body[3].val == f.length
      && LastHeader(body, Avi, 0, 1) && LastHeader(body, Avi, 1, 2) && LastHeader(body, Avi, 2, 3)
  {
  }

  lemma AuiBodyHeaders(k: LinkConsts, f: FrameHeader)
    requires HeaderBytes(f)
    ensures var body := AuiBody(k, f);
      && body[1].val == f.kind && body[2].val == f.version && body[3].val == f.length
      && LastHeader(body, Aui, 0, 1) && LastHeader(body, Aui, 1, 2) && LastHeader(body, Aui, 2, 3)
  {
  }

  lemma VsiBodyHeaders(k: LinkConsts, f: FrameHeader, fmt: Format)
    requires HeaderBytes(f)
    ensures var body := VsiBody(k, f, fmt); var n := |body| - 1;
      && body[1].val == f.kind && body[2].val == f.version && body[n].val == VsiLength(f, fmt)
      && LastHeader(body, Vsi, 0, 1) && LastHeader(body, Vsi, 1, 2) && LastHeader(body, Vsi, 2, n)
  {
  }

  /**
   * After `hdmi_reg_infoframe` for an AVI header, the AVI header registers hold the
   * header and the frame's bytes add up to 0 modulo 256.
   */
  lemma AviFrameSumsToZero(k: LinkConsts, power: HdmiReg -> int, log: seq<HdmiWrite>,
                           f: FrameHeader, fmt: Format, s: SyncInfo, presetVic: Option<int>)
    requires HeaderBytes(f) && f.kind == INFOFRAME_TYPE_AVI
    ensures var log' := log + RegInfoframeSpec(k, power, log, f, fmt, s, presetVic);
      && Value(power, log', Header(Avi, 0)) == f.kind
      && Value(power, log', Header(Avi, 1)) == f.version
      && Value(power, log', Header(Avi, 2)) == f.length
      && FrameSum(power, log', Avi, f.length) % 256 == 0
  {
    RegInfoframeCases(k, power, log, f, fmt, s, presetVic);
    AviBodyHeaders(k, f, s, presetVic);
    FrameOf(power, log, Avi, AviBody(k, f, s, presetVic), 1, 2, 3, f.kind + f.version + f.length, f.length,
            AviFrame(k, power, log, f, s, presetVic));
  }

  /**
   * After `hdmi_reg_infoframe` for an audio header, the audio header registers hold the
   * header and the frame's bytes add up to 0 modulo 256.
   */
  lemma AuiFrameSumsToZero(k: LinkConsts, power: HdmiReg -> int, log: seq<HdmiWrite>,
                           f: FrameHeader, fmt: Format, s: SyncInfo, presetVic: Option<int>)
    requires HeaderBytes(f) && f.kind == INFOFRAME_TYPE_AUDIO
    ensures var log' := log + RegInfoframeSpec(k, power, log, f, fmt, s, presetVic);
      && Value(power, log', Header(Aui, 0)) == f.kind
      && Value(power, log', Header(Aui, 1)) == f.version
      && Value(power, log', Header(Aui, 2)) == f.length
      && FrameSum(power, log', Aui, f.length) % 256 == 0
  {
    RegInfoframeCases(k, power, log, f, fmt, s, presetVic);
    AuiBodyHeaders(k, f);
    FrameOf(power, log, Aui, AuiBody(k, f), 1, 2, 3, f.kind + f.version + f.length, f.length,
            AuiFrame(k, power, log, f));
  }

  /**
   * After `hdmi_reg_infoframe` for a vendor header, the announced length is one more
   * for side-by-side half 3D, and the frame's bytes add up to 0 modulo 256.
   */
  lemma VendorFrameSumsToZero(k: LinkConsts, power: HdmiReg -> int, log: seq<HdmiWrite>,
                              f: FrameHeader, fmt: Format, s: SyncInfo, presetVic: Option<int>)
    requires HeaderBytes(f) && f.kind == INFOFRAME_TYPE_VENDOR
    ensures var log' := log + RegInfoframeSpec(k, power, log, f, fmt, s, presetVic);
      var len := VsiLength(f, fmt);
      && Value(power, log', Header(Vsi, 0)) == f.kind
      && Value(power, log', Header(Vsi, 1)) == f.version
      && Value(power, log', Header(Vsi, 2)) == len
      && FrameSum(power, log', Vsi, len) % 256 == 0
  {
    var len := VsiLength(f, fmt);
    var body := VsiBody(k, f, fmt);
    RegInfoframeCases(k, power, log, f, fmt, s, presetVic);
    VsiBodyHeaders(k, f, fmt);
    FrameOf(power, log, Vsi, body, 1, 2, |body| - 1, f.kind + f.version + len, len,
            VsiFrame(k, power, log, f, fmt));
  }

  /** The AVI frame's VIC byte holds the low byte of the VIC it was built with. */
  lemma AviFrameVic(k: LinkConsts, power: HdmiReg -> int, log: seq<HdmiWrite>,
                    f: FrameHeader, fmt: Format, s: SyncInfo, presetVic: Option<int>)
    requires HeaderBytes(f) && f.kind == INFOFRAME_TYPE_AVI
    ensures Value(power, log + RegInfoframeSpec(k, power, log, f, fmt, s, presetVic), PacketByte(Avi, 4))
         == AviVic(k, s, presetVic) % 256
  {
    RegInfoframeCases(k, power, log, f, fmt, s, presetVic);
    var ws := AviFrame(k, power, log, f, s, presetVic);
    assert |ws| == 9 && ws[7] == ByteWrite(PacketByte(Avi, 4), AviVic(k, s, presetVic)) && ws[8].reg == CheckSum(Avi);
    LastAt(ws, 7);
    ValueAfter(power, log, ws, PacketByte(Avi, 4));
  }

  /**
   * For the two CEA-861-D presets the AVI frame's VIC byte is the preset's VIC, as
   * `hdmi_get_vsync` reports it, whatever the picture-aspect macros are: the 4:3
   * test needs a 720x480 picture.
   */
  lemma AviVicIsPresetVic(k: LinkConsts, power: HdmiReg -> int, log: seq<HdmiWrite>, f: FrameHeader, fmt: Format,
                          preset: int, s: SyncInfo, c: CtrlInfo, vic: int)
    requires HeaderBytes(f) && f.kind == INFOFRAME_TYPE_AVI
    requires preset == PRESET_720P || preset == PRESET_1080P
    ensures var r := GetVsync(preset, s, c, Some(vic));
      var ws := RegInfoframeSpec(k, power, log, f, fmt, r.sync, r.vic);
      && Value(power, log + ws, PacketByte(Avi, 4)) == r.vic.value
      && (preset == PRESET_720P ==> r.vic.value == 4)
      && (preset == PRESET_1080P ==> r.vic.value == 16)
  {
    var r := GetVsync(preset, s, c, Some(vic));
    PresetVic(preset, s, c, vic);
    assert AviVic(k, r.sync, r.vic) == r.vic.value;
    AviFrameVic(k, power, log, f, fmt, r.sync, r.vic);
  }

  /** The CEA-861-D presets report their VIC and are not 720x480 pictures. */
  lemma PresetVic(preset: int, s: SyncInfo, c: CtrlInfo, vic: int)
    requires preset == PRESET_720P || preset == PRESET_1080P
    ensures var r := GetVsync(preset, s, c, Some(vic));
      && r.vic == Some(if preset == PRESET_720P then 4 else 16) && !ValidRatio43(r.sync)
  {
  }

  // ---------------------------------------------------------------------------
  // hdmi_infoframe_set
  // ---------------------------------------------------------------------------

  /** The AVI and audio headers `hdmi_infoframe_set` sends. */
  const AVI_HEADER := FrameHeader(INFOFRAME_TYPE_AVI, AVI_VERSION, AVI_LENGTH)
  const AUI_HEADER := FrameHeader(INFOFRAME_TYPE_AUDIO, AUI_VERSION, AUI_LENGTH)

  /** The format `hdmi_infoframe_set` fixes: 2D, every other field zero. */
  const FORMAT_2D := Format(VIDEO_FORMAT_2D, 0)

  /** `hdmi_infoframe_set(sync, preset_vic)`: the vendor frame stopped, then the AVI and audio frames. */
  function InfoframeSetSpec(k: LinkConsts, power: HdmiReg -> int, log: seq<HdmiWrite>,
                            s: SyncInfo, presetVic: Option<int>): seq<HdmiWrite>
  {
    var stop := [ByteWrite(PacketCon(Vsi), k.vsiConDoNotTransmit)];
    var avi := RegInfoframeSpec(k, power, log + stop, AVI_HEADER, FORMAT_2D, s, presetVic);
    var aui := RegInfoframeSpec(k, power, log + stop + avi, AUI_HEADER, FORMAT_2D, s, presetVic);
    stop + avi + aui
  }

  /** The three steps of `hdmi_infoframe_set` make up its writes. */
  lemma InfoframeSetChain(k: LinkConsts, power: HdmiReg -> int, log0: seq<HdmiWrite>, log1: seq<HdmiWrite>,
                          log2: seq<HdmiWrite>, log3: seq<HdmiWrite>, s: SyncInfo, presetVic: Option<int>)
    requires log1 == log0 + [ByteWrite(PacketCon(Vsi), k.vsiConDoNotTransmit)]
    requires log2 == log1 + RegInfoframeSpec(k, power, log1, AVI_HEADER, FORMAT_2D, s, presetVic)
    requires log3 == log2 + RegInfoframeSpec(k, power, log2, AUI_HEADER, FORMAT_2D, s, presetVic)
    ensures log3 == log0 + InfoframeSetSpec(k, power, log0, s, presetVic)
  {
    Concat3(log0, [ByteWrite(PacketCon(Vsi), k.vsiConDoNotTransmit)],
            RegInfoframeSpec(k, power, log1, AVI_HEADER, FORMAT_2D, s, presetVic),
            RegInfoframeSpec(k, power, log2, AUI_HEADER, FORMAT_2D, s, presetVic), log1, log2, log3);
  }

  /** `hdmi_stop_vsi`. */
  method StopVsi(h: HdmiLink)
    modifies h
    ensures h.log == old(h.log) + [ByteWrite(PacketCon(Vsi), h.k.vsiConDoNotTransmit)]
  {
    h.SetRegB(PacketCon(Vsi), h.k.vsiConDoNotTransmit);
  }

  /** `hdmi_infoframe_set(sync, preset_vic)`. */
  method InfoframeSet(h: HdmiLink, s: SyncInfo, presetVic: Option<int>)
    modifies h
    ensures h.log == old(h.log) + InfoframeSetSpec(h.k, h.power, old(h.log), s, presetVic)
  {
    ghost var log0 := h.log;
    // The format is fixed at 2D, so the vendor frame is always stopped rather than sent.
    StopVsi(h);
    ghost var log1 := h.log;
    RegInfoframe(h, AVI_HEADER, FORMAT_2D, s, presetVic);
    ghost var log2 := h.log;
    RegInfoframe(h, AUI_HEADER, FORMAT_2D, s, presetVic);
    InfoframeSetChain(h.k, h.power, log0, log1, log2, h.log, s, presetVic);
  }

  /** A frame's writes are its body's and the write of its checksum. */
  lemma FramedRegs(power: HdmiReg -> int, log: seq<HdmiWrite>, p: Packet, body: seq<HdmiWrite>, hdrSum: int, len: nat)
    ensures forall w | w in Framed(power, log, p, body, hdrSum, len) :: w in body || w.reg == CheckSum(p)
  {
  }

  lemma AviBodyRegs(k: LinkConsts, s: SyncInfo, presetVic: Option<int>)
    ensures forall w | w in AviBody(k, AVI_HEADER, s, presetVic) :: w.reg == PacketCon(Avi) || InFrame(w.reg, Avi)
  {
  }

  lemma AuiBodyRegs(k: LinkConsts)
    ensures forall w | w in AuiBody(k, AUI_HEADER) :: w.reg == PacketCon(Aui) || InFrame(w.reg, Aui)
  {
  }

  /** The AVI frame's writes name only AVI registers. */
  lemma AviFrameRegs(k: LinkConsts, power: HdmiReg -> int, log: seq<HdmiWrite>, s: SyncInfo, presetVic: Option<int>)
    ensures forall w | w in RegInfoframeSpec(k, power, log, AVI_HEADER, FORMAT_2D, s, presetVic) ::
      w.reg == PacketCon(Avi) || InFrame(w.reg, Avi)
  {
    var f := AVI_HEADER;
    RegInfoframeCases(k, power, log, f, FORMAT_2D, s, presetVic);
    AviBodyRegs(k, s, presetVic);
    FramedRegs(power, log, Avi, AviBody(k, f, s, presetVic), f.kind + f.version + f.length, f.length);
  }

  /** The audio frame's writes name only audio registers. */
  lemma AuiFrameRegs(k: LinkConsts, power: HdmiReg -> int, log: seq<HdmiWrite>, s: SyncInfo, presetVic: Option<int>)
    ensures forall w | w in RegInfoframeSpec(k, power, log, AUI_HEADER, FORMAT_2D, s, presetVic) ::
      w.reg == PacketCon(Aui) || InFrame(w.reg, Aui)
  {
    var f := AUI_HEADER;
    RegInfoframeCases(k, power, log, f, FORMAT_2D, s, presetVic);
    AuiBodyRegs(k);
    FramedRegs(power, log, Aui, AuiBody(k, f), f.kind + f.version + f.length, f.length);
  }

  /** Neither the AVI nor the audio frame writes the vendor frame's control register. */
  lemma AviLeavesVsiCon(k: LinkConsts, power: HdmiReg -> int, l1: seq<HdmiWrite>, s: SyncInfo, presetVic: Option<int>)
    ensures Last(RegInfoframeSpec(k, power, l1, AVI_HEADER, FORMAT_2D, s, presetVic), PacketCon(Vsi)).None?
  {
    AviFrameRegs(k, power, l1, s, presetVic);
    LastNone(RegInfoframeSpec(k, power, l1, AVI_HEADER, FORMAT_2D, s, presetVic), PacketCon(Vsi));
  }

  lemma AuiLeavesVsiCon(k: LinkConsts, power: HdmiReg -> int, l2: seq<HdmiWrite>, s: SyncInfo, presetVic: Option<int>)
    ensures Last(RegInfoframeSpec(k, power, l2, AUI_HEADER, FORMAT_2D, s, presetVic), PacketCon(Vsi)).None?
  {
    AuiFrameRegs(k, power, l2, s, presetVic);
    LastNone(RegInfoframeSpec(k, power, l2, AUI_HEADER, FORMAT_2D, s, presetVic), PacketCon(Vsi));
  }

  /** The audio frame's writes leave the AVI frame's registers, and its sum, as they were. */
  lemma AuiKeepsAvi(k: LinkConsts, power: HdmiReg -> int, l2: seq<HdmiWrite>, s: SyncInfo, presetVic: Option<int>)
    ensures var l3 := l2 + RegInfoframeSpec(k, power, l2, AUI_HEADER, FORMAT_2D, s, presetVic);
      && (forall r: HdmiReg | InFrame(r, Avi) :: Value(power, l3, r) == Value(power, l2, r))
      && FrameSum(power, l3, Avi, AVI_LENGTH) == FrameSum(power, l2, Avi, AVI_LENGTH)
  {
    var aui := RegInfoframeSpec(k, power, l2, AUI_HEADER, FORMAT_2D, s, presetVic);
    AuiFrameRegs(k, power, l2, s, presetVic);
    FrameSumMiss(power, l2, aui, Avi, AVI_LENGTH);
    forall r: HdmiReg | InFrame(r, Avi)
      ensures Value(power, l2 + aui, r) == Value(power, l2, r)
    {
      LastNone(aui, r);
      ValueAfter(power, l2, aui, r);
    }
  }

  /**
   * After `hdmi_infoframe_set` the vendor frame is stopped, and the AVI frame (version
   * 2, 13 payload bytes) and the audio frame (version 1, 10 payload bytes) each add up
   * to 0 modulo 256: the audio frame's writes leave the AVI frame's registers alone.
   */
  lemma InfoframeSetFrames(k: LinkConsts, power: HdmiReg -> int, log: seq<HdmiWrite>, s: SyncInfo, presetVic: Option<int>)
    ensures var log' := log + InfoframeSetSpec(k, power, log, s, presetVic);
      && Value(power, log', PacketCon(Vsi)) == k.vsiConDoNotTransmit % 256
      && Value(power, log', Header(Avi, 1)) == AVI_VERSION && Value(power, log', Header(Avi, 2)) == 13
      && Value(power, log', Header(Aui, 1)) == AUI_VERSION && Value(power, log', Header(Aui, 2)) == 10
      && FrameSum(power, log', Avi, AVI_LENGTH) % 256 == 0
      && FrameSum(power, log', Aui, AUI_LENGTH) % 256 == 0
  {
    var stop := [ByteWrite(PacketCon(Vsi), k.vsiConDoNotTransmit)];
    var l1 := log + stop;
    var avi := RegInfoframeSpec(k, power, l1, AVI_HEADER, FORMAT_2D, s, presetVic);
    var l2 := l1 + avi;
    var aui := RegInfoframeSpec(k, power, l2, AUI_HEADER, FORMAT_2D, s, presetVic);
    var l3 := l2 + aui;
    InfoframeSetChain(k, power, log, l1, l2, l3, s, presetVic);
    AviFrameSumsToZero(k, power, l1, AVI_HEADER, FORMAT_2D, s, presetVic);
    AuiFrameSumsToZero(k, power, l2, AUI_HEADER, FORMAT_2D, s, presetVic);
    AuiKeepsAvi(k, power, l2, s, presetVic);
    assert InFrame(Header(Avi, 1), Avi) && InFrame(Header(Avi, 2), Avi);
    AviLeavesVsiCon(k, power, l1, s, presetVic);
    AuiLeavesVsiCon(k, power, l2, s, presetVic);
    ValueAfter(power, l2, aui, PacketCon(Vsi));
    ValueAfter(power, l1, avi, PacketCon(Vsi));
    ValueAfter(power, log, stop, PacketCon(Vsi));
  }
}
