/**
 * The arithmetic of the S5Pxx18 HDMI bring-up: the timing of each display preset,
 * the values derived from it for the display top and the HDMI link, the InfoFrame
 * checksum byte and the audio clock regeneration parameters.
 */
module HdmiTiming {
  import opened Wrappers
  import opened CTypes

  /** The presets of `enum NXP_HDMI_PRESET`. */
  const PRESET_720P := 0
  const PRESET_1080P := 1
  const PRESET_1920X720P := 2

  predicate ValidPreset(preset: int) {
    preset == PRESET_720P || preset == PRESET_1080P || preset == PRESET_1920X720P
  }

  /** The fields of `struct dp_sync_info` that the HDMI driver reads or writes. */
  datatype SyncInfo = SyncInfo(
    hActive: int, hSyncWidth: int, hBackPorch: int, hFrontPorch: int, hSyncInvert: int,
    vActive: int, vSyncWidth: int, vBackPorch: int, vFrontPorch: int, vSyncInvert: int,
    pixelClockHz: int)

  /** The fields of `struct dp_ctrl_info` that `hdmi_get_vsync` sets to numbers. */
  datatype CtrlInfo = CtrlInfo(
    clkSrcLv0: int, clkDivLv0: int, clkSrcLv1: int, clkDivLv1: int,
    dRgbPvd: int, dHsyncCp1: int, dVsyncFram: int, dDeCp2: int,
    vsStartOffset: int, vsEndOffset: int, evStartOffset: int, evEndOffset: int)

  /** Pixels per line and lines per frame, blanking included. */
  function HTotal(s: SyncInfo): int {
    s.hActive + s.hFrontPorch + s.hSyncWidth + s.hBackPorch
  }

  function VTotal(s: SyncInfo): int {
    s.vActive + s.vFrontPorch + s.vSyncWidth + s.vBackPorch
  }

  // ---------------------------------------------------------------------------
  // Reference: the video formats of CEA-861-D, section 4
  // ---------------------------------------------------------------------------

  /** A progressive video format as CEA-861-D tabulates it, totals and pixel clock included. */
  datatype CeaFormat = CeaFormat(
    hActive: int, hFront: int, hSync: int, hBack: int, hTotal: int,
    vActive: int, vFront: int, vSync: int, vBack: int, vTotal: int,
    pixelClockKHz: int, refreshHz: int)

  /** The formats of the two video identification codes the driver sends. */
  function CeaFormatOf(vic: int): Option<CeaFormat> {
    if vic == 4 then Some(CeaFormat(1280, 110, 40, 220, 1650, 720, 5, 5, 20, 750, 74250, 60))
    else if vic == 16 then Some(CeaFormat(1920, 88, 44, 148, 2200, 1080, 4, 5, 36, 1125, 148500, 60))
    else None
  }

  /** `s` has the active size, porches, sync widths and totals of `f`, with both syncs not inverted. */
  predicate Matches(s: SyncInfo, f: CeaFormat) {
    && s.hActive == f.hActive && s.hFrontPorch == f.hFront && s.hSyncWidth == f.hSync
    && s.hBackPorch == f.hBack && HTotal(s) == f.hTotal
    && s.vActive == f.vActive && s.vFrontPorch == f.vFront && s.vSyncWidth == f.vSync
    && s.vBackPorch == f.vBack && VTotal(s) == f.vTotal
    && s.hSyncInvert == 0 && s.vSyncInvert == 0
  }

  // ---------------------------------------------------------------------------
  // hdmi_get_vsync
  // ---------------------------------------------------------------------------

  /** The sync record each preset writes; every other field of `s` is kept. */
  function PresetSync(preset: int, s: SyncInfo): SyncInfo
    requires ValidPreset(preset)
  {
    if preset == PRESET_720P then
      s.(hActive := 1280, hSyncWidth := 40, hBackPorch := 220, hFrontPorch := 110, hSyncInvert := 0,
         vActive := 720, vSyncWidth := 5, vBackPorch := 20, vFrontPorch := 5, vSyncInvert := 0)
    else if preset == PRESET_1080P then
      s.(hActive := 1920, hSyncWidth := 44, hBackPorch := 148, hFrontPorch := 88, hSyncInvert := 0,
         vActive := 1080, vSyncWidth := 5, vBackPorch := 36, vFrontPorch := 4, vSyncInvert := 0)
    else
      s.(hActive := 1920, hSyncWidth := 40, hBackPorch := 44, hFrontPorch := 44, hSyncInvert := 0,
         vActive := 720, vSyncWidth := 2, vBackPorch := 4, vFrontPorch := 4, vSyncInvert := 0)
  }

  /** What `hdmi_get_vsync` leaves behind: its result and its three out-parameters. */
  datatype VsyncOut = VsyncOut(ret: int, sync: SyncInfo, ctrl: CtrlInfo, vic: Option<int>)

  /**
   * `hdmi_get_vsync(preset, sync, ctrl, vic)`; `vic` is `None` for a NULL pointer and
   * otherwise the byte it points to.
   */
  function GetVsync(preset: int, s: SyncInfo, c: CtrlInfo, vic: Option<int>): (r: VsyncOut)
    ensures r.ret == 0 <==> ValidPreset(preset)
    ensures r.ret != 0 ==> r == VsyncOut(-EINVAL, s, c, vic)
    ensures r.ret == 0 ==>
      && r.ctrl.vsStartOffset == HTotal(r.sync) - 1 && r.ctrl.evStartOffset == HTotal(r.sync) - 1
      && r.ctrl.vsEndOffset == 0 && r.ctrl.evEndOffset == 0
    ensures r.sync.pixelClockHz == s.pixelClockHz
    ensures r.vic.Some? <==> vic.Some?
    ensures preset == PRESET_1920X720P ==> r.vic == vic
  {
    if !ValidPreset(preset) then VsyncOut(-EINVAL, s, c, vic)
    else
      var sync := PresetSync(preset, s);
      var start := sync.hFrontPorch + sync.hSyncWidth + sync.hBackPorch + sync.hActive - 1;
      var ctrl := c.(clkSrcLv0 := 4, clkDivLv0 := 1, clkSrcLv1 := 7, clkDivLv1 := 1,
                     dRgbPvd := 0, dHsyncCp1 := 0, dVsyncFram := 0, dDeCp2 := 7,
                     vsStartOffset := start, vsEndOffset := 0,
                     evStartOffset := start, evEndOffset := 0);
      var code :=
        if vic.None? then vic
        else if preset == PRESET_720P then Some(4)
        else if preset == PRESET_1080P then Some(16)
        else vic;
      VsyncOut(0, sync, ctrl, code)
  }

  /**
   * The 720p and 1080p presets are the CEA-861-D formats of the code they report:
   * 1280x720p60 (VIC 4) and 1920x1080p60 (VIC 16).
   */
  lemma GetVsyncIsCeaFormat(preset: int, s: SyncInfo, c: CtrlInfo, vic: int)
    requires preset == PRESET_720P || preset == PRESET_1080P
    ensures var r := GetVsync(preset, s, c, Some(vic));
      && r.vic.Some? && CeaFormatOf(r.vic.value).Some?
      && Matches(r.sync, CeaFormatOf(r.vic.value).value)
  {
  }

  /** The 1920x720 preset has no CEA-861-D code: the caller's byte is left as it was. */
  lemma GetVsync1920x720(s: SyncInfo, c: CtrlInfo, vic: Option<int>)
    ensures var r := GetVsync(PRESET_1920X720P, s, c, vic);
      && r.vic == vic && HTotal(r.sync) == 2048 && VTotal(r.sync) == 730
      && r.sync.hActive == 1920 && r.sync.vActive == 720
  {
  }

  // ---------------------------------------------------------------------------
  // hdmi_vsync: the display-top sync window
  // ---------------------------------------------------------------------------

  /** The five numbers `hdmi_vsync` hands to the display top. */
  datatype TopSync = TopSync(vSyncStart: int, hActiveStart: int, hActiveEnd: int, hsStart: int, hsEnd: int)

  function TopSyncOf(s: SyncInfo): (t: TopSync)
    ensures t.hActiveEnd == HTotal(s) - s.hFrontPorch
    ensures t.hActiveEnd - t.hActiveStart == s.hActive
    ensures t.vSyncStart == VTotal(s) - s.vFrontPorch - 1
    ensures t.hsStart == t.hActiveStart + 1 && t.hsEnd == t.hsStart + 1
  {
    var width := s.hActive;
    var hsw := s.hSyncWidth;
    var hbp := s.hBackPorch;
    TopSync(s.vSyncWidth + s.vBackPorch + s.vActive - 1, hsw + hbp, width + hsw + hbp,
            hsw + hbp + 1, hsw + hbp + 2)
  }

  // ---------------------------------------------------------------------------
  // hdmi_prepare: the timing values of the HDMI link
  // ---------------------------------------------------------------------------

  const U32_MOD := 0x1_0000_0000

  /** A C value stored in a `u32`: reduced modulo 2^32. */
  function U32(x: int): (r: int)
    ensures 0 <= r < U32_MOD
    ensures 0 <= x < U32_MOD ==> r == x
  {
    x % U32_MOD
  }

  /** The `u32` locals of `hdmi_prepare`. */
  datatype LinkTiming = LinkTiming(
    hBlank: int, vBlank: int, v2Blank: int, vLine: int, hLine: int,
    hSyncStart: int, hSyncEnd: int, vSyncBef1: int, vSyncBef2: int)

  /** Every timing field is below 0x4000, so every sum `hdmi_prepare` forms fits 16 bits. */
  predicate Timing16(s: SyncInfo) {
    && 0 <= s.hActive < 0x4000 && 0 <= s.hSyncWidth < 0x4000
    && 0 <= s.hBackPorch < 0x4000 && 0 <= s.hFrontPorch < 0x4000
    && 0 <= s.vActive < 0x4000 && 0 <= s.vSyncWidth < 0x4000
    && 0 <= s.vBackPorch < 0x4000 && 0 <= s.vFrontPorch < 0x4000
  }

  function PrepareTiming(s: SyncInfo): (t: LinkTiming)
    ensures 0 <= t.hBlank < U32_MOD && 0 <= t.vBlank < U32_MOD && 0 <= t.v2Blank < U32_MOD
    ensures 0 <= t.vLine < U32_MOD && 0 <= t.hLine < U32_MOD
    ensures 0 <= t.hSyncStart < U32_MOD && 0 <= t.hSyncEnd < U32_MOD
    ensures 0 <= t.vSyncBef1 < U32_MOD && 0 <= t.vSyncBef2 < U32_MOD
    ensures Timing16(s) ==>
      && t.hLine == HTotal(s) && t.vLine == VTotal(s) && t.v2Blank == t.vLine
      && t.hBlank == HTotal(s) - s.hActive && t.vBlank == VTotal(s) - s.vActive
      && t.hSyncStart == s.hFrontPorch && t.hSyncEnd - t.hSyncStart == s.hSyncWidth
      && t.vSyncBef1 == s.vFrontPorch && t.vSyncBef2 - t.vSyncBef1 == s.vSyncWidth
      && t.hLine < 0x10000 && t.vLine < 0x10000 && t.hSyncEnd < 0x10000 && t.vSyncBef2 < 0x10000
  {
    var width := s.hActive;
    var hsw := s.hSyncWidth;
    var hfp := s.hFrontPorch;
    var hbp := s.hBackPorch;
    var height := s.vActive;
    var vsw := s.vSyncWidth;
    var vfp := s.vFrontPorch;
    var vbp := s.vBackPorch;
    LinkTiming(
      U32(hfp + hsw + hbp), U32(vfp + vsw + vbp), U32(height + vfp + vsw + vbp),
      U32(height + vfp + vsw + vbp), U32(width + hfp + hsw + hbp),
      U32(hfp), U32(hfp + hsw), U32(vfp), U32(vfp + vsw))
  }

  /** The low byte a 16-bit value is written as: `x % 256`. */
  function LowByte(x: int): int { x % 256 }

  /** The high byte a 16-bit value is written as: `x >> 8` of a `u32`. */
  function HighByte(x: int): int { x / 256 }

  /** The byte pair gives the value back whenever it fits 16 bits. */
  lemma ByteSplit(x: int)
    requires 0 <= x
    ensures 0 <= LowByte(x) < 256 && 0 <= HighByte(x)
    ensures LowByte(x) + 256 * HighByte(x) == x
    ensures x < 0x10000 ==> HighByte(x) < 256
  {
  }

  /** `H_SYNC_START_0` and `H_SYNC_END_0` take the low byte minus two, in `u32` arithmetic. */
  function SyncLowByte(x: int): (b: int)
    requires 0 <= x
    ensures LowByte(x) >= 2 ==> b == LowByte(x) - 2
    ensures LowByte(x) < 2 ==> b == U32_MOD - 2 + LowByte(x)
  {
    U32(x % 256 - 2)
  }

  /** The blanking and line totals of the three presets; for 720p 370, 1650 and 750. */
  lemma PresetLinkTiming(preset: int, s: SyncInfo)
    requires ValidPreset(preset)
    ensures var t := PrepareTiming(PresetSync(preset, s));
      && (preset == PRESET_720P ==>
            t == LinkTiming(370, 30, 750, 750, 1650, 110, 150, 5, 10))
      && (preset == PRESET_1080P ==>
            t == LinkTiming(280, 45, 1125, 1125, 2200, 88, 132, 4, 9))
      && (preset == PRESET_1920X720P ==>
            t == LinkTiming(128, 10, 730, 730, 2048, 44, 84, 4, 6))
  {
  }

  /** No preset makes the "minus two" of the sync-start and sync-end bytes wrap around. */
  lemma PresetSyncBytes(preset: int, s: SyncInfo)
    requires ValidPreset(preset)
    ensures var t := PrepareTiming(PresetSync(preset, s));
      && LowByte(t.hSyncStart) >= 2 && LowByte(t.hSyncEnd) >= 2
      && HighByte(t.hSyncStart) == 0 && HighByte(t.hSyncEnd) == 0
  {
  }

  /** The display-top window of the three presets. */
  lemma PresetTopSync(preset: int, s: SyncInfo)
    requires ValidPreset(preset)
    ensures var t := TopSyncOf(PresetSync(preset, s));
      && (preset == PRESET_720P ==> t == TopSync(744, 260, 1540, 261, 262))
      && (preset == PRESET_1080P ==> t == TopSync(1120, 192, 2112, 193, 194))
      && (preset == PRESET_1920X720P ==> t == TopSync(725, 84, 2004, 85, 86))
  {
  }

  // ---------------------------------------------------------------------------
  // The PHY tables
  // ---------------------------------------------------------------------------

  /** `hdmiphy_preset_74_25`, `hdmiphy_preset_148_5` and `hdmiphy_preset_83_5`. */
  const PHY_74_25: seq<int> := [
    0xd1, 0x1f, 0x10, 0x40, 0x40, 0xf8, 0xc8, 0x81,
    0xe8, 0xba, 0xd8, 0x45, 0xa0, 0xac, 0x80, 0x08,
    0x80, 0x09, 0x84, 0x05, 0x22, 0x24, 0x86, 0x54,
    0xa5, 0x24, 0x01, 0x00, 0x00, 0x01, 0x80, 0x10]

  const PHY_148_5: seq<int> := [
    0xd1, 0x1f, 0x00, 0x40, 0x40, 0xf8, 0xc8, 0x81,
    0xe8, 0xba, 0xd8, 0x45, 0xa0, 0xac, 0x80, 0x08,
    0x80, 0x09, 0x84, 0x05, 0x22, 0x24, 0x86, 0x54,
    0x4b, 0x25, 0x03, 0x00, 0x00, 0x01, 0x80, 0x10]

  const PHY_83_5: seq<int> := [
    0xd1, 0x23, 0x11, 0x40, 0x0c, 0xfb, 0xc8, 0x85,
    0xe8, 0xd1, 0xd8, 0x45, 0xa0, 0xac, 0x80, 0x08,
    0x80, 0x09, 0x84, 0x05, 0x22, 0x24, 0x86, 0x54,
    0x93, 0x24, 0x01, 0x00, 0x00, 0x01, 0x80, 0x10]

  /** A PHY table, the TMDS clock its name gives, in kHz, and how many of its entries are written. */
  datatype PhyPreset = PhyPreset(clockKHz: int, table: seq<int>, size: int)

  /** The table `hdmi_phy_enable` selects; `None` for a preset it rejects. */
  function PhyPresetOf(preset: int): (p: Option<PhyPreset>)
    ensures p.Some? <==> ValidPreset(preset)
    ensures p.Some? ==> |p.value.table| == 32 && 0 < p.value.size <= 32
    ensures p.Some? ==> p.value.table[30] == 0x80
    ensures preset == PRESET_1080P ==> p.value.size == 31
    ensures preset == PRESET_720P || preset == PRESET_1920X720P ==> p.value.size == 32
  {
    if preset == PRESET_720P then Some(PhyPreset(74250, PHY_74_25, 32))
    else if preset == PRESET_1080P then Some(PhyPreset(148500, PHY_148_5, 31))
    else if preset == PRESET_1920X720P then Some(PhyPreset(83500, PHY_83_5, 32))
    else None
  }

  /**
   * For the two CEA-861-D presets the PHY clock is the format's pixel clock, and it
   * is the line and frame totals that `hdmi_get_vsync` sets at 60 frames a second.
   */
  lemma PhyClockMatchesTiming(preset: int, s: SyncInfo, c: CtrlInfo, vic: int)
    requires preset == PRESET_720P || preset == PRESET_1080P
    ensures var r := GetVsync(preset, s, c, Some(vic));
      && r.vic.Some? && CeaFormatOf(r.vic.value).Some?
      && PhyPresetOf(preset).value.clockKHz == CeaFormatOf(r.vic.value).value.pixelClockKHz
      && PhyPresetOf(preset).value.clockKHz * 1000 == HTotal(r.sync) * VTotal(r.sync) * 60
  {
  }

  // ---------------------------------------------------------------------------
  // The InfoFrame checksum byte
  // ---------------------------------------------------------------------------

  /**
   * `(u8)(0x100 - (sum & 0xff))`: the byte that brings the sum of an InfoFrame's bytes
   * to 0 modulo 256 (section 5.3.5 of HDMI 1.4b).
   */
  function ChecksumByte(sum: int): (c: int)
    ensures 0 <= c < 256
    ensures (sum + c) % 256 == 0
    ensures c == 0 <==> sum % 256 == 0
  {
    (0x100 - sum % 256) % 256
  }

  // ---------------------------------------------------------------------------
  // Audio clock regeneration and the S/PDIF input
  // ---------------------------------------------------------------------------

  /** The N and CTS `hdmi_set_acr` picks for a sample rate. */
  datatype AcrParams = AcrParams(n: int, cts: int)

  const TMDS_27MHZ := 27000000

  /**
   * The N/CTS pair of a sample rate: the pairs of section 7.2.1 of HDMI 1.4b for a
   * 27 MHz TMDS clock (128 * fs * CTS == fTMDS * N), with N inside the range that
   * section allows (128 * fs / 1500 <= N <= 128 * fs / 300); 0 and 0 for any other rate.
   */
  function AcrFor(rate: int): (p: AcrParams)
    ensures p.n != 0 <==> rate in {32000, 44100, 48000, 88200, 96000, 176400, 192000}
    ensures p.n == 0 <==> p.cts == 0
    ensures p.n != 0 ==> 128 * rate * p.cts == TMDS_27MHZ * p.n
    ensures p.n != 0 ==> 300 * p.n <= 128 * rate <= 1500 * p.n
    ensures p.n != 0 && rate % 1000 == 0 ==> 1000 * p.n == 128 * rate
    ensures p.n != 0 && rate % 1000 != 0 ==> 900 * p.n == 128 * rate
  {
    if rate == 32000 then AcrParams(4096, 27000)
    else if rate == 44100 then AcrParams(6272, 30000)
    else if rate == 48000 then AcrParams(6144, 27000)
    else if rate == 88200 then AcrParams(12544, 30000)
    else if rate == 96000 then AcrParams(12288, 27000)
    else if rate == 176400 then AcrParams(25088, 30000)
    else if rate == 192000 then AcrParams(24576, 27000)
    else AcrParams(0, 0)
  }

  /** Doubling a supported rate of the 44.1 kHz or 48 kHz family doubles N and keeps CTS. */
  lemma AcrDoubles(rate: int)
    requires rate in {44100, 48000, 88200, 96000}
    ensures AcrFor(2 * rate).n == 2 * AcrFor(rate).n
    ensures AcrFor(2 * rate).cts == AcrFor(rate).cts
  {
  }

  /** `enum HDMI_AUDIO_CODEC`. */
  const AUDIO_PCM := 0
  const AUDIO_AC3 := 1
  const AUDIO_MP3 := 2

  /** Samples in one AC-3 frame. */
  const AC3_FRAME_SAMPLES := 1536

  /** The `bps` and `rep_time` locals of `hdmi_spdif_init`. */
  datatype SpdifParams = SpdifParams(bitsPerSample: int, repetitionTime: int)

  function SpdifFor(codec: int, bits: int): (p: SpdifParams)
    ensures codec == AUDIO_PCM ==> p.bitsPerSample == bits
    ensures codec != AUDIO_PCM ==> p.bitsPerSample == 16
    ensures p.repetitionTime != 0 <==> codec == AUDIO_AC3
    ensures codec == AUDIO_AC3 ==> p.repetitionTime + 1 == 2 * AC3_FRAME_SAMPLES
  {
    SpdifParams(if codec == AUDIO_PCM then bits else 16,
                if codec == AUDIO_AC3 then AC3_FRAME_SAMPLES * 2 - 1 else 0)
  }

  /** `hdmi_audio_init`'s defaults: 48 kHz, 16-bit PCM. */
  const DEFAULT_SAMPLE_RATE := 48000
  const DEFAULT_BITS_PER_SAMPLE := 16
  const DEFAULT_AUDIO_CODEC := AUDIO_PCM

  /** With the defaults, N is 6144 and the S/PDIF input takes 16-bit words without bursts. */
  lemma AudioInitDefaults()
    ensures AcrFor(DEFAULT_SAMPLE_RATE) == AcrParams(6144, 27000)
    ensures SpdifFor(DEFAULT_AUDIO_CODEC, DEFAULT_BITS_PER_SAMPLE) == SpdifParams(16, 0)
  {
  }
}
