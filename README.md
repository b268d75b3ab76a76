# AXP228 PMIC, AXP228 charger and S5Pxx18 HDMI bring-up, modelled in Dafny

This project models three register-programming drivers of a Nexell U-Boot tree and proves what they do to their hardware.

- **AXP228 PMIC core** (`drivers/power/pmic/axp228.c`):
  - byte reads and writes over I2C, which return `-EIO` when the bus fails;
  - the conditional read-modify-write helpers `axp228_set_bits`, `axp228_clr_bits` and `axp228_update`;
  - the interrupt-table initialisation `axp228_init_chip`;
  - the optional-property programming in `axp228_device_setup`;
  - `axp228_probe`, which runs the two.
- **AXP228 charger** (`drivers/power/charger/axp228.c`):
  - the ADC unit conversions;
  - the charge-current and input-limit codecs;
  - USB limit and charger-type detection;
  - the voltage and gauge readings;
  - `axp228_chg_probe`, which folds an optional-property record into POK_SET, OFF_CTL, IPS_SET, CHARGE1/3, the warning level, the OCV table, RDC and the full-capacity counter;
  - the OCV-table parsing of `axp228_chg_ofdata_to_platdata`.
- **S5Pxx18 HDMI** (`drivers/video/nexell/s5pxx18_dp_hdmi.c`):
  - preset to sync record and VIC (`hdmi_get_vsync`);
  - PHY table programming (`hdmi_phy_enable`) and the ready poll (`hdmi_wait_phy_ready`);
  - the display-top window (`hdmi_vsync`);
  - the link timing registers (`hdmi_prepare`);
  - InfoFrames and their checksum (`hdmi_chksum`, `hdmi_reg_infoframe`, `hdmi_infoframe_set`);
  - audio clock regeneration (`hdmi_set_acr`) and the S/PDIF arithmetic;
  - the control flow and error paths of `hdmi_setup`.

## How the hardware is modelled

**The PMIC** is a class `Axp228Device.Axp228`. Its fields are:
- `regs`: 256 bytes (`bv8`);
- `writes`: the log of every write attempted;
- `faults`: the register addresses whose reads or writes fail on the bus.

A read that fails returns `-EIO` and leaves the caller's buffer as it was. This matters because the charger probe reuses a stale buffer.

Every state-changing operation is a method. Its `ensures` ties the return value and the new state to a function of the old state, for example `SetBitsSpec` or `ProbeSpec`. The lemmas about those functions carry the properties.

**The HDMI block** is a class `HdmiRegs.HdmiLink`. Its fields are:
- `log`: the log of register writes;
- `power`: the value each register holds before any write;
- `k`: the header constants that are not part of this model.

`nx_hdmi_get_reg` returns the last value written to the register, or `power` if nothing was written. The PHY status is a parameter, `status(j)`, the value of the j-th poll.

Several register offsets and macro values sit in headers that are not part of this model:
- the link register offsets become datatype constructors. Distinct constructors stand for distinct registers;
- the PHY registers are numbered by their names: `HDMI_PHY_REG04` is PHY offset 0x04, `REG24` is 0x24 and `REG7C` is 0x7C, so table entry *i* lands on `0x04 + 4i`;
- `HDMI_ACR_N*_VAL`, the `*_CON_*` codes and the picture-aspect constants become fields of `LinkConsts`. Every property is proved for all values of them.

Payload byte *i* of a packet is register `BYTE01 + 4(i-1)`, the layout `hdmi_chksum` walks.

**Optional properties** are `Option<int>`. A device-tree value equal to `-ENODATA` reads as absent, as `fdtdec_get_int` with that default makes it.

**C arithmetic** is written out explicitly:
- truncating division: `CTypes.CDiv`;
- assignment to a byte: `CTypes.Low8`, modulo 256;
- `u32` arithmetic: `HdmiTiming.U32`, modulo 2^32.

**Quirks.** The model keeps the source's quirks and states each one as a lemma:
- `axp228_update` always writes when `val` has bits outside `mask`;
- the `voff_set` branch programs `freq_spread_en`;
- `AXP228_OFF_CTL` and `AXP228_PDBC` are the same address;
- the RDC step tests bit 6 but sets bit 7, so it rewrites RDC on every probe;
- a `pek_delay` from -7 to 7 sets every bit of OFF_CTL;
- the ACR CTS is computed but never written;
- `hdmi_phy_enable(preset, 0)` does nothing.

## Model

| member | source | states |
|---|---|---|
| CTypes.CDiv | drivers/power/charger/axp228.c:390-393 | C's `/` on `int`: it agrees with Euclidean division on non-negative operands and rounds negative quotients toward zero, so any dividend strictly between `-b` and `b` gives 0, as in `pek_delay / 8`. |
| CTypes.Raw | drivers/power/pmic/axp228.c:199-201 | What the driver sees for an optional property: its value when present, `-ENODATA` when absent. |
| CTypes.Clamp | drivers/power/charger/axp228.c:349-357 | The clamp the `pek_long`/`pek_off` branches apply: the result lies in `[lo, hi]`, equals `x` inside the range and the nearer bound outside it. |
| Axp228Device.ReadSpec | drivers/power/pmic/axp228.c:56-64 | A read returns 0 iff the bus does not fail at that register, and then yields the register's byte. On failure it returns `-EIO` with the caller's buffer unchanged. |
| Axp228Device.WriteSpec | drivers/power/pmic/axp228.c:45-54 | A write returns 0 iff the bus does not fail. Only a successful write changes the register, and every attempt is logged. |
| Axp228Device.ClrSetBitsSpec | drivers/power/charger/axp228.c:247 | `pmic_clrsetbits`, assumed: a failed read returns `-EIO` and writes nothing. Otherwise it writes `(v & ~clr) \| set`, with no write suppression. |
| Axp228Device.Axp228.Read | drivers/power/pmic/axp228.c:56-64 | The method returns exactly what `ReadSpec` gives, either 0 or `-EIO`. |
| Axp228Device.Axp228.Write | drivers/power/pmic/axp228.c:45-54 | The new chip state and the result are exactly `WriteSpec` of the old state. |
| Axp228Device.ClrSetBits | drivers/power/charger/axp228.c:247 | The method performs `ClrSetBitsSpec`. |
| Axp228Pmic.SetBitsSpec | drivers/power/pmic/axp228.c:66-80 | A failed read returns `-EIO` and writes nothing. If every mask bit is already set, the call succeeds with no write. Otherwise it makes exactly one write, of the byte with the mask bits set. Only that register can change. |
| Axp228Pmic.ClrBitsSpec | drivers/power/pmic/axp228.c:82-96 | A failed read returns `-EIO` and writes nothing. If no mask bit is set, the call succeeds with no write. Otherwise it makes exactly one write, of the byte with the mask cleared. Only that register can change. |
| Axp228Pmic.UpdateSpec | drivers/power/pmic/axp228.c:98-113 | A failed read returns `-EIO` and writes nothing. If `(v & mask) == val`, there is no write. Otherwise it makes exactly one write of `(v & ~mask) \| val`. Only that register can change. |
| Axp228Pmic.SetBitsEffect | drivers/power/pmic/axp228.c:66-80 | After success every bit of the mask is set and every other bit is as it was. |
| Axp228Pmic.ClrBitsEffect | drivers/power/pmic/axp228.c:82-96 | After success no bit of the mask is set and every other bit is as it was. |
| Axp228Pmic.UpdateEffect | drivers/power/pmic/axp228.c:98-113 | When `val` lies inside `mask`, the field holds `val` after success and the bits outside the mask are unchanged. |
| Axp228Pmic.SetBitsIdempotent | drivers/power/pmic/axp228.c:75-78 | A second `set_bits` after a successful first one writes nothing and changes nothing. |
| Axp228Pmic.ClrBitsIdempotent | drivers/power/pmic/axp228.c:91-94 | A second `clr_bits` after a successful first one writes nothing and changes nothing. |
| Axp228Pmic.UpdateIdempotent | drivers/power/pmic/axp228.c:108-111 | With `val` inside `mask`, a second `update` writes nothing. Two calls issue at most one write. |
| Axp228Pmic.FieldNeverMatches | drivers/power/pmic/axp228.c:108 | If `val` has a bit outside `mask`, the comparison `(v & mask) != val` is always true. |
| Axp228Pmic.UpdateAlwaysWritesOutsideMask | drivers/power/pmic/axp228.c:108-111 | The `update` quirk: with a bit of `val` outside `mask`, every call writes `(v & ~mask) \| val`, even when the register already holds it. |
| Axp228Pmic.SetBits | drivers/power/pmic/axp228.c:66-80 | The method's result and new state are `SetBitsSpec`. |
| Axp228Pmic.ClrBits | drivers/power/pmic/axp228.c:82-96 | The method's result and new state are `ClrBitsSpec`. |
| Axp228Pmic.Update | drivers/power/pmic/axp228.c:98-113 | The method's result and new state are `UpdateSpec`. |
| Axp228Pmic.FirstFail | drivers/power/pmic/axp228.c:170-176 | Gives the index of the first table entry whose write fails, with every earlier write succeeding. It gives the table length if none fails. |
| Axp228Pmic.WriteSeqEffect | drivers/power/pmic/axp228.c:170-176 | A write loop that returns on the first error succeeds iff no write fails. Its log holds the writes up to and including the failing one. The registers hold the effect of the writes before it. |
| Axp228Pmic.IrqTableDistinct | drivers/power/pmic/axp228.c:148-159 | The ten interrupt-table entries name ten different registers. |
| Axp228Pmic.InitChipSpec | drivers/power/pmic/axp228.c:144-179 | A failed chip-id read returns the error before any interrupt register is written. Otherwise the call is the table write loop. |
| Axp228Pmic.InitChipEffect | drivers/power/pmic/axp228.c:144-179 | `init_chip` returns 0 or `-EIO`. It returns 0 iff the id read and all ten writes succeed. The writes follow table order up to the first failure. After success each INTEN/INTSTS register holds its table value and every other register is unchanged. |
| Axp228Pmic.InitChip | drivers/power/pmic/axp228.c:144-179 | The loop method's result and new state are `InitChipSpec`. |
| Axp228Pmic.FreqSetValue | drivers/power/pmic/axp228.c:192-195 | The DCDC_FREQSET byte has the spread enable in bit 7, the spread frequency in bit 6, poly-phase in bits 5:4 and the switching frequency in bits 3:0, each read back from its field. |
| Axp228Pmic.HotOverValue | drivers/power/pmic/axp228.c:214-220 | The HOTOVER_CTL byte has bit 0 always set and bit 1 clear. Its six flags can be read back from bits 7 to 2. |
| Axp228Pmic.FreqSetStep | drivers/power/pmic/axp228.c:187-197 | The frequency step writes DCDC_FREQSET once, with the composite byte, iff all four properties are present. Otherwise it writes nothing. |
| Axp228Pmic.VoffStep | drivers/power/pmic/axp228.c:199-201 | The voff step writes at most once, to VOFF_SET only, and does nothing when `voff_set` is absent. |
| Axp228Pmic.AdcStep | drivers/power/pmic/axp228.c:203-205 | The ADC step writes at most once, to ADC_CONTROL3 only, and does nothing when `adc_control3` is absent. |
| Axp228Pmic.HotOverStep | drivers/power/pmic/axp228.c:207-222 | The over-temperature step writes HOTOVER_CTL once iff all six properties are present. Otherwise it writes nothing. |
| Axp228Pmic.DeviceSetupFreqSet | drivers/power/pmic/axp228.c:187-197 | Over the whole setup: when all four frequency properties are present, the first write is DCDC_FREQSET with their byte. Otherwise DCDC_FREQSET is never written. |
| Axp228Pmic.DeviceSetupHotOver | drivers/power/pmic/axp228.c:207-222 | When all six properties are present, the last write is HOTOVER_CTL with bit 0 set. Otherwise HOTOVER_CTL is never written. |
| Axp228Pmic.DeviceSetupVoff | drivers/power/pmic/axp228.c:199-201 | The quirk: with `voff_set` present on a working bus, the low three bits of VOFF_SET end up holding `freq_spread_en`. |
| Axp228Pmic.DeviceSetupVoffIgnored | drivers/power/pmic/axp228.c:199-201 | The value of `voff_set` has no effect; only its presence matters. |
| Axp228Pmic.DeviceSetupNothing | drivers/power/pmic/axp228.c:181-226 | With no property present, the setup writes nothing and reports success. |
| Axp228Pmic.DeviceSetupLastStatus | drivers/power/pmic/axp228.c:221-225 | The status reflects only the last step: a successful HOTOVER_CTL write hides any earlier failure. |
| Axp228Pmic.DeviceSetup | drivers/power/pmic/axp228.c:181-226 | The method's new state is the composed setup, and it reports failure iff the last step's status is non-zero. |
| Axp228Pmic.Probe | drivers/power/pmic/axp228.c:228-247 | The PMIC probe always returns 0. Its state is device setup followed by `init_chip`. |
| Axp228ChargerCodec.AdcCode | drivers/power/charger/axp228.c:57-60 | The 12-bit sample `((reg>>8)<<4) \| (reg&0xF)` is below 4096. Its upper 8 bits are the register's high byte and its low 4 bits the low nibble. |
| Axp228ChargerCodec.AdcScaled | drivers/power/charger/axp228.c:57-92 | The sample times `perMille` divided by 1000, truncated: the largest `r` with `1000r <= sample*perMille`. |
| Axp228ChargerCodec.VbatToMv | drivers/power/charger/axp228.c:57-60 | Battery voltage at 1.1 mV per step, truncated, in 0..4504 mV. |
| Axp228ChargerCodec.OcvbatToMv | drivers/power/charger/axp228.c:62-65 | Open-circuit voltage at 1.1 mV per step, in 0..4504 mV. |
| Axp228ChargerCodec.VdcToMv | drivers/power/charger/axp228.c:68-71 | Input voltage at 1.7 mV per step, in 0..6961 mV. |
| Axp228ChargerCodec.IbatToMa | drivers/power/charger/axp228.c:74-77 | Discharge current at 1 mA per step, in 0..4095 mA. |
| Axp228ChargerCodec.IchargeToMa | drivers/power/charger/axp228.c:79-82 | Charge current at 1 mA per step, in 0..4095 mA. |
| Axp228ChargerCodec.IacToMa | drivers/power/charger/axp228.c:84-87 | Adapter current at 0.625 mA per step, in 0..2559 mA. |
| Axp228ChargerCodec.IusbToMa | drivers/power/charger/axp228.c:89-92 | USB current at 0.375 mA per step, in 0..1535 mA. |
| Axp228ChargerCodec.CurrentCode | drivers/power/charger/axp228.c:240-245 | The 4-bit current code is 0 below 300 mA and 15 above 2550 mA. In between it is the `k` with `200001 + 150000k <= uA < 200001 + 150000(k+1)`. |
| Axp228ChargerCodec.CurrentOf | drivers/power/charger/axp228.c:227-229 | A nibble reads back as `300 mA + 150 mA * nibble`, within 300..2550 mA. |
| Axp228ChargerCodec.CurrentCodeRoundTrip | drivers/power/charger/axp228.c:227-245 | Encoding a decoded nibble gives the nibble back. |
| Axp228ChargerCodec.CurrentCodeNear | drivers/power/charger/axp228.c:227-245 | The read-back current lies between 50 mA below and 99.999 mA above the request, once the request is clamped to 300..2550 mA. |
| Axp228ChargerCodec.UsbLimitOf | drivers/power/charger/axp228.c:268-277 | IPS_SET[1:0] decodes as 0 → 900 mA, 1 → 500 mA, 2 or 3 → no limit (0). |
| Axp228ChargerCodec.UsbLimitCode | drivers/power/charger/axp228.c:306-311 | The USB limit code is always 0, 1 or 3. |
| Axp228ChargerCodec.UsbLimitRoundTrip | drivers/power/charger/axp228.c:268-311 | Codes 0 and 1 survive decode then encode. The "no limit" codes come back as 1. |
| Axp228ChargerCodec.UsbLimitChoice | drivers/power/charger/axp228.c:306-311 | Between 500 mA and 1.5 A the chosen limit is 500 or 900 mA: never above the request, and 900 mA from 900 mA up. Below 500 mA it is 500 mA; from 1.5 A up there is no limit. |
| Axp228ChargerCodec.PekOnBits | drivers/power/charger/axp228.c:333-346 | The power-on time field uses bits 7:6 only. It is 00 iff the time is under 1 s, 01 iff it is from 1 s to under 2 s, 10 iff it is from 2 s to under 3 s, and 11 iff it is 3 s or more. |
| Axp228ChargerCodec.PekLongCode | drivers/power/charger/axp228.c:349-357 | The long-press code `k` in 0..3 satisfies `1000 + 500k <= clamp(t, 1000, 2500) < 1500 + 500k`. |
| Axp228ChargerCodec.PekOffCode | drivers/power/charger/axp228.c:375-384 | The power-off code `k` in 0..3 satisfies `4000 + 2000k <= clamp(t, 4000, 10000) < 6000 + 2000k`. |
| Axp228ChargerCodec.FlagBit | drivers/power/charger/axp228.c:361-372 | A boolean property sets its bit iff it is non-zero. |
| Axp228ChargerCodec.PokSetPekOn | drivers/power/charger/axp228.c:333-346 | In the POK_SET byte, bits 7:6 hold `pek_on`'s code when it is present and the bits read otherwise. |
| Axp228ChargerCodec.PokSetPekLong | drivers/power/charger/axp228.c:349-358 | Bits 5:4 hold `pek_long`'s code when it is present and the bits read otherwise. |
| Axp228ChargerCodec.PokSetPekOffFlags | drivers/power/charger/axp228.c:361-372 | Bit 3 follows `pek_off_en` and bit 2 follows `pek_off_restart` when present. Each keeps the bit read otherwise. |
| Axp228ChargerCodec.PokSetPekOff | drivers/power/charger/axp228.c:375-385 | Bits 1:0 hold `pek_off`'s code when it is present and the bits read otherwise. |
| Axp228ChargerCodec.OffCtlDelay | drivers/power/charger/axp228.c:390-393 | A delay of 8, 16, 24 or 32 ms puts 0..3 in OFF_CTL bits 1:0 and keeps every other bit. |
| Axp228ChargerCodec.OffCtlShortDelay | drivers/power/charger/axp228.c:390-393 | The quirk: a delay from -7 to 7 ms, whose truncated quotient by 8 is 0, ORs in -1 unmasked, so OFF_CTL becomes 0xFF. |
| Axp228ChargerCodec.OffCtlChgled | drivers/power/charger/axp228.c:396-400 | OFF_CTL bit 3 follows `ghcledfun` and every other bit is kept. |
| Axp228ChargerCodec.UsbVoltageCode | drivers/power/charger/axp228.c:449-451 | The hold-voltage code `k` in 0..7 satisfies `4000 + 100k <= mV < 4100 + 100k`. |
| Axp228ChargerCodec.IpsSetVoltage | drivers/power/charger/axp228.c:447-457 | With both voltage properties non-zero and in range, bits 5:3 take the code and bit 6 is kept. Out of range, bits 6:3 are kept. If either is zero, bit 6 is cleared and bits 5:3 are kept. Bit 7 is always kept. |
| Axp228ChargerCodec.IpsSetCurrent | drivers/power/charger/axp228.c:459-467 | With both current properties non-zero, bits 1:0 become 01 (500 mA) iff `usbcurlim == 500` and 00 (900 mA) otherwise. If either is zero they become 11 (no limit). Bit 2 is always kept. |
| Axp228ChargerCodec.WarningLevel | drivers/power/charger/axp228.c:509-513 | For levels in range, the warning byte has `lv1 - 5` in the high nibble and `lv2` in the low nibble. |
| Axp228ChargerCodec.RdcCode | drivers/power/charger/axp228.c:536 | `rdc` is `batrdc * 10000 / 10742` rounded to nearest, as truncation of `(batrdc*10000 + 5371) / 10742`. |
| Axp228ChargerCodec.Rdc0 | drivers/power/charger/axp228.c:538 | The RDC0 value lies in 0x80..0x9F: bits 12:8 of the code with bit 7 set. |
| Axp228ChargerCodec.Rdc1 | drivers/power/charger/axp228.c:541 | The RDC1 value is a byte. |
| Axp228ChargerCodec.RdcDecode | drivers/power/charger/axp228.c:536-542 | RDC0 without its flag, times 256, plus RDC1 gives the code modulo 2^13. |
| Axp228ChargerCodec.Rdc0Flags | drivers/power/charger/axp228.c:535-538 | The quirk: the written RDC0 has bit 7 set and bit 6, the bit the probe tests, clear. |
| Axp228ChargerCodec.FullCapCode | drivers/power/charger/axp228.c:550 | The full-capacity count is the capacity in mAh divided by 1.456, truncated. |
| Axp228ChargerCodec.FullCapH | drivers/power/charger/axp228.c:552 | The value written to BATFULLCAPH has bit 7 set (128..255). |
| Axp228ChargerCodec.FullCapL | drivers/power/charger/axp228.c:556 | The value written to BATFULLCAPL is a byte. |
| Axp228ChargerCodec.FullCapDecode | drivers/power/charger/axp228.c:550-557 | For a count below 2^15 the register pair holds the count exactly, below the flag. |
| Axp228ChargerCodec.FullCapFlag | drivers/power/charger/axp228.c:549-553 | The byte written has bit 7 set, the bit a later probe tests. |
| Axp228Charger.Word | drivers/power/charger/axp228.c:116 | `(h << 8) \| l` has `h` as its high byte and `l` as its low byte. |
| Axp228Charger.Percent | drivers/power/charger/axp228.c:130-132 | The gauge reading is below 128. |
| Axp228Charger.PercentIgnoresFlag | drivers/power/charger/axp228.c:130-132 | Bit 7 of CAP plays no part in the percentage. |
| Axp228Charger.AverageOfEqualSamples | drivers/power/charger/axp228.c:112-120 | The five-sample loop's `(sum / 5) * 1000` of equal samples is the sample in µV. |
| Axp228Charger.GetValueVbatt | drivers/power/charger/axp228.c:106-123 | The battery voltage returned is 1000 times the mV of the word read from VBATH/VBATL, within 0..4504000 µV. |
| Axp228Charger.GetValueGauge | drivers/power/charger/axp228.c:125-133 | The gauge returns CAP with bit 7 masked off. On a failed read it returns the percentage of the caller's buffer. |
| Axp228Charger.SetUsbLimitEffect | drivers/power/charger/axp228.c:94-104 | `set_usb_limit` makes exactly one write, to IPS_SET. After a good read, bits 1:0 become `data` and the other bits are kept. After a failed read, the byte written is `data` itself. |
| Axp228Charger.SetUsbLimit | drivers/power/charger/axp228.c:94-104 | The method's new state is `SetUsbLimitSpec`. |
| Axp228Charger.GetChargeTypeEffect | drivers/power/charger/axp228.c:183-218 | The type is TA iff STATUS reads with bit 7 set, and then nothing is written. It is USB iff STATUS reads with bit 7 clear and bit 5 set; otherwise it is NO. Outside TA the USB limit is set to 500 mA. |
| Axp228Charger.GetChargeType | drivers/power/charger/axp228.c:183-218 | The method's result and new state are `GetChargeTypeSpec`. |
| Axp228Charger.GetChargeCurrent | drivers/power/charger/axp228.c:220-233 | The method returns `-EIO` or a current within 300..2550 mA, decoded from CHARGE1. |
| Axp228Charger.SetChargeCurrent | drivers/power/charger/axp228.c:235-250 | The method's result and new state are `SetChargeCurrentSpec`. |
| Axp228Charger.ChargeCurrentSetGet | drivers/power/charger/axp228.c:220-250 | On a working bus, setting then getting returns the decoded code of the request. Only the low nibble of CHARGE1 changes. |
| Axp228Charger.ChargeCurrentGetSet | drivers/power/charger/axp228.c:220-250 | Setting the current just read leaves every register as it was. |
| Axp228Charger.GetLimitCurrent | drivers/power/charger/axp228.c:252-287 | The method returns `-EINVAL` iff the type is neither TA nor USB. |
| Axp228Charger.SetLimitCurrent | drivers/power/charger/axp228.c:289-321 | The method's result and new state are `SetLimitCurrentSpec`. |
| Axp228Charger.LimitCurrentSetGet | drivers/power/charger/axp228.c:252-321 | On a working bus, TA reads back the decoded current code of the request and USB reads back the limit its code selects. Any other type returns `-EINVAL` and touches no register. |
| Axp228Charger.Prop | drivers/power/charger/axp228.c:588-589 | A property is present iff the node has it with a value other than `-ENODATA`, and then it has that value. |
| Axp228Charger.OcvTable | drivers/power/charger/axp228.c:631-638 | The table has `len/4` cells clamped to `OCV_TABLE_SIZE`. Entry `i` is the low byte of big-endian cell `i`. |
| Axp228Charger.ParseOcv | drivers/power/charger/axp228.c:633-638 | The parsing loop yields `OcvTable`. |
| Axp228Charger.OfdataToPlatdata | drivers/power/charger/axp228.c:581-649 | Each field of the record is its `chg,*` property as `Prop` reads it, with the `-ENODATA` default. The OCV field is `OcvTable` of `chg,ocvreg` when that property exists, so it is never longer than `OCV_TABLE_SIZE`. |
| Axp228ChargerProbe.PokStep | drivers/power/charger/axp228.c:331-386 | POK_SET is written exactly once, with `PokSetValue` of the byte read (or of the stale buffer when the read fails). |
| Axp228ChargerProbe.PokPass | drivers/power/charger/axp228.c:331-386 | The method's locals and new state are `PokStep`. |
| Axp228ChargerProbe.OffCtlStep | drivers/power/charger/axp228.c:388-401 | OFF_CTL is written exactly once, with `OffCtlValue` of the byte read. |
| Axp228ChargerProbe.OffCtlPass | drivers/power/charger/axp228.c:388-401 | The method's locals and new state are `OffCtlStep`. |
| Axp228ChargerProbe.FlagOption | drivers/power/charger/axp228.c:403-438 | A flag property writes at most once, to its register only, and does nothing when absent. |
| Axp228ChargerProbe.FlagOptionEffect | drivers/power/charger/axp228.c:403-438 | On a working bus, the flag's bit follows the property. Every other bit, and every other register, is unchanged. |
| Axp228ChargerProbe.FlagOptionPass | drivers/power/charger/axp228.c:403-438 | The method's new state is `FlagOption`. |
| Axp228ChargerProbe.FlagsStep | drivers/power/charger/axp228.c:403-438 | The four flag properties write only CHGLED_CTL, COULOMB_CTL, CHARGE2 and PDBC, which is OFF_CTL. |
| Axp228ChargerProbe.FlagsPass | drivers/power/charger/axp228.c:403-438 | The method's new state is `FlagsStep`. |
| Axp228ChargerProbe.IpsStep | drivers/power/charger/axp228.c:440-470 | IPS_SET is untouched unless all four USB properties are present. Then it is written exactly once. |
| Axp228ChargerProbe.IpsPass | drivers/power/charger/axp228.c:440-470 | The method's locals and new state are `IpsStep`. |
| Axp228ChargerProbe.LimitStep | drivers/power/charger/axp228.c:472-486 | The limit step writes CHARGE3 at most once, and not at all without `limit_current`. |
| Axp228ChargerProbe.LimitStepIsSetLimitCurrent | drivers/power/charger/axp228.c:472-486 | The probe programs CHARGE3 exactly as `set_limit_current(TA, limit_current)` does. |
| Axp228ChargerProbe.LimitBits | drivers/power/charger/axp228.c:474-485 | The probe's three branches choose the same 4-bit code as `CurrentCode`. |
| Axp228ChargerProbe.LimitPass | drivers/power/charger/axp228.c:472-486 | The method's locals and new state are `LimitStep`. |
| Axp228ChargerProbe.ChargeStep | drivers/power/charger/axp228.c:488-506 | The charge step writes only CHARGE1, at most twice, and does nothing without `charge_current`. |
| Axp228ChargerProbe.ChargeStepEffect | drivers/power/charger/axp228.c:488-506 | CHARGE1 bit 7 is set iff the value is non-zero. The nibble reads back the configured current when STATUS bit 6 (ACVA) is set, and 500 mA otherwise. Bits 6:4 are kept and no other register changes. |
| Axp228ChargerProbe.ChargePass | drivers/power/charger/axp228.c:488-506 | The method's locals and new state are `ChargeStep`. |
| Axp228ChargerProbe.WarnStep | drivers/power/charger/axp228.c:508-514 | WARNING_LEVEL is written once, with the composed byte, iff both levels are present. |
| Axp228ChargerProbe.WarnPass | drivers/power/charger/axp228.c:508-514 | The method's locals and new state are `WarnStep`. |
| Axp228ChargerProbe.OcvMismatchCorrect | drivers/power/charger/axp228.c:517-524 | The compare loop, which stops at the first difference, reports a mismatch iff some table register differs from its entry. |
| Axp228ChargerProbe.OcvCompare | drivers/power/charger/axp228.c:517-524 | The compare loop's flag and last byte are `OcvMismatch`. |
| Axp228ChargerProbe.OcvWrites | drivers/power/charger/axp228.c:526-529 | The rewrite sends entry `i` to register `OCV_TABLE + i`, in order. |
| Axp228ChargerProbe.OcvWritesEffect | drivers/power/charger/axp228.c:526-529 | After the first `n` rewrites on a working bus, those registers hold their entries and all others are unchanged. |
| Axp228ChargerProbe.OcvRewrite | drivers/power/charger/axp228.c:526-529 | The rewrite loop performs `OcvWrites`. |
| Axp228ChargerProbe.OcvStep | drivers/power/charger/axp228.c:516-530 | Without an OCV table nothing happens. |
| Axp228ChargerProbe.OcvStepEffect | drivers/power/charger/axp228.c:516-530 | The flag is set iff some byte differs; then the whole table is rewritten, and otherwise nothing is written. Either way the window holds the table afterwards and every other register is unchanged. |
| Axp228ChargerProbe.OcvPass | drivers/power/charger/axp228.c:516-530 | The method's locals and new state are `OcvStep`. |
| Axp228ChargerProbe.RdcStep | drivers/power/charger/axp228.c:532-544 | Without `batrdc` nothing happens. |
| Axp228ChargerProbe.RdcStepEffect | drivers/power/charger/axp228.c:532-544 | When the table changed, or `batrdc` is non-zero with RDC0 bit 6 clear, RDC0 and RDC1 get the encoded value. Bit 6 stays clear, so the next probe rewrites them again. |
| Axp228ChargerProbe.RdcStepSkipped | drivers/power/charger/axp228.c:532-544 | Otherwise RDC is read but nothing is written. |
| Axp228ChargerProbe.RdcPass | drivers/power/charger/axp228.c:532-544 | The method's locals and new state are `RdcStep`. |
| Axp228ChargerProbe.CapStep | drivers/power/charger/axp228.c:546-566 | Without `batcap` nothing happens. |
| Axp228ChargerProbe.CapStepSkipped | drivers/power/charger/axp228.c:549-565 | With a non-zero `batcap`, the table unchanged and bit 7 of BATFULLCAPH set as read, nothing is written. |
| Axp228ChargerProbe.CapStepEffect | drivers/power/charger/axp228.c:546-566 | When the table changed, or `batcap` is non-zero with the flag clear, both bytes are written with the flag set. A second pass then leaves them alone. |
| Axp228ChargerProbe.CapStepZero | drivers/power/charger/axp228.c:560-565 | `batcap == 0` with the table unchanged writes zero to both registers. |
| Axp228ChargerProbe.CapPass | drivers/power/charger/axp228.c:546-566 | The method's locals and new state are `CapStep`. |
| Axp228ChargerProbe.ProbePowerKeyFirst | drivers/power/charger/axp228.c:331-401 | The probe's first two writes are POK_SET and then OFF_CTL, the latter computed from the POK byte when the OFF_CTL read fails. |
| Axp228ChargerProbe.ProbeIpsStaleBuffer | drivers/power/charger/axp228.c:440-470 | When the IPS_SET read fails, the byte written is built from the stale buffer, which holds the byte last written to OFF_CTL. |
| Axp228ChargerProbe.Probe | drivers/power/charger/axp228.c:323-579 | The charger probe always returns 0. Its new state is the ten steps in source order. |
| HdmiTiming.GetVsync | drivers/video/nexell/s5pxx18_dp_hdmi.c:165-244 | The call returns 0 iff the preset is one of the three. An unknown preset returns `-EINVAL` with every out-parameter untouched. Otherwise both start offsets are the horizontal total minus 1, the end offsets are 0 and the pixel clock is not touched. The VIC is written only through a non-null pointer, and never for 1920x720. |
| HdmiTiming.GetVsyncIsCeaFormat | drivers/video/nexell/s5pxx18_dp_hdmi.c:170-199 | The 720p and 1080p records are the CEA-861-D timings of the VIC they report: 4 is 1280x720p and 16 is 1920x1080p. Active size, porches, widths and totals match. |
| HdmiTiming.GetVsync1920x720 | drivers/video/nexell/s5pxx18_dp_hdmi.c:201-212 | The 1920x720 preset leaves the VIC unchanged and has totals 2048 x 730. |
| HdmiTiming.TopSyncOf | drivers/video/nexell/s5pxx18_dp_hdmi.c:270-289 | The display-top window is as wide as the active line and ends at the front porch. Vertical sync starts one line before the front porch. The hsync edges are one and two pixels after the active start. |
| HdmiTiming.U32 | drivers/video/nexell/s5pxx18_dp_hdmi.c:302-304 | A `u32` value is reduced modulo 2^32 and left alone when it already fits. |
| HdmiTiming.PrepareTiming | drivers/video/nexell/s5pxx18_dp_hdmi.c:302-317 | For timings that fit, `hdmi_prepare`'s values are the blanking intervals, totals and sync edges of the record, each below 2^16. |
| HdmiTiming.ByteSplit | drivers/video/nexell/s5pxx18_dp_hdmi.c:351-360 | The pair `x % 256`, `x >> 8` gives `x` back, and the high byte fits a byte when `x` fits 16 bits. |
| HdmiTiming.SyncLowByte | drivers/video/nexell/s5pxx18_dp_hdmi.c:372-375 | The sync-start and sync-end low bytes are the low byte minus 2, wrapping modulo 2^32 below 2. |
| HdmiTiming.PresetLinkTiming | drivers/video/nexell/s5pxx18_dp_hdmi.c:309-317 | The link timing of each preset; for 720p that is 370 blanking pixels, a 1650-pixel line and 750 lines. |
| HdmiTiming.PresetSyncBytes | drivers/video/nexell/s5pxx18_dp_hdmi.c:372-375 | No preset makes the "minus 2" wrap around. |
| HdmiTiming.PresetTopSync | drivers/video/nexell/s5pxx18_dp_hdmi.c:270-289 | The display-top window of each preset. |
| HdmiTiming.PhyPresetOf | drivers/video/nexell/s5pxx18_dp_hdmi.c:109-125 | A table exists iff the preset is valid. The 1080p table is programmed for 31 entries and the others for all 32. Entry 30, which the loop sends to REG7C, is 0x80 in each. |
| HdmiTiming.PhyClockMatchesTiming | drivers/video/nexell/s5pxx18_dp_hdmi.c:109-199 | For 720p and 1080p, the PHY table's TMDS clock is the CEA-861-D pixel clock of the reported VIC, which is the horizontal total times the vertical total times 60. |
| HdmiTiming.ChecksumByte | drivers/video/nexell/s5pxx18_dp_hdmi.c:491 | `(u8)(0x100 - (sum & 0xff))` is the byte that brings the sum to 0 modulo 256 (section 5.3.5 of HDMI 1.4b). It is 0 iff the sum already is. |
| HdmiTiming.AcrFor | drivers/video/nexell/s5pxx18_dp_hdmi.c:690-714 | N is non-zero iff the rate is one of the seven supported. For those, `128 * fs * CTS = 27 MHz * N` and N lies in the range of section 7.2.1 of HDMI 1.4b. N is `128 fs / 1000` for the 32/48 kHz family and `128 fs / 900` for the 44.1 kHz family. |
| HdmiTiming.AcrDoubles | drivers/video/nexell/s5pxx18_dp_hdmi.c:693-710 | Doubling a supported 44.1 or 48 kHz-family rate doubles N and keeps CTS. |
| HdmiTiming.SpdifFor | drivers/video/nexell/s5pxx18_dp_hdmi.c:740-741 | PCM keeps its word length and other codecs use 16 bits. Only AC-3 has a repetition time, two AC-3 frames less one. |
| HdmiTiming.AudioInitDefaults | drivers/video/nexell/s5pxx18_dp_hdmi.c:763-774 | With the defaults (48 kHz, 16-bit PCM), N is 6144, CTS is 27000 and S/PDIF takes 16-bit words without bursts. |
| HdmiRegs.LastTwice | drivers/video/nexell/s5pxx18_dp_hdmi.c:127-142 | Issuing every write twice leaves each register as issuing it once would. |
| HdmiPhy.PhyEnableSpec | drivers/video/nexell/s5pxx18_dp_hdmi.c:100-146 | The call returns `-EINVAL` iff it is enabling an unsupported preset. It writes nothing iff it is disabling or the preset is unsupported. |
| HdmiPhy.ProgramEffect | drivers/video/nexell/s5pxx18_dp_hdmi.c:127-142 | After programming, REG04+4i holds entry `i` for `i < size`, REG7C holds 0x80 and REG24 holds entry 8, because the loop overwrites the control write. No non-PHY register is written. |
| HdmiPhy.PhyEnableEffect | drivers/video/nexell/s5pxx18_dp_hdmi.c:100-146 | Enabling a valid preset returns 0 and leaves those PHY values, with every non-PHY register unchanged. |
| HdmiPhy.PhyWritesDoubled | drivers/video/nexell/s5pxx18_dp_hdmi.c:127-142 | There are `size + 5` commands, each issued twice in a row. Table entry `i` goes to REG04+4i. The last write is REG7C = 0x80. |
| HdmiPhy.SetRegTwice | drivers/video/nexell/s5pxx18_dp_hdmi.c:127-128 | One PHY write is the same value to the same register twice. |
| HdmiPhy.WriteHead | drivers/video/nexell/s5pxx18_dp_hdmi.c:127-132 | The control writes before the table, each doubled. |
| HdmiPhy.WriteTable | drivers/video/nexell/s5pxx18_dp_hdmi.c:134-137 | The table loop writes entry `i` to REG04+4i, twice, for `i < n`. |
| HdmiPhy.WriteTail | drivers/video/nexell/s5pxx18_dp_hdmi.c:139-142 | The control writes after the table, each doubled. |
| HdmiPhy.ProgramPhy | drivers/video/nexell/s5pxx18_dp_hdmi.c:127-142 | The writes of a chosen table, every command doubled. |
| HdmiPhy.PhyEnable | drivers/video/nexell/s5pxx18_dp_hdmi.c:100-146 | The method's result and writes are `PhyEnableSpec`. |
| HdmiPhy.FirstReady | drivers/video/nexell/s5pxx18_dp_hdmi.c:148-163 | Gives the first poll that sees bit 0 set, with every earlier poll not ready. It gives 501 when no poll is ready. |
| HdmiPhy.WaitPhyReady | drivers/video/nexell/s5pxx18_dp_hdmi.c:148-163 | The poll returns 1 iff one of the 501 reads shows ready, and stops at the first such read. It returns 0 after exactly 501 reads otherwise. |
| HdmiBringUp.WriteHead | drivers/video/nexell/s5pxx18_dp_hdmi.c:319-345 | The control writes before the timing, in order. |
| HdmiBringUp.WriteLines | drivers/video/nexell/s5pxx18_dp_hdmi.c:351-360 | The blanking and totals, each as low byte then high byte. |
| HdmiBringUp.WritePolarity | drivers/video/nexell/s5pxx18_dp_hdmi.c:362-370 | Both polarities, then the progressive mode. |
| HdmiBringUp.WriteSyncs | drivers/video/nexell/s5pxx18_dp_hdmi.c:372-383 | The sync edges. |
| HdmiBringUp.WriteFixedGroup | drivers/video/nexell/s5pxx18_dp_hdmi.c:385-423 | One group of six `0xffff` fields. |
| HdmiBringUp.WriteTail | drivers/video/nexell/s5pxx18_dp_hdmi.c:425-443 | The muxes, the send window and the remaining controls. |
| HdmiBringUp.Prepare | drivers/video/nexell/s5pxx18_dp_hdmi.c:291-445 | `hdmi_prepare` returns 0 and issues `PrepareWrites`. |
| HdmiBringUp.PrepareLineValue | drivers/video/nexell/s5pxx18_dp_hdmi.c:351-360 | Each byte register of a line field ends holding that byte of its value. |
| HdmiBringUp.PrepareSyncValue | drivers/video/nexell/s5pxx18_dp_hdmi.c:372-383 | Each byte register of a sync field ends holding its byte, horizontal low bytes less 2. |
| HdmiBringUp.PrepareFixedValue | drivers/video/nexell/s5pxx18_dp_hdmi.c:385-423 | Each byte of the 18 fixed fields ends at 0xff. |
| HdmiBringUp.PreparePolarityValue | drivers/video/nexell/s5pxx18_dp_hdmi.c:362-368 | Both sync polarities end at 1 iff the line is 1280 pixels wide, else 0. |
| HdmiBringUp.PrepareLineReg16 | drivers/video/nexell/s5pxx18_dp_hdmi.c:351-360 | Each line field reads back as the value `hdmi_prepare` computed. |
| HdmiBringUp.PrepareSyncLineReg16 | drivers/video/nexell/s5pxx18_dp_hdmi.c:376-383 | The two vertical sync-line fields read back as their values. |
| HdmiBringUp.PrepareFixedReg16 | drivers/video/nexell/s5pxx18_dp_hdmi.c:385-423 | Every fixed field reads back as 0xffff. |
| HdmiBringUp.PrepareLinesEffect | drivers/video/nexell/s5pxx18_dp_hdmi.c:309-360 | For a record that fits, the link holds the blanking intervals and the line and frame totals. |
| HdmiBringUp.PrepareSyncsEffect | drivers/video/nexell/s5pxx18_dp_hdmi.c:314-383 | Vertical sync starts at the front porch and ends a sync width later. The horizontal edges sit two pixels early. |
| HdmiBringUp.PrepareEffect | drivers/video/nexell/s5pxx18_dp_hdmi.c:291-445 | After `hdmi_prepare`, the link holds the totals, blanking and vsync line, polarities 1 iff the width is 1280, and 0xffff in every fixed field. |
| HdmiBringUp.Prepare720p | drivers/video/nexell/s5pxx18_dp_hdmi.c:171-181 | At 720p the link holds 370 blanking pixels, a 1650-pixel line, 750 lines, 30 blank lines and positive polarity. |
| HdmiBringUp.SetAcr | drivers/video/nexell/s5pxx18_dp_hdmi.c:678-722 | The method issues `AcrWrites`. |
| HdmiBringUp.AcrDviEffect | drivers/video/nexell/s5pxx18_dp_hdmi.c:685-688 | In DVI mode only ACR_CON changes, to "no transmission". |
| HdmiBringUp.AcrHdmiEffect | drivers/video/nexell/s5pxx18_dp_hdmi.c:716-721 | In HDMI mode the three N registers get the rate's N and ACR_CON gets "measured CTS". No other register, CTS included, is written. |
| HdmiBringUp.SetupCases | drivers/video/nexell/s5pxx18_dp_hdmi.c:841-884 | For a supported device: a PHY error is returned as is; a PHY that never becomes ready gives `-EIO`; otherwise the preset's record is taken and `hdmi_prepare` runs. |
| HdmiBringUp.Setup | drivers/video/nexell/s5pxx18_dp_hdmi.c:817-885 | The method's result, mux, sync, ctrl and writes are `SetupSpec`. |
| HdmiBringUp.SetupAfterPhy | drivers/video/nexell/s5pxx18_dp_hdmi.c:863-884 | After the PHY is programmed: a failed poll returns `-EIO` with nothing written, and the disable call is a no-op. Otherwise the mux is set and the preset's link timing is written. |
| HdmiBringUp.SetupLink | drivers/video/nexell/s5pxx18_dp_hdmi.c:881-882 | The preset's sync and control records, then `hdmi_prepare` of that sync. |
| HdmiBringUp.PresetTiming16 | drivers/video/nexell/s5pxx18_dp_hdmi.c:170-212 | Every preset's record fits `hdmi_prepare`'s 16-bit sums. |
| HdmiBringUp.SetupErrorPaths | drivers/video/nexell/s5pxx18_dp_hdmi.c:823-867 | `-EINVAL` iff the device or preset is unsupported, and then nothing is written. `-EIO` iff both are supported and no poll is ready, and then only the PHY writes are issued. Every failure leaves sync, ctrl and the mux alone. |
| HdmiBringUp.NeverReadyIff | drivers/video/nexell/s5pxx18_dp_hdmi.c:148-163 | The poll runs out exactly when none of the 501 reads shows ready. |
| HdmiBringUp.SetupSuccess | drivers/video/nexell/s5pxx18_dp_hdmi.c:817-885 | Success means the preset is valid and the mux is the device's. Sync is the preset's record, and the writes are the PHY's followed by `hdmi_prepare`'s. |
| HdmiBringUp.SetupProgramsTotals | drivers/video/nexell/s5pxx18_dp_hdmi.c:881-882 | After a successful setup the link holds the preset's line and frame totals. |
| HdmiInfoFrame.Chksum | drivers/video/nexell/s5pxx18_dp_hdmi.c:480-492 | The checksum loop returns the byte that brings the header sum plus the first `len` payload bytes, as the registers hold them, to 0 modulo 256. |
| HdmiInfoFrame.VsiLength | drivers/video/nexell/s5pxx18_dp_hdmi.c:545-553 | The vendor frame's length grows by one iff the 3D structure is side-by-side half. |
| HdmiInfoFrame.WriteVsiFixed | drivers/video/nexell/s5pxx18_dp_hdmi.c:531-543 | The vendor frame's control, header and first five payload writes. |
| HdmiInfoFrame.WriteVsiBody | drivers/video/nexell/s5pxx18_dp_hdmi.c:531-553 | The vendor frame's writes before its checksum. |
| HdmiInfoFrame.WriteHeader | drivers/video/nexell/s5pxx18_dp_hdmi.c:567-569 | Type, version and length to the three header bytes. |
| HdmiInfoFrame.WriteAviPayload | drivers/video/nexell/s5pxx18_dp_hdmi.c:573-596 | AVI payload bytes 1 to 4. |
| HdmiInfoFrame.WriteAviBody | drivers/video/nexell/s5pxx18_dp_hdmi.c:565-596 | The AVI frame's writes before its checksum. |
| HdmiInfoFrame.WriteAuiBody | drivers/video/nexell/s5pxx18_dp_hdmi.c:604-608 | The audio frame's writes before its checksum. |
| HdmiInfoFrame.WriteChecksum | drivers/video/nexell/s5pxx18_dp_hdmi.c:597-601 | Computing a frame's checksum and writing it completes `Framed`. |
| HdmiInfoFrame.RegVsi | drivers/video/nexell/s5pxx18_dp_hdmi.c:531-563 | The vendor case issues `VsiFrame`. |
| HdmiInfoFrame.RegAvi | drivers/video/nexell/s5pxx18_dp_hdmi.c:565-602 | The AVI case issues `AviFrame`. |
| HdmiInfoFrame.RegAui | drivers/video/nexell/s5pxx18_dp_hdmi.c:604-625 | The audio case issues `AuiFrame`. |
| HdmiInfoFrame.RegInfoframe | drivers/video/nexell/s5pxx18_dp_hdmi.c:506-632 | The method issues `RegInfoframeSpec`. |
| HdmiInfoFrame.RegInfoframeCases | drivers/video/nexell/s5pxx18_dp_hdmi.c:530-631 | `hdmi_reg_infoframe` dispatches on the header type to the vendor, AVI or audio frame. |
| HdmiInfoFrame.FramedSumsToZero | drivers/video/nexell/s5pxx18_dp_hdmi.c:480-492 | Given the header sum the body leaves, a frame's body followed by its checksum write makes header plus payload plus checksum 0 modulo 256 (section 5.3.5 of HDMI 1.4b). |
| HdmiInfoFrame.AviFrameSumsToZero | drivers/video/nexell/s5pxx18_dp_hdmi.c:565-602 | After an AVI frame, the header registers hold type, version and length and the frame sums to 0 modulo 256. |
| HdmiInfoFrame.AuiFrameSumsToZero | drivers/video/nexell/s5pxx18_dp_hdmi.c:604-625 | The same for the audio frame. |
| HdmiInfoFrame.VendorFrameSumsToZero | drivers/video/nexell/s5pxx18_dp_hdmi.c:531-563 | The same for the vendor frame, whose length byte is the adjusted length. |
| HdmiInfoFrame.AviFrameVic | drivers/video/nexell/s5pxx18_dp_hdmi.c:577-596 | The VIC byte holds 17 for a 4:3 720x480 picture when the aspect is 4:3, else the preset's VIC, else 0. |
| HdmiInfoFrame.AviVicIsPresetVic | drivers/video/nexell/s5pxx18_dp_hdmi.c:577-596 | Built from `hdmi_get_vsync`'s record and VIC, the AVI frame of 720p carries VIC 4 and that of 1080p VIC 16. |
| HdmiInfoFrame.PresetVic | drivers/video/nexell/s5pxx18_dp_hdmi.c:182-198 | Those presets report VIC 4 or 16 and are not 720x480 pictures. |
| HdmiInfoFrame.StopVsi | drivers/video/nexell/s5pxx18_dp_hdmi.c:475-478 | One byte write: VSI_CON gets "do not transmit". |
| HdmiInfoFrame.InfoframeSet | drivers/video/nexell/s5pxx18_dp_hdmi.c:634-668 | The method issues `InfoframeSetSpec`. |
| HdmiInfoFrame.InfoframeSetFrames | drivers/video/nexell/s5pxx18_dp_hdmi.c:634-668 | Afterwards the vendor frame is stopped. The AVI header holds version 2 and length 13, and the audio header version 1 and length 10. Both frames sum to 0 modulo 256. |

## Left out

- I2C transport (`dm_i2c_read`/`dm_i2c_write`): each register is either always good or always failing, a fixed set per direction. Intermittent failures are not modelled.
- `pmic_read`, `pmic_write` and `pmic_clrsetbits` are not part of this model. The first two are taken to be the driver's own read and write. `pmic_clrsetbits` is assumed to read, clear, set and write, without suppressing writes.
- HDMI MMIO (`nx_hdmi_set_reg`, `nx_hdmi_set_regb`, `nx_hdmi_get_reg`, `nx_hdmi_write_mask`) is not part of this model. Registers are a write log over power-on values, and the PHY status is the `status` parameter.
- The HDMI PHY register offsets are assumed from the register names (`HDMI_PHY_REG24` at 0x24, `HDMI_PHY_REG7C` at 0x7C, and so on), because the header that defines them is not part of this model. `ProgramEffect`'s REG24 overwrite and `PhyPresetOf`'s REG7C entry depend on that assumption.
- The HDMI link register offsets, `HDMI_ACR_N*_VAL`, the `*_CON_*` codes and the picture-aspect enums are in headers that are not part of this model. They are abstract, so no byte split of N is claimed.
- Device-tree access (`fdtdec_get_int`, `fdt_getprop`), `axp228_ofdata_to_platdata` of the PMIC, and bind/probe plumbing: configuration is an input record. `OCV_TABLE_SIZE` is a parameter. The probe requires the table to fit the 64-register window at 0xC0.
- OCV cells are assumed to become bytes (`ocv_table` as `u8`), keeping the low byte of each big-endian cell.
- `axp228_get_usb_connect` and the `CONFIG_SW_UBC_DETECT` branch, `mdelay`, register dumps, `axp228_print_state` and every `printf`/`debug`.
- The two `AXP228_MODE_CHGSTATUS` reads of the charger probe: only bit 6 of `tmp`, which comes from STATUS, is examined.
- GetValueVbatt: the five samples read an unchanging register file, so the average is of five equal samples. A battery voltage that changes between samples is not modelled.
- DeviceSetupVoff: stated for a `freq_spread_en` whose byte fits three bits. Otherwise `UpdateAlwaysWritesOutsideMask` describes the write.
- `hdmi_reset`, `hdmi_clock`, `hdmi_init`, `nx_disp_top_*` and `dp_*` are clock, reset and display-plane calls whose only content is call order. They are not modelled.
- `hdmi_enable`, `nx_hdmi_display`, `hdmi_audio_enable` and `hdmi_dvi_mode_set` are not modelled beyond the pieces they call. For `hdmi_spdif_init`, only the word length and repetition time are modelled (`SpdifFor`); its register writes use macros that are not part of this model.
- `CONFIG_HDMI_PATTERN` is taken as off. The AVI `SPEAKER_PLACEMENT` block is taken as not compiled.
- RdcCode: C `int` overflow is not modelled. `batrdc * 10000 + 5371` (charger line 536) uses unbounded integers, so the code matches the C only for a `batrdc` where that sum fits in 32 bits.
- FullCapCode: C `int` overflow is not modelled. `batcap * 1000` (charger line 550) uses unbounded integers, so the code matches the C only where that product fits in 32 bits.
- UsbVoltageCode: C `int` overflow is not modelled. `usbvolim * 1000` (charger line 449) uses unbounded integers. This matters only when `IpsSetValue`'s range test is applied to a value so large that the C product would wrap into 4000000..4700000.
- `hdmi_get_vsync`'s `ctrl->out_format` and `ctrl->delay_mask` (lines 224-226) are not modelled. Their values are enum and flag constants from headers that are not part of this model, so `CtrlInfo` holds only the numeric fields.
- The DP device numbers are not part of this model. The three devices `hdmi_setup` accepts are datatype constructors, and any other device is `-EINVAL`.
