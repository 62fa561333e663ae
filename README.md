# Video initialisation of the xbeboot boot loader, in Dafny

This project models `BootVgaInitialization.c`, the part of the boot loader
that brings up video output. It covers:

- the two input detectors:
  - `xbvDetectAvType` reads the AV-pack byte;
  - `xbvDetectVideoStd` reads the EEPROM standard byte;
- the mode switch and the VGA/TV split of `BootVgaInitializationKernelNG`;
- the exhaustive overscan search `FindOverscanValues`;
- the integer timing formulas `CalcV_ACTIVEO` and `CalcH_CLKO`;
- the GPU-plan derivation in `SetAutoParameter`;
- the three register-programming protocols:
  - `SetVGAConexantRegister` and `SetTVConexantRegister` program the video encoder at bus device 0x45;
  - `SetGPURegister` programs the GPU timing block.

## How it is modelled

**Modules.** There is one module per concern:

| module | contents |
|---|---|
| `Bits` | the C-to-bit-vector conventions |
| `VideoStandards` | the detectors and per-standard constants |
| `ModeTiming` | the mode records and timing formulas |
| `OverscanSearch` | the search |
| `NvGpu` | the GPU |
| `Conexant` | the encoder protocols |
| `ConexantFields` | read-back of the split encoder fields |
| `VideoBoot` | the mode-setting part of `BootVgaInitializationKernelNG` and `SetAutoParameter` |

**The encoder.** `Conexant.Encoder` is a class with two fields:
- 256 byte registers;
- an ordered log of stores.

Storing byte `v` to register `r` (the firmware's `I2CTransmitWord(0x45, r<<8|v)`) sets `regs[r]` and appends `(r, v)` to the log. A read (`I2CTransmitByteGetReturn`) returns `regs[r]`.

**The GPU.** `NvGpu.Gpu` is a class with four fields:
- a map of 32-bit memory-mapped registers;
- a separate 256-byte CRTC bank;
- the CRTC index register;
- a store log.

`NvSetCrtc(i, b)` selects index `i` and stores `b` into bank entry `i`. `NvGetCrtc(i)` selects `i` and reads entry `i`. This is the hardware's indexed meaning of the index/data pair at 0x6013d4/0x6013d5. Read literally as stores into one flat byte array, every index would alias the same data byte.

**The procedures.** Every procedure is a method that makes its stores in the source's order. Each method is proved equal to a function of the prior state: a register file after the stores, and a log extended by the stores. Lemmas about those functions state what the procedure promises:
- which registers change;
- which bits of a shared register each field owns, and that the other bits are kept;
- how split values read back from their registers;
- how a sequence ends.

**Arithmetic.** C `long` values are Dafny integers.
- A `DWORD` stored to the GPU is the value modulo 2^32 (`Bits.ToDword`).
- A value whose bits are shifted and masked is first taken to its 32-bit pattern (`Bits.Dw`).
- A `BYTE` is the low eight bits of that pattern.
- C division of a signed `long` truncates toward zero (`Bits.CDiv`).

**Double-precision computations.** The firmware computes several values in doubles:
- the search bounds, the rounded input clock, the horizontal-sync room test and the metric of the search;
- the blanking values of `CalcBlankings`;
- the PLL ratio, burst positions, sync width, subcarrier and WSS increments.

These are inputs of the model, as integers, 32-bit patterns or functions. The one exact test of the search (the two line periods agree within 1e-3) is proved equivalent to an integer equation. Line counts of the analog standards are kept in half lines (525 or 625) and the clock ratio in half units (2 or 3), so the timing formulas are exact integer ones.

**Behaviour of the code worth knowing before reading the model:**
- **Read-modify-write.** Only the TV-encoder stores to shared registers read the register first. The low bytes, the preamble and the connector block are plain stores.
- **Timing reset.** The timing reset of register 0x6c is a single store. The code reads the register and stores it back with bit 7 set and the other bits kept (`BootVgaInitialization.c:515-517`, `:739-742`). There is no separate store with bit 7 clear.
- **Search failure.** The search fails when no valid candidate has a metric below the starting value 1000 (`:1100-1103`). A valid candidate with a metric of 1000 or more is never kept.
- **Unlisted mode index.** The mode switch has no default case: an unlisted mode index leaves the size and margins as they were, and no error is reported. `VideoBoot.ModeGeometry` returns `None` for it, and the boot method keeps the old size.

## Model

| member | source | states |
|---|---|---|
| Bits.ToDword | BootVgaInitialization.c:750-797 | a `DWORD` store of a value already in 0..2^32-1 stores that value |
| Bits.ToDwordAdd | BootVgaInitialization.c:758-760 | wrapping `x + k` is wrapping the wrapped `x` plus `k`, so NVHSYNCEND is the stored NVHSYNCSTART plus 32 modulo 2^32 |
| Bits.CDiv | BootVgaInitialization.c:1147 | C division by a positive constant truncates toward zero: the floor quotient for non-negative dividends, the negated quotient of the negation otherwise |
| Bits.MergeReadsBack | BootVgaInitialization.c:533-546 | after a read-modify-write whose field lies inside its mask, the field reads back and every bit outside the mask is the prior one |
| Bits.MergeKeeps | BootVgaInitialization.c:533-546 | a read-modify-write keeps every bit disjoint from its mask |
| VideoStandards.DetectAvType | BootVgaInitialization.c:86-99 | AV-pack byte 0 is SCART RGB, 1 HDTV, 2 VGA, 4 S-Video, and every other byte composite, each as an if-and-only-if |
| VideoStandards.DetectVideoStd | BootVgaInitialization.c:460-471 | NTSC exactly when the EEPROM byte is 0x40, PAL B/D/G/H/I exactly otherwise |
| VideoStandards.VActiveOAdjust | BootVgaInitialization.c:547-562 | V_ACTIVEO gets one extra line for the 525-line standards (NTSC, NTSC60, PAL-M, PAL60) and two for the others |
| VideoStandards.ModePattern | BootVgaInitialization.c:672-697 | the standard bits of register 0xa2 never touch 0x41; PAL_MD is set for every standard but NTSC and NTSC60; 625LINE for the 625-line standards; VSYNC_DUR for the 525-line standards and PAL-N; SETUP for NTSC, PAL-N and PAL-M |
| ModeTiming.CalcVActiveO | BootVgaInitialization.c:473-480 | the active output line count rounded up: the least `r` with `r * v_linesi >= v_activei * tlo` |
| ModeTiming.CalcVActiveOAsWritten | BootVgaInitialization.c:473-480 | `CalcV_ACTIVEO` as written, truncated: never more than the rounded-up count and at most one line less |
| ModeTiming.VActiveOAsWrittenFallsShort | BootVgaInitialization.c:473-480 | for NTSC, 293 active lines and 304 input lines, the formula as written gives 253 lines, fewer than the active lines need |
| ModeTiming.VActiveORoundsUpWhereWrittenTruncates | BootVgaInitialization.c:473-480 | for the same input the rounded-up count is 254, one more than the formula as written |
| ModeTiming.VActiveOAgreesOnEvenHeights | BootVgaInitialization.c:473-480 | for an even active height the formula as written and the rounded-up count agree |
| ModeTiming.CalcHClkO | BootVgaInitialization.c:482-490 | H_CLKO is `v_linesi * h_clki / (tlo * clk_ratio)` rounded half up |
| ModeTiming.HClkORecoversSolverClock | BootVgaInitialization.c:482-490 | when the line periods agree exactly, `CalcH_CLKO` gives back the output clock the search chose |
| ModeTiming.DeriveGpuParameter | BootVgaInitialization.c:1137-1147 | the GPU plan keeps the picture size. The NV totals are the input totals minus one. The CRTC display end is 8 pixels past the width. Sync starts `h_blanki + 7` clocks and `v_blanki - 1` lines before the end of the line and frame. The CRTC window is shifted 32 lines down, with the blank interval `v_linesi - v_activei`. The pixel depth is `(bpp + 1) / 8`, truncated |
| OverscanSearch.ToleranceIsExact | BootVgaInitialization.c:1076-1079 | the test `abs(TLI * HCLKI - tlo * HCLKO * ratio) < 1e-3` holds exactly when `4 * TLI * HCLKI == T * HCLKO * R` |
| OverscanSearch.PrecedesTotal | BootVgaInitialization.c:1062-1073 | the enumeration order (ratio 1.0 before 1.5, then ascending TLI, then ascending HCLKO) is a strict total order |
| OverscanSearch.ChosenUnique | BootVgaInitialization.c:1062-1098 | at most one candidate is the search's answer |
| OverscanSearch.BestSoFarStep | BootVgaInitialization.c:1073-1097 | looking at one candidate with the strict `<` test keeps the best-so-far invariant one output clock further on |
| OverscanSearch.BestSoFarNextLine | BootVgaInitialization.c:1066-1073 | finishing the output-clock loop moves the invariant to the next line count |
| OverscanSearch.BestSoFarNextRatio | BootVgaInitialization.c:1062-1066 | finishing the line-count loop moves the invariant to the next clock ratio |
| OverscanSearch.BestSoFarDone | BootVgaInitialization.c:1100-1107 | after the loops the best metric is still 1000 exactly when nothing was kept, and then no valid candidate scores below 1000; otherwise the kept candidate is the chosen one |
| OverscanSearch.TracksStep | BootVgaInitialization.c:1084-1096 | the best-so-far metric, TLI, HCLKI and ratio variables stay those of the invariant's winner after one candidate |
| OverscanSearch.TracksNextLine | BootVgaInitialization.c:1066-1073 | the tracked variables carry over to the next line count |
| OverscanSearch.TracksNextRatio | BootVgaInitialization.c:1062-1066 | the tracked variables carry over to the next clock ratio |
| OverscanSearch.ScanOutputClocks | BootVgaInitialization.c:1073-1097 | the innermost loop establishes the invariant for the whole output-clock range of one line count |
| OverscanSearch.ScanLineCounts | BootVgaInitialization.c:1066-1098 | the middle loop establishes the invariant for the whole line-count range of one clock ratio |
| OverscanSearch.FindOverscanValues | BootVgaInitialization.c:1004-1108 | the request fields are copied even on failure. It succeeds exactly when some in-range valid candidate scores below 1000. On success it returns the chosen candidate: valid, of least metric, and first in enumeration order among the equals. On failure the solution fields are untouched |
| NvGpu.Gpu.Write32 | BootVgaInitialization.c:750-797 | a 32-bit store changes that register only and is logged |
| NvGpu.Gpu.GetCrtc | BootVgaInitialization.c:450-453 | reading selects the index and returns that bank entry, changing nothing else |
| NvGpu.Gpu.SetCrtc | BootVgaInitialization.c:455-458 | a store selects the index and changes that bank entry only |
| NvGpu.Gpu.UpdateCrtc | BootVgaInitialization.c:767 | a CRTC read-modify-write changes the masked bits of one entry |
| NvGpu.VSyncStartReg7 | BootVgaInitialization.c:800 | the vertical sync start's overflow bits land only in 0x84 of register 7 |
| NvGpu.VTotalReg7 | BootVgaInitialization.c:804 | the vertical total's overflow bits land only in 0x21 of register 7 |
| NvGpu.VDispEndReg7 | BootVgaInitialization.c:811 | the display end's overflow bits land only in 0x42 of register 7 |
| NvGpu.VBlankStartReg7 | BootVgaInitialization.c:817 | the blank start's bit 8 lands only in 0x08 of register 7 |
| NvGpu.VBlankStartReg9 | BootVgaInitialization.c:815 | the blank start's bit 9 lands only in 0x20 of register 9 |
| NvGpu.GpuMmioFrame | BootVgaInitialization.c:750-797 | the 32-bit timing stores change only the fourteen NV timing offsets and leave all of them defined |
| NvGpu.HorizontalNvFields | BootVgaInitialization.c:750-762 | NVHSYNCEND is NVHSYNCSTART + 32; NVHVALIDSTART is 0; NVHCRTC and NVHVALIDEND are `xres - 1`; NVHTOTAL and NVHDISPEND as planned |
| NvGpu.VerticalNvFields | BootVgaInitialization.c:785-797 | NVVSYNCEND is NVVSYNCSTART + 3; NVVVALIDSTART is 0; NVVDISPEND, NVVCRTC and NVVVALIDEND are `yres - 1`; NVVTOTAL as planned |
| NvGpu.SetHorizontalNv | BootVgaInitialization.c:750-762 | the horizontal 32-bit stores, as `HorizontalNv` |
| NvGpu.SetVerticalNv | BootVgaInitialization.c:785-797 | the vertical 32-bit stores, as `VerticalNv` |
| NvGpu.HSyncCrtcFields | BootVgaInitialization.c:763-767 | only registers 4 and 5 change. The sync start character is `(nvhtotal - 32) / 8`. The sync end is 16 pixels (two characters) later in 5 bits. The top bits of register 5 are kept |
| NvGpu.SetHSyncCrtc | BootVgaInitialization.c:763-767 | the sync stores, as `HSyncCrtc` |
| NvGpu.HTotalCrtcFields | BootVgaInitialization.c:768-774 | only registers 0, 2, 3 and 5 change. The total character is `nvhtotal / 8 - 5`. The six-bit blank end is that total plus 4, split over registers 3 and 5. All other bits of 3 and 5 are kept |
| NvGpu.SetHTotalCrtc | BootVgaInitialization.c:768-774 | the total and blank stores, as `HTotalCrtc` |
| NvGpu.HDispEndCrtcFields | BootVgaInitialization.c:775-779 | registers 1 and 2 hold the display-end character and register 0x17 ends with bit 7 set and its other bits kept |
| NvGpu.HDispEndBracketed | BootVgaInitialization.c:776-779 | bit 7 of 0x17 is cleared before registers 1 and 2 are stored and set again afterwards, in that order |
| NvGpu.SetHDispEndCrtc | BootVgaInitialization.c:775-779 | the display-end stores, as `HDispEndCrtc` |
| NvGpu.LineStrideCrtcFields | BootVgaInitialization.c:780-783 | only 0x13 and 0x19 change; the 11-bit stride reads back from them and the low bits of 0x19 are kept |
| NvGpu.SetLineStrideCrtc | BootVgaInitialization.c:780-783 | the stride stores, as `LineStrideCrtc` |
| NvGpu.VSyncStartCrtcFields | BootVgaInitialization.c:798-801 | only 7 and 0x10 change; the 10-bit sync start reads back; the other bits of 7 are kept |
| NvGpu.SetVSyncStartCrtc | BootVgaInitialization.c:798-801 | the sync-start stores, as `VSyncStartCrtc` |
| NvGpu.VTotalCrtcFields | BootVgaInitialization.c:802-808 | only 6, 7 and 0x16 change. The 10-bit total reads back. Register 0x16 holds its low seven bits and keeps its own bit 7 |
| NvGpu.SetVTotalCrtc | BootVgaInitialization.c:802-808 | the total stores, as `VTotalCrtc` |
| NvGpu.VDispEndCrtcFields | BootVgaInitialization.c:809-812 | only 7 and 0x12 change; `yres - 1` reads back in 10 bits; the other bits of 7 are kept |
| NvGpu.SetVDispEndCrtc | BootVgaInitialization.c:809-812 | the display-end stores, as `VDispEndCrtc` |
| NvGpu.VBlankStartCrtcFields | BootVgaInitialization.c:813-818 | only 7, 9 and 0x15 change; `yres - 1` reads back in 10 bits; the other bits of 7 and 9 are kept |
| NvGpu.SetVBlankStartCrtc | BootVgaInitialization.c:813-818 | the blank-start stores, as `VBlankStartCrtc` |
| NvGpu.LineCompareCrtcFields | BootVgaInitialization.c:819-825 | only 7, 9 and 0x18 change; the line compare reads back as 0x3ff; the other bits of 7 and 9 are kept |
| NvGpu.SetLineCompareCrtc | BootVgaInitialization.c:819-825 | the line-compare stores, as `LineCompareCrtc` |
| NvGpu.OverflowFields | BootVgaInitialization.c:834-847 | register 0x25 carries bit 10 of the vertical total, display end, sync start and blank start, and bit 6 of the total character, in its low five bits; its top three bits are clear |
| NvGpu.SetRepaintOverflowCrtc | BootVgaInitialization.c:826-847 | the repaint and overflow stores, as `RepaintOverflowCrtc` |
| NvGpu.PixelModeFields | BootVgaInitialization.c:849-853 | register 0x28 is `min(pixelDepth, 3) \| 0x80` |
| NvGpu.PixelModeCrtcFields | BootVgaInitialization.c:849-859 | only 0x28 and 0x2d change; 0x2d keeps its top three bits and its low bits are 1 exactly for a long line and 0 otherwise |
| NvGpu.SetPixelModeCrtc | BootVgaInitialization.c:849-859 | the pixel-mode stores, as `PixelModeCrtc` |
| NvGpu.HorizontalRegisters | BootVgaInitialization.c:763-783 | the horizontal CRTC group leaves each of its nine registers as a function of the plan and that register's prior value |
| NvGpu.HorizontalFrame | BootVgaInitialization.c:763-783 | the horizontal CRTC group changes no other register |
| NvGpu.VerticalRegisters | BootVgaInitialization.c:798-818 | the vertical CRTC group leaves each of its seven registers as a function of the plan and that register's prior value |
| NvGpu.VerticalFrame | BootVgaInitialization.c:798-818 | the vertical CRTC group changes no other register |
| NvGpu.ControlRegisters | BootVgaInitialization.c:819-859 | the control CRTC group leaves each of its seven registers as a function of the plan and that register's prior value |
| NvGpu.ControlFrame | BootVgaInitialization.c:819-859 | the control CRTC group changes no other register |
| NvGpu.HTotalCharFields | BootVgaInitialization.c:769 | register 0 plus 5 is the total character |
| NvGpu.HSyncFields | BootVgaInitialization.c:763-774 | register 4 plus 4 is `nvhtotal / 8` less the sync offset; register 5's sync end is register 4 plus 1 in 5 bits, bits 5-6 kept |
| NvGpu.HBlankEndFields | BootVgaInitialization.c:773-774 | the blank end split over registers 3 and 5 reads back as the total character plus 4 in six bits |
| NvGpu.LineStrideFields | BootVgaInitialization.c:782-783 | the stride reads back in 11 bits and the low five bits of 0x19 are kept |
| NvGpu.FinalReg17Fields | BootVgaInitialization.c:776-779 | register 0x17 ends as its prior value with bit 7 set |
| NvGpu.VerticalReg7Fields | BootVgaInitialization.c:799-817 | after the vertical group each field of register 7 holds its own overflow bits |
| NvGpu.VerticalReg9Fields | BootVgaInitialization.c:814-815 | register 9 gets the blank start's bit 9 and keeps its other bits but bit 6 |
| NvGpu.LineCompareReg7Fields | BootVgaInitialization.c:821-822 | the line compare sets bit 4 of register 7 and keeps the fields stored before |
| NvGpu.LineCompareReg9Fields | BootVgaInitialization.c:823-824 | the line compare sets bit 6 of register 9 and keeps its other bits |
| NvGpu.FinalReg16Fields | BootVgaInitialization.c:807-808 | register 0x16 holds the total's low seven bits and keeps bit 7 |
| NvGpu.FinalReg2dFields | BootVgaInitialization.c:855-859 | register 0x2d keeps its top three bits; its low bits are 1 exactly for a long line |
| NvGpu.VTotalDecode | BootVgaInitialization.c:802-808 | registers 6, 7 and 0x25 together give back the 11-bit vertical total |
| NvGpu.VSyncStartDecode | BootVgaInitialization.c:798-801 | registers 0x10, 7 and 0x25 together give back the 11-bit sync start |
| NvGpu.VDispEndDecode | BootVgaInitialization.c:809-812 | registers 0x12, 7 and 0x25 together give back the 11-bit display end |
| NvGpu.VBlankStartDecode | BootVgaInitialization.c:813-818 | registers 0x15, 7, 9 and 0x25 together give back the 11-bit blank start |
| NvGpu.LineCompareDecode | BootVgaInitialization.c:819-825 | registers 0x18, 7 and 9 give back the line compare 0x3ff |
| NvGpu.FinalVTotal | BootVgaInitialization.c:802-847 | after `SetGPURegister` the vertical total reads back in 11 bits |
| NvGpu.FinalVSyncStart | BootVgaInitialization.c:798-847 | after `SetGPURegister` the sync start reads back in 11 bits |
| NvGpu.FinalVDispEnd | BootVgaInitialization.c:809-847 | after `SetGPURegister` the display end reads back in 11 bits |
| NvGpu.FinalVBlankStart | BootVgaInitialization.c:813-847 | after `SetGPURegister` the blank start reads back in 11 bits |
| NvGpu.FinalLineCompare | BootVgaInitialization.c:819-825 | after `SetGPURegister` the line compare reads back as 0x3ff and register 9 keeps its unrelated bits |
| NvGpu.FinalReg7Determined | BootVgaInitialization.c:799-822 | the five masks used on register 7 cover the byte, so its prior value does not show in the result |
| NvGpu.GpuCrtcReg7Determined | BootVgaInitialization.c:799-822 | CRTC register 7 after `SetGPURegister` is the same whatever the bank held |
| NvGpu.GpuCrtcFrame | BootVgaInitialization.c:763-859 | `SetGPURegister` changes only the 21 CRTC timing registers |
| NvGpu.VerticalKeepsHorizontal | BootVgaInitialization.c:798-818 | the vertical group keeps the horizontal registers |
| NvGpu.ControlKeepsHorizontal | BootVgaInitialization.c:819-859 | the control group keeps the horizontal registers |
| NvGpu.GpuCrtcHorizontalRegisters | BootVgaInitialization.c:763-783 | the horizontal registers after the whole procedure |
| NvGpu.GpuCrtcVerticalRegisters | BootVgaInitialization.c:798-825 | the vertical registers after the whole procedure |
| NvGpu.GpuCrtcControlRegisters | BootVgaInitialization.c:826-859 | the control registers after the whole procedure |
| NvGpu.GpuCrtcHorizontalFields | BootVgaInitialization.c:763-783 | after the whole procedure: sync start and end, total, both display-end registers, blank end, 0x17 bit 7 and the stride read back; the unrelated bits of 3, 5 and 0x19 are kept |
| NvGpu.GpuCrtcVerticalFields | BootVgaInitialization.c:798-825 | after the whole procedure the vertical total, sync start, display end, blank start and line compare all read back; 0x16 mirrors the total's low bits; unrelated bits of 9 and 0x16 are kept |
| NvGpu.GpuCrtcControlFields | BootVgaInitialization.c:826-859 | after the whole procedure: repaint, pixel mode and long-line bit as planned; bit 6 of the total character is in 0x25; 0x25's top bits are clear |
| NvGpu.SetHorizontalTiming | BootVgaInitialization.c:750-783 | the horizontal NV and CRTC stores |
| NvGpu.SetVerticalTiming | BootVgaInitialization.c:785-818 | the vertical NV and CRTC stores |
| NvGpu.SetControlCrtc | BootVgaInitialization.c:819-859 | the line compare, repaint, overflow and pixel-mode stores |
| NvGpu.SetGpuRegister | BootVgaInitialization.c:745-860 | the GPU registers, CRTC bank and store log after `SetGPURegister` |
| Conexant.Encoder.Read | BootVgaInitialization.c:497 | a read returns the register's byte |
| Conexant.Encoder.Write | BootVgaInitialization.c:496 | a store changes one register and is logged |
| Conexant.Encoder.Update | BootVgaInitialization.c:534-535 | a read-modify-write stores the merged byte into one register and logs it |
| Conexant.TimingResetFields | BootVgaInitialization.c:515-517 | the timing reset changes only 0x6c, setting bit 7 and keeping bits 0-6 |
| Conexant.ResetTiming | BootVgaInitialization.c:515-517 | the timing reset, as `TimingReset` |
| Conexant.VgaEncoderFields | BootVgaInitialization.c:492-518 | only the registers the VGA sequence names change. PLL_INT is the given value and PLL_FRACT is 0. Register 0x6c ends as 0xc6, EN_OUT is 1 and DAC control is 0x28 |
| Conexant.VgaIgnoresPriorState | BootVgaInitialization.c:492-518 | every register the VGA sequence stores to ends the same whatever the encoder held |
| Conexant.VgaWritesEnd | BootVgaInitialization.c:512-517 | the VGA sequence ends with the output-mode store and then 0xc6 into 0x6c |
| Conexant.SetVgaConexantRegister | BootVgaInitialization.c:492-518 | the encoder registers and log after the VGA sequence, and the GPU colour-space store of 0 |
| Conexant.PllIntIsQuotient | BootVgaInitialization.c:601 | `dwInt` is the ratio divided by 0x10000 |
| Conexant.PllFractIsRemainder | BootVgaInitialization.c:602 | `dwFract` is the ratio minus `dwInt * 0x10000` |
| Conexant.SplitPllRatio | BootVgaInitialization.c:601-602 | the firmware's division and subtraction give the integer and fraction parts |
| Conexant.PllSplit | BootVgaInitialization.c:601-602 | both parts are below 0x10000 and `dwInt * 0x10000 + dwFract` is the ratio |
| Conexant.BurstEndClamp | BootVgaInitialization.c:624-629 | the stored burst end is the position minus 128, and 0 for a position of at most 128, never more than the position |
| Conexant.SetTvPreamble | BootVgaInitialization.c:528-531 | autoconfig, pseudo-master mode and DRVS stores |
| Conexant.SetHClkI | BootVgaInitialization.c:533-536 | the H_CLKI stores |
| Conexant.SetHClkO | BootVgaInitialization.c:537-540 | the H_CLKO stores |
| Conexant.SetVLinesI | BootVgaInitialization.c:541-546 | the V_LINESI stores |
| Conexant.TvTimingOf | BootVgaInitialization.c:523-525 | the encoder timing of a solved mode; for every even active height its V_ACTIVEO is the value the firmware's truncating `CalcV_ACTIVEO` gives |
| Conexant.ActiveLinesOut | BootVgaInitialization.c:547-562 | the V_ACTIVEO field is the active output lines plus one for the 525-line standards and plus two for the 625-line ones |
| Conexant.SetVActiveO | BootVgaInitialization.c:547-565 | the V_ACTIVEO stores with the per-standard extra line count |
| Conexant.SetHActive | BootVgaInitialization.c:566-569 | the H_ACTIVE stores of `h_active + 5` |
| Conexant.SetVActiveI | BootVgaInitialization.c:570-573 | the V_ACTIVEI stores |
| Conexant.SetHBlankI | BootVgaInitialization.c:574-579 | the H_BLANKI stores |
| Conexant.SetHBlankO | BootVgaInitialization.c:580-583 | the H_BLANKO stores |
| Conexant.SetVScale | BootVgaInitialization.c:585-591 | the V_SCALE stores |
| Conexant.SetVBlank | BootVgaInitialization.c:592-595 | the V_BLANKO and V_BLANKI stores |
| Conexant.SetPll | BootVgaInitialization.c:596-606 | the PLL split and stores |
| Conexant.SetClockMode | BootVgaInitialization.c:612-617 | the 3:2 clocking bit, set exactly for clock ratio 1.5 |
| Conexant.SetBurstStart | BootVgaInitialization.c:619-623 | the burst start stores |
| Conexant.SetBurstEnd | BootVgaInitialization.c:624-629 | the clamped burst end stores |
| Conexant.SetHSyncWidth | BootVgaInitialization.c:630-632 | the sync width store |
| Conexant.SetSubcarrier | BootVgaInitialization.c:634-647 | the four subcarrier increment stores |
| Conexant.SetWss | BootVgaInitialization.c:648-671 | the three WSS increment stores |
| Conexant.SetModeRegister | BootVgaInitialization.c:672-697 | register 0xa2 keeps bits 0x41 and gets the standard's pattern |
| Conexant.RoutingConsistent | BootVgaInitialization.c:698-735 | a VGA connector changes no routing. In every other routing the GPU sends RGB exactly when the encoder expects RGB input, and YCrCb exactly when it expects YCrCb. Only SCART enables the SCART output and the RGB output mode. No routing sets the timing reset bit |
| Conexant.SetOutputRouting | BootVgaInitialization.c:698-735 | the connector-dependent encoder stores and GPU colour-space and offset stores |
| Conexant.SetTvInputTiming | BootVgaInitialization.c:533-546 | the input timing group |
| Conexant.SetTvActiveArea | BootVgaInitialization.c:547-573 | the active area group |
| Conexant.SetTvBlanking | BootVgaInitialization.c:574-595 | the blanking group |
| Conexant.SetTvClocking | BootVgaInitialization.c:596-633 | the PLL, clock mode, burst and sync width group |
| Conexant.SetTvCarriers | BootVgaInitialization.c:634-671 | the subcarrier and WSS group |
| Conexant.TvWritesEnd | BootVgaInitialization.c:739-742 | the TV sequence ends with EN_OUT (0x01 into 0xc4) and, directly after it, 0x6c with bit 7 set and bits 0-6 as read |
| Conexant.SetTvConexantRegister | BootVgaInitialization.c:520-743 | the encoder registers and log and the GPU colour-space stores after the TV sequence |
| Conexant.TvPreambleFrame | BootVgaInitialization.c:528-531 | the preamble changes only its three registers |
| Conexant.TvInputRegisters | BootVgaInitialization.c:533-546 | each register of the input timing group as a function of its prior value and the timing |
| Conexant.TvInputFrame | BootVgaInitialization.c:533-546 | the input timing group changes only its registers |
| Conexant.TvActiveRegisters | BootVgaInitialization.c:547-573 | each register of the active area group |
| Conexant.TvActiveFrame | BootVgaInitialization.c:547-573 | the active area group changes only its registers |
| Conexant.TvBlankingRegisters | BootVgaInitialization.c:574-595 | each register of the blanking group |
| Conexant.TvBlankingFrame | BootVgaInitialization.c:574-595 | the blanking group changes only its registers |
| Conexant.TvClockingRegisters | BootVgaInitialization.c:596-633 | each register of the clocking group |
| Conexant.TvClockingFrame | BootVgaInitialization.c:596-633 | the clocking group changes only its registers |
| Conexant.TvCarrierRegisters | BootVgaInitialization.c:634-671 | each register of the carrier group |
| Conexant.TvCarrierFrame | BootVgaInitialization.c:634-671 | the carrier group changes only its registers |
| Conexant.TvRoutingRegisters | BootVgaInitialization.c:672-735 | the mode register and the connector registers: the routing's values, or unchanged for VGA |
| Conexant.TvRoutingFrame | BootVgaInitialization.c:672-735 | the mode and routing group changes only its registers |
| Conexant.TvFinishRegisters | BootVgaInitialization.c:739-742 | EN_OUT is 1 and 0x6c gets bit 7 |
| Conexant.TvFinishFrame | BootVgaInitialization.c:739-742 | the finish changes only 0xc4 and 0x6c |
| Conexant.TvGroupFrame | BootVgaInitialization.c:520-743 | each group of the TV sequence changes only its own registers |
| Conexant.TvEncoderFrame | BootVgaInitialization.c:520-743 | the TV sequence changes no register outside its groups |
| Conexant.TvEncoderPreambleRegisters | BootVgaInitialization.c:528-531 | after the whole sequence 0xb8 is 0x07 and 0x32 is 0x28 |
| Conexant.TvEncoderInputRegisters | BootVgaInitialization.c:533-546 | after the whole sequence the low bytes of H_CLKI, H_CLKO and V_LINESI are stored |
| Conexant.TvEncoderActiveRegisters | BootVgaInitialization.c:547-573 | after the whole sequence the low bytes of V_ACTIVEO, H_ACTIVE and V_ACTIVEI are stored |
| Conexant.TvEncoderShared86And96 | BootVgaInitialization.c:537-573 | the shared registers 0x86 and 0x96 end as the composition of their field updates |
| Conexant.TvEncoderBlankingRegisters | BootVgaInitialization.c:574-595 | after the whole sequence the blanking and scale bytes are stored |
| Conexant.TvEncoderShared8e | BootVgaInitialization.c:533-579 | the shared register 0x8e ends as the composition of its field updates |
| Conexant.TvEncoderClockingRegisters | BootVgaInitialization.c:596-633 | after the whole sequence the PLL, burst and sync bytes are stored |
| Conexant.TvEncoderShared38 | BootVgaInitialization.c:541-629 | the shared register 0x38 ends as the composition of its six field updates |
| Conexant.TvEncoderCarrierRegisters | BootVgaInitialization.c:634-671 | after the whole sequence the subcarrier and WSS bytes are stored |
| Conexant.TvEncoderOutputRegisters | BootVgaInitialization.c:672-742 | after the whole sequence 0xa2 holds the mode pattern, EN_OUT is 1 and 0x6c is the routed field mode with bit 7 |
| Conexant.TvEncoderRoutingRegisters | BootVgaInitialization.c:698-735 | after the whole sequence the connector registers hold the routing's values, or are unchanged for VGA |
| ConexantFields.HClkODecode | BootVgaInitialization.c:537-540 | H_CLKO reads back in 12 bits from 0x86 and 0x76 |
| ConexantFields.VActiveODecode | BootVgaInitialization.c:563-565 | V_ACTIVEO reads back in 9 bits from 0x86 and 0x84 |
| ConexantFields.HActiveDecode | BootVgaInitialization.c:566-569 | H_ACTIVE reads back in 11 bits from 0x86 and 0x78 |
| ConexantFields.Final86Fields | BootVgaInitialization.c:537-569 | the three fields sharing 0x86 (masks 0x0f, 0x80, 0x70) all read back after the last one is stored |
| ConexantFields.VLinesIHigh96 | BootVgaInitialization.c:544-545 | bits 8-9 of V_LINESI are in 0x96 bits 0-1 |
| ConexantFields.VActiveIDecode | BootVgaInitialization.c:570-573 | V_ACTIVEI reads back in 10 bits from 0x96 and 0x94 |
| ConexantFields.Kept96 | BootVgaInitialization.c:544-572 | the top four bits of 0x96 are kept |
| ConexantFields.Final96Fields | BootVgaInitialization.c:544-573 | both fields sharing 0x96 (masks 0x03, 0x0c) read back and its other bits are kept |
| ConexantFields.HClkIDecode | BootVgaInitialization.c:533-536 | H_CLKI reads back in 11 bits from 0x8e and 0x8a |
| ConexantFields.HBlankIHigh8e | BootVgaInitialization.c:577-578 | bit 8 of H_BLANKI is bit 3 of 0x8e |
| ConexantFields.Kept8e | BootVgaInitialization.c:534-578 | the top four bits of 0x8e are kept |
| ConexantFields.Final8eFields | BootVgaInitialization.c:533-579 | both fields sharing 0x8e (masks 0x07, 0x08) read back and its other bits are kept |
| ConexantFields.HBlankIHigh38 | BootVgaInitialization.c:575-576 | bit 9 of H_BLANKI is bit 0 of 0x38 |
| ConexantFields.VLinesIHigh38 | BootVgaInitialization.c:542-543 | bit 10 of V_LINESI is bit 1 of 0x38 |
| ConexantFields.BurstStartDecode | BootVgaInitialization.c:620-623 | the burst start reads back in 9 bits from 0x38 and 0x7c |
| ConexantFields.BurstEndDecode | BootVgaInitialization.c:625-629 | the clamped burst end reads back in 9 bits from 0x38 and 0x7e |
| ConexantFields.ClockModeDecode | BootVgaInitialization.c:612-617 | bit 5 of 0x38 is set exactly for the 3:2 clock ratio |
| ConexantFields.Kept38 | BootVgaInitialization.c:542-628 | bits 4, 6 and 7 of 0x38 are kept |
| ConexantFields.Final38Fields | BootVgaInitialization.c:541-629 | all five fields sharing 0x38 (masks 0x01, 0x02, 0x04, 0x08, 0x20) read back after the last store and its other bits are kept |
| ConexantFields.HBlankODecode | BootVgaInitialization.c:580-583 | H_BLANKO reads back in 10 bits from 0x9a and 0x80 |
| ConexantFields.VScaleDecode | BootVgaInitialization.c:589-591 | V_SCALE reads back in 14 bits from 0x9a and 0x98 |
| ConexantFields.Final9aFields | BootVgaInitialization.c:580-591 | both fields sharing 0x9a (masks 0xc0, 0x3f) read back |
| ConexantFields.PllIntDecode | BootVgaInitialization.c:603-604 | the low six bits of 0xa0 are those of `dwInt` |
| ConexantFields.PllTopClear | BootVgaInitialization.c:530-604 | the top two bits of 0xa0 end clear |
| ConexantFields.FinalA0Fields | BootVgaInitialization.c:530-604 | 0xa0 holds the low six bits of `dwInt` and nothing above |
| ConexantFields.PllFractDecode | BootVgaInitialization.c:605-606 | `dwFract` reads back from 0x9e and 0x9c |
| ConexantFields.SubcarrierDecode | BootVgaInitialization.c:643-646 | the 32-bit subcarrier increment reads back from 0xb4, 0xb2, 0xb0 and 0xae |
| ConexantFields.SubcarrierReadBack | BootVgaInitialization.c:643-646 | registers holding the four subcarrier bytes give back the increment |
| ConexantFields.WssDecode | BootVgaInitialization.c:668-670 | the 20-bit WSS increment reads back from 0x6a, 0x68 and 0x66 |
| ConexantFields.WssReadBack | BootVgaInitialization.c:668-670 | registers holding the three WSS bytes give back the increment's low 20 bits |
| ConexantFields.VLinesIJoin | BootVgaInitialization.c:541-546 | the 11-bit V_LINESI reassembles from 0x38 bit 1, 0x96 bits 0-1 and 0x90 |
| ConexantFields.HBlankIJoin | BootVgaInitialization.c:574-579 | the 10-bit H_BLANKI reassembles from 0x38 bit 0, 0x8e bit 3 and 0x8c |
| ConexantFields.SpreadFields | BootVgaInitialization.c:541-579 | after the whole sequence V_LINESI and H_BLANKI, each spread over three registers, read back |
| ConexantFields.ModeRegKept | BootVgaInitialization.c:673 | the mode register keeps bits 0x41 |
| ConexantFields.ModeRegPattern | BootVgaInitialization.c:672-697 | the other bits of the mode register are the standard's pattern |
| ConexantFields.ResetBitSet | BootVgaInitialization.c:739-742 | 0x6c ends with bit 7 set |
| ConexantFields.FieldModeKept | BootVgaInitialization.c:698-742 | bits 0-6 of 0x6c are those the routing left |
| ConexantFields.TvEncoderClockFields | BootVgaInitialization.c:533-540 | after the whole sequence H_CLKI and H_CLKO read back |
| ConexantFields.TvEncoderLineFields | BootVgaInitialization.c:541-573 | after the whole sequence V_LINESI and V_ACTIVEI read back |
| ConexantFields.TvEncoderActiveFields | BootVgaInitialization.c:547-569 | after the whole sequence V_ACTIVEO and H_ACTIVE read back |
| ConexantFields.TvEncoderBlankingFields | BootVgaInitialization.c:574-595 | after the whole sequence H_BLANKI, H_BLANKO, V_SCALE, V_BLANKO and V_BLANKI read back |
| ConexantFields.TvEncoderPllFields | BootVgaInitialization.c:596-606 | after the whole sequence the PLL parts read back |
| ConexantFields.TvEncoderBurstFields | BootVgaInitialization.c:612-632 | after the whole sequence the clock mode, burst positions and sync width read back |
| ConexantFields.TvEncoderCarrierFields | BootVgaInitialization.c:634-671 | after the whole sequence the subcarrier and WSS increments read back |
| ConexantFields.TvEncoderReadsBack | BootVgaInitialization.c:520-743 | every timing field programmed by `SetTVConexantRegister` reads back from the registers it leaves |
| ConexantFields.TvTimingIgnoresPriorState | BootVgaInitialization.c:520-743 | the timing fields read back the same whatever the encoder held before |
| ConexantFields.TvEncoderControlBits | BootVgaInitialization.c:520-743 | the control bits no field owns are kept (0x38, 0x8e, 0x96, 0xa2 bits 0x41), 0xa0's top bits are clear, 0xa2 holds the standard's pattern, 0x6c has bit 7 with the routed field mode, and EN_OUT is 1 |
| VideoBoot.TvStart | BootVgaInitialization.c:224-231 | only the 1024x576 mode stores into the encoder before the TV programming |
| VideoBoot.ModeGeometry | BootVgaInitialization.c:199-233 | the switch lists five modes, each smaller than 1024x601 with margins inside the picture, and has no case for any other index |
| VideoBoot.ListedModesRoundUp | BootVgaInitialization.c:199-233 | for every listed mode `CalcV_ACTIVEO` as written already rounds up |
| VideoBoot.VgaPlanTiming | BootVgaInitialization.c:174-193 | the VGA plan's CRTC timing: 128 characters, last displayed character 99, stride 400, sync start 614, total 630, last line 599, repaint 0x04, depth 4, no long line |
| VideoBoot.OverscanFactors | BootVgaInitialization.c:117-127 | NTSC encoding exactly for the byte 0x40; the factors lie between 13% and 16% horizontally and 14% and 15% vertically |
| VideoBoot.EncodingMatchesStandard | BootVgaInitialization.c:109-127 | the encoding reported is the one the standard detector chooses |
| VideoBoot.SetOverscanFactors | BootVgaInitialization.c:117-127 | the overscan factors and encoding for the EEPROM byte, nothing else changed |
| VideoBoot.SelectTvMode | BootVgaInitialization.c:199-233 | a listed mode sets its size and margins. An unlisted one keeps them. Only 1024x576 stores into the encoder |
| VideoBoot.SetAutoParameter | BootVgaInitialization.c:1111-1151 | the encoder is programmed for the solved mode first. The GPU is then programmed with the plan `DeriveGpuParameter` gives. Both logs are stated |
| VideoBoot.SolvedModeKeepsOutputClock | BootVgaInitialization.c:482-490 | for the search's answer `CalcH_CLKO` is exactly the chosen output clock |
| VideoBoot.SwitchVideoOn | BootVgaInitialization.c:258-280 | the final encoder values 0x81, 0x49, 0x8c are recorded, stored as 0 and then stored again |
| VideoBoot.ProgramVga | BootVgaInitialization.c:160-196 | the VGA path programs the encoder with PLL 0x10 and the GPU with the fixed 800x600 plan |
| VideoBoot.ProgramTv | BootVgaInitialization.c:234-242 | the TV path stores nothing unless the search succeeds, and then programs the solved mode |
| VideoBoot.BootVga | BootVgaInitialization.c:160-196 | the VGA branch through the final switch-on |
| VideoBoot.BootTv | BootVgaInitialization.c:197-242 | the TV branch through the final switch-on |
| VideoBoot.BootVgaInitializationKernelNG | BootVgaInitialization.c:101-283 | the record gets the AV pack, 32 bits per pixel, the overscan factors and the final values. VGA has a fixed picture, encoder and GPU state. TV has the listed size and the search's success condition and answer. A solved mode is programmed; an unsolved one leaves the GPU alone |

## Left out

- Floating point is not modelled. The following are inputs:
  - the search bounds, rounded input clock, sync-room test and metric;
  - the blanking values of `CalcBlankings`;
  - the PLL ratio, burst positions, sync width, subcarrier and WSS increments.

  NaN and rounding of doubles play no part.
- `CalcBlankings` is not part of this model. Its porch and FIFO heuristics are floating point throughout. Its results are the `blanksOf` input of the boot methods.
- `load.c` is not part of this model. It is kernel file I/O, memory allocation and a jump into the loaded kernel.
- The GPU bring-up around the mode setting in `BootVgaInitializationKernelNG` is not modelled: frame-buffer mapping, CRTC unlocking and the fixed `writeCrtNv` stores, the PRAMDAC stores, palette, sequencer and attribute set-up, vertical interrupt, frame-buffer start, the ACPI port stores and the display re-enable. They go through register macros whose definitions are not part of this model.
- The order of stores across the two devices is not modelled. Each device has its own log, so the model does not say whether an encoder store came before or after a GPU store.
- VideoBoot.BootVgaInitializationKernelNG: states the registers each path leaves, not the store logs. The logs are stated by the procedures it calls, down to `SetAutoParameter`.
- VideoBoot.BootVga: states the registers, not the store logs, for the same reason.
- VideoBoot.BootTv: states the registers, not the store logs, for the same reason.
- VideoBoot.ProgramTv: states the registers, not the store logs, for the same reason.
- VideoBoot.ProgramVga: states the registers, not the store logs, for the same reason.
- The search bounds are parameters and are not tied to the overscan factors the record holds. The firmware derives them from those factors in floating point.
- The encoder is plain storage. The device's own reactions to reset and autoconfig are timing behaviour and are not modelled. Reads, including the dummy reads that wait for completion, do not enter the log.
- The search's `DWORD` loop counters do not wrap. The bounds are taken as given, with the maximum at most the range the loops reach.
- The TV path requires the smallest searched line count to be positive, because `CalcV_ACTIVEO` divides by it. A zero line count would divide by zero in the firmware.
- The mode-index values and the order of the standard enumeration come from `boot.h`, which is not part of this model. The standards are taken in the order of the rows of the standard table.
- The `JUSTVIDEO` diagnostic printing is left out.
- The firmware reads the AV-pack status byte several times (`:111`, `:160`, `:698`) and the EEPROM video-standard byte twice (`:109`, `:114`). The model takes every read of one of these bytes to return the same value, one `avStatus` and one `eeprom` parameter.
- Conexant.TvTimingOf: its V_ACTIVEO field is the rounded-up `ModeTiming.CalcVActiveO`, where the firmware's truncating `CalcV_ACTIVEO` (`:473-480`, called at `:525`) gives one line less for some odd active heights: NTSC with 293 active and 304 input lines gives 254 in the model and 253 in the firmware (`ModeTiming.VActiveORoundsUpWhereWrittenTruncates`). Its contract ties the field to the firmware's value for even active heights only.
- Conexant.SetTvConexantRegister: stores V_ACTIVEO from the rounded-up `ModeTiming.CalcVActiveO`, where the firmware stores the truncated `CalcV_ACTIVEO` (see "## Findings"). The two agree for every even active height (`Conexant.TvTimingOf`), and so for every listed mode (`VideoBoot.ListedModesRoundUp`). For an odd height the model can store one line more than the firmware: NTSC with 293 active and 304 input lines gives 254 + 1 in the model and 253 + 1 in the firmware (`ModeTiming.VActiveORoundsUpWhereWrittenTruncates`).
- VideoBoot.SetAutoParameter: programs the encoder through `Conexant.SetTvConexantRegister`, so it has the same rounded-up V_ACTIVEO for odd active heights.
- VideoBoot.ProgramTv: the same rounded-up V_ACTIVEO for odd active heights.
- VideoBoot.BootTv: the same rounded-up V_ACTIVEO for odd active heights. An odd height can only reach it through an unlisted mode index that keeps an earlier size.
- VideoBoot.BootVgaInitializationKernelNG: the same rounded-up V_ACTIVEO on the TV path for odd active heights, reachable only through an unlisted mode index.

## Findings

| source | as written | input that shows it | evidently intended | confidence | as-written member | corrected member |
|---|---|---|---|---|---|---|
| BootVgaInitialization.c:473-480 | `(v_activei * tlo + v_linesi - 1) / v_linesi`, truncated. This is the integer round-up idiom applied to a product that can end in a half line (tlo is 262.5 or 312.5) | NTSC, `v_activei` = 293, `v_linesi` = 304. The active picture needs 253.0016 output lines and the formula gives 253 | the output line count rounded up, the least `r` with `r * v_linesi >= v_activei * tlo`. For every listed mode the two agree (`VideoBoot.ListedModesRoundUp`), since all listed heights are even | not executed | ModeTiming.CalcVActiveOAsWritten, ModeTiming.VActiveOAsWrittenFallsShort | ModeTiming.CalcVActiveO |
