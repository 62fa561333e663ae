/** `BootVgaInitializationKernelNG` and `SetAutoParameter`: choosing the
    picture, solving the TV timing and programming the encoder and the GPU.

    The video-mode record the boot code fills in is a class whose fields the
    steps below assign. The GPU bring-up around the timing programming (frame
    buffer mapping, palette, sequencer and attribute set-up, the ACPI video
    pins) goes through register macros that are not part of this model and is
    left out; so are the display-enable writes to the sequencer. */
module VideoBoot {
  import opened Bits
  import opened Traces
  import opened Options
  import opened VideoStandards
  import opened ModeTiming
  import opened NvGpu
  import opened Conexant
  import opened OverscanSearch

  /** The video modes the boot menu can ask for. The record's mode index may
      also hold a value the switch does not list. */
  datatype VideoModeIndex = Mode640x480 | Mode640x576 | Mode720x576 | Mode800x600 | Mode1024x576 | Unlisted

  /** The picture size and the recommended margins, in pixels and lines. */
  datatype Geometry = Geometry(width: nat, height: nat, marginX: nat, marginY: nat)

  /** The encoding the record reports to the rest of the boot code. */
  datatype TvEncoding = TvEncodingPal | TvEncodingNtsc

  /** The encoder registers the TV programming starts from: after the mode
      switch's extra stores for the 1024x576 mode, as they were otherwise. */
  function TvStart(index: VideoModeIndex, o: seq<bv8>): (r: seq<bv8>)
    requires IsBank(o)
    ensures IsBank(r)
    ensures index != Mode1024x576 ==> r == o
  {
    if index == Mode1024x576 then WideModeRegs(o) else o
  }

  /** The mode switch of the TV path. It has no default case: an unlisted
      index leaves the size and margins as they were. */
  function ModeGeometry(index: VideoModeIndex): (g: Option<Geometry>)
    ensures g.None? <==> index == Unlisted
    ensures g.Some? ==> g.value.width <= 1024 && g.value.height <= 600
    ensures g.Some? ==> 2 * g.value.marginX < g.value.width && 2 * g.value.marginY < g.value.height
  {
    match index
    case Mode640x480 => Some(Geometry(640, 480, 0, 0))
    case Mode640x576 => Some(Geometry(640, 576, 40, 40))
    case Mode720x576 => Some(Geometry(720, 576, 40, 40))
    case Mode800x600 => Some(Geometry(800, 600, 20, 20))
    case Mode1024x576 => Some(Geometry(1024, 576, 20, 20))
    case Unlisted => None
  }

  /** Every listed height is even, so for every listed mode the V_ACTIVEO
      formula as the firmware writes it and the rounded-up count agree. */
  lemma {:induction false} ListedModesRoundUp(index: VideoModeIndex, mode: ModeParameter)
    requires ModeGeometry(index).Some? && mode.vActiveI == ModeGeometry(index).value.height
    requires mode.vLinesI > 0
    ensures CalcVActiveO(mode) == CalcVActiveOAsWritten(mode)
  {
    VActiveOAgreesOnEvenHeights(mode);
  }

  /** The fixed mode of the VGA path: 800x600 at 56 Hz with 20-pixel margins. */
  const VgaGeometry: Geometry := Geometry(800, 600, 20, 20)

  /** The GPU plan of the VGA path. The CRTC display end is the width and the
      CRTC vertical start and total are the NV ones, without the offsets the
      TV plan uses. */
  const VgaPlan: GpuParameter := GpuParameter(
    xres := 800,
    crtcHDispEnd := 800,
    nvHStart := 900,
    nvHTotal := 1028,
    yres := 600,
    nvVStart := 614,
    crtcVStart := 614,
    crtcVTotal := 630,
    nvVTotal := 630,
    pixelDepth := 4)

  /** The CRTC timing of the VGA plan: a total of 1028 pixels or 128
      characters, 99 as the last displayed character, a stride of 400 eight-byte
      units, vertical sync start 614 and total 630, 599 as the last line,
      repaint value 0x04, four bytes per pixel and no long-line bit. */
  const VgaTiming: CrtcTiming := CrtcTiming(1028, 128, 99, 400, 614, 630, 599, 0x04, 4, false)

  /** The VGA plan's CRTC timing, worked out. */
  lemma VgaPlanTiming()
    ensures TimingOf(VgaPlan) == VgaTiming
  {
    DwFits(1028, 1028);
    DwFits(128, 128);
    DwFits(100, 100);
    DwFits(400, 400);
    DwFits(614, 614);
    DwFits(630, 630);
    DwFits(600, 600);
    DwFits(4, 4);
  }

  /** The encoder PLL integer part of the VGA path. */
  const VgaPllInt: bv8 := 0x10

  /** The overscan factors (as fractions) and the reported encoding, chosen by
      the EEPROM standard byte: the PAL values unless the byte is 0x40. */
  function OverscanFactors(b: bv8): (f: (real, real, TvEncoding))
    ensures f.2 == TvEncodingNtsc <==> b == 0x40
    ensures 0.13 < f.0 < 0.16 && 0.14 < f.1 < 0.15
  {
    if b != 0x40 then (13.44 / 100.0, 14.24 / 100.0, TvEncodingPal)
    else (15.11 / 100.0, 14.81 / 100.0, TvEncodingNtsc)
  }

  /** The reported encoding is the one the standard detector chooses. */
  lemma EncodingMatchesStandard(b: bv8)
    ensures OverscanFactors(b).2 == TvEncodingNtsc <==> DetectVideoStd(b) == Ntsc
    ensures OverscanFactors(b).2 == TvEncodingPal <==> DetectVideoStd(b) == PalBdghi
  {
  }

  /** `CURRENT_VIDEO_MODE_DETAILS`, the part of it this code fills in. */
  class VideoModeDetails {
    var modeIndex: VideoModeIndex
    var width: nat
    var height: nat
    var marginX: nat
    var marginY: nat
    var avPack: bv8
    var bpp: nat
    var hoc: real
    var voc: real
    var tvStandard: TvEncoding
    var finalA8: bv8
    var finalAA: bv8
    var finalAC: bv8

    constructor (index: VideoModeIndex)
      ensures modeIndex == index
      ensures width == 0 && height == 0 && marginX == 0 && marginY == 0
    {
      modeIndex := index;
      width, height, marginX, marginY := 0, 0, 0, 0;
      avPack, bpp := 0, 0;
      hoc, voc, tvStandard := 0.0, 0.0, TvEncodingPal;
      finalA8, finalAA, finalAC := 0, 0, 0;
    }

    /** The picture size and margins as one value. */
    function Size(): Geometry
      reads this
    {
      Geometry(width, height, marginX, marginY)
    }

    /** The mode index, the AV pack, the depth and the overscan factors: the
        fields that are set before the mode switch and are not changed after. */
    function Settings(): (VideoModeIndex, bv8, nat, real, real, TvEncoding)
      reads this
    {
      (modeIndex, avPack, bpp, hoc, voc, tvStandard)
    }

    /** The final values for encoder registers 0xa8, 0xaa and 0xac. */
    function Finals(): (bv8, bv8, bv8)
      reads this
    {
      (finalA8, finalAA, finalAC)
    }
  }

  /** Store the overscan factors for the EEPROM standard byte: percentages
      first, then divided by 100. */
  method SetOverscanFactors(details: VideoModeDetails, eeprom: bv8)
    modifies details
    ensures (details.hoc, details.voc, details.tvStandard) == OverscanFactors(eeprom)
    ensures details.modeIndex == old(details.modeIndex) && details.Size() == old(details.Size())
    ensures details.avPack == old(details.avPack) && details.bpp == old(details.bpp)
    ensures details.finalA8 == old(details.finalA8) && details.finalAA == old(details.finalAA)
    ensures details.finalAC == old(details.finalAC)
  {
    if eeprom != 0x40 {
      details.hoc, details.voc, details.tvStandard := 13.44, 14.24, TvEncodingPal;
    } else {
      details.hoc, details.voc, details.tvStandard := 15.11, 14.81, TvEncodingNtsc;
    }
    details.hoc := details.hoc / 100.0;
    details.voc := details.voc / 100.0;
  }

  /** The encoder after the 1024x576 mode's three extra stores. */
  function WideModeRegs(o: seq<bv8>): (r: seq<bv8>)
    requires IsBank(o)
    ensures IsBank(r)
  {
    o[0x60 := 0xc7][0x62 := 0x00][0x64 := 0x00]
  }

  function WideModeWrites(L: Trace<EncoderWrite>): Trace<EncoderWrite>
  {
    Then(Then(Then(L, EncoderWrite(0x60, 0xc7)), EncoderWrite(0x62, 0x00)), EncoderWrite(0x64, 0x00))
  }

  /** The mode switch of the TV path: set the size and margins of a listed
      mode; the 1024x576 mode also stores into encoder registers 0x60-0x64. */
  method SelectTvMode(details: VideoModeDetails, enc: Encoder)
    requires enc.Valid()
    modifies details, enc
    ensures enc.Valid()
    ensures details.Settings() == old(details.Settings()) && details.Finals() == old(details.Finals())
    ensures details.Size() == (match ModeGeometry(details.modeIndex)
                               case Some(g) => g
                               case None => old(details.Size()))
    ensures details.modeIndex == Mode1024x576 ==>
              enc.regs == WideModeRegs(old(enc.regs)) && enc.log == WideModeWrites(old(enc.log))
    ensures details.modeIndex != Mode1024x576 ==> enc.regs == old(enc.regs) && enc.log == old(enc.log)
  {
    match details.modeIndex
    case Mode640x480 =>
      details.width, details.height := 640, 480;
      details.marginX, details.marginY := 0, 0;
    case Mode640x576 =>
      details.width, details.height := 640, 576;
      details.marginX, details.marginY := 40, 40;
    case Mode720x576 =>
      details.width, details.height := 720, 576;
      details.marginX, details.marginY := 40, 40;
    case Mode800x600 =>
      details.width, details.height := 800, 600;
      details.marginX, details.marginY := 20, 20;
    case Mode1024x576 =>
      details.width, details.height := 1024, 576;
      details.marginX, details.marginY := 20, 20;
      enc.Write(0x60, 0xc7);
      enc.Write(0x62, 0x00);
      enc.Write(0x64, 0x00);
    case Unlisted =>
  }

  /** `SetAutoParameter`: program the encoder for the solved mode, then the GPU
      with the plan derived from it. The blanking values and the analog values
      are computed in double precision from the mode and are inputs here. */
  method SetAutoParameter(enc: Encoder, gpu: Gpu, mode: ModeParameter, blanks: BlankingParameter,
                          a: AnalogValues, avStatus: bv8)
    requires enc.Valid() && gpu.Valid()
    requires mode.vLinesI > 0 && mode.vActiveI >= 0 && mode.hClkI >= 0
    modifies enc, gpu
    ensures enc.Valid() && gpu.Valid()
    ensures enc.regs == TvEncoder(old(enc.regs), TvTimingOf(mode, blanks, a), DetectAvType(avStatus))
    ensures enc.log == TvWrites(old(enc.log), old(enc.regs), TvTimingOf(mode, blanks, a), DetectAvType(avStatus))
    ensures gpu.mmio == GpuMmio(RouteGpu(old(gpu.mmio), DetectAvType(avStatus)), DeriveGpuParameter(mode, blanks))
    ensures gpu.crtc == GpuCrtc(old(gpu.crtc), TimingOf(DeriveGpuParameter(mode, blanks)))
    ensures gpu.log == GpuWrites(RouteGpuWrites(old(gpu.log), DetectAvType(avStatus)), old(gpu.crtc),
                                 DeriveGpuParameter(mode, blanks))
  {
    SetTvConexantRegister(enc, gpu, mode, blanks, a, avStatus);
    SetGpuRegister(gpu, DeriveGpuParameter(mode, blanks));
  }

  /** The encoder is programmed with the very output clock the search chose:
      for a solved mode `CalcH_CLKO` gives back the candidate's HCLKO. */
  lemma {:induction false} SolvedModeKeepsOutputClock(b: Bounds, std: VideoStd, s: Solver, c: Candidate,
                                                      mode: ModeParameter, blanks: BlankingParameter, a: AnalogValues)
    requires Chosen(b, std, s, c)
    requires mode.std == std && mode.vLinesI == c.tli && mode.hClkI == s.hClkI(c) && mode.clkRatio == c.ratio
    requires mode.vLinesI > 0 && mode.vActiveI >= 0
    ensures CalcHClkO(mode) == c.hClkO
    ensures TvTimingOf(mode, blanks, a).hClkO == Dw(c.hClkO)
  {
    HClkORecoversSolverClock(mode, c.hClkO);
  }

  /** The encoder after the picture is switched off and on again at the end:
      registers 0xa8, 0xaa and 0xac are cleared and then set to the values the
      record keeps. */
  function VideoOn(o: seq<bv8>): (r: seq<bv8>)
    requires IsBank(o)
    ensures IsBank(r)
  {
    o[0xa8 := 0x81][0xaa := 0x49][0xac := 0x8c]
  }

  function VideoOnWrites(L: Trace<EncoderWrite>): Trace<EncoderWrite>
  {
    var dim := Then(Then(Then(L, EncoderWrite(0xa8, 0)), EncoderWrite(0xaa, 0)), EncoderWrite(0xac, 0));
    Then(Then(Then(dim, EncoderWrite(0xa8, 0x81)), EncoderWrite(0xaa, 0x49)), EncoderWrite(0xac, 0x8c))
  }

  /** Dim the picture and switch it back on with the final values. */
  method SwitchVideoOn(details: VideoModeDetails, enc: Encoder)
    requires enc.Valid()
    modifies details, enc
    ensures enc.Valid()
    ensures details.Finals() == (0x81, 0x49, 0x8c)
    ensures details.Settings() == old(details.Settings()) && details.Size() == old(details.Size())
    ensures enc.regs == VideoOn(old(enc.regs)) && enc.log == VideoOnWrites(old(enc.log))
  {
    details.finalA8, details.finalAA, details.finalAC := 0x81, 0x49, 0x8c;
    enc.Write(0xa8, 0);
    enc.Write(0xaa, 0);
    enc.Write(0xac, 0);
    enc.Write(0xa8, details.finalA8);
    enc.Write(0xaa, details.finalAA);
    enc.Write(0xac, details.finalAC);
  }

  /** The VGA path of `BootVgaInitializationKernelNG`: the encoder in VGA
      mode with the fixed PLL value, then the GPU with the fixed 800x600 plan. */
  method ProgramVga(enc: Encoder, gpu: Gpu)
    requires enc.Valid() && gpu.Valid()
    modifies enc, gpu
    ensures enc.Valid() && gpu.Valid()
    ensures enc.regs == VgaEncoder(old(enc.regs), VgaPllInt)
    ensures gpu.mmio == GpuMmio(old(gpu.mmio)[0x680630 := 0], VgaPlan)
    ensures gpu.crtc == GpuCrtc(old(gpu.crtc), VgaTiming)
  {
    SetVgaConexantRegister(enc, gpu, VgaPllInt);
    SetGpuRegister(gpu, VgaPlan);
    VgaPlanTiming();
  }

  /** The TV path of `BootVgaInitializationKernelNG` once the mode size is
      known: search the overscan values and, if a mode was found, program the
      encoder and the GPU for it. Without a solution nothing is stored. */
  method ProgramTv(enc: Encoder, gpu: Gpu, width: nat, height: nat, std: VideoStd, avStatus: bv8,
                   bounds: Bounds, s: Solver, blanksOf: ModeParameter -> BlankingParameter,
                   analogOf: ModeParameter -> AnalogValues, prior: ModeParameter)
    returns (found: bool, mode: ModeParameter)
    requires enc.Valid() && gpu.Valid()
    requires bounds.minTli > 0
    modifies enc, gpu
    ensures enc.Valid() && gpu.Valid()
    ensures mode.std == std && mode.bpp == 32 && mode.hActive == width && mode.vActiveI == height
    ensures found <==> exists c :: InRange(bounds, c) && Valid(std, s, c) && s.metric(c) < Sentinel
    ensures found ==> exists c :: (Chosen(bounds, std, s, c)
              && mode.vLinesI == c.tli && mode.hClkI == s.hClkI(c) && mode.clkRatio == c.ratio)
    ensures found ==> mode.vLinesI > 0
    ensures found ==> enc.regs == TvEncoder(old(enc.regs), TvTimingOf(mode, blanksOf(mode), analogOf(mode)), DetectAvType(avStatus))
    ensures found ==> gpu.mmio == GpuMmio(RouteGpu(old(gpu.mmio), DetectAvType(avStatus)), DeriveGpuParameter(mode, blanksOf(mode)))
    ensures found ==> gpu.crtc == GpuCrtc(old(gpu.crtc), TimingOf(DeriveGpuParameter(mode, blanksOf(mode))))
    ensures !found ==> enc.regs == old(enc.regs) && gpu.mmio == old(gpu.mmio) && gpu.crtc == old(gpu.crtc)
  {
    found, mode := FindOverscanValues(width, height, 32, std, bounds, s, prior);
    if found {
      assert mode.vLinesI > 0;
      SetAutoParameter(enc, gpu, mode, blanksOf(mode), analogOf(mode), avStatus);
    }
  }

  /** The VGA branch of `BootVgaInitializationKernelNG` with the final switch-on:
      an 800x600 picture with 20-pixel margins. */
  method BootVga(details: VideoModeDetails, enc: Encoder, gpu: Gpu)
    requires enc.Valid() && gpu.Valid()
    modifies details, enc, gpu
    ensures enc.Valid() && gpu.Valid()
    ensures details.Settings() == old(details.Settings()) && details.Finals() == (0x81, 0x49, 0x8c)
    ensures details.Size() == VgaGeometry
    ensures enc.regs == VideoOn(VgaEncoder(old(enc.regs), VgaPllInt))
    ensures gpu.mmio == GpuMmio(old(gpu.mmio)[0x680630 := 0], VgaPlan)
    ensures gpu.crtc == GpuCrtc(old(gpu.crtc), VgaTiming)
  {
    details.width, details.height := 800, 600;
    details.marginX, details.marginY := 20, 20;
    ProgramVga(enc, gpu);
    SwitchVideoOn(details, enc);
  }

  /** The TV branch of `BootVgaInitializationKernelNG` with the final switch-on:
      the listed mode's size, the overscan search and, when it succeeds, the
      encoder and GPU programmed for the solved mode. */
  method BootTv(details: VideoModeDetails, enc: Encoder, gpu: Gpu, std: VideoStd, avStatus: bv8,
                bounds: Bounds, s: Solver, blanksOf: ModeParameter -> BlankingParameter,
                analogOf: ModeParameter -> AnalogValues, prior: ModeParameter)
    returns (found: bool, mode: ModeParameter)
    requires enc.Valid() && gpu.Valid()
    requires bounds.minTli > 0 && details.bpp == 32
    modifies details, enc, gpu
    ensures enc.Valid() && gpu.Valid()
    ensures details.Settings() == old(details.Settings()) && details.Finals() == (0x81, 0x49, 0x8c)
    ensures details.Size() == (match ModeGeometry(old(details.modeIndex))
                               case Some(g) => g
                               case None => old(details.Size()))
    ensures mode.std == std && mode.bpp == 32
    ensures mode.hActive == details.width && mode.vActiveI == details.height
    ensures found <==> exists c :: InRange(bounds, c) && Valid(std, s, c) && s.metric(c) < Sentinel
    ensures found ==> exists c :: (Chosen(bounds, std, s, c)
              && mode.vLinesI == c.tli && mode.hClkI == s.hClkI(c) && mode.clkRatio == c.ratio)
    ensures found ==> mode.vLinesI > 0
    ensures found ==> enc.regs == VideoOn(TvEncoder(TvStart(old(details.modeIndex), old(enc.regs)),
                                                    TvTimingOf(mode, blanksOf(mode), analogOf(mode)),
                                                    DetectAvType(avStatus)))
    ensures found ==> gpu.mmio == GpuMmio(RouteGpu(old(gpu.mmio), DetectAvType(avStatus)), DeriveGpuParameter(mode, blanksOf(mode)))
    ensures found ==> gpu.crtc == GpuCrtc(old(gpu.crtc), TimingOf(DeriveGpuParameter(mode, blanksOf(mode))))
    ensures !found ==> enc.regs == VideoOn(TvStart(old(details.modeIndex), old(enc.regs)))
    ensures !found ==> gpu.mmio == old(gpu.mmio) && gpu.crtc == old(gpu.crtc)
  {
    SelectTvMode(details, enc);
    found, mode := ProgramTv(enc, gpu, details.width, details.height, std, avStatus,
                             bounds, s, blanksOf, analogOf, prior);
    SwitchVideoOn(details, enc);
  }

  /** `BootVgaInitializationKernelNG`, the mode-setting part. `eeprom` is the
      standard byte, `avStatus` the AV-pack byte. For the TV path the search
      bounds and metric (computed from the overscan factors), and the blanking
      and analog values of the solved mode, are inputs. It returns whether the
      TV search succeeded and the mode record it filled in. */
  method BootVgaInitializationKernelNG(details: VideoModeDetails, enc: Encoder, gpu: Gpu,
                                       eeprom: bv8, avStatus: bv8, bounds: Bounds, s: Solver,
                                       blanksOf: ModeParameter -> BlankingParameter,
                                       analogOf: ModeParameter -> AnalogValues, prior: ModeParameter)
    returns (found: bool, mode: ModeParameter)
    requires enc.Valid() && gpu.Valid()
    requires bounds.minTli > 0
    modifies details, enc, gpu
    ensures enc.Valid() && gpu.Valid()
    ensures details.modeIndex == old(details.modeIndex)
    ensures details.avPack == avStatus && details.bpp == 32
    ensures (details.hoc, details.voc, details.tvStandard) == OverscanFactors(eeprom)
    ensures details.Finals() == (0x81, 0x49, 0x8c)
    ensures DetectAvType(avStatus) == Vga ==>
      && !found
      && details.Size() == VgaGeometry
      && enc.regs == VideoOn(VgaEncoder(old(enc.regs), VgaPllInt))
      && gpu.mmio == GpuMmio(old(gpu.mmio)[0x680630 := 0], VgaPlan)
      && gpu.crtc == GpuCrtc(old(gpu.crtc), VgaTiming)
    ensures DetectAvType(avStatus) != Vga ==>
      && details.Size() == (match ModeGeometry(details.modeIndex)
                            case Some(g) => g
                            case None => old(details.Size()))
      && mode.std == DetectVideoStd(eeprom) && mode.bpp == 32
      && mode.hActive == details.width && mode.vActiveI == details.height
      && (found <==> exists c :: InRange(bounds, c) && Valid(mode.std, s, c) && s.metric(c) < Sentinel)
      && (found ==> exists c :: (Chosen(bounds, mode.std, s, c)
            && mode.vLinesI == c.tli && mode.hClkI == s.hClkI(c) && mode.clkRatio == c.ratio))
    ensures DetectAvType(avStatus) != Vga && found ==>
      && mode.vLinesI > 0
      && enc.regs == VideoOn(TvEncoder(TvStart(old(details.modeIndex), old(enc.regs)),
                                       TvTimingOf(mode, blanksOf(mode), analogOf(mode)), DetectAvType(avStatus)))
      && gpu.mmio == GpuMmio(RouteGpu(old(gpu.mmio), DetectAvType(avStatus)), DeriveGpuParameter(mode, blanksOf(mode)))
      && gpu.crtc == GpuCrtc(old(gpu.crtc), TimingOf(DeriveGpuParameter(mode, blanksOf(mode))))
    ensures DetectAvType(avStatus) != Vga && !found ==>
      && enc.regs == VideoOn(TvStart(old(details.modeIndex), old(enc.regs)))
      && gpu.mmio == old(gpu.mmio) && gpu.crtc == old(gpu.crtc)
  {
    var videoStd := DetectVideoStd(eeprom);
    details.avPack := avStatus;
    details.bpp := 32;
    SetOverscanFactors(details, eeprom);

    if DetectAvType(avStatus) == Vga {
      found, mode := false, prior;
      BootVga(details, enc, gpu);
    } else {
      found, mode := BootTv(details, enc, gpu, videoStd, avStatus, bounds, s, blanksOf, analogOf, prior);
    }
  }
}
