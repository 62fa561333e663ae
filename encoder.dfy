/** The Conexant video encoder at serial-bus device 0x45, as the boot code
    drives it: a file of 256 byte registers. `I2CTransmitWord(0x45, r << 8 | v)`
    stores `v` into register `r`; `I2CTransmitByteGetReturn(0x45, r)` loads
    register `r`. The encoder is modelled as plain storage: a load returns what
    was last stored.

    `SetVGAConexantRegister` and `SetTVConexantRegister` are ordered sequences
    of stores, most of the TV ones read-modify-write updates of a bit field that
    shares its register with other fields. As for the GPU, each commented
    group of stores is a function giving the register file after it, a
    function giving the stores it makes, a method that makes them and a lemma
    saying what the group leaves in the registers. */
module Conexant {
  import opened Bits
  import opened Traces
  import opened Options
  import opened VideoStandards
  import opened ModeTiming
  import opened NvGpu

  /** One store into the encoder: register and byte. */
  datatype EncoderWrite = EncoderWrite(reg: int, value: bv8)

  /** The encoder's registers and the stores made to them, in order. */
  class Encoder {
    var regs: seq<bv8>
    var log: Trace<EncoderWrite>

    ghost predicate Valid()
      reads this
    {
      IsBank(regs)
    }

    constructor (bank: seq<bv8>)
      requires IsBank(bank)
      ensures Valid()
      ensures regs == bank && log == Empty
    {
      regs := bank;
      log := Empty;
    }

    /** `I2CTransmitByteGetReturn(0x45, reg)`. */
    method Read(reg: int) returns (b: bv8)
      requires Valid() && 0 <= reg < 256
      ensures b == regs[reg]
    {
      b := regs[reg];
    }

    /** `I2CTransmitWord(0x45, (reg << 8) | value)`. */
    method Write(reg: int, value: bv8)
      requires Valid() && 0 <= reg < 256
      modifies this
      ensures Valid()
      ensures regs == old(regs)[reg := value]
      ensures log == Then(old(log), EncoderWrite(reg, value))
    {
      regs := regs[reg := value];
      log := Then(log, EncoderWrite(reg, value));
    }

    /** The firmware's read-modify-write: load the register, clear the bits of
        `mask`, OR in `field` and store the result. */
    method Update(reg: int, mask: bv8, field: bv8)
      requires Valid() && 0 <= reg < 256
      requires field & !mask == 0
      modifies this
      ensures Valid()
      ensures regs == old(regs)[reg := Merge(old(regs)[reg], mask, field)]
      ensures log == Then(old(log), EncoderWrite(reg, Merge(old(regs)[reg], mask, field)))
    {
      var b := Read(reg);
      b := b & !mask;
      Write(reg, field | b);
    }
  }

  // ---------------------------------------------------------------------------
  // The timing reset both sequences end with.

  /** Register 0x6c with TIMING_RST (bit 7) set and bits 0-6 kept. */
  function TimingResetReg6c(p: bv8): bv8
  {
    Merge(p, 0x80, 0x80)
  }

  function TimingReset(o: seq<bv8>): (r: seq<bv8>)
    requires IsBank(o)
    ensures IsBank(r)
  {
    o[0x6c := TimingResetReg6c(o[0x6c])]
  }

  /** Only register 0x6c changes; its bit 7 is set and its other bits kept. */
  lemma TimingResetFields(o: seq<bv8>)
    requires IsBank(o)
    ensures var r := TimingReset(o);
      && OnlyWrites(o, r, {0x6c})
      && r[0x6c] & 0x80 == 0x80 && r[0x6c] & 0x7f == o[0x6c] & 0x7f
  {
  }

  function TimingResetWrites(L: Trace<EncoderWrite>, o: seq<bv8>): Trace<EncoderWrite>
    requires IsBank(o)
  {
    Then(L, EncoderWrite(0x6c, TimingResetReg6c(o[0x6c])))
  }

  method ResetTiming(enc: Encoder)
    requires enc.Valid()
    modifies enc
    ensures enc.Valid()
    ensures enc.regs == TimingReset(old(enc.regs))
    ensures enc.log == TimingResetWrites(old(enc.log), old(enc.regs))
  {
    var b := enc.Read(0x6c);
    b := b & 0x7f;
    enc.Write(0x6c, 0x80 | b);
  }

  // ---------------------------------------------------------------------------
  // SetVGAConexantRegister.

  /** The registers `SetVGAConexantRegister` stores to. */
  const VgaIndices: set<int> :=
    {0x2e, 0x32, 0x3c, 0x3e, 0x40, 0x6c, 0x9c, 0x9e, 0xa0, 0xba, 0xc4, 0xc6, 0xce, 0xd6}

  /** The stores before the timing reset: reset, pseudo-master mode, HDTV-style
      sync, the PLL (integer part `pllInt`, no fraction) and RGB output. */
  function VgaSetup(o: seq<bv8>, pllInt: bv8): (r: seq<bv8>)
    requires IsBank(o)
    ensures IsBank(r)
  {
    o[0xba := 0x80][0xa0 := 0x13][0x2e := 0xad][0x32 := 0x48][0x3c := 0x80][0x3e := 0x80][0x40 := 0x80]
     [0x6c := 0x46][0x9c := 0x00][0x9e := 0x00][0xa0 := pllInt][0xba := 0x28][0xc4 := 0x01][0xc6 := 0x98]
     [0xce := 0xe1][0xd6 := 0x0c]
  }

  function VgaSetupWrites(L: Trace<EncoderWrite>, pllInt: bv8): Trace<EncoderWrite>
  {
    var w := Then(Then(Then(Then(L, EncoderWrite(0xba, 0x80)), EncoderWrite(0xa0, 0x13)),
      EncoderWrite(0x2e, 0xad)), EncoderWrite(0x32, 0x48));
    var w := Then(Then(Then(Then(w, EncoderWrite(0x3c, 0x80)), EncoderWrite(0x3e, 0x80)),
      EncoderWrite(0x40, 0x80)), EncoderWrite(0x6c, 0x46));
    var w := Then(Then(Then(Then(w, EncoderWrite(0x9c, 0x00)), EncoderWrite(0x9e, 0x00)),
      EncoderWrite(0xa0, pllInt)), EncoderWrite(0xba, 0x28));
    Then(Then(Then(Then(w, EncoderWrite(0xc4, 0x01)), EncoderWrite(0xc6, 0x98)),
      EncoderWrite(0xce, 0xe1)), EncoderWrite(0xd6, 0x0c))
  }

  /** The encoder registers after `SetVGAConexantRegister`. */
  function VgaEncoder(o: seq<bv8>, pllInt: bv8): (r: seq<bv8>)
    requires IsBank(o)
    ensures IsBank(r)
  {
    TimingReset(VgaSetup(o, pllInt))
  }

  function VgaWrites(L: Trace<EncoderWrite>, o: seq<bv8>, pllInt: bv8): Trace<EncoderWrite>
    requires IsBank(o)
  {
    TimingResetWrites(VgaSetupWrites(L, pllInt), VgaSetup(o, pllInt))
  }

  /** Only the listed registers change: the PLL has integer part `pllInt` and
      no fraction, the output is enabled, and the timing reset leaves register
      0x6c at 0xc6 (the 0x46 stored before with bit 7 set). */
  lemma VgaEncoderFields(o: seq<bv8>, pllInt: bv8)
    requires IsBank(o)
    ensures var r := VgaEncoder(o, pllInt);
      && OnlyWrites(o, r, VgaIndices)
      && r[0xa0] == pllInt && r[0x9e] == 0 && r[0x9c] == 0
      && r[0x6c] == 0xc6 && r[0xc4] == 0x01 && r[0xba] == 0x28
  {
  }

  /** Every register the VGA sequence stores to ends up independent of what it
      held before: the one read-modify-write reads back a byte the sequence
      itself stored. */
  lemma VgaIgnoresPriorState(o1: seq<bv8>, o2: seq<bv8>, pllInt: bv8, i: int)
    requires IsBank(o1) && IsBank(o2)
    requires i in VgaIndices
    ensures VgaEncoder(o1, pllInt)[i] == VgaEncoder(o2, pllInt)[i]
  {
  }

  /** The sequence ends with the output-mode store and then the timing reset,
      which stores 0xc6 into register 0x6c. */
  lemma VgaWritesEnd(L: Trace<EncoderWrite>, o: seq<bv8>, pllInt: bv8)
    requires IsBank(o)
    ensures var w := VgaWrites(L, o, pllInt);
      && w.Then? && w.last == EncoderWrite(0x6c, 0xc6)
      && w.before.Then? && w.before.last == EncoderWrite(0xd6, 0x0c)
  {
  }

  /** `SetVGAConexantRegister`: program the encoder for VGA output and switch
      the GPU to RGB. The dummy read of register 0xb8 loads and discards. */
  method SetVgaConexantRegister(enc: Encoder, gpu: Gpu, pllInt: bv8)
    requires enc.Valid() && gpu.Valid()
    modifies enc, gpu
    ensures enc.Valid() && gpu.Valid()
    ensures enc.regs == VgaEncoder(old(enc.regs), pllInt)
    ensures enc.log == VgaWrites(old(enc.log), old(enc.regs), pllInt)
    ensures gpu.mmio == old(gpu.mmio)[0x680630 := 0] && gpu.crtc == old(gpu.crtc)
    ensures gpu.log == Then(old(gpu.log), Mmio32(0x680630, 0))
  {
    enc.Write(0xba, 0x80);
    var _ := enc.Read(0xb8);
    enc.Write(0xa0, 0x13);
    enc.Write(0x2e, 0xad);
    enc.Write(0x32, 0x48);
    enc.Write(0x3c, 0x80);
    enc.Write(0x3e, 0x80);
    enc.Write(0x40, 0x80);
    enc.Write(0x6c, 0x46);
    enc.Write(0x9c, 0x00);
    enc.Write(0x9e, 0x00);
    enc.Write(0xa0, pllInt);
    enc.Write(0xba, 0x28);
    enc.Write(0xc4, 0x01);
    enc.Write(0xc6, 0x98);
    enc.Write(0xce, 0xe1);
    enc.Write(0xd6, 0x0c);
    gpu.Write32(0x680630, 0);
    ResetTiming(enc);
  }

  // ---------------------------------------------------------------------------
  // SetTVConexantRegister: its inputs.

  /** The values computed in double precision by `SetTVConexantRegister` and
      `CalcBlankings`, as the `DWORD` patterns the firmware stores: the PLL
      ratio (16 fraction bits), the burst start and end and the sync width in
      PLL clocks, and the subcarrier and WSS increments. */
  datatype AnalogValues = AnalogValues(
    pllRatio: bv32,
    burstStart: bv32,
    burstEnd: bv32,
    hSyncWidth: bv32,
    subcarrier: bv32,
    wss: bv32)

  /** Everything `SetTVConexantRegister` stores, as 32-bit patterns. */
  datatype TvTiming = TvTiming(
    std: VideoStd,
    threeHalves: bool,
    hClkI: bv32,
    hClkO: bv32,
    vLinesI: bv32,
    vActiveO: bv32,
    hActive: bv32,
    vActiveI: bv32,
    hBlankI: bv32,
    hBlankO: bv32,
    vScale: bv32,
    vBlankO: bv32,
    vBlankI: bv32,
    pllRatio: bv32,
    burstStart: bv32,
    burstEnd: bv32,
    hSyncWidth: bv32,
    subcarrier: bv32,
    wss: bv32)

  /** The encoder timing for a solved mode: H_CLKO is computed as `CalcH_CLKO`
      does and V_ACTIVEO as the rounded-up `ModeTiming.CalcVActiveO`, which is
      what the firmware's truncating `CalcV_ACTIVEO` gives for every even active
      height; the 3:2 clocking bit follows `clk_ratio > 1.1`. */
  function TvTimingOf(mode: ModeParameter, blanks: BlankingParameter, a: AnalogValues): (r: TvTiming)
    requires mode.vLinesI > 0 && mode.vActiveI >= 0 && mode.hClkI >= 0
    ensures mode.vActiveI % 2 == 0 ==> r.vActiveO == Dw(CalcVActiveOAsWritten(mode))
  {
    if mode.vActiveI % 2 == 0 then VActiveOAgreesOnEvenHeights(mode); TvTimingFields(mode, blanks, a)
    else TvTimingFields(mode, blanks, a)
  }

  /** The fields of `TvTimingOf`, one per encoder parameter. */
  function TvTimingFields(mode: ModeParameter, blanks: BlankingParameter, a: AnalogValues): TvTiming
    requires mode.vLinesI > 0 && mode.vActiveI >= 0 && mode.hClkI >= 0
  {
    TvTiming(
      std := mode.std,
      threeHalves := mode.clkRatio == ThreeHalves,
      hClkI := Dw(mode.hClkI),
      hClkO := Dw(CalcHClkO(mode)),
      vLinesI := Dw(mode.vLinesI),
      vActiveO := Dw(CalcVActiveO(mode)),
      hActive := Dw(mode.hActive),
      vActiveI := Dw(mode.vActiveI),
      hBlankI := Dw(blanks.hBlankI),
      hBlankO := Dw(blanks.hBlankO),
      vScale := Dw(blanks.vScale),
      vBlankO := Dw(blanks.vBlankO),
      vBlankI := Dw(blanks.vBlankI),
      pllRatio := a.pllRatio,
      burstStart := a.burstStart,
      burstEnd := a.burstEnd,
      hSyncWidth := a.hSyncWidth,
      subcarrier := a.subcarrier,
      wss := a.wss)
  }

  /** The V_ACTIVEO field: the active output lines plus one for the 525-line
      standards and two for the 625-line ones. */
  function ActiveLinesOut(t: TvTiming): (r: bv32)
    ensures TotalHalfLines(t.std) == 525 ==> r == t.vActiveO + 1
    ensures TotalHalfLines(t.std) == 625 ==> r == t.vActiveO + 2
  {
    if VActiveOAdjust(t.std) == 1 then t.vActiveO + 1 else t.vActiveO + 2
  }

  /** The H_ACTIVE field: five clocks more than the active pixels. */
  function HActiveClocks(t: TvTiming): bv32
  {
    t.hActive + 5
  }

  /** `dwInt`: the integer part of the PLL ratio, its top 16 bits. */
  function PllInt(ratio: bv32): bv32
  {
    ratio >> 16
  }

  /** `dwFract`: the fraction of the PLL ratio, its low 16 bits. */
  function PllFract(ratio: bv32): bv32
  {
    ratio & 0xffff
  }

  /** The firmware divides the ratio by 0x10000 for the integer part... */
  lemma PllIntIsQuotient(ratio: bv32)
    ensures ratio / 0x10000 == PllInt(ratio)
  {
  }

  /** ...and takes the integer part times 0x10000 off the ratio for the fraction. */
  lemma PllFractIsRemainder(ratio: bv32)
    ensures ratio - PllInt(ratio) * 0x10000 == PllFract(ratio)
  {
  }

  /** The firmware's split of the ratio into `dwInt` and `dwFract`. */
  method SplitPllRatio(ratio: bv32) returns (dwInt: bv32, dwFract: bv32)
    ensures dwInt == PllInt(ratio) && dwFract == PllFract(ratio)
  {
    dwInt := ratio / 0x10000;
    PllIntIsQuotient(ratio);
    dwFract := ratio - dwInt * 0x10000;
    PllFractIsRemainder(ratio);
  }

  /** Both parts are below 0x10000 and `dwInt * 0x10000 + dwFract` gives back
      the ratio. */
  lemma PllSplit(ratio: bv32)
    ensures PllInt(ratio) < 0x10000 && PllFract(ratio) < 0x10000
    ensures PllInt(ratio) * 0x10000 + PllFract(ratio) == ratio
  {
    PllFractIsRemainder(ratio);
  }

  /** The burst end field: the hardware adds 128, so the position is clamped to
      at least 128 and then 128 is taken off. */
  function BurstEndClocks(e: bv32): bv32
  {
    var m := if e < 128 then 128 else e;
    m - 128
  }

  lemma BurstEndClamp(e: bv32)
    ensures e >= 128 ==> BurstEndClocks(e) + 128 == e
    ensures e <= 128 ==> BurstEndClocks(e) == 0
    ensures BurstEndClocks(e) <= e
  {
  }

  // The bytes the read-modify-write updates leave in a register, from its
  // prior content and the value being split into it.

  function HClkIReg8e(p: bv8, x: bv32): bv8
  {
    Merge(p, 0x07, Field(x, 8, 0x07))
  }

  function HClkOReg86(p: bv8, x: bv32): bv8
  {
    Merge(p, 0x0f, Field(x, 8, 0x0f))
  }

  function VLinesIReg38(p: bv8, x: bv32): bv8
  {
    Merge(p, 0x02, Field(x, 9, 0x02))
  }

  function VLinesIReg96(p: bv8, x: bv32): bv8
  {
    Merge(p, 0x03, Field(x, 8, 0x03))
  }

  function VActiveOReg86(p: bv8, m: bv32): bv8
  {
    Merge(p, 0x80, Field(m, 1, 0x80))
  }

  function HActiveReg86(p: bv8, h: bv32): bv8
  {
    Merge(p, 0x70, Field(h, 4, 0x70))
  }

  function VActiveIReg96(p: bv8, x: bv32): bv8
  {
    Merge(p, 0x0c, Field(x, 6, 0x0c))
  }

  function HBlankIReg38(p: bv8, x: bv32): bv8
  {
    Merge(p, 0x01, Field(x, 9, 0x01))
  }

  function HBlankIReg8e(p: bv8, x: bv32): bv8
  {
    Merge(p, 0x08, Field(x, 5, 0x08))
  }

  function HBlankOReg9a(p: bv8, x: bv32): bv8
  {
    Merge(p, 0xc0, Field(x, 2, 0xc0))
  }

  function VScaleReg9a(p: bv8, x: bv32): bv8
  {
    Merge(p, 0x3f, Field(x, 8, 0x3f))
  }

  function PllIntRegA0(p: bv8, i: bv32): bv8
  {
    Merge(p, 0x3f, Lo8(i) & 0x3f)
  }

  /** Bit 5 of register 0x38 selects 3:2 clocking; it is set when the clock
      ratio exceeds 1.1, that is for 1.5. */
  function ClockModeBit(threeHalves: bool): bv8
  {
    if threeHalves then 0x20 else 0x00
  }

  function ClockModeReg38(p: bv8, threeHalves: bool): bv8
  {
    Merge(p, 0x20, ClockModeBit(threeHalves))
  }

  function BurstStartReg38(p: bv8, x: bv32): bv8
  {
    Merge(p, 0x04, Field(x, 6, 0x04))
  }

  function BurstEndReg38(p: bv8, m: bv32): bv8
  {
    Merge(p, 0x08, Field(m, 5, 0x08))
  }

  /** Register 0xa2 keeps bits 0x41 and takes the standard's pattern. */
  function ModeRegA2(p: bv8, std: VideoStd): bv8
  {
    Merge(p, 0xbe, ModePattern(std))
  }

  // ---------------------------------------------------------------------------
  // SetTVConexantRegister: the register groups, in the order it stores them.

  /** Autoconfiguration, pseudo-master mode and DRVS. */
  function TvPreamble(o: seq<bv8>): (r: seq<bv8>)
    requires IsBank(o)
    ensures IsBank(r)
  {
    o[0xb8 := 0x07][0xa0 := 0x13][0x32 := 0x28]
  }

  function TvPreambleWrites(L: Trace<EncoderWrite>): Trace<EncoderWrite>
  {
    Then(Then(Then(L, EncoderWrite(0xb8, 0x07)), EncoderWrite(0xa0, 0x13)), EncoderWrite(0x32, 0x28))
  }

  method SetTvPreamble(enc: Encoder)
    requires enc.Valid()
    modifies enc
    ensures enc.Valid()
    ensures enc.regs == TvPreamble(old(enc.regs))
    ensures enc.log == TvPreambleWrites(old(enc.log))
  {
    enc.Write(0xb8, 0x07);
    var _ := enc.Read(0xb8);
    enc.Write(0xa0, 0x13);
    enc.Write(0x32, 0x28);
  }

  /** H_CLKI: bits 8-10 into register 0x8e, bits 0-7 into 0x8a. */
  function HClkIRegs(o: seq<bv8>, x: bv32): (r: seq<bv8>)
    requires IsBank(o)
    ensures IsBank(r)
  {
    o[0x8e := HClkIReg8e(o[0x8e], x)][0x8a := Lo8(x)]
  }

  function HClkIWrites(L: Trace<EncoderWrite>, o: seq<bv8>, x: bv32): Trace<EncoderWrite>
    requires IsBank(o)
  {
    Then(Then(L, EncoderWrite(0x8e, HClkIReg8e(o[0x8e], x))), EncoderWrite(0x8a, Lo8(x)))
  }

  method SetHClkI(enc: Encoder, t: TvTiming)
    requires enc.Valid()
    modifies enc
    ensures enc.Valid()
    ensures enc.regs == HClkIRegs(old(enc.regs), t.hClkI)
    ensures enc.log == HClkIWrites(old(enc.log), old(enc.regs), t.hClkI)
  {
    enc.Update(0x8e, 0x07, Field(t.hClkI, 8, 0x07));
    enc.Write(0x8a, Lo8(t.hClkI));
  }

  /** H_CLKO: bits 8-11 into register 0x86, bits 0-7 into 0x76. */
  function HClkORegs(o: seq<bv8>, x: bv32): (r: seq<bv8>)
    requires IsBank(o)
    ensures IsBank(r)
  {
    o[0x86 := HClkOReg86(o[0x86], x)][0x76 := Lo8(x)]
  }

  function HClkOWrites(L: Trace<EncoderWrite>, o: seq<bv8>, x: bv32): Trace<EncoderWrite>
    requires IsBank(o)
  {
    Then(Then(L, EncoderWrite(0x86, HClkOReg86(o[0x86], x))), EncoderWrite(0x76, Lo8(x)))
  }

  method SetHClkO(enc: Encoder, t: TvTiming)
    requires enc.Valid()
    modifies enc
    ensures enc.Valid()
    ensures enc.regs == HClkORegs(old(enc.regs), t.hClkO)
    ensures enc.log == HClkOWrites(old(enc.log), old(enc.regs), t.hClkO)
  {
    enc.Update(0x86, 0x0f, Field(t.hClkO, 8, 0x0f));
    enc.Write(0x76, Lo8(t.hClkO));
  }

  /** V_LINESI: bit 10 into bit 1 of register 0x38, bits 8-9 into 0x96, bits
      0-7 into 0x90. */
  function VLinesIRegs(o: seq<bv8>, x: bv32): (r: seq<bv8>)
    requires IsBank(o)
    ensures IsBank(r)
  {
    o[0x38 := VLinesIReg38(o[0x38], x)][0x96 := VLinesIReg96(o[0x96], x)][0x90 := Lo8(x)]
  }

  function VLinesIWrites(L: Trace<EncoderWrite>, o: seq<bv8>, x: bv32): Trace<EncoderWrite>
    requires IsBank(o)
  {
    Then(Then(Then(L, EncoderWrite(0x38, VLinesIReg38(o[0x38], x))),
      EncoderWrite(0x96, VLinesIReg96(o[0x96], x))), EncoderWrite(0x90, Lo8(x)))
  }

  method SetVLinesI(enc: Encoder, t: TvTiming)
    requires enc.Valid()
    modifies enc
    ensures enc.Valid()
    ensures enc.regs == VLinesIRegs(old(enc.regs), t.vLinesI)
    ensures enc.log == VLinesIWrites(old(enc.log), old(enc.regs), t.vLinesI)
  {
    enc.Update(0x38, 0x02, Field(t.vLinesI, 9, 0x02));
    enc.Update(0x96, 0x03, Field(t.vLinesI, 8, 0x03));
    enc.Write(0x90, Lo8(t.vLinesI));
  }

  /** V_ACTIVEO: bit 8 into bit 7 of register 0x86, bits 0-7 into 0x84. */
  function VActiveORegs(o: seq<bv8>, m: bv32): (r: seq<bv8>)
    requires IsBank(o)
    ensures IsBank(r)
  {
    o[0x86 := VActiveOReg86(o[0x86], m)][0x84 := Lo8(m)]
  }

  function VActiveOWrites(L: Trace<EncoderWrite>, o: seq<bv8>, m: bv32): Trace<EncoderWrite>
    requires IsBank(o)
  {
    Then(Then(L, EncoderWrite(0x86, VActiveOReg86(o[0x86], m))), EncoderWrite(0x84, Lo8(m)))
  }

  method SetVActiveO(enc: Encoder, t: TvTiming)
    requires enc.Valid()
    modifies enc
    ensures enc.Valid()
    ensures enc.regs == VActiveORegs(old(enc.regs), ActiveLinesOut(t))
    ensures enc.log == VActiveOWrites(old(enc.log), old(enc.regs), ActiveLinesOut(t))
  {
    var m := ActiveLinesOut(t);
    enc.Update(0x86, 0x80, Field(m, 1, 0x80));
    enc.Write(0x84, Lo8(m));
  }

  /** H_ACTIVE (the active pixels plus 5): bits 8-10 into bits 4-6 of register
      0x86, bits 0-7 into 0x78. */
  function HActiveRegs(o: seq<bv8>, h: bv32): (r: seq<bv8>)
    requires IsBank(o)
    ensures IsBank(r)
  {
    o[0x86 := HActiveReg86(o[0x86], h)][0x78 := Lo8(h)]
  }

  function HActiveWrites(L: Trace<EncoderWrite>, o: seq<bv8>, h: bv32): Trace<EncoderWrite>
    requires IsBank(o)
  {
    Then(Then(L, EncoderWrite(0x86, HActiveReg86(o[0x86], h))), EncoderWrite(0x78, Lo8(h)))
  }

  method SetHActive(enc: Encoder, t: TvTiming)
    requires enc.Valid()
    modifies enc
    ensures enc.Valid()
    ensures enc.regs == HActiveRegs(old(enc.regs), HActiveClocks(t))
    ensures enc.log == HActiveWrites(old(enc.log), old(enc.regs), HActiveClocks(t))
  {
    enc.Update(0x86, 0x70, Field(t.hActive + 5, 4, 0x70));
    enc.Write(0x78, Lo8(t.hActive + 5));
  }

  /** V_ACTIVEI: bits 8-9 into bits 2-3 of register 0x96, bits 0-7 into 0x94. */
  function VActiveIRegs(o: seq<bv8>, x: bv32): (r: seq<bv8>)
    requires IsBank(o)
    ensures IsBank(r)
  {
    o[0x96 := VActiveIReg96(o[0x96], x)][0x94 := Lo8(x)]
  }

  function VActiveIWrites(L: Trace<EncoderWrite>, o: seq<bv8>, x: bv32): Trace<EncoderWrite>
    requires IsBank(o)
  {
    Then(Then(L, EncoderWrite(0x96, VActiveIReg96(o[0x96], x))), EncoderWrite(0x94, Lo8(x)))
  }

  method SetVActiveI(enc: Encoder, t: TvTiming)
    requires enc.Valid()
    modifies enc
    ensures enc.Valid()
    ensures enc.regs == VActiveIRegs(old(enc.regs), t.vActiveI)
    ensures enc.log == VActiveIWrites(old(enc.log), old(enc.regs), t.vActiveI)
  {
    enc.Update(0x96, 0x0c, Field(t.vActiveI, 6, 0x0c));
    enc.Write(0x94, Lo8(t.vActiveI));
  }

  /** H_BLANKI: bit 9 into bit 0 of register 0x38, bit 8 into bit 3 of 0x8e,
      bits 0-7 into 0x8c. */
  function HBlankIRegs(o: seq<bv8>, x: bv32): (r: seq<bv8>)
    requires IsBank(o)
    ensures IsBank(r)
  {
    o[0x38 := HBlankIReg38(o[0x38], x)][0x8e := HBlankIReg8e(o[0x8e], x)][0x8c := Lo8(x)]
  }

  function HBlankIWrites(L: Trace<EncoderWrite>, o: seq<bv8>, x: bv32): Trace<EncoderWrite>
    requires IsBank(o)
  {
    Then(Then(Then(L, EncoderWrite(0x38, HBlankIReg38(o[0x38], x))),
      EncoderWrite(0x8e, HBlankIReg8e(o[0x8e], x))), EncoderWrite(0x8c, Lo8(x)))
  }

  method SetHBlankI(enc: Encoder, t: TvTiming)
    requires enc.Valid()
    modifies enc
    ensures enc.Valid()
    ensures enc.regs == HBlankIRegs(old(enc.regs), t.hBlankI)
    ensures enc.log == HBlankIWrites(old(enc.log), old(enc.regs), t.hBlankI)
  {
    enc.Update(0x38, 0x01, Field(t.hBlankI, 9, 0x01));
    enc.Update(0x8e, 0x08, Field(t.hBlankI, 5, 0x08));
    enc.Write(0x8c, Lo8(t.hBlankI));
  }

  /** H_BLANKO: bits 8-9 into bits 6-7 of register 0x9a, bits 0-7 into 0x80. */
  function HBlankORegs(o: seq<bv8>, x: bv32): (r: seq<bv8>)
    requires IsBank(o)
    ensures IsBank(r)
  {
    o[0x9a := HBlankOReg9a(o[0x9a], x)][0x80 := Lo8(x)]
  }

  function HBlankOWrites(L: Trace<EncoderWrite>, o: seq<bv8>, x: bv32): Trace<EncoderWrite>
    requires IsBank(o)
  {
    Then(Then(L, EncoderWrite(0x9a, HBlankOReg9a(o[0x9a], x))), EncoderWrite(0x80, Lo8(x)))
  }

  method SetHBlankO(enc: Encoder, t: TvTiming)
    requires enc.Valid()
    modifies enc
    ensures enc.Valid()
    ensures enc.regs == HBlankORegs(old(enc.regs), t.hBlankO)
    ensures enc.log == HBlankOWrites(old(enc.log), old(enc.regs), t.hBlankO)
  {
    enc.Update(0x9a, 0xc0, Field(t.hBlankO, 2, 0xc0));
    enc.Write(0x80, Lo8(t.hBlankO));
  }

  /** V_SCALE: bits 8-13 into bits 0-5 of register 0x9a, bits 0-7 into 0x98. */
  function VScaleRegs(o: seq<bv8>, x: bv32): (r: seq<bv8>)
    requires IsBank(o)
    ensures IsBank(r)
  {
    o[0x9a := VScaleReg9a(o[0x9a], x)][0x98 := Lo8(x)]
  }

  function VScaleWrites(L: Trace<EncoderWrite>, o: seq<bv8>, x: bv32): Trace<EncoderWrite>
    requires IsBank(o)
  {
    Then(Then(L, EncoderWrite(0x9a, VScaleReg9a(o[0x9a], x))), EncoderWrite(0x98, Lo8(x)))
  }

  method SetVScale(enc: Encoder, t: TvTiming)
    requires enc.Valid()
    modifies enc
    ensures enc.Valid()
    ensures enc.regs == VScaleRegs(old(enc.regs), t.vScale)
    ensures enc.log == VScaleWrites(old(enc.log), old(enc.regs), t.vScale)
  {
    enc.Update(0x9a, 0x3f, Field(t.vScale, 8, 0x3f));
    enc.Write(0x98, Lo8(t.vScale));
  }

  /** V_BLANKO and V_BLANKI: one byte each, into registers 0x82 and 0x92. */
  function VBlankRegs(o: seq<bv8>, blankO: bv32, blankI: bv32): (r: seq<bv8>)
    requires IsBank(o)
    ensures IsBank(r)
  {
    o[0x82 := Lo8(blankO)][0x92 := Lo8(blankI)]
  }

  function VBlankWrites(L: Trace<EncoderWrite>, blankO: bv32, blankI: bv32): Trace<EncoderWrite>
  {
    Then(Then(L, EncoderWrite(0x82, Lo8(blankO))), EncoderWrite(0x92, Lo8(blankI)))
  }

  method SetVBlank(enc: Encoder, t: TvTiming)
    requires enc.Valid()
    modifies enc
    ensures enc.Valid()
    ensures enc.regs == VBlankRegs(old(enc.regs), t.vBlankO, t.vBlankI)
    ensures enc.log == VBlankWrites(old(enc.log), t.vBlankO, t.vBlankI)
  {
    enc.Write(0x82, Lo8(t.vBlankO));
    enc.Write(0x92, Lo8(t.vBlankI));
  }

  /** The PLL: the integer part's low six bits into register 0xa0, the fraction
      into 0x9e (high byte) and 0x9c (low byte). */
  function PllRegs(o: seq<bv8>, ratio: bv32): (r: seq<bv8>)
    requires IsBank(o)
    ensures IsBank(r)
  {
    o[0xa0 := PllIntRegA0(o[0xa0], PllInt(ratio))][0x9e := Field(PllFract(ratio), 8, 0xff)][0x9c := Lo8(PllFract(ratio))]
  }

  function PllWrites(L: Trace<EncoderWrite>, o: seq<bv8>, ratio: bv32): Trace<EncoderWrite>
    requires IsBank(o)
  {
    Then(Then(Then(L, EncoderWrite(0xa0, PllIntRegA0(o[0xa0], PllInt(ratio)))),
      EncoderWrite(0x9e, Field(PllFract(ratio), 8, 0xff))), EncoderWrite(0x9c, Lo8(PllFract(ratio))))
  }

  method SetPll(enc: Encoder, t: TvTiming)
    requires enc.Valid()
    modifies enc
    ensures enc.Valid()
    ensures enc.regs == PllRegs(old(enc.regs), t.pllRatio)
    ensures enc.log == PllWrites(old(enc.log), old(enc.regs), t.pllRatio)
  {
    var dwInt, dwFract := SplitPllRatio(t.pllRatio);
    enc.Update(0xa0, 0x3f, Lo8(dwInt) & 0x3f);
    enc.Write(0x9e, Field(dwFract, 8, 0xff));
    enc.Write(0x9c, Lo8(dwFract));
  }

  /** 3:2 clocking: bit 5 of register 0x38. */
  function ClockModeRegs(o: seq<bv8>, threeHalves: bool): (r: seq<bv8>)
    requires IsBank(o)
    ensures IsBank(r)
  {
    o[0x38 := ClockModeReg38(o[0x38], threeHalves)]
  }

  function ClockModeWrites(L: Trace<EncoderWrite>, o: seq<bv8>, threeHalves: bool): Trace<EncoderWrite>
    requires IsBank(o)
  {
    Then(L, EncoderWrite(0x38, ClockModeReg38(o[0x38], threeHalves)))
  }

  method SetClockMode(enc: Encoder, t: TvTiming)
    requires enc.Valid()
    modifies enc
    ensures enc.Valid()
    ensures enc.regs == ClockModeRegs(old(enc.regs), t.threeHalves)
    ensures enc.log == ClockModeWrites(old(enc.log), old(enc.regs), t.threeHalves)
  {
    enc.Update(0x38, 0x20, ClockModeBit(t.threeHalves));
  }

  /** The burst start: bit 8 into bit 2 of register 0x38, bits 0-7 into 0x7c. */
  function BurstStartRegs(o: seq<bv8>, x: bv32): (r: seq<bv8>)
    requires IsBank(o)
    ensures IsBank(r)
  {
    o[0x38 := BurstStartReg38(o[0x38], x)][0x7c := Lo8(x)]
  }

  function BurstStartWrites(L: Trace<EncoderWrite>, o: seq<bv8>, x: bv32): Trace<EncoderWrite>
    requires IsBank(o)
  {
    Then(Then(L, EncoderWrite(0x38, BurstStartReg38(o[0x38], x))), EncoderWrite(0x7c, Lo8(x)))
  }

  method SetBurstStart(enc: Encoder, t: TvTiming)
    requires enc.Valid()
    modifies enc
    ensures enc.Valid()
    ensures enc.regs == BurstStartRegs(old(enc.regs), t.burstStart)
    ensures enc.log == BurstStartWrites(old(enc.log), old(enc.regs), t.burstStart)
  {
    enc.Update(0x38, 0x04, Field(t.burstStart, 6, 0x04));
    enc.Write(0x7c, Lo8(t.burstStart));
  }

  /** The burst end less 128: bit 8 into bit 3 of register 0x38, bits 0-7 into 0x7e. */
  function BurstEndRegs(o: seq<bv8>, m: bv32): (r: seq<bv8>)
    requires IsBank(o)
    ensures IsBank(r)
  {
    o[0x38 := BurstEndReg38(o[0x38], m)][0x7e := Lo8(m)]
  }

  function BurstEndWrites(L: Trace<EncoderWrite>, o: seq<bv8>, m: bv32): Trace<EncoderWrite>
    requires IsBank(o)
  {
    Then(Then(L, EncoderWrite(0x38, BurstEndReg38(o[0x38], m))), EncoderWrite(0x7e, Lo8(m)))
  }

  method SetBurstEnd(enc: Encoder, t: TvTiming)
    requires enc.Valid()
    modifies enc
    ensures enc.Valid()
    ensures enc.regs == BurstEndRegs(old(enc.regs), BurstEndClocks(t.burstEnd))
    ensures enc.log == BurstEndWrites(old(enc.log), old(enc.regs), BurstEndClocks(t.burstEnd))
  {
    var m := BurstEndClocks(t.burstEnd);
    enc.Update(0x38, 0x08, Field(m, 5, 0x08));
    enc.Write(0x7e, Lo8(m));
  }

  /** The horizontal sync width: one byte into register 0x7a. */
  function HSyncWidthRegs(o: seq<bv8>, x: bv32): (r: seq<bv8>)
    requires IsBank(o)
    ensures IsBank(r)
  {
    o[0x7a := Lo8(x)]
  }

  function HSyncWidthWrites(L: Trace<EncoderWrite>, x: bv32): Trace<EncoderWrite>
  {
    Then(L, EncoderWrite(0x7a, Lo8(x)))
  }

  method SetHSyncWidth(enc: Encoder, t: TvTiming)
    requires enc.Valid()
    modifies enc
    ensures enc.Valid()
    ensures enc.regs == HSyncWidthRegs(old(enc.regs), t.hSyncWidth)
    ensures enc.log == HSyncWidthWrites(old(enc.log), t.hSyncWidth)
  {
    enc.Write(0x7a, Lo8(t.hSyncWidth));
  }

  /** The subcarrier increment, low byte first, into registers 0xae, 0xb0,
      0xb2 and 0xb4. */
  function SubcarrierRegs(o: seq<bv8>, x: bv32): (r: seq<bv8>)
    requires IsBank(o)
    ensures IsBank(r)
  {
    o[0xae := Lo8(x)][0xb0 := Field(x, 8, 0xff)][0xb2 := Field(x, 16, 0xff)][0xb4 := Field(x, 24, 0xff)]
  }

  function SubcarrierWrites(L: Trace<EncoderWrite>, x: bv32): Trace<EncoderWrite>
  {
    Then(Then(Then(Then(L, EncoderWrite(0xae, Lo8(x))), EncoderWrite(0xb0, Field(x, 8, 0xff))),
      EncoderWrite(0xb2, Field(x, 16, 0xff))), EncoderWrite(0xb4, Field(x, 24, 0xff)))
  }

  method SetSubcarrier(enc: Encoder, t: TvTiming)
    requires enc.Valid()
    modifies enc
    ensures enc.Valid()
    ensures enc.regs == SubcarrierRegs(old(enc.regs), t.subcarrier)
    ensures enc.log == SubcarrierWrites(old(enc.log), t.subcarrier)
  {
    enc.Write(0xae, Lo8(t.subcarrier));
    enc.Write(0xb0, Field(t.subcarrier, 8, 0xff));
    enc.Write(0xb2, Field(t.subcarrier, 16, 0xff));
    enc.Write(0xb4, Field(t.subcarrier, 24, 0xff));
  }

  /** The WSS increment: bits 0-19, low byte first, into registers 0x66, 0x68
      and 0x6a. */
  function WssRegs(o: seq<bv8>, x: bv32): (r: seq<bv8>)
    requires IsBank(o)
    ensures IsBank(r)
  {
    o[0x66 := Lo8(x)][0x68 := Field(x, 8, 0xff)][0x6a := Field(x, 16, 0x0f)]
  }

  function WssWrites(L: Trace<EncoderWrite>, x: bv32): Trace<EncoderWrite>
  {
    Then(Then(Then(L, EncoderWrite(0x66, Lo8(x))), EncoderWrite(0x68, Field(x, 8, 0xff))),
      EncoderWrite(0x6a, Field(x, 16, 0x0f)))
  }

  method SetWss(enc: Encoder, t: TvTiming)
    requires enc.Valid()
    modifies enc
    ensures enc.Valid()
    ensures enc.regs == WssRegs(old(enc.regs), t.wss)
    ensures enc.log == WssWrites(old(enc.log), t.wss)
  {
    enc.Write(0x66, Lo8(t.wss));
    enc.Write(0x68, Field(t.wss, 8, 0xff));
    enc.Write(0x6a, Field(t.wss, 16, 0x0f));
  }

  /** The standard-select bits of the mode register 0xa2. */
  function ModeRegs(o: seq<bv8>, std: VideoStd): (r: seq<bv8>)
    requires IsBank(o)
    ensures IsBank(r)
  {
    o[0xa2 := ModeRegA2(o[0xa2], std)]
  }

  function ModeWrites(L: Trace<EncoderWrite>, o: seq<bv8>, std: VideoStd): Trace<EncoderWrite>
    requires IsBank(o)
  {
    Then(L, EncoderWrite(0xa2, ModeRegA2(o[0xa2], std)))
  }

  method SetModeRegister(enc: Encoder, t: TvTiming)
    requires enc.Valid()
    modifies enc
    ensures enc.Valid()
    ensures enc.regs == ModeRegs(old(enc.regs), t.std)
    ensures enc.log == ModeWrites(old(enc.log), old(enc.regs), t.std)
  {
    var b := enc.Read(0xa2);
    b := b & 0x41;
    b := b | ModePattern(t.std);
    enc.Write(0xa2, b);
  }

  /** The connector-dependent settings: encoder field mode (0x6c), brightness
      (0x5a), sync and burst amplitudes (0xa4, 0xa6), DAC control (0xba), input
      format (0xc6), output multiplexer (0xce) and output mode (0xd6), and the
      GPU's colour space (0x680630) and colour offset (0x68084c) registers. */
  datatype OutputRouting = OutputRouting(
    fieldMode: bv8,
    brightness: bv8,
    syncAmp: bv8,
    burstAmp: bv8,
    dacControl: bv8,
    inMode: bv8,
    outMux: bv8,
    outMode: bv8,
    gpuColorSpace: Dword,
    gpuColorOffset: Dword)

  /** The routing for each connector; a VGA connector changes nothing. */
  function RoutingFor(av: AvType): Option<OutputRouting>
  {
    match av
    case Composite | SVideo => Some(OutputRouting(0x46, 0x00, 0xe5, 0x74, 0x24, 0x9c, 0x19, 0x00, 2, 0x801080))
    case ScartRgb => Some(OutputRouting(0x4e, 0xff, 0xe7, 0x77, 0x20, 0x98, 0xe1, 0x0c, 0, 0))
    case Hdtv => Some(OutputRouting(0x46, 0x00, 0xe5, 0x74, 0x20, 0x9c, 0x21, 0x08, 2, 0x801080))
    case Vga => None
  }

  /** The GPU and the encoder agree on the pixel format: the GPU sends RGB
      (colour space 0, no offset) exactly when the encoder expects RGB input
      (0x98), and YCrCb (colour space 2) exactly when it expects YCrCb (0x9c).
      SCART alone enables the SCART output (bit 3 of 0x6c) and the RGB output
      mode; no routing sets the timing reset bit. */
  lemma RoutingConsistent(av: AvType)
    ensures RoutingFor(av).None? <==> av == Vga
    ensures RoutingFor(av).Some? ==> var s := RoutingFor(av).value;
      && (s.gpuColorSpace == 0 <==> s.inMode == 0x98)
      && (s.gpuColorSpace == 2 <==> s.inMode == 0x9c)
      && (s.gpuColorSpace == 0 <==> s.gpuColorOffset == 0)
      && (s.fieldMode & 0x08 != 0 <==> av == ScartRgb)
      && (s.outMode == 0x0c <==> av == ScartRgb)
      && s.fieldMode & 0x80 == 0
  {
  }

  function RouteOutput(o: seq<bv8>, av: AvType): (r: seq<bv8>)
    requires IsBank(o)
    ensures IsBank(r)
  {
    match RoutingFor(av)
    case None => o
    case Some(s) =>
      o[0x6c := s.fieldMode][0x5a := s.brightness][0xa4 := s.syncAmp][0xa6 := s.burstAmp]
       [0xba := s.dacControl][0xc6 := s.inMode][0xce := s.outMux][0xd6 := s.outMode]
  }

  function RouteOutputWrites(L: Trace<EncoderWrite>, av: AvType): Trace<EncoderWrite>
  {
    match RoutingFor(av)
    case None => L
    case Some(s) =>
      var w := Then(Then(Then(Then(L, EncoderWrite(0x6c, s.fieldMode)), EncoderWrite(0x5a, s.brightness)),
        EncoderWrite(0xa4, s.syncAmp)), EncoderWrite(0xa6, s.burstAmp));
      Then(Then(Then(Then(w, EncoderWrite(0xba, s.dacControl)), EncoderWrite(0xc6, s.inMode)),
        EncoderWrite(0xce, s.outMux)), EncoderWrite(0xd6, s.outMode))
  }

  function RouteGpu(m: map<int, Dword>, av: AvType): map<int, Dword>
  {
    match RoutingFor(av)
    case None => m
    case Some(s) => m[0x680630 := s.gpuColorSpace][0x68084c := s.gpuColorOffset]
  }

  function RouteGpuWrites(L: Trace<GpuWrite>, av: AvType): Trace<GpuWrite>
  {
    match RoutingFor(av)
    case None => L
    case Some(s) => Then(Then(L, Mmio32(0x680630, s.gpuColorSpace)), Mmio32(0x68084c, s.gpuColorOffset))
  }

  method SetOutputRouting(enc: Encoder, gpu: Gpu, av: AvType)
    requires enc.Valid() && gpu.Valid()
    modifies enc, gpu
    ensures enc.Valid() && gpu.Valid()
    ensures enc.regs == RouteOutput(old(enc.regs), av)
    ensures enc.log == RouteOutputWrites(old(enc.log), av)
    ensures gpu.mmio == RouteGpu(old(gpu.mmio), av) && gpu.crtc == old(gpu.crtc)
    ensures gpu.log == RouteGpuWrites(old(gpu.log), av)
  {
    match RoutingFor(av) {
      case None =>
      case Some(s) =>
        enc.Write(0x6c, s.fieldMode);
        enc.Write(0x5a, s.brightness);
        enc.Write(0xa4, s.syncAmp);
        enc.Write(0xa6, s.burstAmp);
        enc.Write(0xba, s.dacControl);
        enc.Write(0xc6, s.inMode);
        enc.Write(0xce, s.outMux);
        enc.Write(0xd6, s.outMode);
        gpu.Write32(0x680630, s.gpuColorSpace);
        gpu.Write32(0x68084c, s.gpuColorOffset);
    }
  }

  /** EN_OUT: register 0xc4 := 1. */
  function EnableOutput(o: seq<bv8>): (r: seq<bv8>)
    requires IsBank(o)
    ensures IsBank(r)
  {
    o[0xc4 := 0x01]
  }

  // The groups of SetTVConexantRegister, as the comments in its body divide it.

  /** H_CLKI, H_CLKO and V_LINESI. */
  function TvInputTiming(o: seq<bv8>, t: TvTiming): (r: seq<bv8>)
    requires IsBank(o)
    ensures IsBank(r)
  {
    VLinesIRegs(HClkORegs(HClkIRegs(o, t.hClkI), t.hClkO), t.vLinesI)
  }

  function TvInputTimingWrites(L: Trace<EncoderWrite>, o: seq<bv8>, t: TvTiming): Trace<EncoderWrite>
    requires IsBank(o)
  {
    var s1 := HClkIRegs(o, t.hClkI);
    var s2 := HClkORegs(s1, t.hClkO);
    VLinesIWrites(HClkOWrites(HClkIWrites(L, o, t.hClkI), s1, t.hClkO), s2, t.vLinesI)
  }

  method SetTvInputTiming(enc: Encoder, t: TvTiming)
    requires enc.Valid()
    modifies enc
    ensures enc.Valid()
    ensures enc.regs == TvInputTiming(old(enc.regs), t)
    ensures enc.log == TvInputTimingWrites(old(enc.log), old(enc.regs), t)
  {
    SetHClkI(enc, t);
    SetHClkO(enc, t);
    SetVLinesI(enc, t);
  }

  /** V_ACTIVEO, H_ACTIVE and V_ACTIVEI. */
  function TvActiveArea(o: seq<bv8>, t: TvTiming): (r: seq<bv8>)
    requires IsBank(o)
    ensures IsBank(r)
  {
    VActiveIRegs(HActiveRegs(VActiveORegs(o, ActiveLinesOut(t)), HActiveClocks(t)), t.vActiveI)
  }

  function TvActiveAreaWrites(L: Trace<EncoderWrite>, o: seq<bv8>, t: TvTiming): Trace<EncoderWrite>
    requires IsBank(o)
  {
    var s1 := VActiveORegs(o, ActiveLinesOut(t));
    var s2 := HActiveRegs(s1, HActiveClocks(t));
    VActiveIWrites(HActiveWrites(VActiveOWrites(L, o, ActiveLinesOut(t)), s1, HActiveClocks(t)), s2, t.vActiveI)
  }

  method SetTvActiveArea(enc: Encoder, t: TvTiming)
    requires enc.Valid()
    modifies enc
    ensures enc.Valid()
    ensures enc.regs == TvActiveArea(old(enc.regs), t)
    ensures enc.log == TvActiveAreaWrites(old(enc.log), old(enc.regs), t)
  {
    SetVActiveO(enc, t);
    SetHActive(enc, t);
    SetVActiveI(enc, t);
  }

  /** H_BLANKI, H_BLANKO, V_SCALE, V_BLANKO and V_BLANKI. */
  function TvBlanking(o: seq<bv8>, t: TvTiming): (r: seq<bv8>)
    requires IsBank(o)
    ensures IsBank(r)
  {
    VBlankRegs(VScaleRegs(HBlankORegs(HBlankIRegs(o, t.hBlankI), t.hBlankO), t.vScale), t.vBlankO, t.vBlankI)
  }

  function TvBlankingWrites(L: Trace<EncoderWrite>, o: seq<bv8>, t: TvTiming): Trace<EncoderWrite>
    requires IsBank(o)
  {
    var s1 := HBlankIRegs(o, t.hBlankI);
    var s2 := HBlankORegs(s1, t.hBlankO);
    VBlankWrites(VScaleWrites(HBlankOWrites(HBlankIWrites(L, o, t.hBlankI), s1, t.hBlankO), s2, t.vScale),
      t.vBlankO, t.vBlankI)
  }

  method SetTvBlanking(enc: Encoder, t: TvTiming)
    requires enc.Valid()
    modifies enc
    ensures enc.Valid()
    ensures enc.regs == TvBlanking(old(enc.regs), t)
    ensures enc.log == TvBlankingWrites(old(enc.log), old(enc.regs), t)
  {
    SetHBlankI(enc, t);
    SetHBlankO(enc, t);
    SetVScale(enc, t);
    SetVBlank(enc, t);
  }

  /** The PLL, 3:2 clocking, the burst start and end and the sync width. */
  function TvClocking(o: seq<bv8>, t: TvTiming): (r: seq<bv8>)
    requires IsBank(o)
    ensures IsBank(r)
  {
    var s1 := ClockModeRegs(PllRegs(o, t.pllRatio), t.threeHalves);
    HSyncWidthRegs(BurstEndRegs(BurstStartRegs(s1, t.burstStart), BurstEndClocks(t.burstEnd)), t.hSyncWidth)
  }

  function TvClockingWrites(L: Trace<EncoderWrite>, o: seq<bv8>, t: TvTiming): Trace<EncoderWrite>
    requires IsBank(o)
  {
    var s1 := PllRegs(o, t.pllRatio);
    var s2 := ClockModeRegs(s1, t.threeHalves);
    var s3 := BurstStartRegs(s2, t.burstStart);
    var w := ClockModeWrites(PllWrites(L, o, t.pllRatio), s1, t.threeHalves);
    HSyncWidthWrites(BurstEndWrites(BurstStartWrites(w, s2, t.burstStart), s3, BurstEndClocks(t.burstEnd)),
      t.hSyncWidth)
  }

  method SetTvClocking(enc: Encoder, t: TvTiming)
    requires enc.Valid()
    modifies enc
    ensures enc.Valid()
    ensures enc.regs == TvClocking(old(enc.regs), t)
    ensures enc.log == TvClockingWrites(old(enc.log), old(enc.regs), t)
  {
    SetPll(enc, t);
    SetClockMode(enc, t);
    SetBurstStart(enc, t);
    SetBurstEnd(enc, t);
    SetHSyncWidth(enc, t);
  }

  /** The subcarrier and WSS increments. */
  function TvCarriers(o: seq<bv8>, t: TvTiming): (r: seq<bv8>)
    requires IsBank(o)
    ensures IsBank(r)
  {
    WssRegs(SubcarrierRegs(o, t.subcarrier), t.wss)
  }

  function TvCarriersWrites(L: Trace<EncoderWrite>, t: TvTiming): Trace<EncoderWrite>
  {
    WssWrites(SubcarrierWrites(L, t.subcarrier), t.wss)
  }

  method SetTvCarriers(enc: Encoder, t: TvTiming)
    requires enc.Valid()
    modifies enc
    ensures enc.Valid()
    ensures enc.regs == TvCarriers(old(enc.regs), t)
    ensures enc.log == TvCarriersWrites(old(enc.log), t)
  {
    SetSubcarrier(enc, t);
    SetWss(enc, t);
  }

  /** The mode register and the connector routing. */
  function TvRouting(o: seq<bv8>, std: VideoStd, av: AvType): (r: seq<bv8>)
    requires IsBank(o)
    ensures IsBank(r)
  {
    RouteOutput(ModeRegs(o, std), av)
  }

  function TvRoutingWrites(L: Trace<EncoderWrite>, o: seq<bv8>, std: VideoStd, av: AvType): Trace<EncoderWrite>
    requires IsBank(o)
  {
    RouteOutputWrites(ModeWrites(L, o, std), av)
  }

  /** EN_OUT and the timing reset. */
  function TvFinish(o: seq<bv8>): (r: seq<bv8>)
    requires IsBank(o)
    ensures IsBank(r)
  {
    TimingReset(EnableOutput(o))
  }

  function TvFinishWrites(L: Trace<EncoderWrite>, o: seq<bv8>): Trace<EncoderWrite>
    requires IsBank(o)
  {
    TimingResetWrites(Then(L, EncoderWrite(0xc4, 0x01)), EnableOutput(o))
  }

  // The whole sequence. SetTVConexantRegister makes the eight groups above in
  // order; `TvAfter(o, t, av, n)` is the register file after the first `n`.

  /** Group `n` of SetTVConexantRegister, numbered from 1 in the order it makes them. */
  function TvGroup(n: nat, s: seq<bv8>, t: TvTiming, av: AvType): (r: seq<bv8>)
    requires IsBank(s) && 1 <= n <= 8
    ensures IsBank(r)
  {
    match n
    case 1 => TvPreamble(s)
    case 2 => TvInputTiming(s, t)
    case 3 => TvActiveArea(s, t)
    case 4 => TvBlanking(s, t)
    case 5 => TvClocking(s, t)
    case 6 => TvCarriers(s, t)
    case 7 => TvRouting(s, t.std, av)
    case _ => TvFinish(s)
  }

  /** Group `n` stores to register `i`. */
  predicate InGroup(n: nat, i: int)
  {
    match n
    case 1 => i == 0xb8 || i == 0xa0 || i == 0x32
    case 2 => i == 0x8e || i == 0x8a || i == 0x86 || i == 0x76 || i == 0x38 || i == 0x96 || i == 0x90
    case 3 => i == 0x86 || i == 0x84 || i == 0x78 || i == 0x96 || i == 0x94
    case 4 => i == 0x38 || i == 0x8e || i == 0x8c || i == 0x9a || i == 0x80 || i == 0x98 || i == 0x82 || i == 0x92
    case 5 => i == 0xa0 || i == 0x9e || i == 0x9c || i == 0x38 || i == 0x7c || i == 0x7e || i == 0x7a
    case 6 => i == 0xae || i == 0xb0 || i == 0xb2 || i == 0xb4 || i == 0x66 || i == 0x68 || i == 0x6a
    case 7 => i == 0xa2 || i == 0x6c || i == 0x5a || i == 0xa4 || i == 0xa6 || i == 0xba || i == 0xc6
      || i == 0xce || i == 0xd6
    case 8 => i == 0xc4 || i == 0x6c
    case _ => false
  }

  /** The registers after the first `n` groups. */
  function TvAfter(o: seq<bv8>, t: TvTiming, av: AvType, n: nat): (r: seq<bv8>)
    requires IsBank(o) && n <= 8
    ensures IsBank(r)
  {
    if n == 0 then o else TvGroup(n, TvAfter(o, t, av, n - 1), t, av)
  }

  /** The encoder registers after `SetTVConexantRegister`. */
  function TvEncoder(o: seq<bv8>, t: TvTiming, av: AvType): (r: seq<bv8>)
    requires IsBank(o)
    ensures IsBank(r)
  {
    TvAfter(o, t, av, 8)
  }

  function TvWrites(L: Trace<EncoderWrite>, o: seq<bv8>, t: TvTiming, av: AvType): Trace<EncoderWrite>
    requires IsBank(o)
  {
    var w := TvInputTimingWrites(TvPreambleWrites(L), TvAfter(o, t, av, 1), t);
    var w := TvBlankingWrites(TvActiveAreaWrites(w, TvAfter(o, t, av, 2), t), TvAfter(o, t, av, 3), t);
    var w := TvCarriersWrites(TvClockingWrites(w, TvAfter(o, t, av, 4), t), t);
    TvFinishWrites(TvRoutingWrites(w, TvAfter(o, t, av, 6), t.std, av), TvAfter(o, t, av, 7))
  }

  /** The sequence ends with EN_OUT (0x01 into register 0xc4) and, directly
      after it, the timing reset of register 0x6c: bit 7 set, the other bits as
      read after the routing group. */
  lemma TvWritesEnd(L: Trace<EncoderWrite>, o: seq<bv8>, t: TvTiming, av: AvType)
    requires IsBank(o)
    ensures var w, p := TvWrites(L, o, t, av), TvAfter(o, t, av, 7)[0x6c];
      && w.Then? && w.last.reg == 0x6c && w.last.value & 0x80 == 0x80 && w.last.value & 0x7f == p & 0x7f
      && w.before.Then? && w.before.last == EncoderWrite(0xc4, 0x01)
  {
    var s := TvAfter(o, t, av, 7);
    assert EnableOutput(s)[0x6c] == s[0x6c];
    TimingResetFields(EnableOutput(s));
  }

  /** `SetTVConexantRegister`: program the encoder for the solved TV mode. The
      connector type comes from the AV-pack status byte (`xbvDetectAvType`). */
  method SetTvConexantRegister(enc: Encoder, gpu: Gpu, mode: ModeParameter, blanks: BlankingParameter,
                               a: AnalogValues, avStatus: bv8)
    requires enc.Valid() && gpu.Valid()
    requires mode.vLinesI > 0 && mode.vActiveI >= 0 && mode.hClkI >= 0
    modifies enc, gpu
    ensures enc.Valid() && gpu.Valid()
    ensures enc.regs == TvEncoder(old(enc.regs), TvTimingOf(mode, blanks, a), DetectAvType(avStatus))
    ensures enc.log == TvWrites(old(enc.log), old(enc.regs), TvTimingOf(mode, blanks, a), DetectAvType(avStatus))
    ensures gpu.mmio == RouteGpu(old(gpu.mmio), DetectAvType(avStatus)) && gpu.crtc == old(gpu.crtc)
    ensures gpu.log == RouteGpuWrites(old(gpu.log), DetectAvType(avStatus))
  {
    var t, av := TvTimingOf(mode, blanks, a), DetectAvType(avStatus);
    ghost var o := enc.regs;
    SetTvPreamble(enc);
    assert enc.regs == TvAfter(o, t, av, 1);
    SetTvInputTiming(enc, t);
    assert enc.regs == TvAfter(o, t, av, 2);
    SetTvActiveArea(enc, t);
    assert enc.regs == TvAfter(o, t, av, 3);
    SetTvBlanking(enc, t);
    assert enc.regs == TvAfter(o, t, av, 4);
    SetTvClocking(enc, t);
    assert enc.regs == TvAfter(o, t, av, 5);
    SetTvCarriers(enc, t);
    assert enc.regs == TvAfter(o, t, av, 6);
    SetModeRegister(enc, t);
    SetOutputRouting(enc, gpu, av);
    assert enc.regs == TvAfter(o, t, av, 7);
    enc.Write(0xc4, 0x01);
    ResetTiming(enc);
  }

  // ---------------------------------------------------------------------------
  // What SetTVConexantRegister leaves in the registers.

  /** Register 0x6c before the timing reset: the routing's field mode, or the
      prior content for a VGA connector. */
  function RoutedFieldMode(p: bv8, av: AvType): bv8
  {
    match RoutingFor(av)
    case None => p
    case Some(s) => s.fieldMode
  }

  // The final bytes of the registers several groups share.

  function Final86(o86: bv8, t: TvTiming): bv8
  {
    HActiveReg86(VActiveOReg86(HClkOReg86(o86, t.hClkO), ActiveLinesOut(t)), HActiveClocks(t))
  }

  function Final8e(o8e: bv8, t: TvTiming): bv8
  {
    HBlankIReg8e(HClkIReg8e(o8e, t.hClkI), t.hBlankI)
  }

  function Final96(o96: bv8, t: TvTiming): bv8
  {
    VActiveIReg96(VLinesIReg96(o96, t.vLinesI), t.vActiveI)
  }

  function Clocking38(p: bv8, t: TvTiming): bv8
  {
    BurstEndReg38(BurstStartReg38(ClockModeReg38(p, t.threeHalves), t.burstStart), BurstEndClocks(t.burstEnd))
  }

  function Final38(o38: bv8, t: TvTiming): bv8
  {
    Clocking38(HBlankIReg38(VLinesIReg38(o38, t.vLinesI), t.hBlankI), t)
  }

  function Final9a(o9a: bv8, t: TvTiming): bv8
  {
    VScaleReg9a(HBlankOReg9a(o9a, t.hBlankO), t.vScale)
  }

  function FinalA0(t: TvTiming): bv8
  {
    PllIntRegA0(0x13, PllInt(t.pllRatio))
  }

  function Final6c(o6c: bv8, av: AvType): bv8
  {
    TimingResetReg6c(RoutedFieldMode(o6c, av))
  }

  // Each group, register by register, and the registers it leaves alone.

  lemma TvPreambleFrame(o: seq<bv8>)
    requires IsBank(o)
    ensures forall i :: 0 <= i < 256 && !InGroup(1, i) ==> TvPreamble(o)[i] == o[i]
  {
  }

  lemma TvInputRegisters(o: seq<bv8>, t: TvTiming)
    requires IsBank(o)
    ensures var r := TvInputTiming(o, t);
      && r[0x8e] == HClkIReg8e(o[0x8e], t.hClkI) && r[0x8a] == Lo8(t.hClkI)
      && r[0x86] == HClkOReg86(o[0x86], t.hClkO) && r[0x76] == Lo8(t.hClkO)
      && r[0x38] == VLinesIReg38(o[0x38], t.vLinesI) && r[0x96] == VLinesIReg96(o[0x96], t.vLinesI)
      && r[0x90] == Lo8(t.vLinesI)
  {
  }

  lemma TvInputFrame(o: seq<bv8>, t: TvTiming)
    requires IsBank(o)
    ensures forall i :: 0 <= i < 256 && !InGroup(2, i) ==> TvInputTiming(o, t)[i] == o[i]
  {
  }

  lemma TvActiveRegisters(o: seq<bv8>, t: TvTiming)
    requires IsBank(o)
    ensures var r := TvActiveArea(o, t);
      && r[0x86] == HActiveReg86(VActiveOReg86(o[0x86], ActiveLinesOut(t)), HActiveClocks(t))
      && r[0x84] == Lo8(ActiveLinesOut(t)) && r[0x78] == Lo8(HActiveClocks(t))
      && r[0x96] == VActiveIReg96(o[0x96], t.vActiveI) && r[0x94] == Lo8(t.vActiveI)
  {
  }

  lemma TvActiveFrame(o: seq<bv8>, t: TvTiming)
    requires IsBank(o)
    ensures forall i :: 0 <= i < 256 && !InGroup(3, i) ==> TvActiveArea(o, t)[i] == o[i]
  {
  }

  lemma TvBlankingRegisters(o: seq<bv8>, t: TvTiming)
    requires IsBank(o)
    ensures var r := TvBlanking(o, t);
      && r[0x38] == HBlankIReg38(o[0x38], t.hBlankI) && r[0x8e] == HBlankIReg8e(o[0x8e], t.hBlankI)
      && r[0x8c] == Lo8(t.hBlankI) && r[0x9a] == Final9a(o[0x9a], t) && r[0x80] == Lo8(t.hBlankO)
      && r[0x98] == Lo8(t.vScale) && r[0x82] == Lo8(t.vBlankO) && r[0x92] == Lo8(t.vBlankI)
  {
    var s1 := HBlankIRegs(o, t.hBlankI);
    var s2 := HBlankORegs(s1, t.hBlankO);
    var s3 := VScaleRegs(s2, t.vScale);
    assert s3[0x38] == s1[0x38] && s3[0x8e] == s1[0x8e] && s3[0x8c] == s1[0x8c];
  }

  lemma TvBlankingFrame(o: seq<bv8>, t: TvTiming)
    requires IsBank(o)
    ensures forall i :: 0 <= i < 256 && !InGroup(4, i) ==> TvBlanking(o, t)[i] == o[i]
  {
  }

  lemma TvClockingRegisters(o: seq<bv8>, t: TvTiming)
    requires IsBank(o)
    ensures var r := TvClocking(o, t);
      && r[0xa0] == PllIntRegA0(o[0xa0], PllInt(t.pllRatio))
      && r[0x9e] == Field(PllFract(t.pllRatio), 8, 0xff) && r[0x9c] == Lo8(PllFract(t.pllRatio))
      && r[0x38] == Clocking38(o[0x38], t)
      && r[0x7c] == Lo8(t.burstStart) && r[0x7e] == Lo8(BurstEndClocks(t.burstEnd)) && r[0x7a] == Lo8(t.hSyncWidth)
  {
  }

  lemma TvClockingFrame(o: seq<bv8>, t: TvTiming)
    requires IsBank(o)
    ensures forall i :: 0 <= i < 256 && !InGroup(5, i) ==> TvClocking(o, t)[i] == o[i]
  {
  }

  lemma TvCarrierRegisters(o: seq<bv8>, t: TvTiming)
    requires IsBank(o)
    ensures var r := TvCarriers(o, t);
      && r[0xae] == Lo8(t.subcarrier) && r[0xb0] == Field(t.subcarrier, 8, 0xff)
      && r[0xb2] == Field(t.subcarrier, 16, 0xff) && r[0xb4] == Field(t.subcarrier, 24, 0xff)
      && r[0x66] == Lo8(t.wss) && r[0x68] == Field(t.wss, 8, 0xff) && r[0x6a] == Field(t.wss, 16, 0x0f)
  {
  }

  lemma TvCarrierFrame(o: seq<bv8>, t: TvTiming)
    requires IsBank(o)
    ensures forall i :: 0 <= i < 256 && !InGroup(6, i) ==> TvCarriers(o, t)[i] == o[i]
  {
  }

  /** The mode register keeps bits 0x41 under the standard's pattern, and each
      routed register holds the connector's setting (or its prior content for
      a VGA connector). */
  lemma TvRoutingRegisters(o: seq<bv8>, std: VideoStd, av: AvType)
    requires IsBank(o)
    ensures var r := TvRouting(o, std, av);
      && r[0xa2] == ModeRegA2(o[0xa2], std) && r[0x6c] == RoutedFieldMode(o[0x6c], av)
      && (RoutingFor(av).None? ==>
           && r[0x5a] == o[0x5a] && r[0xa4] == o[0xa4] && r[0xa6] == o[0xa6] && r[0xba] == o[0xba]
           && r[0xc6] == o[0xc6] && r[0xce] == o[0xce] && r[0xd6] == o[0xd6])
      && (RoutingFor(av).Some? ==> var s := RoutingFor(av).value;
           r[0x5a] == s.brightness && r[0xa4] == s.syncAmp && r[0xa6] == s.burstAmp
           && r[0xba] == s.dacControl && r[0xc6] == s.inMode && r[0xce] == s.outMux && r[0xd6] == s.outMode)
  {
  }

  lemma TvRoutingFrame(o: seq<bv8>, std: VideoStd, av: AvType)
    requires IsBank(o)
    ensures forall i :: 0 <= i < 256 && !InGroup(7, i) ==> TvRouting(o, std, av)[i] == o[i]
  {
  }

  /** EN_OUT is set, and 0x6c gets the timing reset over what the routing left. */
  lemma TvFinishRegisters(o: seq<bv8>)
    requires IsBank(o)
    ensures var r := TvFinish(o);
      r[0xc4] == 0x01 && r[0x6c] == TimingResetReg6c(o[0x6c])
  {
  }

  lemma TvFinishFrame(o: seq<bv8>)
    requires IsBank(o)
    ensures forall i :: 0 <= i < 256 && !InGroup(8, i) ==> TvFinish(o)[i] == o[i]
  {
  }

  /** Each group stores only to its own registers. */
  lemma TvGroupFrame(n: nat, s: seq<bv8>, t: TvTiming, av: AvType)
    requires IsBank(s) && 1 <= n <= 8
    ensures forall i :: 0 <= i < 256 && !InGroup(n, i) ==> TvGroup(n, s, t, av)[i] == s[i]
  {
    match n
    case 1 => TvPreambleFrame(s);
    case 2 => TvInputFrame(s, t);
    case 3 => TvActiveFrame(s, t);
    case 4 => TvBlankingFrame(s, t);
    case 5 => TvClockingFrame(s, t);
    case 6 => TvCarrierFrame(s, t);
    case 7 => TvRoutingFrame(s, t.std, av);
    case 8 => TvFinishFrame(s);
  }

  /** `r` differs from `s` only in the registers group `n` stores to. */
  ghost predicate GroupStep(s: seq<bv8>, r: seq<bv8>, n: nat)
  {
    IsBank(s) && IsBank(r) && forall i :: 0 <= i < 256 && !InGroup(n, i) ==> r[i] == s[i]
  }

  /** Nine register files, each made from the one before by the next group:
      the shape of every run of SetTVConexantRegister. */
  ghost predicate IsTvRun(st: seq<seq<bv8>>)
  {
    |st| == 9 && forall g :: 1 <= g < 9 ==> GroupStep(st[g - 1], st[g], g)
  }

  /** In a run, a register that groups `m + 1` to `n` do not store to keeps what
      it held after group `m`. */
  lemma {:induction false} KeptAcross(st: seq<seq<bv8>>, m: nat, n: nat, i: int)
    requires IsTvRun(st) && m <= n < 9 && 0 <= i < 256
    requires forall g :: m < g <= n ==> !InGroup(g, i)
    ensures IsBank(st[m]) && IsBank(st[n]) && st[n][i] == st[m][i]
    decreases n
  {
    if m < n {
      KeptAcross(st, m, n - 1, i);
      assert GroupStep(st[n - 1], st[n], n);
    } else if m > 0 {
      assert GroupStep(st[m - 1], st[m], m);
    } else {
      assert GroupStep(st[0], st[1], 1);
    }
  }

  /** The last group that stores to register `i`, or 0 when none does. */
  function LastGroup(i: int): (n: nat)
    ensures n <= 8 && (n > 0 ==> InGroup(n, i))
    ensures forall g :: n < g <= 8 ==> !InGroup(g, i)
  {
    match i
    case 0xb8 | 0x32 => 1
    case 0x8a | 0x76 | 0x90 => 2
    case 0x86 | 0x84 | 0x78 | 0x96 | 0x94 => 3
    case 0x8e | 0x8c | 0x9a | 0x80 | 0x98 | 0x82 | 0x92 => 4
    case 0xa0 | 0x9e | 0x9c | 0x38 | 0x7c | 0x7e | 0x7a => 5
    case 0xae | 0xb0 | 0xb2 | 0xb4 | 0x66 | 0x68 | 0x6a => 6
    case 0xa2 | 0x5a | 0xa4 | 0xa6 | 0xba | 0xc6 | 0xce | 0xd6 => 7
    case 0x6c | 0xc4 => 8
    case _ => 0
  }

  /** At the end of a run every register holds what the last group storing to
      it left there. */
  lemma RunLastIs(st: seq<seq<bv8>>, k: nat)
    requires IsTvRun(st) && k <= 8
    ensures IsBank(st[k]) && IsBank(st[8])
    ensures forall i :: 0 <= i < 256 && LastGroup(i) == k ==> st[8][i] == st[k][i]
  {
    KeptAcross(st, k, 8, 0);
    forall i | 0 <= i < 256 && LastGroup(i) == k
      ensures st[8][i] == st[k][i]
    {
      KeptAcross(st, k, 8, i);
    }
  }

  /** The nine register files of SetTVConexantRegister: before the first group
      and after each of the eight. */
  ghost function TvStates(o: seq<bv8>, t: TvTiming, av: AvType): (r: seq<seq<bv8>>)
    requires IsBank(o)
    ensures |r| == 9 && forall k :: 0 <= k < 9 ==> r[k] == TvAfter(o, t, av, k)
  {
    seq(9, k requires 0 <= k < 9 => TvAfter(o, t, av, k))
  }

  /** SetTVConexantRegister's register files form a run. */
  lemma TvRunOf(o: seq<bv8>, t: TvTiming, av: AvType)
    requires IsBank(o)
    ensures IsTvRun(TvStates(o, t, av))
  {
    forall g | 1 <= g < 9
      ensures GroupStep(TvAfter(o, t, av, g - 1), TvAfter(o, t, av, g), g)
    {
      TvGroupFrame(g, TvAfter(o, t, av, g - 1), t, av);
    }
  }

  /** Every register ends up holding what the last group storing to it (`k`)
      left there. */
  lemma TvFinal(o: seq<bv8>, t: TvTiming, av: AvType, i: int, k: nat)
    requires IsBank(o) && 0 <= i < 256 && k == LastGroup(i)
    ensures TvEncoder(o, t, av)[i] == TvAfter(o, t, av, k)[i]
  {
    TvRunOf(o, t, av);
    KeptAcross(TvStates(o, t, av), k, 8, i);
  }

  /** After `SetTVConexantRegister` only the registers some group stores to have changed. */
  lemma TvEncoderFrame(o: seq<bv8>, t: TvTiming, av: AvType)
    requires IsBank(o)
    ensures forall i :: 0 <= i < 256 && LastGroup(i) == 0 ==> TvEncoder(o, t, av)[i] == o[i]
  {
    TvRunOf(o, t, av);
    RunLastIs(TvStates(o, t, av), 0);
  }

  // What a run leaves in the registers, group by group.

  lemma RunPreamble(st: seq<seq<bv8>>)
    requires IsTvRun(st) && IsBank(st[0]) && st[1] == TvPreamble(st[0])
    ensures IsBank(st[8]) && st[8][0xb8] == 0x07 && st[8][0x32] == 0x28
  {
    RunLastIs(st, 1);
  }

  lemma RunInputTiming(st: seq<seq<bv8>>, t: TvTiming)
    requires IsTvRun(st) && IsBank(st[1]) && st[2] == TvInputTiming(st[1], t)
    ensures IsBank(st[8])
    ensures st[8][0x8a] == Lo8(t.hClkI) && st[8][0x76] == Lo8(t.hClkO) && st[8][0x90] == Lo8(t.vLinesI)
  {
    TvInputRegisters(st[1], t);
    RunLastIs(st, 2);
  }

  lemma RunActiveArea(st: seq<seq<bv8>>, t: TvTiming)
    requires IsTvRun(st) && IsBank(st[2]) && st[3] == TvActiveArea(st[2], t)
    ensures IsBank(st[8])
    ensures st[8][0x84] == Lo8(ActiveLinesOut(t)) && st[8][0x78] == Lo8(HActiveClocks(t))
      && st[8][0x94] == Lo8(t.vActiveI)
  {
    TvActiveRegisters(st[2], t);
    RunLastIs(st, 3);
  }

  lemma RunShared86(st: seq<seq<bv8>>, t: TvTiming)
    requires IsTvRun(st) && IsBank(st[0]) && IsBank(st[1]) && IsBank(st[2]) && IsBank(st[3])
    requires st[2][0x86] == HClkOReg86(st[1][0x86], t.hClkO)
    requires st[3][0x86] == HActiveReg86(VActiveOReg86(st[2][0x86], ActiveLinesOut(t)), HActiveClocks(t))
    ensures IsBank(st[8]) && st[8][0x86] == Final86(st[0][0x86], t)
  {
    KeptAcross(st, 0, 1, 0x86);
    KeptAcross(st, 3, 8, 0x86);
  }

  lemma RunShared96(st: seq<seq<bv8>>, t: TvTiming)
    requires IsTvRun(st) && IsBank(st[0]) && IsBank(st[1]) && IsBank(st[2]) && IsBank(st[3])
    requires st[2][0x96] == VLinesIReg96(st[1][0x96], t.vLinesI)
    requires st[3][0x96] == VActiveIReg96(st[2][0x96], t.vActiveI)
    ensures IsBank(st[8]) && st[8][0x96] == Final96(st[0][0x96], t)
  {
    KeptAcross(st, 0, 1, 0x96);
    KeptAcross(st, 3, 8, 0x96);
  }

  lemma RunBlanking(st: seq<seq<bv8>>, t: TvTiming)
    requires IsTvRun(st) && IsBank(st[3]) && st[4] == TvBlanking(st[3], t)
    ensures IsBank(st[0]) && IsBank(st[8])
    ensures && st[8][0x8c] == Lo8(t.hBlankI) && st[8][0x80] == Lo8(t.hBlankO) && st[8][0x98] == Lo8(t.vScale)
      && st[8][0x82] == Lo8(t.vBlankO) && st[8][0x92] == Lo8(t.vBlankI)
      && st[8][0x9a] == Final9a(st[0][0x9a], t)
  {
    KeptAcross(st, 0, 3, 0x9a);
    TvBlankingRegisters(st[3], t);
    RunLastIs(st, 4);
  }

  lemma RunShared8e(st: seq<seq<bv8>>, t: TvTiming)
    requires IsTvRun(st) && IsBank(st[0]) && IsBank(st[1]) && IsBank(st[2]) && IsBank(st[3]) && IsBank(st[4])
    requires st[2][0x8e] == HClkIReg8e(st[1][0x8e], t.hClkI)
    requires st[4][0x8e] == HBlankIReg8e(st[3][0x8e], t.hBlankI)
    ensures IsBank(st[8])
    ensures st[8][0x8e] == Final8e(st[0][0x8e], t)
  {
    KeptAcross(st, 0, 1, 0x8e);
    KeptAcross(st, 2, 3, 0x8e);
    KeptAcross(st, 4, 8, 0x8e);
  }

  lemma RunClocking(st: seq<seq<bv8>>, t: TvTiming)
    requires IsTvRun(st) && IsBank(st[0]) && IsBank(st[4])
    requires st[1] == TvPreamble(st[0]) && st[5] == TvClocking(st[4], t)
    ensures IsBank(st[8])
    ensures && st[8][0xa0] == FinalA0(t)
      && st[8][0x9e] == Field(PllFract(t.pllRatio), 8, 0xff) && st[8][0x9c] == Lo8(PllFract(t.pllRatio))
      && st[8][0x7c] == Lo8(t.burstStart) && st[8][0x7e] == Lo8(BurstEndClocks(t.burstEnd))
      && st[8][0x7a] == Lo8(t.hSyncWidth)
  {
    KeptAcross(st, 1, 4, 0xa0);
    TvClockingRegisters(st[4], t);
    RunLastIs(st, 5);
  }

  /** Register 0x38 after the blanking group: the input timing's V_LINESI bit
      and then the blanking's H_BLANKI bit over the prior content. */
  lemma RunBlanked38(st: seq<seq<bv8>>, t: TvTiming)
    requires IsTvRun(st) && IsBank(st[0]) && IsBank(st[1]) && IsBank(st[2]) && IsBank(st[3]) && IsBank(st[4])
    requires st[2][0x38] == VLinesIReg38(st[1][0x38], t.vLinesI)
    requires st[4][0x38] == HBlankIReg38(st[3][0x38], t.hBlankI)
    ensures st[4][0x38] == HBlankIReg38(VLinesIReg38(st[0][0x38], t.vLinesI), t.hBlankI)
  {
    KeptAcross(st, 0, 1, 0x38);
    KeptAcross(st, 2, 3, 0x38);
  }

  lemma RunShared38(st: seq<seq<bv8>>, t: TvTiming)
    requires IsTvRun(st) && IsBank(st[0]) && IsBank(st[4]) && IsBank(st[5])
    requires st[4][0x38] == HBlankIReg38(VLinesIReg38(st[0][0x38], t.vLinesI), t.hBlankI)
    requires st[5][0x38] == Clocking38(st[4][0x38], t)
    ensures IsBank(st[8])
    ensures st[8][0x38] == Final38(st[0][0x38], t)
  {
    KeptAcross(st, 5, 8, 0x38);
  }

  lemma RunCarriers(st: seq<seq<bv8>>, t: TvTiming)
    requires IsTvRun(st) && IsBank(st[5]) && st[6] == TvCarriers(st[5], t)
    ensures IsBank(st[8])
    ensures && st[8][0xae] == Lo8(t.subcarrier) && st[8][0xb0] == Field(t.subcarrier, 8, 0xff)
      && st[8][0xb2] == Field(t.subcarrier, 16, 0xff) && st[8][0xb4] == Field(t.subcarrier, 24, 0xff)
      && st[8][0x66] == Lo8(t.wss) && st[8][0x68] == Field(t.wss, 8, 0xff) && st[8][0x6a] == Field(t.wss, 16, 0x0f)
  {
    TvCarrierRegisters(st[5], t);
    RunLastIs(st, 6);
  }

  /** The mode register and 0x6c keep their prior content until the routing
      group, and the mode register keeps what the routing left. */
  lemma RunOutput(st: seq<seq<bv8>>)
    requires IsTvRun(st)
    ensures IsBank(st[0]) && IsBank(st[6]) && IsBank(st[7]) && IsBank(st[8])
    ensures st[6][0xa2] == st[0][0xa2] && st[6][0x6c] == st[0][0x6c] && st[8][0xa2] == st[7][0xa2]
  {
    KeptAcross(st, 0, 6, 0xa2);
    KeptAcross(st, 0, 6, 0x6c);
    KeptAcross(st, 7, 8, 0xa2);
  }

  /** The routed registers keep their prior content until the routing group,
      and what the routing left stays. */
  lemma RunRouting(st: seq<seq<bv8>>)
    requires IsTvRun(st)
    ensures IsBank(st[0]) && IsBank(st[6]) && IsBank(st[7]) && IsBank(st[8])
    ensures && st[6][0x5a] == st[0][0x5a] && st[6][0xa4] == st[0][0xa4] && st[6][0xa6] == st[0][0xa6]
      && st[6][0xba] == st[0][0xba] && st[6][0xc6] == st[0][0xc6] && st[6][0xce] == st[0][0xce]
      && st[6][0xd6] == st[0][0xd6]
    ensures && st[8][0x5a] == st[7][0x5a] && st[8][0xa4] == st[7][0xa4] && st[8][0xa6] == st[7][0xa6]
      && st[8][0xba] == st[7][0xba] && st[8][0xc6] == st[7][0xc6] && st[8][0xce] == st[7][0xce]
      && st[8][0xd6] == st[7][0xd6]
  {
    KeptAcross(st, 0, 6, 0x5a);
    KeptAcross(st, 0, 6, 0xa4);
    KeptAcross(st, 0, 6, 0xa6);
    KeptAcross(st, 0, 6, 0xba);
    KeptAcross(st, 0, 6, 0xc6);
    KeptAcross(st, 0, 6, 0xce);
    KeptAcross(st, 0, 6, 0xd6);
    RunLastIs(st, 7);
  }

  // The whole sequence, register by register.

  /** The preamble's constants stay: autoconfiguration 7 in 0xb8 and DRVS 0x28 in 0x32. */
  lemma TvEncoderPreambleRegisters(o: seq<bv8>, t: TvTiming, av: AvType)
    requires IsBank(o)
    ensures var r := TvEncoder(o, t, av);
      r[0xb8] == 0x07 && r[0x32] == 0x28
  {
    TvRunOf(o, t, av);
    RunPreamble(TvStates(o, t, av));
  }

  /** The low bytes of H_CLKI, H_CLKO and V_LINESI. */
  lemma TvEncoderInputRegisters(o: seq<bv8>, t: TvTiming, av: AvType)
    requires IsBank(o)
    ensures var r := TvEncoder(o, t, av);
      r[0x8a] == Lo8(t.hClkI) && r[0x76] == Lo8(t.hClkO) && r[0x90] == Lo8(t.vLinesI)
  {
    TvRunOf(o, t, av);
    RunInputTiming(TvStates(o, t, av), t);
  }

  /** The low bytes of V_ACTIVEO, H_ACTIVE and V_ACTIVEI. */
  lemma TvEncoderActiveRegisters(o: seq<bv8>, t: TvTiming, av: AvType)
    requires IsBank(o)
    ensures var r := TvEncoder(o, t, av);
      r[0x84] == Lo8(ActiveLinesOut(t)) && r[0x78] == Lo8(HActiveClocks(t)) && r[0x94] == Lo8(t.vActiveI)
  {
    TvRunOf(o, t, av);
    RunActiveArea(TvStates(o, t, av), t);
  }

  /** Registers 0x86 and 0x96, which the input timing and the active area share. */
  lemma TvEncoderShared86And96(o: seq<bv8>, t: TvTiming, av: AvType)
    requires IsBank(o)
    ensures var r := TvEncoder(o, t, av);
      r[0x86] == Final86(o[0x86], t) && r[0x96] == Final96(o[0x96], t)
  {
    var st := TvStates(o, t, av);
    TvRunOf(o, t, av);
    TvInputRegisters(st[1], t);
    TvActiveRegisters(st[2], t);
    RunShared86(st, t);
    RunShared96(st, t);
  }

  /** The low bytes of the blanking values, and register 0x9a. */
  lemma TvEncoderBlankingRegisters(o: seq<bv8>, t: TvTiming, av: AvType)
    requires IsBank(o)
    ensures var r := TvEncoder(o, t, av);
      && r[0x8c] == Lo8(t.hBlankI) && r[0x80] == Lo8(t.hBlankO) && r[0x98] == Lo8(t.vScale)
      && r[0x82] == Lo8(t.vBlankO) && r[0x92] == Lo8(t.vBlankI) && r[0x9a] == Final9a(o[0x9a], t)
  {
    TvRunOf(o, t, av);
    RunBlanking(TvStates(o, t, av), t);
  }

  /** Register 0x8e, which the input timing and the blanking share. */
  lemma TvEncoderShared8e(o: seq<bv8>, t: TvTiming, av: AvType)
    requires IsBank(o)
    ensures TvEncoder(o, t, av)[0x8e] == Final8e(o[0x8e], t)
  {
    var st := TvStates(o, t, av);
    TvRunOf(o, t, av);
    TvInputRegisters(st[1], t);
    TvBlankingRegisters(st[3], t);
    RunShared8e(st, t);
  }

  /** The PLL, burst and sync registers. */
  lemma TvEncoderClockingRegisters(o: seq<bv8>, t: TvTiming, av: AvType)
    requires IsBank(o)
    ensures var r := TvEncoder(o, t, av);
      && r[0xa0] == FinalA0(t)
      && r[0x9e] == Field(PllFract(t.pllRatio), 8, 0xff) && r[0x9c] == Lo8(PllFract(t.pllRatio))
      && r[0x7c] == Lo8(t.burstStart) && r[0x7e] == Lo8(BurstEndClocks(t.burstEnd))
      && r[0x7a] == Lo8(t.hSyncWidth)
  {
    TvRunOf(o, t, av);
    RunClocking(TvStates(o, t, av), t);
  }

  /** Register 0x38 after the input timing and the blanking. */
  lemma TvBlanked38(o: seq<bv8>, t: TvTiming, av: AvType)
    requires IsBank(o)
    ensures TvAfter(o, t, av, 4)[0x38] == HBlankIReg38(VLinesIReg38(o[0x38], t.vLinesI), t.hBlankI)
  {
    var st := TvStates(o, t, av);
    TvRunOf(o, t, av);
    TvInputRegisters(st[1], t);
    TvBlankingRegisters(st[3], t);
    RunBlanked38(st, t);
  }

  /** Register 0x38, which the input timing, the blanking and the clocking share. */
  lemma TvEncoderShared38(o: seq<bv8>, t: TvTiming, av: AvType)
    requires IsBank(o)
    ensures TvEncoder(o, t, av)[0x38] == Final38(o[0x38], t)
  {
    var st := TvStates(o, t, av);
    TvBlanked38(o, t, av);
    TvRunOf(o, t, av);
    TvClockingRegisters(st[4], t);
    RunShared38(st, t);
  }

  /** The subcarrier increment in 0xae-0xb4 and the WSS increment in 0x66-0x6a. */
  lemma TvEncoderCarrierRegisters(o: seq<bv8>, t: TvTiming, av: AvType)
    requires IsBank(o)
    ensures var r := TvEncoder(o, t, av);
      && r[0xae] == Lo8(t.subcarrier) && r[0xb0] == Field(t.subcarrier, 8, 0xff)
      && r[0xb2] == Field(t.subcarrier, 16, 0xff) && r[0xb4] == Field(t.subcarrier, 24, 0xff)
      && r[0x66] == Lo8(t.wss) && r[0x68] == Field(t.wss, 8, 0xff) && r[0x6a] == Field(t.wss, 16, 0x0f)
  {
    TvRunOf(o, t, av);
    RunCarriers(TvStates(o, t, av), t);
  }

  /** The mode register, EN_OUT and register 0x6c with the timing reset. */
  lemma TvEncoderOutputRegisters(o: seq<bv8>, t: TvTiming, av: AvType)
    requires IsBank(o)
    ensures var r := TvEncoder(o, t, av);
      r[0xa2] == ModeRegA2(o[0xa2], t.std) && r[0xc4] == 0x01 && r[0x6c] == Final6c(o[0x6c], av)
  {
    var st := TvStates(o, t, av);
    TvRunOf(o, t, av);
    RunOutput(st);
    TvRoutingRegisters(st[6], t.std, av);
    TvFinishRegisters(st[7]);
  }

  /** The connector routing: each routed register holds the connector's
      setting, and a VGA connector leaves them as they were. */
  lemma TvEncoderRoutingRegisters(o: seq<bv8>, t: TvTiming, av: AvType)
    requires IsBank(o)
    ensures var r := TvEncoder(o, t, av);
      && (RoutingFor(av).Some? ==> var s := RoutingFor(av).value;
           && r[0x5a] == s.brightness && r[0xa4] == s.syncAmp && r[0xa6] == s.burstAmp
           && r[0xba] == s.dacControl && r[0xc6] == s.inMode && r[0xce] == s.outMux && r[0xd6] == s.outMode)
      && (RoutingFor(av).None? ==>
           && r[0x5a] == o[0x5a] && r[0xa4] == o[0xa4] && r[0xa6] == o[0xa6] && r[0xba] == o[0xba]
           && r[0xc6] == o[0xc6] && r[0xce] == o[0xce] && r[0xd6] == o[0xd6])
  {
    var st := TvStates(o, t, av);
    TvRunOf(o, t, av);
    RunRouting(st);
    TvRoutingRegisters(st[6], t.std, av);
  }
}
