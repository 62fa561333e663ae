/** The encoder's timing fields as the hardware sees them. Each value
    `SetTVConexantRegister` programs is split across registers: its low eight
    bits in a register of their own, its high bits in a bit field of a
    register other fields share. Reading the fields back out of the final
    register file gives every programmed value cut to its field's width,
    whatever the registers held before. */
module ConexantFields {
  import opened Bits
  import opened VideoStandards
  import opened Conexant

  // The encoder's fields, assembled from the bytes that hold them.

  /** H_CLKI: register 0x8a, bits 8-10 in bits 0-2 of register 0x8e. */
  function HClkIBits(r8e: bv8, r8a: bv8): bv32
  {
    ((r8e & 0x07) as bv32 << 8) | r8a as bv32
  }

  /** H_CLKO: register 0x76, bits 8-11 in bits 0-3 of register 0x86. */
  function HClkOBits(r86: bv8, r76: bv8): bv32
  {
    ((r86 & 0x0f) as bv32 << 8) | r76 as bv32
  }

  /** V_LINESI: register 0x90, bits 8-9 in bits 0-1 of register 0x96, bit 10 in
      bit 1 of register 0x38. */
  function VLinesIBits(r38: bv8, r96: bv8, r90: bv8): bv32
  {
    ((r38 & 0x02) as bv32 << 9) | ((r96 & 0x03) as bv32 << 8) | r90 as bv32
  }

  /** V_ACTIVEO: register 0x84, bit 8 in bit 7 of register 0x86. */
  function VActiveOBits(r86: bv8, r84: bv8): bv32
  {
    ((r86 & 0x80) as bv32 << 1) | r84 as bv32
  }

  /** H_ACTIVE: register 0x78, bits 8-10 in bits 4-6 of register 0x86. */
  function HActiveBits(r86: bv8, r78: bv8): bv32
  {
    ((r86 & 0x70) as bv32 << 4) | r78 as bv32
  }

  /** V_ACTIVEI: register 0x94, bits 8-9 in bits 2-3 of register 0x96. */
  function VActiveIBits(r96: bv8, r94: bv8): bv32
  {
    ((r96 & 0x0c) as bv32 << 6) | r94 as bv32
  }

  /** H_BLANKI: register 0x8c, bit 8 in bit 3 of register 0x8e, bit 9 in bit 0
      of register 0x38. */
  function HBlankIBits(r38: bv8, r8e: bv8, r8c: bv8): bv32
  {
    ((r38 & 0x01) as bv32 << 9) | ((r8e & 0x08) as bv32 << 5) | r8c as bv32
  }

  /** H_BLANKO: register 0x80, bits 8-9 in bits 6-7 of register 0x9a. */
  function HBlankOBits(r9a: bv8, r80: bv8): bv32
  {
    ((r9a & 0xc0) as bv32 << 2) | r80 as bv32
  }

  /** V_SCALE: register 0x98, bits 8-13 in bits 0-5 of register 0x9a. */
  function VScaleBits(r9a: bv8, r98: bv8): bv32
  {
    ((r9a & 0x3f) as bv32 << 8) | r98 as bv32
  }

  /** PLL_FRACT: register 0x9c, bits 8-15 in register 0x9e. */
  function PllFractBits(r9e: bv8, r9c: bv8): bv32
  {
    (r9e as bv32 << 8) | r9c as bv32
  }

  /** BST_START: register 0x7c, bit 8 in bit 2 of register 0x38. */
  function BurstStartBits(r38: bv8, r7c: bv8): bv32
  {
    ((r38 & 0x04) as bv32 << 6) | r7c as bv32
  }

  /** BST_END: register 0x7e, bit 8 in bit 3 of register 0x38. */
  function BurstEndBits(r38: bv8, r7e: bv8): bv32
  {
    ((r38 & 0x08) as bv32 << 5) | r7e as bv32
  }

  /** The subcarrier increment: registers 0xae, 0xb0, 0xb2, 0xb4 from low to high. */
  function SubcarrierBits(rb4: bv8, rb2: bv8, rb0: bv8, rae: bv8): bv32
  {
    (rb4 as bv32 << 24) | (rb2 as bv32 << 16) | (rb0 as bv32 << 8) | rae as bv32
  }

  /** The WSS increment: registers 0x66 and 0x68, bits 16-19 in bits 0-3 of 0x6a. */
  function WssBits(r6a: bv8, r68: bv8, r66: bv8): bv32
  {
    ((r6a & 0x0f) as bv32 << 16) | (r68 as bv32 << 8) | r66 as bv32
  }

  // The fields, grouped as the firmware programs them, read out of a
  // register file and as the firmware means to program them: each value it
  // computes, cut to its field's width.

  datatype ClockFields = ClockFields(hClkI: bv32, hClkO: bv32)

  function ReadClockFields(r: seq<bv8>): ClockFields
    requires IsBank(r)
  {
    ClockFields(HClkIBits(r[0x8e], r[0x8a]), HClkOBits(r[0x86], r[0x76]))
  }

  function ProgrammedClockFields(t: TvTiming): ClockFields
  {
    ClockFields(t.hClkI & 0x7ff, t.hClkO & 0xfff)
  }

  datatype LineFields = LineFields(vLinesI: bv32, vActiveI: bv32)

  function ReadLineFields(r: seq<bv8>): LineFields
    requires IsBank(r)
  {
    LineFields(VLinesIBits(r[0x38], r[0x96], r[0x90]), VActiveIBits(r[0x96], r[0x94]))
  }

  function ProgrammedLineFields(t: TvTiming): LineFields
  {
    LineFields(t.vLinesI & 0x7ff, t.vActiveI & 0x3ff)
  }

  datatype ActiveFields = ActiveFields(vActiveO: bv32, hActive: bv32)

  function ReadActiveFields(r: seq<bv8>): ActiveFields
    requires IsBank(r)
  {
    ActiveFields(VActiveOBits(r[0x86], r[0x84]), HActiveBits(r[0x86], r[0x78]))
  }

  function ProgrammedActiveFields(t: TvTiming): ActiveFields
  {
    ActiveFields(ActiveLinesOut(t) & 0x1ff, HActiveClocks(t) & 0x7ff)
  }

  datatype BlankingFields = BlankingFields(hBlankI: bv32, hBlankO: bv32, vScale: bv32, vBlankO: bv32, vBlankI: bv32)

  function ReadBlankingFields(r: seq<bv8>): BlankingFields
    requires IsBank(r)
  {
    BlankingFields(
      HBlankIBits(r[0x38], r[0x8e], r[0x8c]), HBlankOBits(r[0x9a], r[0x80]),
      VScaleBits(r[0x9a], r[0x98]), r[0x82] as bv32, r[0x92] as bv32)
  }

  function ProgrammedBlankingFields(t: TvTiming): BlankingFields
  {
    BlankingFields(t.hBlankI & 0x3ff, t.hBlankO & 0x3ff, t.vScale & 0x3fff, t.vBlankO & 0xff, t.vBlankI & 0xff)
  }

  datatype PllFields = PllFields(pllInt: bv32, pllFract: bv32)

  function ReadPllFields(r: seq<bv8>): PllFields
    requires IsBank(r)
  {
    PllFields((r[0xa0] & 0x3f) as bv32, PllFractBits(r[0x9e], r[0x9c]))
  }

  function ProgrammedPllFields(t: TvTiming): PllFields
  {
    PllFields(PllInt(t.pllRatio) & 0x3f, PllFract(t.pllRatio))
  }

  datatype BurstFields = BurstFields(threeHalves: bool, burstStart: bv32, burstEnd: bv32, hSyncWidth: bv32)

  function ReadBurstFields(r: seq<bv8>): BurstFields
    requires IsBank(r)
  {
    BurstFields(
      r[0x38] & 0x20 != 0, BurstStartBits(r[0x38], r[0x7c]),
      BurstEndBits(r[0x38], r[0x7e]), r[0x7a] as bv32)
  }

  function ProgrammedBurstFields(t: TvTiming): BurstFields
  {
    BurstFields(t.threeHalves, t.burstStart & 0x1ff, BurstEndClocks(t.burstEnd) & 0x1ff, t.hSyncWidth & 0xff)
  }

  datatype CarrierFields = CarrierFields(subcarrier: bv32, wss: bv32)

  function ReadCarrierFields(r: seq<bv8>): CarrierFields
    requires IsBank(r)
  {
    CarrierFields(SubcarrierBits(r[0xb4], r[0xb2], r[0xb0], r[0xae]), WssBits(r[0x6a], r[0x68], r[0x66]))
  }

  function ProgrammedCarrierFields(t: TvTiming): CarrierFields
  {
    CarrierFields(t.subcarrier, t.wss & 0xfffff)
  }

  /** Every timing field of the encoder. */
  datatype TvFields = TvFields(
    clocks: ClockFields,
    lines: LineFields,
    active: ActiveFields,
    blanking: BlankingFields,
    pll: PllFields,
    burst: BurstFields,
    carriers: CarrierFields)

  /** The timing fields a register file holds. */
  function ReadTvFields(r: seq<bv8>): TvFields
    requires IsBank(r)
  {
    TvFields(
      ReadClockFields(r), ReadLineFields(r), ReadActiveFields(r), ReadBlankingFields(r),
      ReadPllFields(r), ReadBurstFields(r), ReadCarrierFields(r))
  }

  /** The timing fields `SetTVConexantRegister` means to program. */
  function ProgrammedFields(t: TvTiming): TvFields
  {
    TvFields(
      ProgrammedClockFields(t), ProgrammedLineFields(t), ProgrammedActiveFields(t),
      ProgrammedBlankingFields(t), ProgrammedPllFields(t), ProgrammedBurstFields(t),
      ProgrammedCarrierFields(t))
  }

  // Bit-level facts about the final bytes of the shared registers, one per
  // lemma, and what each register holds, gathered from them.

  lemma HClkODecode(o86: bv8, t: TvTiming)
    ensures HClkOBits(Final86(o86, t), Lo8(t.hClkO)) == t.hClkO & 0xfff
  {
  }

  lemma VActiveODecode(o86: bv8, t: TvTiming)
    ensures VActiveOBits(Final86(o86, t), Lo8(ActiveLinesOut(t))) == ActiveLinesOut(t) & 0x1ff
  {
  }

  lemma HActiveDecode(o86: bv8, t: TvTiming)
    ensures HActiveBits(Final86(o86, t), Lo8(HActiveClocks(t))) == HActiveClocks(t) & 0x7ff
  {
  }

  /** Register 0x86 holds the high bits of H_CLKO, H_ACTIVE and V_ACTIVEO and
      nothing of its prior content. */
  lemma Final86Fields(o86: bv8, t: TvTiming)
    ensures var b := Final86(o86, t);
      && HClkOBits(b, Lo8(t.hClkO)) == t.hClkO & 0xfff
      && VActiveOBits(b, Lo8(ActiveLinesOut(t))) == ActiveLinesOut(t) & 0x1ff
      && HActiveBits(b, Lo8(HActiveClocks(t))) == HActiveClocks(t) & 0x7ff
  {
    HClkODecode(o86, t);
    VActiveODecode(o86, t);
    HActiveDecode(o86, t);
  }

  lemma VLinesIHigh96(o96: bv8, t: TvTiming)
    ensures Final96(o96, t) & 0x03 == Field(t.vLinesI, 8, 0x03)
  {
  }

  lemma VActiveIDecode(o96: bv8, t: TvTiming)
    ensures VActiveIBits(Final96(o96, t), Lo8(t.vActiveI)) == t.vActiveI & 0x3ff
  {
  }

  lemma Kept96(o96: bv8, t: TvTiming)
    ensures Final96(o96, t) & 0xf0 == o96 & 0xf0
  {
  }

  /** Register 0x96 holds the high bits of V_LINESI and V_ACTIVEI; bits 4-7 are the prior ones. */
  lemma Final96Fields(o96: bv8, t: TvTiming)
    ensures var b := Final96(o96, t);
      && b & 0x03 == Field(t.vLinesI, 8, 0x03)
      && VActiveIBits(b, Lo8(t.vActiveI)) == t.vActiveI & 0x3ff
      && b & 0xf0 == o96 & 0xf0
  {
    VLinesIHigh96(o96, t);
    VActiveIDecode(o96, t);
    Kept96(o96, t);
  }

  lemma HClkIDecode(o8e: bv8, t: TvTiming)
    ensures HClkIBits(Final8e(o8e, t), Lo8(t.hClkI)) == t.hClkI & 0x7ff
  {
  }

  lemma HBlankIHigh8e(o8e: bv8, t: TvTiming)
    ensures Final8e(o8e, t) & 0x08 == Field(t.hBlankI, 5, 0x08)
  {
  }

  lemma Kept8e(o8e: bv8, t: TvTiming)
    ensures Final8e(o8e, t) & 0xf0 == o8e & 0xf0
  {
  }

  /** Register 0x8e holds the high bits of H_CLKI and bit 8 of H_BLANKI; bits
      4-7 are the prior ones. */
  lemma Final8eFields(o8e: bv8, t: TvTiming)
    ensures var b := Final8e(o8e, t);
      && HClkIBits(b, Lo8(t.hClkI)) == t.hClkI & 0x7ff
      && b & 0x08 == Field(t.hBlankI, 5, 0x08)
      && b & 0xf0 == o8e & 0xf0
  {
    HClkIDecode(o8e, t);
    HBlankIHigh8e(o8e, t);
    Kept8e(o8e, t);
  }

  lemma HBlankIHigh38(o38: bv8, t: TvTiming)
    ensures Final38(o38, t) & 0x01 == Field(t.hBlankI, 9, 0x01)
  {
  }

  lemma VLinesIHigh38(o38: bv8, t: TvTiming)
    ensures Final38(o38, t) & 0x02 == Field(t.vLinesI, 9, 0x02)
  {
  }

  lemma BurstStartDecode(o38: bv8, t: TvTiming)
    ensures BurstStartBits(Final38(o38, t), Lo8(t.burstStart)) == t.burstStart & 0x1ff
  {
  }

  lemma BurstEndDecode(o38: bv8, t: TvTiming)
    ensures BurstEndBits(Final38(o38, t), Lo8(BurstEndClocks(t.burstEnd))) == BurstEndClocks(t.burstEnd) & 0x1ff
  {
  }

  lemma ClockModeDecode(o38: bv8, t: TvTiming)
    ensures Final38(o38, t) & 0x20 != 0 <==> t.threeHalves
  {
  }

  lemma Kept38(o38: bv8, t: TvTiming)
    ensures Final38(o38, t) & 0xd0 == o38 & 0xd0
  {
  }

  /** Register 0x38 gathers five fields: bit 9 of H_BLANKI, bit 10 of V_LINESI,
      bit 8 of each burst position and the 3:2 clocking bit; bits 4, 6 and 7
      are the prior ones. */
  lemma Final38Fields(o38: bv8, t: TvTiming)
    ensures var b := Final38(o38, t);
      && b & 0x01 == Field(t.hBlankI, 9, 0x01)
      && b & 0x02 == Field(t.vLinesI, 9, 0x02)
      && BurstStartBits(b, Lo8(t.burstStart)) == t.burstStart & 0x1ff
      && BurstEndBits(b, Lo8(BurstEndClocks(t.burstEnd))) == BurstEndClocks(t.burstEnd) & 0x1ff
      && (b & 0x20 != 0 <==> t.threeHalves)
      && b & 0xd0 == o38 & 0xd0
  {
    HBlankIHigh38(o38, t);
    VLinesIHigh38(o38, t);
    BurstStartDecode(o38, t);
    BurstEndDecode(o38, t);
    ClockModeDecode(o38, t);
    Kept38(o38, t);
  }

  lemma HBlankODecode(o9a: bv8, t: TvTiming)
    ensures HBlankOBits(Final9a(o9a, t), Lo8(t.hBlankO)) == t.hBlankO & 0x3ff
  {
  }

  lemma VScaleDecode(o9a: bv8, t: TvTiming)
    ensures VScaleBits(Final9a(o9a, t), Lo8(t.vScale)) == t.vScale & 0x3fff
  {
  }

  /** Register 0x9a holds the high bits of H_BLANKO and V_SCALE and nothing of
      its prior content. */
  lemma Final9aFields(o9a: bv8, t: TvTiming)
    ensures var b := Final9a(o9a, t);
      && HBlankOBits(b, Lo8(t.hBlankO)) == t.hBlankO & 0x3ff
      && VScaleBits(b, Lo8(t.vScale)) == t.vScale & 0x3fff
  {
    HBlankODecode(o9a, t);
    VScaleDecode(o9a, t);
  }

  lemma PllIntDecode(t: TvTiming)
    ensures (FinalA0(t) & 0x3f) as bv32 == PllInt(t.pllRatio) & 0x3f
  {
  }

  lemma PllTopClear(t: TvTiming)
    ensures FinalA0(t) & 0xc0 == 0
  {
  }

  /** Register 0xa0 holds the PLL's integer part in bits 0-5; bits 6 and 7,
      clear in the 0x13 the preamble stores, stay clear. */
  lemma FinalA0Fields(t: TvTiming)
    ensures (FinalA0(t) & 0x3f) as bv32 == PllInt(t.pllRatio) & 0x3f
    ensures FinalA0(t) & 0xc0 == 0
  {
    PllIntDecode(t);
    PllTopClear(t);
  }

  /** The two bytes of the fraction hold all of it. */
  lemma PllFractDecode(ratio: bv32)
    ensures PllFractBits(Field(PllFract(ratio), 8, 0xff), Lo8(PllFract(ratio))) == PllFract(ratio)
  {
  }

  /** The four subcarrier bytes hold the whole increment. */
  lemma SubcarrierDecode(x: bv32)
    ensures SubcarrierBits(Field(x, 24, 0xff), Field(x, 16, 0xff), Field(x, 8, 0xff), Lo8(x)) == x
  {
  }

  /** The WSS bytes hold the increment's low 20 bits. */
  lemma WssDecode(x: bv32)
    ensures WssBits(Field(x, 16, 0x0f), Field(x, 8, 0xff), Lo8(x)) == x & 0xfffff
  {
  }

  lemma VLinesIJoin(b38: bv8, b96: bv8, x: bv32)
    requires b38 & 0x02 == Field(x, 9, 0x02) && b96 & 0x03 == Field(x, 8, 0x03)
    ensures VLinesIBits(b38, b96, Lo8(x)) == x & 0x7ff
  {
  }

  lemma HBlankIJoin(b38: bv8, b8e: bv8, x: bv32)
    requires b38 & 0x01 == Field(x, 9, 0x01) && b8e & 0x08 == Field(x, 5, 0x08)
    ensures HBlankIBits(b38, b8e, Lo8(x)) == x & 0x3ff
  {
  }

  /** V_LINESI and H_BLANKI, whose high bits are spread over registers 0x38,
      0x96 and 0x8e. */
  lemma SpreadFields(o38: bv8, o96: bv8, o8e: bv8, t: TvTiming)
    ensures VLinesIBits(Final38(o38, t), Final96(o96, t), Lo8(t.vLinesI)) == t.vLinesI & 0x7ff
    ensures HBlankIBits(Final38(o38, t), Final8e(o8e, t), Lo8(t.hBlankI)) == t.hBlankI & 0x3ff
  {
    VLinesIHigh38(o38, t);
    VLinesIHigh96(o96, t);
    VLinesIJoin(Final38(o38, t), Final96(o96, t), t.vLinesI);
    HBlankIHigh38(o38, t);
    HBlankIHigh8e(o8e, t);
    HBlankIJoin(Final38(o38, t), Final8e(o8e, t), t.hBlankI);
  }

  lemma ModeRegKept(oa2: bv8, std: VideoStd)
    ensures ModeRegA2(oa2, std) & 0x41 == oa2 & 0x41
  {
  }

  lemma ModeRegPattern(oa2: bv8, std: VideoStd)
    ensures ModeRegA2(oa2, std) & 0xbe == ModePattern(std)
  {
  }

  lemma ResetBitSet(o6c: bv8, av: AvType)
    ensures Final6c(o6c, av) & 0x80 == 0x80
  {
  }

  lemma FieldModeKept(o6c: bv8, av: AvType)
    ensures Final6c(o6c, av) & 0x7f == RoutedFieldMode(o6c, av) & 0x7f
  {
  }

  // The whole sequence, field by field.

  lemma ClockFieldsEq(r: seq<bv8>, t: TvTiming)
    requires IsBank(r)
    requires HClkIBits(r[0x8e], r[0x8a]) == t.hClkI & 0x7ff && HClkOBits(r[0x86], r[0x76]) == t.hClkO & 0xfff
    ensures ReadClockFields(r) == ProgrammedClockFields(t)
  {
  }

  lemma TvEncoderClockFields(o: seq<bv8>, t: TvTiming, av: AvType)
    requires IsBank(o)
    ensures ReadClockFields(TvEncoder(o, t, av)) == ProgrammedClockFields(t)
  {
    TvEncoderInputRegisters(o, t, av);
    TvEncoderShared86And96(o, t, av);
    TvEncoderShared8e(o, t, av);
    HClkODecode(o[0x86], t);
    HClkIDecode(o[0x8e], t);
    ClockFieldsEq(TvEncoder(o, t, av), t);
  }

  lemma LineFieldsEq(r: seq<bv8>, t: TvTiming)
    requires IsBank(r)
    requires VLinesIBits(r[0x38], r[0x96], r[0x90]) == t.vLinesI & 0x7ff
    requires VActiveIBits(r[0x96], r[0x94]) == t.vActiveI & 0x3ff
    ensures ReadLineFields(r) == ProgrammedLineFields(t)
  {
  }

  lemma TvEncoderLineFields(o: seq<bv8>, t: TvTiming, av: AvType)
    requires IsBank(o)
    ensures ReadLineFields(TvEncoder(o, t, av)) == ProgrammedLineFields(t)
  {
    TvEncoderInputRegisters(o, t, av);
    TvEncoderActiveRegisters(o, t, av);
    TvEncoderShared86And96(o, t, av);
    TvEncoderShared38(o, t, av);
    VActiveIDecode(o[0x96], t);
    SpreadFields(o[0x38], o[0x96], o[0x8e], t);
    LineFieldsEq(TvEncoder(o, t, av), t);
  }

  lemma ActiveFieldsEq(r: seq<bv8>, t: TvTiming)
    requires IsBank(r)
    requires VActiveOBits(r[0x86], r[0x84]) == ActiveLinesOut(t) & 0x1ff
    requires HActiveBits(r[0x86], r[0x78]) == HActiveClocks(t) & 0x7ff
    ensures ReadActiveFields(r) == ProgrammedActiveFields(t)
  {
  }

  lemma TvEncoderActiveFields(o: seq<bv8>, t: TvTiming, av: AvType)
    requires IsBank(o)
    ensures ReadActiveFields(TvEncoder(o, t, av)) == ProgrammedActiveFields(t)
  {
    TvEncoderActiveRegisters(o, t, av);
    TvEncoderShared86And96(o, t, av);
    VActiveODecode(o[0x86], t);
    HActiveDecode(o[0x86], t);
    ActiveFieldsEq(TvEncoder(o, t, av), t);
  }

  lemma BlankingFieldsEq(r: seq<bv8>, t: TvTiming)
    requires IsBank(r)
    requires HBlankIBits(r[0x38], r[0x8e], r[0x8c]) == t.hBlankI & 0x3ff
    requires HBlankOBits(r[0x9a], r[0x80]) == t.hBlankO & 0x3ff
    requires VScaleBits(r[0x9a], r[0x98]) == t.vScale & 0x3fff
    requires r[0x82] as bv32 == t.vBlankO & 0xff && r[0x92] as bv32 == t.vBlankI & 0xff
    ensures ReadBlankingFields(r) == ProgrammedBlankingFields(t)
  {
  }

  lemma TvEncoderBlankingFields(o: seq<bv8>, t: TvTiming, av: AvType)
    requires IsBank(o)
    ensures ReadBlankingFields(TvEncoder(o, t, av)) == ProgrammedBlankingFields(t)
  {
    TvEncoderBlankingRegisters(o, t, av);
    TvEncoderShared8e(o, t, av);
    TvEncoderShared38(o, t, av);
    HBlankODecode(o[0x9a], t);
    VScaleDecode(o[0x9a], t);
    SpreadFields(o[0x38], o[0x96], o[0x8e], t);
    BlankingFieldsEq(TvEncoder(o, t, av), t);
  }

  lemma PllFieldsEq(r: seq<bv8>, t: TvTiming)
    requires IsBank(r)
    requires (r[0xa0] & 0x3f) as bv32 == PllInt(t.pllRatio) & 0x3f
    requires PllFractBits(r[0x9e], r[0x9c]) == PllFract(t.pllRatio)
    ensures ReadPllFields(r) == ProgrammedPllFields(t)
  {
  }

  lemma TvEncoderPllFields(o: seq<bv8>, t: TvTiming, av: AvType)
    requires IsBank(o)
    ensures ReadPllFields(TvEncoder(o, t, av)) == ProgrammedPllFields(t)
  {
    TvEncoderClockingRegisters(o, t, av);
    PllIntDecode(t);
    PllFractDecode(t.pllRatio);
    PllFieldsEq(TvEncoder(o, t, av), t);
  }

  lemma BurstFieldsEq(r: seq<bv8>, t: TvTiming)
    requires IsBank(r)
    requires (r[0x38] & 0x20 != 0 <==> t.threeHalves)
    requires BurstStartBits(r[0x38], r[0x7c]) == t.burstStart & 0x1ff
    requires BurstEndBits(r[0x38], r[0x7e]) == BurstEndClocks(t.burstEnd) & 0x1ff
    requires r[0x7a] as bv32 == t.hSyncWidth & 0xff
    ensures ReadBurstFields(r) == ProgrammedBurstFields(t)
  {
  }

  lemma TvEncoderBurstFields(o: seq<bv8>, t: TvTiming, av: AvType)
    requires IsBank(o)
    ensures ReadBurstFields(TvEncoder(o, t, av)) == ProgrammedBurstFields(t)
  {
    TvEncoderClockingRegisters(o, t, av);
    TvEncoderShared38(o, t, av);
    ClockModeDecode(o[0x38], t);
    BurstStartDecode(o[0x38], t);
    BurstEndDecode(o[0x38], t);
    BurstFieldsEq(TvEncoder(o, t, av), t);
  }

  lemma CarrierFieldsEq(r: seq<bv8>, t: TvTiming)
    requires IsBank(r)
    requires SubcarrierBits(r[0xb4], r[0xb2], r[0xb0], r[0xae]) == t.subcarrier
    requires WssBits(r[0x6a], r[0x68], r[0x66]) == t.wss & 0xfffff
    ensures ReadCarrierFields(r) == ProgrammedCarrierFields(t)
  {
  }

  /** The subcarrier and WSS increments, each written a byte at a time, read
      back whole. */
  lemma CarrierBitsOf(r: seq<bv8>, t: TvTiming)
    requires IsBank(r)
    requires && r[0xae] == Lo8(t.subcarrier) && r[0xb0] == Field(t.subcarrier, 8, 0xff)
      && r[0xb2] == Field(t.subcarrier, 16, 0xff) && r[0xb4] == Field(t.subcarrier, 24, 0xff)
    requires r[0x66] == Lo8(t.wss) && r[0x68] == Field(t.wss, 8, 0xff) && r[0x6a] == Field(t.wss, 16, 0x0f)
    ensures SubcarrierBits(r[0xb4], r[0xb2], r[0xb0], r[0xae]) == t.subcarrier
    ensures WssBits(r[0x6a], r[0x68], r[0x66]) == t.wss & 0xfffff
  {
    SubcarrierReadBack(r, t.subcarrier);
    WssReadBack(r, t.wss);
  }

  lemma SubcarrierReadBack(r: seq<bv8>, x: bv32)
    requires IsBank(r)
    requires && r[0xae] == Lo8(x) && r[0xb0] == Field(x, 8, 0xff)
      && r[0xb2] == Field(x, 16, 0xff) && r[0xb4] == Field(x, 24, 0xff)
    ensures SubcarrierBits(r[0xb4], r[0xb2], r[0xb0], r[0xae]) == x
  {
    SubcarrierDecode(x);
  }

  lemma WssReadBack(r: seq<bv8>, x: bv32)
    requires IsBank(r)
    requires r[0x66] == Lo8(x) && r[0x68] == Field(x, 8, 0xff) && r[0x6a] == Field(x, 16, 0x0f)
    ensures WssBits(r[0x6a], r[0x68], r[0x66]) == x & 0xfffff
  {
    WssDecode(x);
  }

  lemma TvEncoderCarrierFields(o: seq<bv8>, t: TvTiming, av: AvType)
    requires IsBank(o)
    ensures ReadCarrierFields(TvEncoder(o, t, av)) == ProgrammedCarrierFields(t)
  {
    TvEncoderCarrierRegisters(o, t, av);
    CarrierBitsOf(TvEncoder(o, t, av), t);
    CarrierFieldsEq(TvEncoder(o, t, av), t);
  }

  /** Every timing field reads back as programmed. */
  lemma TvEncoderReadsBack(o: seq<bv8>, t: TvTiming, av: AvType)
    requires IsBank(o)
    ensures ReadTvFields(TvEncoder(o, t, av)) == ProgrammedFields(t)
  {
    TvEncoderClockFields(o, t, av);
    TvEncoderLineFields(o, t, av);
    TvEncoderActiveFields(o, t, av);
    TvEncoderBlankingFields(o, t, av);
    TvEncoderPllFields(o, t, av);
    TvEncoderBurstFields(o, t, av);
    TvEncoderCarrierFields(o, t, av);
  }

  /** So the programmed timing does not depend on what the encoder held before. */
  lemma TvTimingIgnoresPriorState(o1: seq<bv8>, o2: seq<bv8>, t: TvTiming, av: AvType)
    requires IsBank(o1) && IsBank(o2)
    ensures ReadTvFields(TvEncoder(o1, t, av)) == ReadTvFields(TvEncoder(o2, t, av))
  {
    TvEncoderReadsBack(o1, t, av);
    TvEncoderReadsBack(o2, t, av);
  }

  /** The bits of the shared registers that no field owns keep their prior
      content; the mode register holds the standard's pattern over its kept
      bits 0 and 6; register 0x6c holds the connector's field mode with the
      timing reset bit set; the PLL register's top bits are clear; and the
      output is enabled. */
  lemma TvEncoderControlBits(o: seq<bv8>, t: TvTiming, av: AvType)
    requires IsBank(o)
    ensures var r := TvEncoder(o, t, av);
      && r[0x38] & 0xd0 == o[0x38] & 0xd0 && r[0x8e] & 0xf0 == o[0x8e] & 0xf0
      && r[0x96] & 0xf0 == o[0x96] & 0xf0 && r[0xa0] & 0xc0 == 0
      && r[0xa2] & 0x41 == o[0xa2] & 0x41 && r[0xa2] & 0xbe == ModePattern(t.std)
      && r[0x6c] & 0x80 == 0x80 && r[0x6c] & 0x7f == RoutedFieldMode(o[0x6c], av) & 0x7f
      && r[0xc4] == 0x01
  {
    TvEncoderShared38(o, t, av);
    TvEncoderShared8e(o, t, av);
    TvEncoderShared86And96(o, t, av);
    TvEncoderClockingRegisters(o, t, av);
    TvEncoderOutputRegisters(o, t, av);
    Kept38(o[0x38], t);
    Kept8e(o[0x8e], t);
    Kept96(o[0x96], t);
    PllTopClear(t);
    ModeRegKept(o[0xa2], t.std);
    ModeRegPattern(o[0xa2], t.std);
    ResetBitSet(o[0x6c], av);
    FieldModeKept(o[0x6c], av);
  }
}
