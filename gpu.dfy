/** The NV2A register file as the boot code sees it: 32-bit memory-mapped
    registers at byte offsets into the register window, and the legacy CRTC
    bank of 256 byte registers reached through an index port (offset 0x6013d4)
    and a data port (offset 0x6013d5).

    `SetGpuRegister` programs the timing generator from a `GpuParameter` plan,
    one commented register group at a time. Each CRTC group is a function
    giving the bank after it (over the 32-bit patterns of the values it
    stores), a function giving the stores it makes, a method that makes them,
    and a lemma saying what the group leaves in the registers. */
module NvGpu {
  import opened Bits
  import opened Traces
  import opened ModeTiming

  /** One store the boot code makes into the GPU: a 32-bit register, or a CRTC
      register (which writes the index port and then the data port). */
  datatype GpuWrite = Mmio32(offset: int, value: Dword) | CrtcWrite(index: int, data: bv8)

  /** The GPU register window. Loads are not recorded; stores are, in order. */
  class Gpu {
    var mmio: map<int, Dword>
    var crtcIndex: int
    var crtc: seq<bv8>
    var log: Trace<GpuWrite>

    ghost predicate Valid()
      reads this
    {
      IsBank(crtc)
    }

    constructor (bank: seq<bv8>)
      requires IsBank(bank)
      ensures Valid()
      ensures mmio == map[] && crtcIndex == 0 && crtc == bank && log == Empty
    {
      mmio := map[];
      crtcIndex := 0;
      crtc := bank;
      log := Empty;
    }

    /** `*((DWORD *)&pbRegs[offset]) = value`. */
    method Write32(offset: int, value: Dword)
      requires Valid()
      modifies this
      ensures Valid()
      ensures mmio == old(mmio)[offset := value]
      ensures crtcIndex == old(crtcIndex) && crtc == old(crtc)
      ensures log == Then(old(log), Mmio32(offset, value))
    {
      mmio := mmio[offset := value];
      log := Then(log, Mmio32(offset, value));
    }

    /** `NvGetCrtc`: select register `index` through the index port and load it. */
    method GetCrtc(index: int) returns (b: bv8)
      requires Valid() && 0 <= index < 256
      modifies this
      ensures Valid()
      ensures b == crtc[index]
      ensures crtcIndex == index
      ensures mmio == old(mmio) && crtc == old(crtc) && log == old(log)
    {
      crtcIndex := index;
      b := crtc[index];
    }

    /** `NvSetCrtc`: select register `index` through the index port and store `b`. */
    method SetCrtc(index: int, b: bv8)
      requires Valid() && 0 <= index < 256
      modifies this
      ensures Valid()
      ensures crtc == old(crtc)[index := b]
      ensures crtcIndex == index
      ensures mmio == old(mmio)
      ensures log == Then(old(log), CrtcWrite(index, b))
    {
      crtcIndex := index;
      crtc := crtc[index := b];
      log := Then(log, CrtcWrite(index, b));
    }

    /** `NvSetCrtc(i, (NvGetCrtc(i) & ~mask) | field)`: replace the bits of
        `mask` in CRTC register `index` by `field`. */
    method UpdateCrtc(index: int, mask: bv8, field: bv8)
      requires Valid() && 0 <= index < 256
      requires field & !mask == 0
      modifies this
      ensures Valid()
      ensures crtc == old(crtc)[index := Merge(old(crtc)[index], mask, field)]
      ensures crtcIndex == index
      ensures mmio == old(mmio)
      ensures log == Then(old(log), CrtcWrite(index, Merge(old(crtc)[index], mask, field)))
    {
      var b := GetCrtc(index);
      b := b & !mask;
      SetCrtc(index, field | b);
    }
  }

  /** The horizontal total in character clocks, `nvhtotal / 8` (a signed `long`). */
  function HChars(g: GpuParameter): int
  {
    CDiv(g.nvHTotal, 8)
  }

  /** The last displayed character, `crtchdispend / 8 - 1`. */
  function HDispEndChar(g: GpuParameter): bv8
  {
    Lo8(Dw(CDiv(g.crtcHDispEnd, 8)) - 1)
  }

  /** The line stride in units of 8 bytes, `(xres / 8) * pixelDepth`. */
  function LineStride(g: GpuParameter): bv32
  {
    Dw(CDiv(g.xres, 8) * g.pixelDepth)
  }

  /** The last visible line, `yres - 1`. */
  function LastLine(g: GpuParameter): bv32
  {
    Dw(g.yres) - 1
  }

  // ---------------------------------------------------------------------------
  // Where the firmware puts each multi-register CRTC field.

  /** Bits 8 and 9 of the vertical sync start, where register 7 keeps them. */
  function VSyncStartReg7(vs: bv32): (b: bv8)
    ensures b & !0x84 == 0
  {
    Field(vs, 2, 0x80) | Field(vs, 6, 0x04)
  }

  /** Bits 8 and 9 of the vertical total, where register 7 keeps them. */
  function VTotalReg7(vt: bv32): (b: bv8)
    ensures b & !0x21 == 0
  {
    Field(vt, 4, 0x20) | Field(vt, 8, 0x01)
  }

  /** Bits 8 and 9 of the vertical display end, where register 7 keeps them. */
  function VDispEndReg7(last: bv32): (b: bv8)
    ensures b & !0x42 == 0
  {
    Field(last, 3, 0x40) | Field(last, 7, 0x02)
  }

  /** Bit 8 of the vertical blank start, where register 7 keeps it. */
  function VBlankStartReg7(last: bv32): (b: bv8)
    ensures b & !0x08 == 0
  {
    Field(last, 5, 0x08)
  }

  /** Bit 9 of the vertical blank start, where register 9 keeps it. */
  function VBlankStartReg9(last: bv32): (b: bv8)
    ensures b & !0x20 == 0
  {
    Field(last, 4, 0x20)
  }

  /** CRTC_HBLANKEND: five bits in register 3, bit 5 in bit 7 of register 5. */
  function HBlankEndBits(r5: bv8, r3: bv8): bv8
  {
    ((r5 & 0x80) >> 2) | (r3 & 0x1f)
  }

  /** CRTC_LINESTRIDE: register 0x13, bits 8-10 in bits 5-7 of register 0x19. */
  function LineStrideBits(r19: bv8, r13: bv8): bv32
  {
    ((r19 & 0xe0) as bv32 << 3) | r13 as bv32
  }

  /** CRTC_VTOTAL: register 6, bit 8 in bit 0 and bit 9 in bit 5 of register 7,
      bit 10 in bit 0 of register 0x25. */
  function VTotalBits(r25: bv8, r7: bv8, r6: bv8): bv32
  {
    ((r25 & 0x01) as bv32 << 10) | ((r7 & 0x20) as bv32 << 4) | ((r7 & 0x01) as bv32 << 8) | r6 as bv32
  }

  /** CRTC_VSYNCSTART: register 0x10, bit 8 in bit 2 and bit 9 in bit 7 of
      register 7, bit 10 in bit 2 of register 0x25. */
  function VSyncStartBits(r25: bv8, r7: bv8, r10: bv8): bv32
  {
    ((r25 & 0x04) as bv32 << 8) | ((r7 & 0x80) as bv32 << 2) | ((r7 & 0x04) as bv32 << 6) | r10 as bv32
  }

  /** CRTC_VDISPEND: register 0x12, bit 8 in bit 1 and bit 9 in bit 6 of
      register 7, bit 10 in bit 1 of register 0x25. */
  function VDispEndBits(r25: bv8, r7: bv8, r12: bv8): bv32
  {
    ((r25 & 0x02) as bv32 << 9) | ((r7 & 0x40) as bv32 << 3) | ((r7 & 0x02) as bv32 << 7) | r12 as bv32
  }

  /** CRTC_VBLANKSTART: register 0x15, bit 8 in bit 3 of register 7, bit 9 in
      bit 5 of register 9, bit 10 in bit 3 of register 0x25. */
  function VBlankStartBits(r25: bv8, r9: bv8, r7: bv8, r15: bv8): bv32
  {
    ((r25 & 0x08) as bv32 << 7) | ((r9 & 0x20) as bv32 << 4) | ((r7 & 0x08) as bv32 << 5) | r15 as bv32
  }

  /** CRTC_LINECOMP: register 0x18, bit 8 in bit 4 of register 7, bit 9 in bit 6
      of register 9. */
  function LineCompareBits(r9: bv8, r7: bv8, r18: bv8): bv32
  {
    ((r9 & 0x40) as bv32 << 3) | ((r7 & 0x10) as bv32 << 4) | r18 as bv32
  }

  function ReadHBlankEnd(c: seq<bv8>): bv8
    requires IsBank(c)
  {
    HBlankEndBits(c[5], c[3])
  }

  function ReadLineStride(c: seq<bv8>): bv32
    requires IsBank(c)
  {
    LineStrideBits(c[0x19], c[0x13])
  }

  function ReadVTotal(c: seq<bv8>): bv32
    requires IsBank(c)
  {
    VTotalBits(c[0x25], c[7], c[6])
  }

  function ReadVSyncStart(c: seq<bv8>): bv32
    requires IsBank(c)
  {
    VSyncStartBits(c[0x25], c[7], c[0x10])
  }

  function ReadVDispEnd(c: seq<bv8>): bv32
    requires IsBank(c)
  {
    VDispEndBits(c[0x25], c[7], c[0x12])
  }

  function ReadVBlankStart(c: seq<bv8>): bv32
    requires IsBank(c)
  {
    VBlankStartBits(c[0x25], c[9], c[7], c[0x15])
  }

  function ReadLineCompare(c: seq<bv8>): bv32
    requires IsBank(c)
  {
    LineCompareBits(c[9], c[7], c[0x18])
  }

  // ---------------------------------------------------------------------------
  // The 32-bit NV timing registers.

  /** The NV timing registers `SetGpuRegister` stores to. */
  const NvTimingOffsets: set<int> :=
    {0x680800, 0x680804, 0x680808, 0x68080c, 0x680810, 0x680814, 0x680818,
     0x680820, 0x680824, 0x680828, 0x68082c, 0x680830, 0x680834, 0x680838}

  /** The register window after the horizontal NV stores (display end, total,
      CRTC end, valid start, sync start, sync end, valid end). */
  function HorizontalNv(m: map<int, Dword>, g: GpuParameter): map<int, Dword>
  {
    m[0x680820 := ToDword(g.crtcHDispEnd - 1)]
     [0x680824 := ToDword(g.nvHTotal)]
     [0x680828 := ToDword(g.xres - 1)]
     [0x680834 := 0]
     [0x68082c := ToDword(g.nvHStart)]
     [0x680830 := ToDword(g.nvHStart + 32)]
     [0x680838 := ToDword(g.xres - 1)]
  }

  function HorizontalNvWrites(L: Trace<GpuWrite>, g: GpuParameter): Trace<GpuWrite>
  {
    var t := Then(Then(L, Mmio32(0x680820, ToDword(g.crtcHDispEnd - 1))), Mmio32(0x680824, ToDword(g.nvHTotal)));
    var t := Then(Then(t, Mmio32(0x680828, ToDword(g.xres - 1))), Mmio32(0x680834, 0));
    var t := Then(Then(t, Mmio32(0x68082c, ToDword(g.nvHStart))), Mmio32(0x680830, ToDword(g.nvHStart + 32)));
    Then(t, Mmio32(0x680838, ToDword(g.xres - 1)))
  }

  /** The register window after the vertical NV stores. */
  function VerticalNv(m: map<int, Dword>, g: GpuParameter): map<int, Dword>
  {
    m[0x680800 := ToDword(g.yres - 1)]
     [0x680804 := ToDword(g.nvVTotal)]
     [0x680808 := ToDword(g.yres - 1)]
     [0x680814 := 0]
     [0x68080c := ToDword(g.nvVStart)]
     [0x680810 := ToDword(g.nvVStart + 3)]
     [0x680818 := ToDword(g.yres - 1)]
  }

  function VerticalNvWrites(L: Trace<GpuWrite>, g: GpuParameter): Trace<GpuWrite>
  {
    var t := Then(Then(L, Mmio32(0x680800, ToDword(g.yres - 1))), Mmio32(0x680804, ToDword(g.nvVTotal)));
    var t := Then(Then(t, Mmio32(0x680808, ToDword(g.yres - 1))), Mmio32(0x680814, 0));
    var t := Then(Then(t, Mmio32(0x68080c, ToDword(g.nvVStart))), Mmio32(0x680810, ToDword(g.nvVStart + 3)));
    Then(t, Mmio32(0x680818, ToDword(g.yres - 1)))
  }

  /** The register window after `SetGpuRegister`. */
  function GpuMmio(m: map<int, Dword>, g: GpuParameter): map<int, Dword>
  {
    VerticalNv(HorizontalNv(m, g), g)
  }

  /** After `SetGpuRegister` only the NV timing registers have changed. */
  lemma GpuMmioFrame(m: map<int, Dword>, g: GpuParameter)
    ensures var r := GpuMmio(m, g);
      && (forall k :: k in m ==> k in r)
      && (forall k :: k in r && k !in NvTimingOffsets ==> k in m && r[k] == m[k])
      && NvTimingOffsets <= r.Keys
  {
  }

  /** The horizontal NV timing: the sync pulse is 32 clocks wide (modulo 2^32);
      the valid window starts at 0 and ends, like the CRTC end, at the last
      visible pixel. */
  lemma HorizontalNvFields(m: map<int, Dword>, g: GpuParameter)
    ensures var r := GpuMmio(m, g);
      && r[0x680830] == (r[0x68082c] as int + 32) % 0x1_0000_0000
      && r[0x68082c] == ToDword(g.nvHStart)
      && r[0x680834] == 0
      && r[0x680838] == r[0x680828] == ToDword(g.xres - 1)
      && r[0x680824] == ToDword(g.nvHTotal)
      && r[0x680820] == ToDword(g.crtcHDispEnd - 1)
  {
    ToDwordAdd(g.nvHStart, 32);
  }

  /** The vertical NV timing: the sync pulse is 3 lines long (modulo 2^32); the
      valid window starts at 0; the display end, CRTC end and valid end are all
      the last visible line. */
  lemma VerticalNvFields(m: map<int, Dword>, g: GpuParameter)
    ensures var r := GpuMmio(m, g);
      && r[0x680810] == (r[0x68080c] as int + 3) % 0x1_0000_0000
      && r[0x68080c] == ToDword(g.nvVStart)
      && r[0x680814] == 0
      && r[0x680818] == r[0x680808] == r[0x680800] == ToDword(g.yres - 1)
      && r[0x680804] == ToDword(g.nvVTotal)
  {
    ToDwordAdd(g.nvVStart, 3);
  }

  method SetHorizontalNv(gpu: Gpu, g: GpuParameter)
    requires gpu.Valid()
    modifies gpu
    ensures gpu.Valid()
    ensures gpu.mmio == HorizontalNv(old(gpu.mmio), g)
    ensures gpu.crtc == old(gpu.crtc)
    ensures gpu.log == HorizontalNvWrites(old(gpu.log), g)
  {
    gpu.Write32(0x680820, ToDword(g.crtcHDispEnd - 1));
    gpu.Write32(0x680824, ToDword(g.nvHTotal));
    gpu.Write32(0x680828, ToDword(g.xres - 1));
    gpu.Write32(0x680834, 0);
    gpu.Write32(0x68082c, ToDword(g.nvHStart));
    gpu.Write32(0x680830, ToDword(g.nvHStart + 32));
    gpu.Write32(0x680838, ToDword(g.xres - 1));
  }

  method SetVerticalNv(gpu: Gpu, g: GpuParameter)
    requires gpu.Valid()
    modifies gpu
    ensures gpu.Valid()
    ensures gpu.mmio == VerticalNv(old(gpu.mmio), g)
    ensures gpu.crtc == old(gpu.crtc)
    ensures gpu.log == VerticalNvWrites(old(gpu.log), g)
  {
    gpu.Write32(0x680800, ToDword(g.yres - 1));
    gpu.Write32(0x680804, ToDword(g.nvVTotal));
    gpu.Write32(0x680808, ToDword(g.yres - 1));
    gpu.Write32(0x680814, 0);
    gpu.Write32(0x68080c, ToDword(g.nvVStart));
    gpu.Write32(0x680810, ToDword(g.nvVStart + 3));
    gpu.Write32(0x680818, ToDword(g.yres - 1));
  }

  // ---------------------------------------------------------------------------
  // The horizontal CRTC groups.

  /** CRTC_HSYNCSTART: the character 32 pixels before the total `m`. */
  function HSyncStartChar(total: bv32): bv8
  {
    Lo8((total - 32) / 8)
  }

  /** Register 5 with the five-bit CRTC_HSYNCEND, `(m + 16) / 8 - 1` with
      `m = total - 32`, in bits 0-4. */
  function HSyncEndReg5(o5: bv8, total: bv32): bv8
  {
    var m := total - 32;
    Merge(o5, 0x1f, Lo8((m + 16) / 8 - 1) & 0x1f)
  }

  /** CRTC_HSYNCSTART (`m = nvhtotal - 32`, in characters) and CRTC_HSYNCEND. */
  function HSyncCrtc(o: seq<bv8>, total: bv32): (r: seq<bv8>)
    requires IsBank(o)
    ensures IsBank(r)
  {
    o[4 := HSyncStartChar(total)][5 := HSyncEndReg5(o[5], total)]
  }

  /** The sync starts 4 characters (32 pixels) before the total and its 5-bit
      end field is one character after the start; the top bits of register 5
      are kept. */
  lemma HSyncCrtcFields(o: seq<bv8>, total: bv32)
    requires IsBank(o)
    ensures var r := HSyncCrtc(o, total);
      && OnlyWrites(o, r, {4, 5})
      && r[4] + 4 == Lo8(total >> 3)
      && r[5] & 0x1f == (r[4] + 1) & 0x1f
      && r[5] & 0xe0 == o[5] & 0xe0
  {
  }

  function HSyncCrtcWrites(L: Trace<GpuWrite>, o: seq<bv8>, total: bv32): Trace<GpuWrite>
    requires IsBank(o)
  {
    var r := HSyncCrtc(o, total);
    Then(Then(L, CrtcWrite(4, r[4])), CrtcWrite(5, r[5]))
  }

  method SetHSyncCrtc(gpu: Gpu, g: GpuParameter)
    requires gpu.Valid()
    modifies gpu
    ensures gpu.Valid()
    ensures gpu.mmio == old(gpu.mmio)
    ensures gpu.crtc == HSyncCrtc(old(gpu.crtc), Dw(g.nvHTotal))
    ensures gpu.log == HSyncCrtcWrites(old(gpu.log), old(gpu.crtc), Dw(g.nvHTotal))
  {
    var m := Dw(g.nvHTotal) - 32;
    gpu.SetCrtc(4, Lo8(m / 8));
    gpu.UpdateCrtc(5, 0x1f, Lo8((m + 16) / 8 - 1) & 0x1f);
  }

  /** Register 3 with bits 0-4 of CRTC_HBLANKEND (the character total minus one). */
  function HBlankEndReg3(o3: bv8, chars: bv32): bv8
  {
    Merge(o3, 0x1f, Lo8(chars - 1) & 0x1f)
  }

  /** Register 5 with bit 5 of CRTC_HBLANKEND in bit 7. */
  function HBlankEndReg5(o5: bv8, chars: bv32): bv8
  {
    Merge(o5, 0x80, (Lo8(chars - 1) & 0x20) << 2)
  }

  /** CRTC_HTOTAL, CRTC_HBLANKSTART and CRTC_HBLANKEND, from the character total
      `chars` and the last displayed character. */
  function HTotalCrtc(o: seq<bv8>, chars: bv32, dispEnd: bv8): (r: seq<bv8>)
    requires IsBank(o)
    ensures IsBank(r)
  {
    o[0 := Lo8(chars - 5)][2 := dispEnd][3 := HBlankEndReg3(o[3], chars)][5 := HBlankEndReg5(o[5], chars)]
  }

  /** CRTC_HTOTAL is the character total minus 5; the blank starts after the
      last displayed character; the 6-bit blank end is the last character of the
      line, 4 after CRTC_HTOTAL. */
  lemma HTotalCrtcFields(o: seq<bv8>, chars: bv32, dispEnd: bv8)
    requires IsBank(o)
    ensures var r := HTotalCrtc(o, chars, dispEnd);
      && OnlyWrites(o, r, {0, 2, 3, 5})
      && r[0] + 5 == Lo8(chars)
      && r[2] == dispEnd
      && ReadHBlankEnd(r) == (r[0] + 4) & 0x3f
      && r[3] & 0xe0 == o[3] & 0xe0 && r[5] & 0x7f == o[5] & 0x7f
  {
  }

  function HTotalCrtcWrites(L: Trace<GpuWrite>, o: seq<bv8>, chars: bv32, dispEnd: bv8): Trace<GpuWrite>
    requires IsBank(o)
  {
    var r := HTotalCrtc(o, chars, dispEnd);
    Then(Then(Then(Then(L, CrtcWrite(0, r[0])), CrtcWrite(2, r[2])), CrtcWrite(3, r[3])), CrtcWrite(5, r[5]))
  }

  method SetHTotalCrtc(gpu: Gpu, g: GpuParameter)
    requires gpu.Valid()
    modifies gpu
    ensures gpu.Valid()
    ensures gpu.mmio == old(gpu.mmio)
    ensures gpu.crtc == HTotalCrtc(old(gpu.crtc), Dw(HChars(g)), HDispEndChar(g))
    ensures gpu.log == HTotalCrtcWrites(old(gpu.log), old(gpu.crtc), Dw(HChars(g)), HDispEndChar(g))
  {
    var h := Dw(HChars(g));
    gpu.SetCrtc(0, Lo8(h - 5));
    gpu.SetCrtc(2, HDispEndChar(g));
    gpu.UpdateCrtc(3, 0x1f, Lo8(h - 1) & 0x1f);
    gpu.UpdateCrtc(5, 0x80, (Lo8(h - 1) & 0x20) << 2);
  }

  /** CRTC_HDISPEND: bit 7 of register 0x17 is cleared, registers 1 and 2 get
      the last displayed character, and bit 7 of register 0x17 is set again. */
  function HDispEndCrtc(o: seq<bv8>, dispEnd: bv8): (r: seq<bv8>)
    requires IsBank(o)
    ensures IsBank(r)
  {
    var cleared := Merge(o[0x17], 0x80, 0x00);
    o[0x17 := cleared][1 := dispEnd][2 := dispEnd][0x17 := Merge(cleared, 0x80, 0x80)]
  }

  lemma HDispEndCrtcFields(o: seq<bv8>, dispEnd: bv8)
    requires IsBank(o)
    ensures var r := HDispEndCrtc(o, dispEnd);
      && OnlyWrites(o, r, {1, 2, 0x17})
      && r[1] == r[2] == dispEnd
      && r[0x17] == o[0x17] | 0x80
  {
  }

  function HDispEndCrtcWrites(L: Trace<GpuWrite>, o: seq<bv8>, dispEnd: bv8): Trace<GpuWrite>
    requires IsBank(o)
  {
    var cleared := Merge(o[0x17], 0x80, 0x00);
    Then(Then(Then(Then(L, CrtcWrite(0x17, cleared)), CrtcWrite(1, dispEnd)), CrtcWrite(2, dispEnd)),
      CrtcWrite(0x17, Merge(cleared, 0x80, 0x80)))
  }

  /** The display-end stores are bracketed: register 0x17 is first stored with
      bit 7 clear and its other bits kept, then registers 1 and 2, then register
      0x17 with bit 7 set. */
  lemma HDispEndBracketed(L: Trace<GpuWrite>, o: seq<bv8>, dispEnd: bv8)
    requires IsBank(o)
    ensures HDispEndCrtcWrites(L, o, dispEnd)
         == Then(Then(Then(Then(L, CrtcWrite(0x17, o[0x17] & 0x7f)), CrtcWrite(1, dispEnd)),
              CrtcWrite(2, dispEnd)), CrtcWrite(0x17, o[0x17] | 0x80))
  {
  }

  method SetHDispEndCrtc(gpu: Gpu, g: GpuParameter)
    requires gpu.Valid()
    modifies gpu
    ensures gpu.Valid()
    ensures gpu.mmio == old(gpu.mmio)
    ensures gpu.crtc == HDispEndCrtc(old(gpu.crtc), HDispEndChar(g))
    ensures gpu.log == HDispEndCrtcWrites(old(gpu.log), old(gpu.crtc), HDispEndChar(g))
  {
    gpu.UpdateCrtc(0x17, 0x80, 0x00);
    gpu.SetCrtc(1, HDispEndChar(g));
    gpu.SetCrtc(2, HDispEndChar(g));
    gpu.UpdateCrtc(0x17, 0x80, 0x80);
  }

  /** Register 0x19 with bits 8-10 of the line stride in bits 5-7. */
  function LineStrideReg19(o19: bv8, stride: bv32): bv8
  {
    Merge(o19, 0xe0, Field(stride, 3, 0xe0))
  }

  /** CRTC_LINESTRIDE. */
  function LineStrideCrtc(o: seq<bv8>, stride: bv32): (r: seq<bv8>)
    requires IsBank(o)
    ensures IsBank(r)
  {
    o[0x19 := LineStrideReg19(o[0x19], stride)][0x13 := Lo8(stride)]
  }

  /** Registers 0x13 and 0x19 hold the low 11 bits of the stride; the low five
      bits of register 0x19 are kept. */
  lemma LineStrideCrtcFields(o: seq<bv8>, stride: bv32)
    requires IsBank(o)
    ensures var r := LineStrideCrtc(o, stride);
      && OnlyWrites(o, r, {0x13, 0x19})
      && ReadLineStride(r) == stride & 0x7ff
      && r[0x19] & 0x1f == o[0x19] & 0x1f
  {
  }

  function LineStrideCrtcWrites(L: Trace<GpuWrite>, o: seq<bv8>, stride: bv32): Trace<GpuWrite>
    requires IsBank(o)
  {
    var r := LineStrideCrtc(o, stride);
    Then(Then(L, CrtcWrite(0x19, r[0x19])), CrtcWrite(0x13, r[0x13]))
  }

  method SetLineStrideCrtc(gpu: Gpu, g: GpuParameter)
    requires gpu.Valid()
    modifies gpu
    ensures gpu.Valid()
    ensures gpu.mmio == old(gpu.mmio)
    ensures gpu.crtc == LineStrideCrtc(old(gpu.crtc), LineStride(g))
    ensures gpu.log == LineStrideCrtcWrites(old(gpu.log), old(gpu.crtc), LineStride(g))
  {
    var m := LineStride(g);
    gpu.UpdateCrtc(0x19, 0xe0, Field(m, 3, 0xe0));
    gpu.SetCrtc(0x13, Lo8(m));
  }

  // ---------------------------------------------------------------------------
  // The vertical CRTC groups.

  /** CRTC_VSYNCSTART: registers 0x10 and 7 (bits 2 and 7). */
  function VSyncStartCrtc(o: seq<bv8>, vs: bv32): (r: seq<bv8>)
    requires IsBank(o)
    ensures IsBank(r)
  {
    o[7 := Merge(o[7], 0x84, VSyncStartReg7(vs))][0x10 := Lo8(vs)]
  }

  lemma VSyncStartCrtcFields(o: seq<bv8>, vs: bv32)
    requires IsBank(o)
    ensures var r := VSyncStartCrtc(o, vs);
      && OnlyWrites(o, r, {7, 0x10})
      && VSyncStartBits(0, r[7], r[0x10]) == vs & 0x3ff
      && r[7] & 0x7b == o[7] & 0x7b
  {
  }

  function VSyncStartCrtcWrites(L: Trace<GpuWrite>, o: seq<bv8>, vs: bv32): Trace<GpuWrite>
    requires IsBank(o)
  {
    var r := VSyncStartCrtc(o, vs);
    Then(Then(L, CrtcWrite(7, r[7])), CrtcWrite(0x10, r[0x10]))
  }

  method SetVSyncStartCrtc(gpu: Gpu, g: GpuParameter)
    requires gpu.Valid()
    modifies gpu
    ensures gpu.Valid()
    ensures gpu.mmio == old(gpu.mmio)
    ensures gpu.crtc == VSyncStartCrtc(old(gpu.crtc), Dw(g.crtcVStart))
    ensures gpu.log == VSyncStartCrtcWrites(old(gpu.log), old(gpu.crtc), Dw(g.crtcVStart))
  {
    var vs := Dw(g.crtcVStart);
    gpu.UpdateCrtc(7, 0x84, Field(vs, 2, 0x80) | Field(vs, 6, 0x04));
    gpu.SetCrtc(0x10, Lo8(vs));
  }

  /** CRTC_VTOTAL (registers 6 and 7) and CRTC_VBLANKEND (register 0x16). */
  function VTotalCrtc(o: seq<bv8>, vt: bv32): (r: seq<bv8>)
    requires IsBank(o)
    ensures IsBank(r)
  {
    o[7 := Merge(o[7], 0x21, VTotalReg7(vt))][6 := Lo8(vt)]
     [0x16 := Merge(o[0x16], 0x7f, Lo8(vt) & 0x7f)]
  }

  /** The low ten bits of the vertical total are stored, and the seven bits of
      the blank end equal those of the total; bit 7 of register 0x16 is kept. */
  lemma VTotalCrtcFields(o: seq<bv8>, vt: bv32)
    requires IsBank(o)
    ensures var r := VTotalCrtc(o, vt);
      && OnlyWrites(o, r, {6, 7, 0x16})
      && VTotalBits(0, r[7], r[6]) == vt & 0x3ff
      && r[0x16] & 0x7f == r[6] & 0x7f
      && r[7] & 0xde == o[7] & 0xde && r[0x16] & 0x80 == o[0x16] & 0x80
  {
  }

  function VTotalCrtcWrites(L: Trace<GpuWrite>, o: seq<bv8>, vt: bv32): Trace<GpuWrite>
    requires IsBank(o)
  {
    var r := VTotalCrtc(o, vt);
    Then(Then(Then(L, CrtcWrite(7, r[7])), CrtcWrite(6, r[6])), CrtcWrite(0x16, r[0x16]))
  }

  method SetVTotalCrtc(gpu: Gpu, g: GpuParameter)
    requires gpu.Valid()
    modifies gpu
    ensures gpu.Valid()
    ensures gpu.mmio == old(gpu.mmio)
    ensures gpu.crtc == VTotalCrtc(old(gpu.crtc), Dw(g.crtcVTotal))
    ensures gpu.log == VTotalCrtcWrites(old(gpu.log), old(gpu.crtc), Dw(g.crtcVTotal))
  {
    var vt := Dw(g.crtcVTotal);
    gpu.UpdateCrtc(7, 0x21, Field(vt, 4, 0x20) | Field(vt, 8, 0x01));
    gpu.SetCrtc(6, Lo8(vt));
    gpu.UpdateCrtc(0x16, 0x7f, Lo8(vt) & 0x7f);
  }

  /** CRTC_VDISPEND: registers 0x12 and 7 (bits 1 and 6). */
  function VDispEndCrtc(o: seq<bv8>, last: bv32): (r: seq<bv8>)
    requires IsBank(o)
    ensures IsBank(r)
  {
    o[7 := Merge(o[7], 0x42, VDispEndReg7(last))][0x12 := Lo8(last)]
  }

  lemma VDispEndCrtcFields(o: seq<bv8>, last: bv32)
    requires IsBank(o)
    ensures var r := VDispEndCrtc(o, last);
      && OnlyWrites(o, r, {7, 0x12})
      && VDispEndBits(0, r[7], r[0x12]) == last & 0x3ff
      && r[7] & 0xbd == o[7] & 0xbd
  {
  }

  function VDispEndCrtcWrites(L: Trace<GpuWrite>, o: seq<bv8>, last: bv32): Trace<GpuWrite>
    requires IsBank(o)
  {
    var r := VDispEndCrtc(o, last);
    Then(Then(L, CrtcWrite(7, r[7])), CrtcWrite(0x12, r[0x12]))
  }

  method SetVDispEndCrtc(gpu: Gpu, g: GpuParameter)
    requires gpu.Valid()
    modifies gpu
    ensures gpu.Valid()
    ensures gpu.mmio == old(gpu.mmio)
    ensures gpu.crtc == VDispEndCrtc(old(gpu.crtc), LastLine(g))
    ensures gpu.log == VDispEndCrtcWrites(old(gpu.log), old(gpu.crtc), LastLine(g))
  {
    var y1 := LastLine(g);
    gpu.UpdateCrtc(7, 0x42, Field(y1, 3, 0x40) | Field(y1, 7, 0x02));
    gpu.SetCrtc(0x12, Lo8(y1));
  }

  /** CRTC_VBLANKSTART: registers 0x15, 7 (bit 3) and 9 (bit 5). */
  function VBlankStartCrtc(o: seq<bv8>, last: bv32): (r: seq<bv8>)
    requires IsBank(o)
    ensures IsBank(r)
  {
    o[9 := Merge(o[9], 0x20, VBlankStartReg9(last))][7 := Merge(o[7], 0x08, VBlankStartReg7(last))]
     [0x15 := Lo8(last)]
  }

  lemma VBlankStartCrtcFields(o: seq<bv8>, last: bv32)
    requires IsBank(o)
    ensures var r := VBlankStartCrtc(o, last);
      && OnlyWrites(o, r, {7, 9, 0x15})
      && VBlankStartBits(0, r[9], r[7], r[0x15]) == last & 0x3ff
      && r[7] & 0xf7 == o[7] & 0xf7 && r[9] & 0xdf == o[9] & 0xdf
  {
  }

  function VBlankStartCrtcWrites(L: Trace<GpuWrite>, o: seq<bv8>, last: bv32): Trace<GpuWrite>
    requires IsBank(o)
  {
    var r := VBlankStartCrtc(o, last);
    Then(Then(Then(L, CrtcWrite(9, r[9])), CrtcWrite(7, r[7])), CrtcWrite(0x15, r[0x15]))
  }

  method SetVBlankStartCrtc(gpu: Gpu, g: GpuParameter)
    requires gpu.Valid()
    modifies gpu
    ensures gpu.Valid()
    ensures gpu.mmio == old(gpu.mmio)
    ensures gpu.crtc == VBlankStartCrtc(old(gpu.crtc), LastLine(g))
    ensures gpu.log == VBlankStartCrtcWrites(old(gpu.log), old(gpu.crtc), LastLine(g))
  {
    var y1 := LastLine(g);
    gpu.UpdateCrtc(9, 0x20, Field(y1, 4, 0x20));
    gpu.UpdateCrtc(7, 0x08, Field(y1, 5, 0x08));
    gpu.SetCrtc(0x15, Lo8(y1));
  }

  // ---------------------------------------------------------------------------
  // Line compare, repaint, overflow and pixel mode.

  /** The value that switches the line compare (split screen) off. */
  const LineCompareOff: bv32 := 0x3ff

  /** CRTC_LINECOMP: registers 0x18, 7 (bit 4) and 9 (bit 6). */
  function LineCompareCrtc(o: seq<bv8>): (r: seq<bv8>)
    requires IsBank(o)
    ensures IsBank(r)
  {
    var m := LineCompareOff;
    o[7 := Merge(o[7], 0x10, Field(m, 4, 0x10))][9 := Merge(o[9], 0x40, Field(m, 3, 0x40))]
     [0x18 := Lo8(m)]
  }

  lemma LineCompareCrtcFields(o: seq<bv8>)
    requires IsBank(o)
    ensures var r := LineCompareCrtc(o);
      && OnlyWrites(o, r, {7, 9, 0x18})
      && ReadLineCompare(r) == 0x3ff
      && r[7] & 0xef == o[7] & 0xef && r[9] & 0xbf == o[9] & 0xbf
  {
  }

  function LineCompareCrtcWrites(L: Trace<GpuWrite>, o: seq<bv8>): Trace<GpuWrite>
    requires IsBank(o)
  {
    var r := LineCompareCrtc(o);
    Then(Then(Then(L, CrtcWrite(7, r[7])), CrtcWrite(9, r[9])), CrtcWrite(0x18, r[0x18]))
  }

  method SetLineCompareCrtc(gpu: Gpu)
    requires gpu.Valid()
    modifies gpu
    ensures gpu.Valid()
    ensures gpu.mmio == old(gpu.mmio)
    ensures gpu.crtc == LineCompareCrtc(old(gpu.crtc))
    ensures gpu.log == LineCompareCrtcWrites(old(gpu.log), old(gpu.crtc))
  {
    var m := LineCompareOff;
    gpu.UpdateCrtc(7, 0x10, Field(m, 4, 0x10));
    gpu.UpdateCrtc(9, 0x40, Field(m, 3, 0x40));
    gpu.SetCrtc(0x18, Lo8(m));
  }

  /** CRTC register 0x1a (repaint 1): 0x04 below 1280 pixels per line, else 0. */
  function Repaint1(g: GpuParameter): bv8
  {
    if g.xres < 1280 then 0x04 else 0x00
  }

  /** CRTC register 0x25 from CRTC_HTOTAL, the last visible line, the vertical
      sync start and the vertical total. */
  function Overflow(hTotal: bv32, last: bv32, vs: bv32, vt: bv32): bv8
  {
    Field(hTotal, 2, 0x10) | Field(last, 7, 0x08) | Field(vs, 8, 0x04) | Field(last, 9, 0x02)
      | Field(vt, 10, 0x01)
  }

  /** The overflow byte `SetGpuRegister` computes from the plan. */
  function OverflowOf(g: GpuParameter): bv8
  {
    Overflow(Dw(HChars(g)) - 5, LastLine(g), Dw(g.crtcVStart), Dw(g.crtcVTotal))
  }

  /** Bits 0-3 hold bit 10 of the vertical total, display end, sync start and
      blank start (the last visible line); bit 4 repeats bit 6 of the horizontal
      total byte; bits 5-7 are zero. */
  lemma OverflowFields(hTotal: bv32, last: bv32, vs: bv32, vt: bv32)
    ensures var b := Overflow(hTotal, last, vs, vt);
      && (b & 0x01) as bv32 << 10 == vt & 0x400
      && (b & 0x02) as bv32 << 9 == last & 0x400
      && (b & 0x04) as bv32 << 8 == vs & 0x400
      && (b & 0x08) as bv32 << 7 == last & 0x400
      && (b & 0x10) << 2 == Lo8(hTotal) & 0x40
      && b & 0xe0 == 0
  {
  }

  /** CRTC_REPAINT1 (register 0x1a) and the overflow register 0x25. */
  function RepaintOverflowCrtc(o: seq<bv8>, repaint: bv8, overflow: bv8): (r: seq<bv8>)
    requires IsBank(o)
    ensures IsBank(r)
  {
    o[0x1a := repaint][0x25 := overflow]
  }

  function RepaintOverflowCrtcWrites(L: Trace<GpuWrite>, repaint: bv8, overflow: bv8): Trace<GpuWrite>
  {
    Then(Then(L, CrtcWrite(0x1a, repaint)), CrtcWrite(0x25, overflow))
  }

  method SetRepaintOverflowCrtc(gpu: Gpu, g: GpuParameter)
    requires gpu.Valid()
    modifies gpu
    ensures gpu.Valid()
    ensures gpu.mmio == old(gpu.mmio)
    ensures gpu.crtc == RepaintOverflowCrtc(old(gpu.crtc), Repaint1(g), OverflowOf(g))
    ensures gpu.log == RepaintOverflowCrtcWrites(old(gpu.log), Repaint1(g), OverflowOf(g))
  {
    var b: bv8;
    if g.xres < 1280 {
      b := 0x04;
    } else {
      b := 0x00;
    }
    gpu.SetCrtc(0x1a, b);
    gpu.SetCrtc(0x25, Overflow(Dw(HChars(g)) - 5, LastLine(g), Dw(g.crtcVStart), Dw(g.crtcVTotal)));
  }

  /** CRTC register 0x28: the pixel depth byte, capped at 3, with the TV bit. */
  function PixelMode(depth: bv8): bv8
  {
    (if depth >= 3 then 3 else depth) | 0x80
  }

  /** The TV bit is set and the depth field is the depth, or 3 when it is larger. */
  lemma PixelModeFields(depth: bv8)
    ensures PixelMode(depth) & 0x80 == 0x80
    ensures depth <= 3 ==> PixelMode(depth) & 0x7f == depth
    ensures depth >= 3 ==> PixelMode(depth) & 0x7f == 3
  {
  }

  /** Whether the line has more than 260 characters (`nvhtotal / 8 - 1 >= 260`). */
  function LongLine(g: GpuParameter): bool
  {
    HChars(g) - 1 >= 260
  }

  /** Pixel mode (register 0x28) and the long-line bit (bit 0 of register 0x2d,
      whose top three bits are kept and whose other low bits are cleared). */
  function PixelModeCrtc(o: seq<bv8>, depth: bv8, longLine: bool): (r: seq<bv8>)
    requires IsBank(o)
    ensures IsBank(r)
  {
    o[0x28 := PixelMode(depth)][0x2d := Merge(o[0x2d], 0x1f, if longLine then 0x01 else 0x00)]
  }

  /** Register 0x28 holds the pixel mode; bit 0 of register 0x2d is set exactly
      for a long line, bits 1-4 are cleared and bits 5-7 kept. */
  lemma PixelModeCrtcFields(o: seq<bv8>, depth: bv8, longLine: bool)
    requires IsBank(o)
    ensures var r := PixelModeCrtc(o, depth, longLine);
      && OnlyWrites(o, r, {0x28, 0x2d})
      && r[0x28] == PixelMode(depth)
      && r[0x2d] & 0xe0 == o[0x2d] & 0xe0
      && (r[0x2d] & 0x1f == 0x01 <==> longLine)
      && (r[0x2d] & 0x1f == 0x00 <==> !longLine)
  {
    MergeReadsBack(o[0x2d], 0x1f, if longLine then 0x01 else 0x00);
  }

  function PixelModeCrtcWrites(L: Trace<GpuWrite>, o: seq<bv8>, depth: bv8, longLine: bool): Trace<GpuWrite>
    requires IsBank(o)
  {
    var r := PixelModeCrtc(o, depth, longLine);
    Then(Then(L, CrtcWrite(0x28, r[0x28])), CrtcWrite(0x2d, r[0x2d]))
  }

  method SetPixelModeCrtc(gpu: Gpu, g: GpuParameter)
    requires gpu.Valid()
    modifies gpu
    ensures gpu.Valid()
    ensures gpu.mmio == old(gpu.mmio)
    ensures gpu.crtc == PixelModeCrtc(old(gpu.crtc), Lo8(Dw(g.pixelDepth)), LongLine(g))
    ensures gpu.log == PixelModeCrtcWrites(old(gpu.log), old(gpu.crtc), Lo8(Dw(g.pixelDepth)), LongLine(g))
  {
    var b := Lo8(Dw(g.pixelDepth));
    if b >= 3 {
      b := 3;
    }
    b := b | 0x80;
    gpu.SetCrtc(0x28, b);
    b := gpu.GetCrtc(0x2d);
    b := b & 0xe0;
    if HChars(g) - 1 >= 260 {
      b := b | 0x01;
    }
    gpu.SetCrtc(0x2d, b);
  }

  // ---------------------------------------------------------------------------
  // The whole CRTC programming.

  /** The 32-bit patterns (and bytes) `SetGpuRegister` derives from the plan for
      the CRTC bank. */
  datatype CrtcTiming = CrtcTiming(
    hTotal: bv32,      // nvhtotal
    hChars: bv32,      // nvhtotal / 8
    hDispEnd: bv8,     // crtchdispend / 8 - 1
    stride: bv32,      // (xres / 8) * pixelDepth
    vSyncStart: bv32,  // crtcvstart
    vTotal: bv32,      // crtcvtotal
    lastLine: bv32,    // yres - 1
    repaint: bv8,      // CRTC_REPAINT1
    depth: bv8,        // (BYTE)pixelDepth
    longLine: bool)    // nvhtotal / 8 - 1 >= 260

  function TimingOf(g: GpuParameter): CrtcTiming
  {
    CrtcTiming(Dw(g.nvHTotal), Dw(HChars(g)), HDispEndChar(g), LineStride(g), Dw(g.crtcVStart),
      Dw(g.crtcVTotal), LastLine(g), Repaint1(g), Lo8(Dw(g.pixelDepth)), LongLine(g))
  }

  /** The CRTC registers `SetGpuRegister` stores to. */
  const CrtcTimingIndices: set<int> :=
    {0, 1, 2, 3, 4, 5, 6, 7, 9, 0x10, 0x12, 0x13, 0x15, 0x16, 0x17, 0x18, 0x19, 0x1a, 0x25, 0x28, 0x2d}

  /** Horizontal sync, total, display end and line stride. */
  function HorizontalCrtc(o: seq<bv8>, t: CrtcTiming): (r: seq<bv8>)
    requires IsBank(o)
    ensures IsBank(r)
  {
    LineStrideCrtc(HDispEndCrtc(HTotalCrtc(HSyncCrtc(o, t.hTotal), t.hChars, t.hDispEnd), t.hDispEnd), t.stride)
  }

  function HorizontalCrtcWrites(L: Trace<GpuWrite>, o: seq<bv8>, t: CrtcTiming): Trace<GpuWrite>
    requires IsBank(o)
  {
    var o1 := HSyncCrtc(o, t.hTotal);
    var o2 := HTotalCrtc(o1, t.hChars, t.hDispEnd);
    var o3 := HDispEndCrtc(o2, t.hDispEnd);
    LineStrideCrtcWrites(HDispEndCrtcWrites(HTotalCrtcWrites(HSyncCrtcWrites(L, o, t.hTotal), o1, t.hChars, t.hDispEnd),
      o2, t.hDispEnd), o3, t.stride)
  }

  /** Vertical sync start, total (with blank end), display end and blank start. */
  function VerticalCrtc(o: seq<bv8>, t: CrtcTiming): (r: seq<bv8>)
    requires IsBank(o)
    ensures IsBank(r)
  {
    VBlankStartCrtc(VDispEndCrtc(VTotalCrtc(VSyncStartCrtc(o, t.vSyncStart), t.vTotal), t.lastLine), t.lastLine)
  }

  function VerticalCrtcWrites(L: Trace<GpuWrite>, o: seq<bv8>, t: CrtcTiming): Trace<GpuWrite>
    requires IsBank(o)
  {
    var o1 := VSyncStartCrtc(o, t.vSyncStart);
    var o2 := VTotalCrtc(o1, t.vTotal);
    var o3 := VDispEndCrtc(o2, t.lastLine);
    VBlankStartCrtcWrites(VDispEndCrtcWrites(VTotalCrtcWrites(VSyncStartCrtcWrites(L, o, t.vSyncStart), o1, t.vTotal),
      o2, t.lastLine), o3, t.lastLine)
  }

  /** The overflow byte, from the timing. */
  function TimingOverflow(t: CrtcTiming): bv8
  {
    Overflow(t.hChars - 5, t.lastLine, t.vSyncStart, t.vTotal)
  }

  /** Line compare, repaint, overflow and pixel mode. */
  function ControlCrtc(o: seq<bv8>, t: CrtcTiming): (r: seq<bv8>)
    requires IsBank(o)
    ensures IsBank(r)
  {
    PixelModeCrtc(RepaintOverflowCrtc(LineCompareCrtc(o), t.repaint, TimingOverflow(t)), t.depth, t.longLine)
  }

  function ControlCrtcWrites(L: Trace<GpuWrite>, o: seq<bv8>, t: CrtcTiming): Trace<GpuWrite>
    requires IsBank(o)
  {
    var o1 := LineCompareCrtc(o);
    var o2 := RepaintOverflowCrtc(o1, t.repaint, TimingOverflow(t));
    PixelModeCrtcWrites(RepaintOverflowCrtcWrites(LineCompareCrtcWrites(L, o), t.repaint, TimingOverflow(t)),
      o2, t.depth, t.longLine)
  }

  /** The CRTC bank after `SetGpuRegister`. */
  function GpuCrtc(o: seq<bv8>, t: CrtcTiming): (r: seq<bv8>)
    requires IsBank(o)
    ensures IsBank(r)
  {
    ControlCrtc(VerticalCrtc(HorizontalCrtc(o, t), t), t)
  }

  /** Every store `SetGpuRegister` makes, in order: the horizontal NV registers,
      the horizontal CRTC registers, the vertical NV registers, the vertical
      CRTC registers, and the control registers. */
  function GpuWrites(L: Trace<GpuWrite>, o: seq<bv8>, g: GpuParameter): Trace<GpuWrite>
    requires IsBank(o)
  {
    var t := TimingOf(g);
    var h := HorizontalCrtc(o, t);
    var v := VerticalCrtc(h, t);
    ControlCrtcWrites(VerticalCrtcWrites(VerticalNvWrites(HorizontalCrtcWrites(HorizontalNvWrites(L, g), o, t), g), h, t), v, t)
  }

  // ---------------------------------------------------------------------------
  // The registers `SetGpuRegister` leaves behind, one byte at a time.

  /** Register 5: the sync end in bits 0-4 and bit 5 of the blank end in bit 7. */
  function FinalReg5(o5: bv8, t: CrtcTiming): bv8
  {
    HBlankEndReg5(HSyncEndReg5(o5, t.hTotal), t.hChars)
  }

  /** Register 0x17: bit 7 cleared, then set. */
  function FinalReg17(o17: bv8): bv8
  {
    Merge(Merge(o17, 0x80, 0x00), 0x80, 0x80)
  }

  /** Register 7 after the vertical group. */
  function VerticalReg7(o7: bv8, t: CrtcTiming): bv8
  {
    var r := Merge(o7, 0x84, VSyncStartReg7(t.vSyncStart));
    var r := Merge(r, 0x21, VTotalReg7(t.vTotal));
    var r := Merge(r, 0x42, VDispEndReg7(t.lastLine));
    Merge(r, 0x08, VBlankStartReg7(t.lastLine))
  }

  /** Register 9 after the vertical group. */
  function VerticalReg9(o9: bv8, t: CrtcTiming): bv8
  {
    Merge(o9, 0x20, VBlankStartReg9(t.lastLine))
  }

  /** Register 0x16: the low seven bits of the vertical total. */
  function FinalReg16(o16: bv8, t: CrtcTiming): bv8
  {
    Merge(o16, 0x7f, Lo8(t.vTotal) & 0x7f)
  }

  /** Register 7 after the line compare store. */
  function LineCompareReg7(v7: bv8): bv8
  {
    Merge(v7, 0x10, Field(LineCompareOff, 4, 0x10))
  }

  /** Register 9 after the line compare store. */
  function LineCompareReg9(v9: bv8): bv8
  {
    Merge(v9, 0x40, Field(LineCompareOff, 3, 0x40))
  }

  /** Register 0x2d: the top three bits kept and the long-line bit. */
  function FinalReg2d(o2d: bv8, t: CrtcTiming): bv8
  {
    Merge(o2d, 0x1f, if t.longLine then 0x01 else 0x00)
  }

  function FinalReg7(o7: bv8, t: CrtcTiming): bv8
  {
    LineCompareReg7(VerticalReg7(o7, t))
  }

  function FinalReg9(o9: bv8, t: CrtcTiming): bv8
  {
    LineCompareReg9(VerticalReg9(o9, t))
  }

  // The three groups, register by register.

  lemma HorizontalRegisters(o: seq<bv8>, t: CrtcTiming)
    requires IsBank(o)
    ensures var r := HorizontalCrtc(o, t);
      && r[0] == Lo8(t.hChars - 5) && r[1] == t.hDispEnd && r[2] == t.hDispEnd
      && r[3] == HBlankEndReg3(o[3], t.hChars) && r[4] == HSyncStartChar(t.hTotal) && r[5] == FinalReg5(o[5], t)
      && r[0x13] == Lo8(t.stride) && r[0x17] == FinalReg17(o[0x17]) && r[0x19] == LineStrideReg19(o[0x19], t.stride)
  {
  }

  lemma HorizontalFrame(o: seq<bv8>, t: CrtcTiming)
    requires IsBank(o)
    ensures OnlyWrites(o, HorizontalCrtc(o, t), {0, 1, 2, 3, 4, 5, 0x13, 0x17, 0x19})
  {
  }

  lemma VerticalRegisters(o: seq<bv8>, t: CrtcTiming)
    requires IsBank(o)
    ensures var r := VerticalCrtc(o, t);
      && r[6] == Lo8(t.vTotal) && r[7] == VerticalReg7(o[7], t) && r[9] == VerticalReg9(o[9], t)
      && r[0x10] == Lo8(t.vSyncStart) && r[0x12] == Lo8(t.lastLine) && r[0x15] == Lo8(t.lastLine)
      && r[0x16] == FinalReg16(o[0x16], t)
  {
  }

  lemma VerticalFrame(o: seq<bv8>, t: CrtcTiming)
    requires IsBank(o)
    ensures OnlyWrites(o, VerticalCrtc(o, t), {6, 7, 9, 0x10, 0x12, 0x15, 0x16})
  {
  }

  lemma ControlRegisters(o: seq<bv8>, t: CrtcTiming)
    requires IsBank(o)
    ensures var r := ControlCrtc(o, t);
      && r[7] == LineCompareReg7(o[7]) && r[9] == LineCompareReg9(o[9]) && r[0x18] == Lo8(LineCompareOff)
      && r[0x1a] == t.repaint && r[0x25] == TimingOverflow(t) && r[0x28] == PixelMode(t.depth)
      && r[0x2d] == FinalReg2d(o[0x2d], t)
  {
  }

  lemma ControlFrame(o: seq<bv8>, t: CrtcTiming)
    requires IsBank(o)
    ensures OnlyWrites(o, ControlCrtc(o, t), {7, 9, 0x18, 0x1a, 0x25, 0x28, 0x2d})
  {
  }

  // Bit-level facts about the final register bytes.

  lemma HTotalCharFields(chars: bv32)
    ensures Lo8(chars - 5) + 5 == Lo8(chars)
  {
  }

  lemma HSyncFields(o5: bv8, t: CrtcTiming)
    ensures HSyncStartChar(t.hTotal) + 4 == Lo8(t.hTotal >> 3)
    ensures FinalReg5(o5, t) & 0x1f == (HSyncStartChar(t.hTotal) + 1) & 0x1f
    ensures FinalReg5(o5, t) & 0x60 == o5 & 0x60
  {
  }

  lemma HBlankEndFields(o3: bv8, o5: bv8, t: CrtcTiming)
    ensures HBlankEndBits(FinalReg5(o5, t), HBlankEndReg3(o3, t.hChars)) == (Lo8(t.hChars - 5) + 4) & 0x3f
    ensures HBlankEndReg3(o3, t.hChars) & 0xe0 == o3 & 0xe0
  {
  }

  lemma LineStrideFields(o19: bv8, stride: bv32)
    ensures LineStrideBits(LineStrideReg19(o19, stride), Lo8(stride)) == stride & 0x7ff
    ensures LineStrideReg19(o19, stride) & 0x1f == o19 & 0x1f
  {
  }

  lemma FinalReg17Fields(o17: bv8)
    ensures FinalReg17(o17) == o17 | 0x80
  {
  }

  lemma VerticalReg7Fields(o7: bv8, t: CrtcTiming)
    ensures var r7 := VerticalReg7(o7, t);
      && r7 & 0x84 == VSyncStartReg7(t.vSyncStart) && r7 & 0x21 == VTotalReg7(t.vTotal)
      && r7 & 0x42 == VDispEndReg7(t.lastLine) && r7 & 0x08 == VBlankStartReg7(t.lastLine)
  {
  }

  lemma VerticalReg9Fields(o9: bv8, t: CrtcTiming)
    ensures VerticalReg9(o9, t) & 0x20 == VBlankStartReg9(t.lastLine)
    ensures VerticalReg9(o9, t) & 0x9f == o9 & 0x9f
  {
  }

  lemma LineCompareReg7Fields(v7: bv8)
    ensures var r7 := LineCompareReg7(v7);
      && r7 & 0x84 == v7 & 0x84 && r7 & 0x21 == v7 & 0x21 && r7 & 0x42 == v7 & 0x42
      && r7 & 0x08 == v7 & 0x08 && r7 & 0x10 == 0x10
  {
  }

  lemma LineCompareReg9Fields(v9: bv8)
    ensures LineCompareReg9(v9) & 0xbf == v9 & 0xbf
    ensures LineCompareReg9(v9) & 0x40 == 0x40
  {
  }

  lemma FinalReg16Fields(o16: bv8, t: CrtcTiming)
    ensures FinalReg16(o16, t) & 0x7f == Lo8(t.vTotal) & 0x7f
    ensures FinalReg16(o16, t) & 0x80 == o16 & 0x80
  {
  }

  lemma FinalReg2dFields(o2d: bv8, t: CrtcTiming)
    ensures FinalReg2d(o2d, t) & 0xe0 == o2d & 0xe0
    ensures FinalReg2d(o2d, t) & 0x1f == 0x01 <==> t.longLine
    ensures FinalReg2d(o2d, t) & 0x1f == 0x00 <==> !t.longLine
  {
  }

  lemma VTotalDecode(r25: bv8, r7: bv8, r6: bv8, vt: bv32)
    requires (r25 & 0x01) as bv32 << 10 == vt & 0x400
    requires r7 & 0x21 == VTotalReg7(vt) && r6 == Lo8(vt)
    ensures VTotalBits(r25, r7, r6) == vt & 0x7ff
  {
  }

  lemma VSyncStartDecode(r25: bv8, r7: bv8, r10: bv8, vs: bv32)
    requires (r25 & 0x04) as bv32 << 8 == vs & 0x400
    requires r7 & 0x84 == VSyncStartReg7(vs) && r10 == Lo8(vs)
    ensures VSyncStartBits(r25, r7, r10) == vs & 0x7ff
  {
  }

  lemma VDispEndDecode(r25: bv8, r7: bv8, r12: bv8, last: bv32)
    requires (r25 & 0x02) as bv32 << 9 == last & 0x400
    requires r7 & 0x42 == VDispEndReg7(last) && r12 == Lo8(last)
    ensures VDispEndBits(r25, r7, r12) == last & 0x7ff
  {
  }

  lemma VBlankStartDecode(r25: bv8, r9: bv8, r7: bv8, r15: bv8, last: bv32)
    requires (r25 & 0x08) as bv32 << 7 == last & 0x400
    requires r9 & 0x20 == VBlankStartReg9(last) && r7 & 0x08 == VBlankStartReg7(last) && r15 == Lo8(last)
    ensures VBlankStartBits(r25, r9, r7, r15) == last & 0x7ff
  {
  }

  lemma LineCompareDecode(r9: bv8, r7: bv8)
    requires r9 & 0x40 == 0x40 && r7 & 0x10 == 0x10
    ensures LineCompareBits(r9, r7, Lo8(LineCompareOff)) == LineCompareOff
  {
  }

  // Each vertical field is complete once the control group has stored the
  // overflow register.

  lemma FinalVTotal(o7: bv8, t: CrtcTiming)
    ensures VTotalBits(TimingOverflow(t), FinalReg7(o7, t), Lo8(t.vTotal)) == t.vTotal & 0x7ff
  {
    VerticalReg7Fields(o7, t);
    LineCompareReg7Fields(VerticalReg7(o7, t));
    OverflowFields(t.hChars - 5, t.lastLine, t.vSyncStart, t.vTotal);
    VTotalDecode(TimingOverflow(t), FinalReg7(o7, t), Lo8(t.vTotal), t.vTotal);
  }

  lemma FinalVSyncStart(o7: bv8, t: CrtcTiming)
    ensures VSyncStartBits(TimingOverflow(t), FinalReg7(o7, t), Lo8(t.vSyncStart)) == t.vSyncStart & 0x7ff
  {
    VerticalReg7Fields(o7, t);
    LineCompareReg7Fields(VerticalReg7(o7, t));
    OverflowFields(t.hChars - 5, t.lastLine, t.vSyncStart, t.vTotal);
    VSyncStartDecode(TimingOverflow(t), FinalReg7(o7, t), Lo8(t.vSyncStart), t.vSyncStart);
  }

  lemma FinalVDispEnd(o7: bv8, t: CrtcTiming)
    ensures VDispEndBits(TimingOverflow(t), FinalReg7(o7, t), Lo8(t.lastLine)) == t.lastLine & 0x7ff
  {
    VerticalReg7Fields(o7, t);
    LineCompareReg7Fields(VerticalReg7(o7, t));
    OverflowFields(t.hChars - 5, t.lastLine, t.vSyncStart, t.vTotal);
    VDispEndDecode(TimingOverflow(t), FinalReg7(o7, t), Lo8(t.lastLine), t.lastLine);
  }

  lemma FinalVBlankStart(o7: bv8, o9: bv8, t: CrtcTiming)
    ensures VBlankStartBits(TimingOverflow(t), FinalReg9(o9, t), FinalReg7(o7, t), Lo8(t.lastLine))
         == t.lastLine & 0x7ff
  {
    VerticalReg7Fields(o7, t);
    LineCompareReg7Fields(VerticalReg7(o7, t));
    VerticalReg9Fields(o9, t);
    LineCompareReg9Fields(VerticalReg9(o9, t));
    OverflowFields(t.hChars - 5, t.lastLine, t.vSyncStart, t.vTotal);
    VBlankStartDecode(TimingOverflow(t), FinalReg9(o9, t), FinalReg7(o7, t), Lo8(t.lastLine), t.lastLine);
  }

  lemma FinalLineCompare(o7: bv8, o9: bv8, t: CrtcTiming)
    ensures LineCompareBits(FinalReg9(o9, t), FinalReg7(o7, t), Lo8(LineCompareOff)) == LineCompareOff
    ensures FinalReg9(o9, t) & 0x9f == o9 & 0x9f
  {
    LineCompareReg7Fields(VerticalReg7(o7, t));
    LineCompareReg9Fields(VerticalReg9(o9, t));
    VerticalReg9Fields(o9, t);
    LineCompareDecode(FinalReg9(o9, t), FinalReg7(o7, t));
  }

  /** Register 7's five read-modify-writes use the masks 0x84, 0x21, 0x42, 0x08
      and 0x10, which together cover the byte: the value it held before
      `SetGpuRegister` does not show in the result. */
  lemma FinalReg7Determined(a: bv8, b: bv8, t: CrtcTiming)
    ensures FinalReg7(a, t) == FinalReg7(b, t)
  {
    VerticalReg7Fields(a, t);
    VerticalReg7Fields(b, t);
    LineCompareReg7Fields(VerticalReg7(a, t));
    LineCompareReg7Fields(VerticalReg7(b, t));
    SameUnderCover(FinalReg7(a, t), FinalReg7(b, t));
  }

  /** Two bytes that agree under masks covering all eight bits are equal. */
  lemma SameUnderCover(x: bv8, y: bv8)
    requires x & 0x84 == y & 0x84 && x & 0x21 == y & 0x21 && x & 0x42 == y & 0x42
    requires x & 0x08 == y & 0x08 && x & 0x10 == y & 0x10
    ensures x == y
  {
  }

  // The whole bank.

  /** After `SetGpuRegister` only the CRTC timing registers have changed. */
  lemma GpuCrtcFrame(o: seq<bv8>, t: CrtcTiming)
    requires IsBank(o)
    ensures OnlyWrites(o, GpuCrtc(o, t), CrtcTimingIndices)
  {
    var h := HorizontalCrtc(o, t);
    var v := VerticalCrtc(h, t);
    var hs: set<int> := {0, 1, 2, 3, 4, 5, 0x13, 0x17, 0x19};
    var vs: set<int> := {6, 7, 9, 0x10, 0x12, 0x15, 0x16};
    HorizontalFrame(o, t);
    VerticalFrame(h, t);
    ControlFrame(v, t);
    OnlyWritesTrans(o, h, v, hs, vs, hs + vs);
    OnlyWritesTrans(o, v, GpuCrtc(o, t), hs + vs, {7, 9, 0x18, 0x1a, 0x25, 0x28, 0x2d}, CrtcTimingIndices);
  }

  lemma VerticalKeepsHorizontal(h: seq<bv8>, t: CrtcTiming)
    requires IsBank(h)
    ensures var r := VerticalCrtc(h, t);
      && r[0] == h[0] && r[1] == h[1] && r[2] == h[2] && r[3] == h[3] && r[4] == h[4] && r[5] == h[5]
      && r[0x13] == h[0x13] && r[0x17] == h[0x17] && r[0x19] == h[0x19]
  {
    VerticalFrame(h, t);
  }

  lemma ControlKeepsHorizontal(v: seq<bv8>, t: CrtcTiming)
    requires IsBank(v)
    ensures var r := ControlCrtc(v, t);
      && r[0] == v[0] && r[1] == v[1] && r[2] == v[2] && r[3] == v[3] && r[4] == v[4] && r[5] == v[5]
      && r[0x13] == v[0x13] && r[0x17] == v[0x17] && r[0x19] == v[0x19]
  {
    ControlFrame(v, t);
  }

  lemma GpuCrtcHorizontalRegisters(o: seq<bv8>, t: CrtcTiming)
    requires IsBank(o)
    ensures var r := GpuCrtc(o, t);
      && r[0] == Lo8(t.hChars - 5) && r[1] == t.hDispEnd && r[2] == t.hDispEnd
      && r[3] == HBlankEndReg3(o[3], t.hChars) && r[4] == HSyncStartChar(t.hTotal) && r[5] == FinalReg5(o[5], t)
      && r[0x13] == Lo8(t.stride) && r[0x17] == FinalReg17(o[0x17]) && r[0x19] == LineStrideReg19(o[0x19], t.stride)
  {
    var h := HorizontalCrtc(o, t);
    HorizontalRegisters(o, t);
    VerticalKeepsHorizontal(h, t);
    ControlKeepsHorizontal(VerticalCrtc(h, t), t);
  }

  lemma GpuCrtcVerticalRegisters(o: seq<bv8>, t: CrtcTiming)
    requires IsBank(o)
    ensures var r := GpuCrtc(o, t);
      && r[6] == Lo8(t.vTotal) && r[7] == FinalReg7(o[7], t) && r[9] == FinalReg9(o[9], t)
      && r[0x10] == Lo8(t.vSyncStart) && r[0x12] == Lo8(t.lastLine) && r[0x15] == Lo8(t.lastLine)
      && r[0x16] == FinalReg16(o[0x16], t) && r[0x18] == Lo8(LineCompareOff) && r[0x25] == TimingOverflow(t)
  {
    var h := HorizontalCrtc(o, t);
    var v := VerticalCrtc(h, t);
    HorizontalFrame(o, t);
    VerticalRegisters(h, t);
    ControlRegisters(v, t);
    ControlFrame(v, t);
  }

  lemma GpuCrtcControlRegisters(o: seq<bv8>, t: CrtcTiming)
    requires IsBank(o)
    ensures var r := GpuCrtc(o, t);
      && r[0x1a] == t.repaint && r[0x25] == TimingOverflow(t) && r[0x28] == PixelMode(t.depth)
      && r[0x2d] == FinalReg2d(o[0x2d], t)
  {
    var h := HorizontalCrtc(o, t);
    HorizontalFrame(o, t);
    VerticalFrame(h, t);
    ControlRegisters(VerticalCrtc(h, t), t);
  }

  /** CRTC register 7 after `SetGpuRegister` is the same whatever the bank held. */
  lemma GpuCrtcReg7Determined(o1: seq<bv8>, o2: seq<bv8>, t: CrtcTiming)
    requires IsBank(o1) && IsBank(o2)
    ensures GpuCrtc(o1, t)[7] == GpuCrtc(o2, t)[7]
  {
    GpuCrtcVerticalRegisters(o1, t);
    GpuCrtcVerticalRegisters(o2, t);
    FinalReg7Determined(o1[7], o2[7], t);
  }

  /** After `SetGpuRegister` the horizontal sync starts 4 characters before the
      total and ends one character later (in its five bits), CRTC_HTOTAL is the
      character total minus 5, the display and blank start at the last
      displayed character, the 6-bit blank end is 4 after CRTC_HTOTAL, bit 7 of
      register 0x17 is set, the line stride reads back in 11 bits, and the bits
      the firmware does not own are the prior ones. */
  lemma GpuCrtcHorizontalFields(o: seq<bv8>, t: CrtcTiming)
    requires IsBank(o)
    ensures var r := GpuCrtc(o, t);
      && r[4] + 4 == Lo8(t.hTotal >> 3)
      && r[5] & 0x1f == (r[4] + 1) & 0x1f
      && r[0] + 5 == Lo8(t.hChars)
      && r[1] == r[2] == t.hDispEnd
      && ReadHBlankEnd(r) == (r[0] + 4) & 0x3f
      && r[0x17] == o[0x17] | 0x80
      && ReadLineStride(r) == t.stride & 0x7ff
      && r[3] & 0xe0 == o[3] & 0xe0 && r[5] & 0x60 == o[5] & 0x60 && r[0x19] & 0x1f == o[0x19] & 0x1f
  {
    GpuCrtcHorizontalRegisters(o, t);
    HTotalCharFields(t.hChars);
    HSyncFields(o[5], t);
    HBlankEndFields(o[3], o[5], t);
    LineStrideFields(o[0x19], t.stride);
    FinalReg17Fields(o[0x17]);
  }

  /** After `SetGpuRegister` the four 11-bit vertical fields read back as the
      low 11 bits of the plan's values, the line compare is off, the vertical
      blank end repeats the total's low seven bits, and the bits of registers 9
      and 0x16 the firmware does not own are the prior ones. */
  lemma GpuCrtcVerticalFields(o: seq<bv8>, t: CrtcTiming)
    requires IsBank(o)
    ensures var r := GpuCrtc(o, t);
      && ReadVTotal(r) == t.vTotal & 0x7ff
      && ReadVSyncStart(r) == t.vSyncStart & 0x7ff
      && ReadVDispEnd(r) == t.lastLine & 0x7ff
      && ReadVBlankStart(r) == t.lastLine & 0x7ff
      && ReadLineCompare(r) == LineCompareOff
      && r[0x16] & 0x7f == r[6] & 0x7f
      && r[9] & 0x9f == o[9] & 0x9f && r[0x16] & 0x80 == o[0x16] & 0x80
  {
    GpuCrtcVerticalRegisters(o, t);
    FinalVTotal(o[7], t);
    FinalVSyncStart(o[7], t);
    FinalVDispEnd(o[7], t);
    FinalVBlankStart(o[7], o[9], t);
    FinalLineCompare(o[7], o[9], t);
    FinalReg16Fields(o[0x16], t);
  }

  /** After `SetGpuRegister` register 0x1a holds the repaint byte, register 0x28
      the pixel mode, bit 0 of register 0x2d is set exactly for a long line
      (bits 1-4 cleared, 5-7 kept), and bit 4 of the overflow register repeats
      bit 6 of CRTC_HTOTAL while its bits 5-7 are clear. */
  lemma GpuCrtcControlFields(o: seq<bv8>, t: CrtcTiming)
    requires IsBank(o)
    ensures var r := GpuCrtc(o, t);
      && r[0x1a] == t.repaint
      && r[0x28] == PixelMode(t.depth)
      && r[0x2d] & 0xe0 == o[0x2d] & 0xe0
      && (r[0x2d] & 0x1f == 0x01 <==> t.longLine)
      && (r[0x2d] & 0x1f == 0x00 <==> !t.longLine)
      && (r[0x25] & 0x10) << 2 == r[0] & 0x40
      && r[0x25] & 0xe0 == 0
  {
    GpuCrtcControlRegisters(o, t);
    GpuCrtcHorizontalRegisters(o, t);
    FinalReg2dFields(o[0x2d], t);
    OverflowFields(t.hChars - 5, t.lastLine, t.vSyncStart, t.vTotal);
  }

  method SetHorizontalTiming(gpu: Gpu, g: GpuParameter)
    requires gpu.Valid()
    modifies gpu
    ensures gpu.Valid()
    ensures gpu.mmio == HorizontalNv(old(gpu.mmio), g)
    ensures gpu.crtc == HorizontalCrtc(old(gpu.crtc), TimingOf(g))
    ensures gpu.log == HorizontalCrtcWrites(HorizontalNvWrites(old(gpu.log), g), old(gpu.crtc), TimingOf(g))
  {
    SetHorizontalNv(gpu, g);
    SetHSyncCrtc(gpu, g);
    SetHTotalCrtc(gpu, g);
    SetHDispEndCrtc(gpu, g);
    SetLineStrideCrtc(gpu, g);
  }

  method SetVerticalTiming(gpu: Gpu, g: GpuParameter)
    requires gpu.Valid()
    modifies gpu
    ensures gpu.Valid()
    ensures gpu.mmio == VerticalNv(old(gpu.mmio), g)
    ensures gpu.crtc == VerticalCrtc(old(gpu.crtc), TimingOf(g))
    ensures gpu.log == VerticalCrtcWrites(VerticalNvWrites(old(gpu.log), g), old(gpu.crtc), TimingOf(g))
  {
    SetVerticalNv(gpu, g);
    SetVSyncStartCrtc(gpu, g);
    SetVTotalCrtc(gpu, g);
    SetVDispEndCrtc(gpu, g);
    SetVBlankStartCrtc(gpu, g);
  }

  method SetControlCrtc(gpu: Gpu, g: GpuParameter)
    requires gpu.Valid()
    modifies gpu
    ensures gpu.Valid()
    ensures gpu.mmio == old(gpu.mmio)
    ensures gpu.crtc == ControlCrtc(old(gpu.crtc), TimingOf(g))
    ensures gpu.log == ControlCrtcWrites(old(gpu.log), old(gpu.crtc), TimingOf(g))
  {
    SetLineCompareCrtc(gpu);
    SetRepaintOverflowCrtc(gpu, g);
    SetPixelModeCrtc(gpu, g);
  }

  /** `SetGPURegister`: program the NV and CRTC timing registers from the plan. */
  method SetGpuRegister(gpu: Gpu, g: GpuParameter)
    requires gpu.Valid()
    modifies gpu
    ensures gpu.Valid()
    ensures gpu.mmio == GpuMmio(old(gpu.mmio), g)
    ensures gpu.crtc == GpuCrtc(old(gpu.crtc), TimingOf(g))
    ensures gpu.log == GpuWrites(old(gpu.log), old(gpu.crtc), g)
  {
    SetHorizontalTiming(gpu, g);
    SetVerticalTiming(gpu, g);
    SetControlCrtc(gpu, g);
  }
}
