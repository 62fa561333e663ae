/** The mode, blanking and GPU parameter records, the two closed-form timing
    quantities (V_ACTIVEO and H_CLKO), and the integer derivation of the GPU
    timing plan in `SetAutoParameter`.

    Line counts of the analog standard are kept in half lines (`TotalHalfLines`
    is 525 or 625, twice the table's 262.5 or 312.5) and the clock ratio in half
    units (`HalfUnits` is 2 or 3, twice 1.0 or 1.5), so that the firmware's
    double-precision formulas become exact integer ones. */
module ModeTiming {
  import opened Bits
  import opened VideoStandards

  /** `MODE_PARAMETER`: the requested picture and the solver's output
      (`vLinesI` input lines per frame, `hClkI` input clocks per line, `clkRatio`). */
  datatype ModeParameter = ModeParameter(
    std: VideoStd,
    hActive: int,
    vActiveI: int,
    bpp: int,
    vLinesI: int,
    hClkI: int,
    clkRatio: ClkRatio)

  /** `BLANKING_PARAMETER`, produced by the floating-point blanking synthesis. */
  datatype BlankingParameter = BlankingParameter(
    hBlankI: int,
    hBlankO: int,
    vBlankI: int,
    vBlankO: int,
    vScale: int)

  /** `GPU_PARAMETER`: the register-programming plan for the GPU timing block. */
  datatype GpuParameter = GpuParameter(
    xres: int,
    crtcHDispEnd: int,
    nvHStart: int,
    nvHTotal: int,
    yres: int,
    nvVStart: int,
    crtcVStart: int,
    crtcVTotal: int,
    nvVTotal: int,
    pixelDepth: int)

  /** `CalcV_ACTIVEO` as written: `(v_activei * tlo + v_linesi - 1) / v_linesi`
      in doubles, truncated. With tlo = T/2 this is the integer quotient below. */
  function CalcVActiveOAsWritten(mode: ModeParameter): (r: int)
    requires mode.vLinesI > 0 && mode.vActiveI >= 0
    ensures 0 <= r <= CalcVActiveO(mode) <= r + 1
  {
    var a, b := mode.vActiveI * TotalHalfLines(mode.std), 2 * mode.vLinesI;
    QuotientStep(a + b - 2, b);
    (a + b - 2) / b
  }

  /** Adding one to a non-negative dividend raises the quotient by at most one. */
  lemma QuotientStep(n: int, d: int)
    requires n >= 0 && d > 0
    ensures n / d <= (n + 1) / d <= n / d + 1
  {
    var q, r := n / d, n % d;
    assert n == d * q + r;
    if r + 1 < d {
      DivUnique(n + 1, d, q, r + 1);
    } else {
      DivUnique(n + 1, d, q + 1, 0);
    }
  }

  /** With NTSC, 293 active lines and 304 input lines the active picture needs
      293 * 262.5 / 304 = 253.0016 output lines, but the formula as written gives
      253: the integer "add the divisor minus one" rounding is applied to a count
      with a half line in it. */
  lemma VActiveOAsWrittenFallsShort()
    ensures var mode := ModeParameter(Ntsc, 720, 293, 32, 304, 858, Unity);
      && CalcVActiveOAsWritten(mode) == 253
      && 2 * mode.vLinesI * 253 < mode.vActiveI * TotalHalfLines(mode.std)
  {
  }

  /** For the same input the rounded-up count is 254, one line more. */
  lemma VActiveORoundsUpWhereWrittenTruncates()
    ensures var mode := ModeParameter(Ntsc, 720, 293, 32, 304, 858, Unity);
      CalcVActiveO(mode) == 254 && CalcVActiveOAsWritten(mode) == 253
  {
  }

  /** The number of output lines the active input lines occupy, rounded up:
      the least `r` with `r * v_linesi >= v_activei * tlo`. */
  function CalcVActiveO(mode: ModeParameter): (r: nat)
    requires mode.vLinesI > 0 && mode.vActiveI >= 0
    ensures 2 * mode.vLinesI * r >= mode.vActiveI * TotalHalfLines(mode.std)
    ensures r == 0 || 2 * mode.vLinesI * (r - 1) < mode.vActiveI * TotalHalfLines(mode.std)
  {
    var a, b := mode.vActiveI * TotalHalfLines(mode.std), 2 * mode.vLinesI;
    var q := (a + b - 1) / b;
    assert a + b - 1 == b * q + (a + b - 1) % b;
    q
  }

  /** The two agree whenever v_activei * tlo is a whole number of lines, which is
      the case for every even v_activei (all the enumerated modes). */
  lemma {:induction false} VActiveOAgreesOnEvenHeights(mode: ModeParameter)
    requires mode.vLinesI > 0 && mode.vActiveI >= 0
    requires mode.vActiveI % 2 == 0
    ensures CalcVActiveO(mode) == CalcVActiveOAsWritten(mode)
  {
    var t, v := TotalHalfLines(mode.std), mode.vLinesI;
    var h := mode.vActiveI / 2 * t;
    assert mode.vActiveI * t == 2 * h;
    // both numerators are 2x and 2x + 1 over the even divisor 2v
    var x := h + v - 1;
    var q, r := x / v, x % v;
    assert x == v * q + r;
    assert 2 * x == (2 * v) * q + 2 * r;
    DivUnique(2 * x, 2 * v, q, 2 * r);
    DivUnique(2 * x + 1, 2 * v, q, 2 * r + 1);
  }

  /** Euclidean division has a unique quotient. */
  lemma DivUnique(n: int, d: int, q: int, r: int)
    requires d > 0 && 0 <= r < d && n == d * q + r
    ensures n / d == q
  {
    var q', r' := n / d, n % d;
    assert n == d * q' + r';
    if q' > q {
      MulMono(d, q + 1, q');
    } else if q' < q {
      MulMono(d, q' + 1, q);
    }
  }

  lemma MulMono(d: int, a: int, b: int)
    requires d >= 0 && a <= b
    ensures d * a <= d * b
  {
    assert d * b - d * a == d * (b - a);
  }

  /** `CalcH_CLKO`: output clocks per line, `v_linesi * h_clki / (tlo * clk_ratio)`
      rounded half up; with tlo * clk_ratio = T * R / 4 the quotient is exact. */
  function CalcHClkO(mode: ModeParameter): (r: int)
    requires mode.vLinesI >= 0 && mode.hClkI >= 0
    ensures var t, d := TotalHalfLines(mode.std) * HalfUnits(mode.clkRatio), 8 * mode.vLinesI * mode.hClkI;
      -t < 2 * t * r - d <= t
  {
    var t := TotalHalfLines(mode.std) * HalfUnits(mode.clkRatio);
    var q := (8 * mode.vLinesI * mode.hClkI + t) / (2 * t);
    assert 8 * mode.vLinesI * mode.hClkI + t == 2 * t * q + (8 * mode.vLinesI * mode.hClkI + t) % (2 * t);
    q
  }

  /** When the solver's rational relation `4 * v_linesi * h_clki == T * h_clko * R`
      holds, `CalcH_CLKO` gives back exactly the output clock the solver chose. */
  lemma {:induction false} HClkORecoversSolverClock(mode: ModeParameter, hClkO: int)
    requires mode.vLinesI >= 0 && mode.hClkI >= 0
    requires 4 * mode.vLinesI * mode.hClkI == TotalHalfLines(mode.std) * hClkO * HalfUnits(mode.clkRatio)
    ensures CalcHClkO(mode) == hClkO
  {
    var t := TotalHalfLines(mode.std) * HalfUnits(mode.clkRatio);
    assert 8 * mode.vLinesI * mode.hClkI + t == 2 * t * hClkO + t;
    DivUnique(8 * mode.vLinesI * mode.hClkI + t, 2 * t, hClkO, t);
  }

  /** The GPU timing plan `SetAutoParameter` derives from the mode and the blanking
      values: horizontal counts in input clocks, vertical counts in input lines,
      the NV total registers holding the total minus one, and the legacy CRTC
      window shifted 32 lines down (CRTC_VTOTAL = v_linesi - yres + CRTC_VSYNCSTART). */
  function DeriveGpuParameter(mode: ModeParameter, blanks: BlankingParameter): (g: GpuParameter)
    ensures g.xres == mode.hActive && g.yres == mode.vActiveI
    ensures g.nvHTotal + 1 == mode.hClkI && g.nvVTotal + 1 == mode.vLinesI
    ensures g.crtcHDispEnd - g.xres == 8
    ensures (g.nvHTotal + 1) - g.nvHStart == blanks.hBlankI + 7
    ensures (g.nvVTotal + 1) - g.nvVStart == blanks.vBlankI - 1
    ensures g.crtcVStart - g.yres == 32
    ensures g.crtcVTotal - g.crtcVStart == mode.vLinesI - mode.vActiveI
    ensures mode.bpp >= -1 ==> 8 * g.pixelDepth <= mode.bpp + 1 < 8 * g.pixelDepth + 8
  {
    GpuParameter(
      xres := mode.hActive,
      crtcHDispEnd := mode.hActive + 8,
      nvHStart := mode.hClkI - blanks.hBlankI - 7,
      nvHTotal := mode.hClkI - 1,
      yres := mode.vActiveI,
      nvVStart := mode.vLinesI - blanks.vBlankI + 1,
      crtcVStart := mode.vActiveI + 32,
      crtcVTotal := mode.vLinesI + 32,
      nvVTotal := mode.vLinesI - 1,
      pixelDepth := CDiv(mode.bpp + 1, 8))
  }
}
