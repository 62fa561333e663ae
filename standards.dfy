/** The analog video standards, the connector ("AV pack") types, and the two
    detectors that classify the bytes read from the configuration bus. */
module VideoStandards {

  /** The seven standard variants, in the order of the firmware's standard table. */
  datatype VideoStd = Ntsc | Ntsc60 | PalBdghi | PalN | PalNc | PalM | Pal60

  /** The connector types the AV-pack status byte can report. */
  datatype AvType = ScartRgb | Hdtv | Vga | SVideo | Composite

  /** The ratio of input to output pixel clock: 1.0, or 1.5 for 3:2 pixel repetition. */
  datatype ClkRatio = Unity | ThreeHalves

  /** The standards whose table row has 262.5 lines per field (525 per frame). */
  predicate Is525Line(s: VideoStd)
  {
    s == Ntsc || s == Ntsc60 || s == PalM || s == Pal60
  }

  /** Twice the table's `m_TotalLinesOut` (262.5 or 312.5): lines per frame. */
  function TotalHalfLines(s: VideoStd): nat
  {
    if Is525Line(s) then 525 else 625
  }

  /** Twice the clock ratio: 2 for 1.0, 3 for 1.5. */
  function HalfUnits(r: ClkRatio): nat
  {
    match r
    case Unity => 2
    case ThreeHalves => 3
  }

  /** `xbvDetectAvType`: classify the status byte read from register 0x04 of bus
      device 0x10. Codes the switch does not name fall back to composite. */
  function DetectAvType(b: bv8): (t: AvType)
    ensures t == ScartRgb <==> b == 0
    ensures t == Hdtv <==> b == 1
    ensures t == Vga <==> b == 2
    ensures t == SVideo <==> b == 4
    ensures t == Composite <==> b != 0 && b != 1 && b != 2 && b != 4
  {
    match b
    case 0 => ScartRgb
    case 1 => Hdtv
    case 2 => Vga
    case 4 => SVideo
    case 6 => Composite
    case _ => Composite
  }

  /** `xbvDetectVideoStd`: the EEPROM byte at register 0x5A of bus device 0x54
      selects NTSC when it is 0x40 and the PAL B/D/G/H/I family otherwise. */
  function DetectVideoStd(b: bv8): (s: VideoStd)
    ensures s == Ntsc <==> b == 0x40
    ensures s == PalBdghi <==> b != 0x40
  {
    if b == 0x40 then Ntsc else PalBdghi
  }

  /** The lines the encoder's V_ACTIVEO field adds to the computed active line
      count: one for the 525-line standards, two for the others. */
  function VActiveOAdjust(s: VideoStd): (n: nat)
    ensures n == (if TotalHalfLines(s) == 525 then 1 else 2)
  {
    match s
    case Ntsc | Ntsc60 | PalM | Pal60 => 1
    case PalBdghi => 2
    case _ => 2
  }

  /** The standard-select bits ORed into encoder register 0xA2. Bit 0x20 is
      PAL_MD, 0x08 VSYNC_DUR, 0x04 625LINE, 0x02 SETUP; bits 0x41 are never set. */
  function ModePattern(s: VideoStd): (p: bv8)
    ensures p & 0x41 == 0
    ensures p & 0x20 != 0 <==> s != Ntsc && s != Ntsc60
    ensures p & 0x04 != 0 <==> TotalHalfLines(s) == 625
    ensures p & 0x08 != 0 <==> TotalHalfLines(s) == 525 || s == PalN
    ensures p & 0x02 != 0 <==> s == Ntsc || s == PalN || s == PalM
  {
    match s
    case Ntsc => 0x0a
    case Ntsc60 => 0x08
    case PalBdghi | PalNc => 0x24
    case PalN => 0x2e
    case PalM => 0x2a
    case Pal60 => 0x28
  }
}
