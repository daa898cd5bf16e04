/**
 The parts of a DRM display mode and of a connector's display info that the
 panel drivers fill in, with the C integer widths of the fields they assign.
 */
module DisplayMode {
  import opened Dsi

  datatype Option<T> = None | Some(value: T)

  type U16 = x: int | 0 <= x < 0x1_0000
  type U32 = x: int | 0 <= x < 0x1_0000_0000

  /** Assigning a u32 to a u16 field keeps its low 16 bits. */
  function ToU16(v: U32): (r: U16)
    ensures v < 0x1_0000 ==> r == v
    ensures (r - v) % 0x1_0000 == 0
  {
    v % 0x1_0000
  }

  /** Assigning a u32 to an int field: values from 2^31 up wrap to negative,
      as the kernel's compilers do. */
  function ToCInt(v: U32): (r: CInt)
    ensures v < 0x8000_0000 ==> r == v
    ensures (r - v) % 0x1_0000_0000 == 0
  {
    if v < 0x8000_0000 then v else v - 0x1_0000_0000
  }

  /** The timing and size fields of a `drm_display_mode`: the clock is an
      int in kHz, the timings and physical sizes are u16. */
  datatype Mode = Mode(
    clock: CInt,
    hdisplay: U16, hsyncStart: U16, hsyncEnd: U16, htotal: U16,
    vdisplay: U16, vsyncStart: U16, vsyncEnd: U16, vtotal: U16,
    widthMm: U16, heightMm: U16)

  /** Active area, sync start, sync end and total in increasing order on
      both axes. */
  predicate Ordered(m: Mode) {
    && m.hdisplay < m.hsyncStart < m.hsyncEnd < m.htotal
    && m.vdisplay < m.vsyncStart < m.vsyncEnd < m.vtotal
  }

  datatype ModeType = Driver | Preferred

  /** A mode added to the connector's probed list. */
  datatype ProbedMode = ProbedMode(mode: Mode, types: set<ModeType>)

  datatype BusFormat = Rgb888_1x24   // MEDIA_BUS_FMT_RGB888_1X24

  /** The connector display info get_modes fills in. */
  datatype DisplayInfo = DisplayInfo(bpc: nat, widthMm: U16, heightMm: U16, busFormats: seq<BusFormat>)

  /** What get_modes does to the connector and what it returns: the number
      of modes added, or a negative errno, in which case no mode is added and
      the display info is left alone (`None`). */
  datatype ModeList = ModeList(ret: CInt, probed: seq<ProbedMode>, info: Option<DisplayInfo>)

  /** What a successful get_modes of these panels reports: one preferred
      driver mode, 8 bits per channel, RGB888 on a 24-bit bus, and the
      mode's physical size. */
  function Reported(m: Mode): ModeList {
    ModeList(1, [ProbedMode(m, {Driver, Preferred})], Some(DisplayInfo(8, m.widthMm, m.heightMm, [Rgb888_1x24])))
  }
}
