/**
 The MIPI-DSI vocabulary the two panel drivers use: the commands they send
 over the command channel, the link mode flags and pixel format they set in
 probe, and the C integer conventions of the kernel helpers they call.
 */
module Dsi {

  /** One byte of a DCS command or payload. */
  type Byte = x: int | 0 <= x < 0x100

  /** A C `int`. Every status a DSI helper returns (a negative errno, zero,
      or a small byte count) lies in this range. */
  type CInt = x: int | -0x8000_0000 <= x < 0x8000_0000

  /** Linux errno values the drivers return, negated at the return site. */
  const ENOENT: CInt := 2
  const EINVAL: CInt := 22

  /** Tearing-effect line modes of the DCS set_tear_on command. */
  datatype TearMode = VBlank | VHBlank

  /** A DCS command as the drivers issue it. The four standard commands go
      through the kernel's named helpers and carry the MIPI Display Command
      Set opcodes noted beside them; `Write` is a raw vendor command,
      an opcode byte followed by its payload. */
  datatype Command =
    | EnterSleepMode              // DCS 0x10
    | ExitSleepMode               // DCS 0x11
    | SetDisplayOn                // DCS 0x29
    | SetTearOn(mode: TearMode)   // DCS 0x35
    | Write(opcode: Byte, payload: seq<Byte>)

  /** The vendor commands of the Formike controller. */
  const EnableExtendedCommands: Command := Write(0x87, [0x5A])
  const SetTestPattern: Command := Write(0xB1, [0x08])
  const SetTwoLaneMode: Command := Write(0xB2, [0x50])

  /** Link mode flags of a DSI peripheral (`MIPI_DSI_MODE_*`, `MIPI_DSI_CLOCK_*`). */
  datatype ModeFlag =
    | Video                // MIPI_DSI_MODE_VIDEO
    | VideoBurst           // MIPI_DSI_MODE_VIDEO_BURST
    | VideoSyncPulse       // MIPI_DSI_MODE_VIDEO_SYNC_PULSE
    | VideoHse             // MIPI_DSI_MODE_VIDEO_HSE
    | ClockNonContinuous   // MIPI_DSI_CLOCK_NON_CONTINUOUS
    | LowPower             // MIPI_DSI_MODE_LPM

  datatype PixelFormat = Rgb888 | Rgb666 | Rgb666Packed | Rgb565

  /** What probe writes into the DSI device before attaching it. */
  datatype Link = Link(lanes: nat, format: PixelFormat, flags: set<ModeFlag>)
}
