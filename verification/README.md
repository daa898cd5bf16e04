# Formike KWH070KQ40 panel drivers in Dafny

A model of the power sequencing of the two Linux DRM panel drivers for the
Formike KWH070KQ40 7" MIPI-DSI panel: the 4-lane driver
(`panel-formike-kwh070kq40.c`) and the 2-lane driver
(`panel-formike-kwh070kq40v2l.c`).

Each driver gives the DRM core four callbacks (prepare, enable, disable,
unprepare) and a mode provider (get_modes). Every callback is a short fixed
script of GPIO writes, `msleep` calls, DSI mode-flag updates and DCS
commands, where the status of most commands decides whether the script
goes on (set_display_on's status is ignored). The model has these parts:

- `Dsi` (dsi.dfy): the DCS commands the drivers send. The four standard MIPI
  DCS commands are enter_sleep_mode (0x10), exit_sleep_mode (0x11),
  set_display_on (0x29) and set_tear_on (0x35). The vendor writes are raw
  opcode/payload pairs: 0x87 [0x5A] enables the extended command set, 0xB1
  [0x08] turns on the test pattern, 0xB2 [0x50] selects two lanes. The file
  also holds the DSI link settings (lanes, pixel format, mode flags) and the
  C `int` range.
- `Gpio` (gpio.dfy): the four lines power, reset, updn and shlr, and their
  levels.
- `Sequencer` (sequencer.dfy): one interpreter for every callback. A
  callback is `Run(script, oracle, 0, state)`. The oracle gives the status of
  the k-th DCS command that callback issues. The result is the trace of
  effects (GPIO write, sleep with its milliseconds, flag update, DCS
  command), the return value, and the final GPIO levels and mode flags. Each
  command carries the check the C code puts after it: `ret < 0`, `if (ret)`,
  none, or `return <command>`.
- `Kwh070kq40` and `Kwh070kq40v2l`: the callback scripts of each driver, the
  link each probe sets up, lemmas that unfold every callback into its exact
  trace and return value for every oracle, and each driver's default mode
  and get_modes.
- `DisplayMode` and `Kwh070kq40Timing`: the mode and connector fields the
  drivers fill in, the 4-lane driver's "panel-timing" parser and
  `of_get_display_timing`.
- `Variants`: the two drivers compared, and whole power cycles from probe
  through prepare, enable, disable and unprepare.

Probe requests every line with `GPIOD_OUT_LOW`, so a model run starts from
the `Probed` state: all lines low, the probe's link flags set.

Behaviour of the code worth knowing, all of it kept in the model:

- get_modes of the 4-lane driver does not fall back to the default mode
  when the "panel-timing" node is missing or incomplete. It returns
  -EINVAL or -ENOENT and adds no mode.
- A complete timing node does not fully replace the default mode: hdisplay
  is never assigned (see Findings). The parser reads nine properties, the
  clock included.
- The 2-lane enable sends a second exit_sleep_mode after set_display_on and
  returns that command's status.
- The enable checks fire on any nonzero status (`if (ret)`), and the
  prepare checks only on a negative one (`if (ret < 0)`).

## Model

Paths are relative to the driver sources; `kwh070kq40.c` and `kwh070kq40v2l.c` below abbreviate the two files.

| member | source | states |
|---|---|---|
| Gpio.SetLevel | drivers/gpu/drm/panel/panel-formike-kwh070kq40.c:59-65 | gpiod_set_value drives exactly the named line to the requested level; the other three lines keep theirs |
| DisplayMode.ToU16 | drivers/gpu/drm/panel/panel-formike-kwh070kq40.c:168-182 | storing the u32 `val` into a u16 mode field keeps values below 2^16 and otherwise agrees with `val` modulo 2^16 |
| DisplayMode.ToCInt | drivers/gpu/drm/panel/panel-formike-kwh070kq40.c:166 | storing the u32 `val` into the int clock keeps values below 2^31 and otherwise agrees with `val` modulo 2^32 |
| Sequencer.RunFollowsScript | drivers/gpu/drm/panel/panel-formike-kwh070kq40.c:47-155 | every callback performs a prefix of its script, step by step in source order, and the levels and flags it leaves are exactly what that trace produces |
| Sequencer.RunStopsOnlyOnCheck | drivers/gpu/drm/panel/panel-formike-kwh070kq40.c:119-125 | a callback stops early, or returns a nonzero status, only because the check after the last command it sent fired on that command's status, and the value returned is that status (the oracle's answer for the last command sent) |
| Sequencer.RunActs | drivers/gpu/drm/panel/panel-formike-kwh070kq40.c:57-67 | GPIO writes and sleeps before the first command are all performed, consult no command status, and hand their levels to the rest of the callback |
| Sequencer.CommandsKeepState | drivers/gpu/drm/panel/panel-formike-kwh070kq40.c:69-86 | DCS commands change neither a GPIO level nor a mode flag |
| Kwh070kq40.PowerUpDrivesPowerAndReset | drivers/gpu/drm/panel/panel-formike-kwh070kq40.c:57-67 | the 4-lane power-up sequence (sleep 20, power high, sleep 20, reset high, sleep 10, reset low, sleep 10, reset high, sleep 120) leaves power and reset high and never drives updn or shlr |
| Kwh070kq40.PrepareSequencesFirst | drivers/gpu/drm/panel/panel-formike-kwh070kq40.c:57-86 | for every configuration and every command status, 4-lane prepare performs the whole power-up sequence before any DCS command, only DCS commands follow it, updn and shlr are never driven, and power and reset end high |
| Kwh070kq40.PrepareWithoutTestPattern | drivers/gpu/drm/panel/panel-formike-kwh070kq40.c:69-106 | without the test pattern, prepare sends no command, returns 0 and leaves power and reset high |
| Kwh070kq40.PrepareFirstWriteFails | drivers/gpu/drm/panel/panel-formike-kwh070kq40.c:71-76 | with the test pattern, a negative status of the 0x87 write is returned and the 0xB1 write is never sent |
| Kwh070kq40.PrepareBothWrites | drivers/gpu/drm/panel/panel-formike-kwh070kq40.c:78-106 | with the test pattern and a non-negative first status, 0x87 then 0xB1 are sent; a negative second status is returned, otherwise 0 |
| Kwh070kq40.EnableUnfolds | drivers/gpu/drm/panel/panel-formike-kwh070kq40.c:117-131 | 4-lane enable, for every command status: LPM is set first, then the three outcomes below, and LPM is the only change to the state |
| Kwh070kq40.EnableTearOnFails | drivers/gpu/drm/panel/panel-formike-kwh070kq40.c:117-121 | a nonzero set_tear_on status is returned and no exit_sleep_mode is sent |
| Kwh070kq40.EnableExitSleepFails | drivers/gpu/drm/panel/panel-formike-kwh070kq40.c:123-125 | a nonzero exit_sleep_mode status is returned, with no sleep and no set_display_on |
| Kwh070kq40.EnableSucceeds | drivers/gpu/drm/panel/panel-formike-kwh070kq40.c:127-131 | when both checks pass, enable sleeps 120 ms, sends set_display_on and returns 0 whatever its status |
| Kwh070kq40.DisableSendsEnterSleep | drivers/gpu/drm/panel/panel-formike-kwh070kq40.c:141 | disable sends exactly one enter_sleep_mode, returns its status unchanged and changes no line or flag |
| Kwh070kq40.UnpreparePowersDown | drivers/gpu/drm/panel/panel-formike-kwh070kq40.c:151-154 | unprepare drives reset low then power low, sends no command, returns 0 and leaves both lines low |
| Kwh070kq40Timing.ParseDisplayTiming | drivers/gpu/drm/panel/panel-formike-kwh070kq40.c:157-191 | the parser returns 0 exactly when all nine properties are present, -EINVAL otherwise; each present property lands in its field (the "hdisplay" value only in hsync_start when "hsync_start" is absent); hdisplay and the physical size are never assigned |
| Kwh070kq40Timing.ParseUsesLastSuccessfulRead | drivers/gpu/drm/panel/panel-formike-kwh070kq40.c:160-182 | all nine reads are attempted even after a failure, and each field gets the last value successfully read up to that point, with nothing rolled back |
| Kwh070kq40Timing.TimingPropertiesAreTheReads | drivers/gpu/drm/panel/panel-formike-kwh070kq40.c:165-181 | the properties a node must have for the parser to return 0 are exactly the nine names it reads, each read once |
| Kwh070kq40Timing.OfGetDisplayTiming | drivers/gpu/drm/panel/panel-formike-kwh070kq40.c:193-211 | -EINVAL and an untouched mode without a node, -ENOENT and an untouched mode without the named child, otherwise exactly the parser's status and mode for that child; 0 exactly for a complete child |
| Kwh070kq40.GetModes | drivers/gpu/drm/panel/panel-formike-kwh070kq40.c:228-275 | a failed duplicate gives -EINVAL; a missing node gives -EINVAL, a missing child -ENOENT and an incomplete child the parser's -EINVAL, each with no mode added and no fallback to the default; success returns 1 with one preferred driver mode of hdisplay 1024, 8 bpc, 154x86 mm, RGB888 1x24 |
| Kwh070kq40.GetModesOverridesAllButHdisplay | drivers/gpu/drm/panel/panel-formike-kwh070kq40.c:241-264 | with a complete "panel-timing" node, the reported mode is the default with the node's nine values applied, except hdisplay, which stays 1024 |
| Kwh070kq40Timing.ParseDisplayTimingIntended | drivers/gpu/drm/panel/panel-formike-kwh070kq40.c:165-182 | the corrected parser: 0 exactly for a complete node, and then every timing field, hdisplay included, comes from its own property |
| Kwh070kq40Timing.AsWrittenDropsOnlyHdisplay | drivers/gpu/drm/panel/panel-formike-kwh070kq40.c:167-170 | on every node the parser as written agrees with the corrected one in status and in every field but hdisplay |
| Kwh070kq40.HdisplayIsDropped | drivers/gpu/drm/panel/panel-formike-kwh070kq40.c:167-168 | a complete 800x480 node parses with status 0 as written yet leaves hdisplay 1024; the corrected parser gives 800 |
| Kwh070kq40v2l.PowerUpDrivesPowerAndReset | drivers/gpu/drm/panel/panel-formike-kwh070kq40v2l.c:46-54 | the 2-lane power-up sequence (power low, sleep 120, reset high, sleep 10, reset low, sleep 10, reset high, sleep 120, power high) leaves power and reset high and never drives updn or shlr |
| Kwh070kq40v2l.PrepareUnfolds | drivers/gpu/drm/panel/panel-formike-kwh070kq40v2l.c:46-74 | 2-lane prepare, for every command status: the power-up sequence, then 0x87 and 0xB2, stopping at the first negative status and returning it, else 0 |
| Kwh070kq40v2l.PrepareSequencesFirst | drivers/gpu/drm/panel/panel-formike-kwh070kq40v2l.c:46-66 | the whole power-up sequence comes before any DCS command, updn and shlr are never driven, and power and reset end high |
| Kwh070kq40v2l.PrepareFirstWriteFails | drivers/gpu/drm/panel/panel-formike-kwh070kq40v2l.c:56-60 | a negative 0x87 status is returned and the lane write is never sent |
| Kwh070kq40v2l.PrepareBothWrites | drivers/gpu/drm/panel/panel-formike-kwh070kq40v2l.c:56-74 | otherwise 0x87 [0x5A] then 0xB2 [0x50] are always sent, with no configuration involved; a negative lane status is returned, otherwise 0 |
| Kwh070kq40v2l.EnableUnfolds | drivers/gpu/drm/panel/panel-formike-kwh070kq40v2l.c:83-96 | 2-lane enable, for every command status: LPM first, then the three outcomes below, and LPM is the only change to the state |
| Kwh070kq40v2l.EnableTearOnFails | drivers/gpu/drm/panel/panel-formike-kwh070kq40v2l.c:85-87 | a nonzero set_tear_on status is returned and nothing else is sent |
| Kwh070kq40v2l.EnableExitSleepFails | drivers/gpu/drm/panel/panel-formike-kwh070kq40v2l.c:89-91 | a nonzero exit_sleep_mode status is returned, with no set_display_on |
| Kwh070kq40v2l.EnableSucceeds | drivers/gpu/drm/panel/panel-formike-kwh070kq40v2l.c:93-96 | when both checks pass: sleep 120 ms, set_display_on with its status ignored, then a second exit_sleep_mode whose status enable returns |
| Kwh070kq40v2l.DisableSendsEnterSleep | drivers/gpu/drm/panel/panel-formike-kwh070kq40v2l.c:105 | disable sends exactly one enter_sleep_mode and returns its status |
| Kwh070kq40v2l.UnpreparePowersDown | drivers/gpu/drm/panel/panel-formike-kwh070kq40v2l.c:114-117 | unprepare drives reset low then power low, sends no command and returns 0 |
| Kwh070kq40v2l.GetModes | drivers/gpu/drm/panel/panel-formike-kwh070kq40v2l.c:136-164 | returns 1 exactly when the duplicate succeeds, reporting the default mode unchanged as the one preferred driver mode with 8 bpc and 154x86 mm; otherwise -EINVAL with nothing added |
| Variants.DefaultModesDifferOnlyInClock | drivers/gpu/drm/panel/panel-formike-kwh070kq40v2l.c:120-134 | both default modes are ordered on both axes with htotal 1344 and vtotal 635, and differ only in the clock, 20833 against 55555 kHz |
| Variants.ProbeLinksDiffer | drivers/gpu/drm/panel/panel-formike-kwh070kq40v2l.c:222-226 | the 2-lane probe sets 2 lanes, RGB888, HSE, video, burst and a non-continuous clock; the 4-lane probe (kwh070kq40.c:364-369) sets 4 lanes and sync pulses instead of the non-continuous clock; neither sets LPM |
| Variants.PowerUpOrdersDiffer | drivers/gpu/drm/panel/panel-formike-kwh070kq40v2l.c:46-54 | the 4-lane driver raises power before the reset pulse, the 2-lane driver drops power first and raises it after; the reset pulse and its holds are the same |
| Variants.TeardownAgrees | drivers/gpu/drm/panel/panel-formike-kwh070kq40v2l.c:99-118 | disable and unprepare behave identically in both drivers, for every state and command status |
| Variants.EnablesDifferOnlyAtTheEnd | drivers/gpu/drm/panel/panel-formike-kwh070kq40v2l.c:95-96 | when a check fails the two enables are identical; when both pass the 2-lane one adds one exit_sleep_mode and returns its status where the 4-lane one returns 0 |
| Variants.PowerCycleEndsLow4 | drivers/gpu/drm/panel/panel-formike-kwh070kq40.c:314-339 | from probe, a 4-lane prepare, enable, disable, unprepare cycle ends with all four lines low, whatever the configuration and command statuses; unprepare returns 0 |
| Variants.PowerCycleSucceedsExactly4 | drivers/gpu/drm/panel/panel-formike-kwh070kq40.c:47-155 | over a 4-lane power cycle with any statuses: prepare returns 0 exactly when there is no test pattern or both writes return a non-negative count, enable exactly when tear-on and exit_sleep_mode return 0 (and then set_display_on has been sent, its status ignored), disable exactly when enter_sleep_mode returns 0; unprepare always returns 0 |
| Variants.PowerCycleEndsLow2 | drivers/gpu/drm/panel/panel-formike-kwh070kq40v2l.c:192-214 | from probe, a 2-lane power cycle ends with all four lines low whatever the command statuses |
| Variants.PowerCycleSucceedsExactly2 | drivers/gpu/drm/panel/panel-formike-kwh070kq40v2l.c:37-118 | over a 2-lane power cycle with any statuses: prepare returns 0 exactly when both vendor writes return a non-negative count, enable exactly when tear-on and both exit_sleep_mode commands return 0 (and then set_display_on has been sent, its status ignored), disable exactly when enter_sleep_mode returns 0; unprepare always returns 0 |

## Left out

- GPIO acquisition and its errors, `devm_kzalloc`, `drm_panel_init`, `drm_panel_add`, `drm_panel_remove`, `mipi_dsi_attach`, `mipi_dsi_detach`, `drm_panel_of_backlight`, the remove callbacks and the module and OF match tables: framework plumbing. Probe appears only as the state it leaves (`Probed`) and the link it sets (`ProbeLink`).
- The test-pattern parsing in the 4-lane probe ORs into an uninitialised `ret`, which is undefined behaviour; `test_pattern` is a model input (`Kwh070kq40.Config`).
- `msleep` is a trace entry carrying its milliseconds, not elapsed time.
- The DCS helpers are not modelled inside: each command's status comes from the oracle, any `int`. The model does not narrow the standard commands' statuses to 0 or a negative errno, which is what those helpers return; every lemma holds for any status. The 4-lane prepare keeps the status of `mipi_dsi_dcs_write` in an `ssize_t` and returns it as `int`; the oracle gives `int` values, the range every status of that helper lies in.
- `of_property_read_u32` is a lookup in the map of the properties that read successfully. Its distinct errors (-EINVAL, -ENODATA, -EOVERFLOW) are all "absent", which the parser collapses into one -EINVAL anyway. The model assumes that a failed read leaves `val` as it was; the reader's code is not part of this model.
- The widths of the `drm_display_mode` fields (u16 timings and sizes, `int` clock) come from the DRM headers, which are not part of this model; the narrowing is written out in `ToU16` and `ToCInt`. The mode's name, `flags` field and the rest of the struct are left out.
- `drm_mode_duplicate` is a boolean input (`duplicated`); `drm_mode_set_name` and `drm_mode_probed_add` appear only through their results on the connector (`ModeList`).
- The duplicated mode leaked on the 4-lane get_modes error path, and all `printk`/`dev_err`/`pr_err` logging.
- Call order of the callbacks and `prepare_upstream_first`: the drivers enforce no lifecycle; the DRM core, not part of this model, does. `Variants` composes the callbacks in the order that core uses.
- Kwh070kq40.GetModes: states hdisplay 1024 and the info fields on success; the full mode is stated by `Kwh070kq40.GetModesOverridesAllButHdisplay`.
- Kwh070kq40.GetModes: `drm_display_info_set_bus_formats` (kwh070kq40.c:265-266) is assumed to succeed. Its status is ignored and get_modes still returns 1; when its allocation fails (-ENOMEM) the connector's bus formats stay as they were, which the promised `[Rgb888_1x24]` does not cover.
- Kwh070kq40v2l.GetModes: `drm_display_info_set_bus_formats` (kwh070kq40v2l.c:160-161) is assumed to succeed, as for the 4-lane driver. Its status is ignored, and when its allocation fails the connector's bus formats stay as they were while get_modes still returns 1.

## Findings

| source | as written | input that shows it | evidently intended | confidence | as-written member | corrected member |
|---|---|---|---|---|---|---|
| drivers/gpu/drm/panel/panel-formike-kwh070kq40.c:167-168 | the "hdisplay" value is stored into hsync_start and overwritten by the next read; hdisplay is never assigned, so get_modes always reports 1024 active pixels | a complete "panel-timing" node with hdisplay 800 (800x480 timings): status 0, but the mode keeps hdisplay 1024 (`Kwh070kq40.HdisplayIsDropped`) | `dt->hdisplay = val;` after the "hdisplay" read | not executed | Kwh070kq40Timing.ParseDisplayTiming | Kwh070kq40Timing.ParseDisplayTimingIntended |

The driver's get_modes (`Kwh070kq40.GetModes`) is modelled as written,
on top of the parser as written. `Kwh070kq40Timing.AsWrittenDropsOnlyHdisplay`
proves that the defect is the only difference between the two parsers.
