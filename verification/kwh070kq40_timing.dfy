/**
 The "panel-timing" device-tree parser of the 4-lane driver and
 `of_get_display_timing`, which the driver's get_modes uses to override its
 default mode.

 A device-tree node is reduced to what the parser can see: the u32
 properties that read successfully, by name, and the node's children by
 name. The parser shares one `val` across all reads; a read that fails
 leaves `val` as it was (the reader stores its result only on success).
 */
module Kwh070kq40Timing {
  import opened Dsi
  import opened DisplayMode

  /** The u32 properties of a node that read successfully. */
  type Props = map<string, U32>

  /** A device-tree node with the property maps of its children. */
  datatype Node = Node(children: map<string, Props>)

  /** The properties the parser reads, in the order it reads them. */
  const ReadOrder: seq<string> := [
    "clock-frequency", "hdisplay", "hsync_start", "hsync_end", "htotal",
    "vdisplay", "vsync_start", "vsync_end", "vtotal"
  ]

  /** The properties a complete timing node has. */
  const TimingProperties: set<string> := {
    "clock-frequency", "hdisplay", "hsync_start", "hsync_end", "htotal",
    "vdisplay", "vsync_start", "vsync_end", "vtotal"
  }

  /** They are exactly the nine properties the parser reads, each read once. */
  lemma TimingPropertiesAreTheReads()
    ensures TimingProperties == set n | n in ReadOrder
    ensures |ReadOrder| == |TimingProperties| == 9
  {
  }

  /** One `of_property_read_u32` into `val`. */
  datatype Read = Read(ok: bool, val: U32)

  function ReadU32(props: Props, name: string, val: U32): Read {
    if name in props then Read(true, props[name]) else Read(false, val)
  }

  datatype Parsed = Parsed(mode: Mode, ret: CInt)

  /** The value `val` holds after reading `names` in order, starting from 0:
      the last of them that read successfully. */
  function LastRead(props: Props, names: seq<string>): U32
    decreases |names|
  {
    if names == [] then 0
    else if names[|names| - 1] in props then props[names[|names| - 1]]
    else LastRead(props, names[..|names| - 1])
  }

  /** `of_parse_display_timing` as written: nine reads into one `val`, each
      followed by a field assignment; the read statuses are OR-ed together,
      which is nonzero exactly when one read failed. The "hdisplay" value
      goes to hsync_start, so hdisplay is never assigned. */
  function ParseDisplayTiming(props: Props, dt: Mode): (r: Parsed)
    ensures r.ret == 0 <==> TimingProperties <= props.Keys
    ensures r.ret != 0 ==> r.ret == -EINVAL
    ensures "clock-frequency" in props ==> r.mode.clock == ToCInt(props["clock-frequency"])
    ensures "hsync_start" in props ==> r.mode.hsyncStart == ToU16(props["hsync_start"])
    ensures "hsync_start" !in props && "hdisplay" in props ==> r.mode.hsyncStart == ToU16(props["hdisplay"])
    ensures "hsync_end" in props ==> r.mode.hsyncEnd == ToU16(props["hsync_end"])
    ensures "htotal" in props ==> r.mode.htotal == ToU16(props["htotal"])
    ensures "vdisplay" in props ==> r.mode.vdisplay == ToU16(props["vdisplay"])
    ensures "vsync_start" in props ==> r.mode.vsyncStart == ToU16(props["vsync_start"])
    ensures "vsync_end" in props ==> r.mode.vsyncEnd == ToU16(props["vsync_end"])
    ensures "vtotal" in props ==> r.mode.vtotal == ToU16(props["vtotal"])
    ensures r.mode.hdisplay == dt.hdisplay && r.mode.widthMm == dt.widthMm && r.mode.heightMm == dt.heightMm
  {
    var r1 := ReadU32(props, "clock-frequency", 0);
    var m1 := dt.(clock := ToCInt(r1.val));
    var r2 := ReadU32(props, "hdisplay", r1.val);
    var m2 := m1.(hsyncStart := ToU16(r2.val));
    var r3 := ReadU32(props, "hsync_start", r2.val);
    var m3 := m2.(hsyncStart := ToU16(r3.val));
    var r4 := ReadU32(props, "hsync_end", r3.val);
    var m4 := m3.(hsyncEnd := ToU16(r4.val));
    var r5 := ReadU32(props, "htotal", r4.val);
    var m5 := m4.(htotal := ToU16(r5.val));
    var r6 := ReadU32(props, "vdisplay", r5.val);
    var m6 := m5.(vdisplay := ToU16(r6.val));
    var r7 := ReadU32(props, "vsync_start", r6.val);
    var m7 := m6.(vsyncStart := ToU16(r7.val));
    var r8 := ReadU32(props, "vsync_end", r7.val);
    var m8 := m7.(vsyncEnd := ToU16(r8.val));
    var r9 := ReadU32(props, "vtotal", r8.val);
    var m9 := m8.(vtotal := ToU16(r9.val));
    var failed := !r1.ok || !r2.ok || !r3.ok || !r4.ok || !r5.ok || !r6.ok || !r7.ok || !r8.ok || !r9.ok;
    Parsed(m9, if failed then -EINVAL else 0)
  }

  /** Every read is attempted, failed or not, and every assignment keeps the
      value `val` holds at that point: a field whose property is missing gets
      the last value read before it, and nothing already assigned is rolled
      back. */
  lemma ParseUsesLastSuccessfulRead(props: Props, dt: Mode)
    ensures var m := ParseDisplayTiming(props, dt).mode;
            && m.clock == ToCInt(LastRead(props, ReadOrder[..1]))
            && m.hsyncStart == ToU16(LastRead(props, ReadOrder[..3]))
            && m.hsyncEnd == ToU16(LastRead(props, ReadOrder[..4]))
            && m.htotal == ToU16(LastRead(props, ReadOrder[..5]))
            && m.vdisplay == ToU16(LastRead(props, ReadOrder[..6]))
            && m.vsyncStart == ToU16(LastRead(props, ReadOrder[..7]))
            && m.vsyncEnd == ToU16(LastRead(props, ReadOrder[..8]))
            && m.vtotal == ToU16(LastRead(props, ReadOrder))
  {
    assert ReadOrder[..1] == ["clock-frequency"];
    assert ReadOrder[..2] == ReadOrder[..1] + ["hdisplay"];
    assert ReadOrder[..3] == ReadOrder[..2] + ["hsync_start"];
    assert ReadOrder[..4] == ReadOrder[..3] + ["hsync_end"];
    assert ReadOrder[..5] == ReadOrder[..4] + ["htotal"];
    assert ReadOrder[..6] == ReadOrder[..5] + ["vdisplay"];
    assert ReadOrder[..7] == ReadOrder[..6] + ["vsync_start"];
    assert ReadOrder[..8] == ReadOrder[..7] + ["vsync_end"];
    assert ReadOrder == ReadOrder[..8] + ["vtotal"];
  }

  /** `of_get_display_timing`: -EINVAL without a node, -ENOENT without the
      named child, otherwise whatever the parser returns. */
  function OfGetDisplayTiming(np: Option<Node>, name: string, dt: Mode): (r: Parsed)
    ensures r.ret == 0 <==> np.Some? && name in np.value.children && TimingProperties <= np.value.children[name].Keys
    ensures np.None? ==> r.ret == -EINVAL && r.mode == dt
    ensures np.Some? && name !in np.value.children ==> r.ret == -ENOENT && r.mode == dt
    ensures np.Some? && name in np.value.children ==> r == ParseDisplayTiming(np.value.children[name], dt)
    ensures r.ret in {0, -EINVAL, -ENOENT}
  {
    if np.None? then Parsed(dt, -EINVAL)
    else if name !in np.value.children then Parsed(dt, -ENOENT)
    else ParseDisplayTiming(np.value.children[name], dt)
  }

  /** The parser as evidently intended: the "hdisplay" read assigns
      hdisplay. */
  function ParseDisplayTimingIntended(props: Props, dt: Mode): (r: Parsed)
    ensures r.ret == 0 <==> TimingProperties <= props.Keys
    ensures r.ret != 0 ==> r.ret == -EINVAL
    ensures r.ret == 0 ==> r.mode == FromProperties(props, dt)
  {
    var r1 := ReadU32(props, "clock-frequency", 0);
    var m1 := dt.(clock := ToCInt(r1.val));
    var r2 := ReadU32(props, "hdisplay", r1.val);
    var m2 := m1.(hdisplay := ToU16(r2.val));
    var r3 := ReadU32(props, "hsync_start", r2.val);
    var m3 := m2.(hsyncStart := ToU16(r3.val));
    var r4 := ReadU32(props, "hsync_end", r3.val);
    var m4 := m3.(hsyncEnd := ToU16(r4.val));
    var r5 := ReadU32(props, "htotal", r4.val);
    var m5 := m4.(htotal := ToU16(r5.val));
    var r6 := ReadU32(props, "vdisplay", r5.val);
    var m6 := m5.(vdisplay := ToU16(r6.val));
    var r7 := ReadU32(props, "vsync_start", r6.val);
    var m7 := m6.(vsyncStart := ToU16(r7.val));
    var r8 := ReadU32(props, "vsync_end", r7.val);
    var m8 := m7.(vsyncEnd := ToU16(r8.val));
    var r9 := ReadU32(props, "vtotal", r8.val);
    var m9 := m8.(vtotal := ToU16(r9.val));
    var failed := !r1.ok || !r2.ok || !r3.ok || !r4.ok || !r5.ok || !r6.ok || !r7.ok || !r8.ok || !r9.ok;
    Parsed(m9, if failed then -EINVAL else 0)
  }

  /** A complete timing node fully replaces the nine timing fields; the
      physical size is not part of the node and is kept. */
  function FromProperties(props: Props, dt: Mode): Mode
    requires TimingProperties <= props.Keys
  {
    dt.(clock := ToCInt(props["clock-frequency"]),
        hdisplay := ToU16(props["hdisplay"]),
        hsyncStart := ToU16(props["hsync_start"]),
        hsyncEnd := ToU16(props["hsync_end"]),
        htotal := ToU16(props["htotal"]),
        vdisplay := ToU16(props["vdisplay"]),
        vsyncStart := ToU16(props["vsync_start"]),
        vsyncEnd := ToU16(props["vsync_end"]),
        vtotal := ToU16(props["vtotal"]))
  }

  /** On every input the parser as written agrees with the intended one
      except that hdisplay keeps its old value. */
  lemma AsWrittenDropsOnlyHdisplay(props: Props, dt: Mode)
    ensures var w := ParseDisplayTiming(props, dt);
            var i := ParseDisplayTimingIntended(props, dt);
            w.ret == i.ret && w.mode == i.mode.(hdisplay := dt.hdisplay)
  {
  }
}
