/**
 The four GPIO lines a Formike panel owns and their logical output levels.
 */
module Gpio {

  datatype Line = Power | Reset | Updn | Shlr

  /** The logical level of every line; `true` is high. */
  datatype Levels = Levels(power: bool, reset: bool, updn: bool, shlr: bool)

  /** Probe requests every line with GPIOD_OUT_LOW. */
  const AllLow := Levels(false, false, false, false)

  function Level(lv: Levels, line: Line): bool {
    match line
    case Power => lv.power
    case Reset => lv.reset
    case Updn => lv.updn
    case Shlr => lv.shlr
  }

  /** `gpiod_set_value` on one line: that line takes the new level and no
      other line changes. */
  function SetLevel(lv: Levels, line: Line, high: bool): (r: Levels)
    ensures Level(r, line) == high
    ensures forall other: Line :: other != line ==> Level(r, other) == Level(lv, other)
  {
    match line
    case Power => lv.(power := high)
    case Reset => lv.(reset := high)
    case Updn => lv.(updn := high)
    case Shlr => lv.(shlr := high)
  }
}
