/**
 * The fixed escape sequences of the catalogue: feature toggles, the screen
 * colour request, screen control, cursor modes and text styles. A toggle is
 * the pair of strings that switch one terminal mode on (`enter`) and off
 * (`exit`); nothing here tracks which half was sent last.
 */
module Catalogue {
  import opened Numerals

  const ESC: char := 27 as char
  const BEL: char := 7 as char
  /** Shift In, the last character of the style reset. */
  const SI: char := 15 as char

  /** Control Sequence Introducer, ESC [ (ECMA-48 section 5.4). */
  const CSI: string := [ESC, '[']
  /** Operating System Command introducer, ESC ]. */
  const OSC: string := [ESC, ']']

  datatype Toggle = Toggle(enter: string, exit: string)

  /** DEC private mode `mode` set (`h`) and reset (`l`). */
  function PrivateMode(mode: string): (t: Toggle)
  {
    Toggle(CSI + "?" + mode + "h", CSI + "?" + mode + "l")
  }

  // feature
  const EnableMouseTracking: Toggle := PrivateMode("1000")
  const EnableMouseHoldTracking: Toggle := PrivateMode("1002")
  const EnableMouseMoveTracking: Toggle := PrivateMode("1003")
  const EnableExtendedCoordinates: Toggle := PrivateMode("1006")

  // request
  const RequestScreenBackgroundColor: string := OSC + "11;?" + [BEL]

  // screen
  const ScreenReset: string := [ESC, 'c'] + CSI + "?1000l" + CSI + "?25h"
  const ScreenClear: string := CSI + "H" + CSI + "J"
  const ScreenClearBelow: string := CSI + "J"
  const AlternateScreen: Toggle := PrivateMode("1049")
  /** Entering no-wrap resets auto-wrap mode 7, so the halves are swapped. */
  const NoWrap: Toggle := Toggle(PrivateMode("7").exit, PrivateMode("7").enter)

  // cursor
  const CursorNormal: string := CSI + "34h" + CSI + "?25h"
  const CursorHidden: string := CSI + "?25l"
  const CursorEnhanced: string := CSI + "34l"
  const CursorRequest: string := CSI + "6n"

  // style
  const StyleClear: string := CSI + "m" + [SI]
  const Emboldened: Toggle := Toggle(CSI + "1m", CSI + "22m")
  const Fainted: Toggle := Toggle(CSI + "2m", CSI + "22m")
  const Italicized: Toggle := Toggle(CSI + "3m", CSI + "23m")
  const Underlined: Toggle := Toggle(CSI + "4m", CSI + "24m")
  const Inversed: Toggle := Toggle(CSI + "7m", CSI + "27m")
  const Hidden: Toggle := Toggle(CSI + "8m", CSI + "28m")
  const Strikethrough: Toggle := Toggle(CSI + "9m", CSI + "29m")

  const FeatureToggles: seq<Toggle> :=
    [EnableMouseTracking, EnableMouseHoldTracking, EnableMouseMoveTracking, EnableExtendedCoordinates]
  const ScreenToggles: seq<Toggle> := [AlternateScreen, NoWrap]
  const StyleToggles: seq<Toggle> :=
    [Emboldened, Fainted, Italicized, Underlined, Inversed, Hidden, Strikethrough]

  predicate WellFormed(t: Toggle)
  {
    t.enter != [] && t.exit != [] && t.enter != t.exit
  }

  /** The two halves of a private mode differ in their last character only. */
  lemma PrivateModeWellFormed(mode: string)
    ensures WellFormed(PrivateMode(mode))
    ensures WellFormed(Toggle(PrivateMode(mode).exit, PrivateMode(mode).enter))
  {
    var t := PrivateMode(mode);
    assert t.enter[|t.enter| - 1] != t.exit[|t.exit| - 1];
  }

  /** Every toggle pair of the catalogue has two non-empty, different halves. */
  lemma TogglesWellFormed()
    ensures forall t :: t in FeatureToggles + ScreenToggles + StyleToggles ==> WellFormed(t)
  {
    PrivateModeWellFormed("1000");
    PrivateModeWellFormed("1002");
    PrivateModeWellFormed("1003");
    PrivateModeWellFormed("1006");
    PrivateModeWellFormed("1049");
    PrivateModeWellFormed("7");
  }

  /**
   * The control functions the catalogue's strings are made of, as ECMA-48
   * and the DEC private modes name them.
   */
  datatype Control =
    | Reset                      // RIS, ESC c
    | CursorHome                 // CUP without parameters
    | EraseBelow                 // ED without parameters
    | ModeSet(mode: string)      // SM, ECMA-48 section 8.3.125
    | ModeReset(mode: string)    // RM, ECMA-48 section 8.3.106
    | DecSet(mode: string)       // DEC private mode set, CSI ? mode h
    | DecReset(mode: string)     // DEC private mode reset, CSI ? mode l
    | Sgr(param: string)         // SGR, ECMA-48 section 8.3.117
    | StatusReport(code: string) // DSR, ECMA-48 section 8.3.35
    | OscQuery(code: string)     // OSC code ; ? BEL, the xterm colour query
    | ShiftIn                    // SI

  function Render(c: Control): string
  {
    match c
    case Reset => [ESC, 'c']
    case CursorHome => CSI + "H"
    case EraseBelow => CSI + "J"
    case ModeSet(m) => CSI + m + "h"
    case ModeReset(m) => CSI + m + "l"
    case DecSet(m) => CSI + "?" + m + "h"
    case DecReset(m) => CSI + "?" + m + "l"
    case Sgr(p) => CSI + p + "m"
    case StatusReport(code) => CSI + code + "n"
    case OscQuery(code) => OSC + code + ";?" + [BEL]
    case ShiftIn => [SI]
  }

  function RenderAll(cs: seq<Control>): string
  {
    if cs == [] then "" else Render(cs[0]) + RenderAll(cs[1..])
  }

  /** The screen background request is the OSC 11 colour query. */
  lemma RequestDecoded()
    ensures RequestScreenBackgroundColor == RenderAll([OscQuery("11")])
  {
  }

  /** Each feature toggle and the alternate screen set a DEC private mode and reset it; no-wrap resets mode 7 and sets it again. */
  lemma ModeTogglesDecoded()
    ensures EnableMouseTracking == Toggle(Render(DecSet("1000")), Render(DecReset("1000")))
    ensures EnableMouseHoldTracking == Toggle(Render(DecSet("1002")), Render(DecReset("1002")))
    ensures EnableMouseMoveTracking == Toggle(Render(DecSet("1003")), Render(DecReset("1003")))
    ensures EnableExtendedCoordinates == Toggle(Render(DecSet("1006")), Render(DecReset("1006")))
    ensures AlternateScreen == Toggle(Render(DecSet("1049")), Render(DecReset("1049")))
    ensures NoWrap == Toggle(Render(DecReset("7")), Render(DecSet("7")))
  {
  }

  /** Screen reset is RIS, mouse tracking off and the cursor shown; clearing homes the cursor and erases below it. */
  lemma ScreenDecoded()
    ensures ScreenReset == RenderAll([Reset, DecReset("1000"), DecSet("25")])
    ensures ScreenClear == RenderAll([CursorHome, EraseBelow])
    ensures ScreenClearBelow == RenderAll([EraseBelow])
  {
    assert RenderAll([DecSet("25")]) == Render(DecSet("25"));
    assert RenderAll([EraseBelow]) == Render(EraseBelow);
  }

  /** The cursor modes set or reset mode 34 and DEC mode 25; the request is a DSR 6. */
  lemma CursorDecoded()
    ensures CursorNormal == RenderAll([ModeSet("34"), DecSet("25")])
    ensures CursorHidden == RenderAll([DecReset("25")])
    ensures CursorEnhanced == RenderAll([ModeReset("34")])
    ensures CursorRequest == RenderAll([StatusReport("6")])
  {
    assert RenderAll([DecSet("25")]) == Render(DecSet("25"));
  }

  /** The decimal numerals of the style codes and their cancelling codes. */
  lemma StyleNumerals()
    ensures Decimal(1) == "1" && Decimal(2) == "2" && Decimal(3) == "3" && Decimal(4) == "4"
    ensures Decimal(7) == "7" && Decimal(8) == "8" && Decimal(9) == "9"
    ensures Decimal(22) == "22" && Decimal(23) == "23" && Decimal(24) == "24"
    ensures Decimal(27) == "27" && Decimal(28) == "28" && Decimal(29) == "29"
  {
  }

  /** The SGR parameters of the styles, in the order of `StyleToggles`. */
  const StyleCodes: seq<nat> := [1, 2, 3, 4, 7, 8, 9]

  /**
   * The SGR parameter that cancels style `code` (ECMA-48 section 8.3.117):
   * 22 ends both bold and faint, and 23, 24, 27, 28 and 29 end italic, underline, inverse,
   * concealed and crossed-out (3, 4, 7, 8 and 9). It is right only on `StyleCodes`: SGR 25 ends
   * both 5 and 6, and 26 is reserved.
   */
  function Cancel(code: nat): nat
  {
    if code <= 2 then 22 else 20 + code
  }

  /**
   * The style clear is SGR with no parameter followed by SI, and every style
   * toggle enters its SGR style and leaves it by the SGR code that cancels it.
   */
  lemma StyleDecoded()
    ensures StyleClear == RenderAll([Sgr(""), ShiftIn])
    ensures |StyleToggles| == |StyleCodes|
    ensures forall i :: 0 <= i < |StyleCodes| ==>
      StyleToggles[i] == Toggle(Render(Sgr(Decimal(StyleCodes[i]))), Render(Sgr(Decimal(Cancel(StyleCodes[i])))))
  {
    assert RenderAll([ShiftIn]) == [SI];
    StyleNumerals();
  }
}
