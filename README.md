# term-styles core in Dafny

The core of term-styles is one file, `sources/core/index.ts`. It is a catalogue of terminal
control strings:

- feature, screen and text-style toggles, each a pair of `in` and `out` strings, and single
  strings for the cursor shapes and for requests;
- builders for relative cursor moves (`upBy`, `downBy`, `leftBy`, `rightBy`) and for absolute
  and relative positioning (`moveTo`, `moveBy`);
- three colour functions, `style.color.front`, `.back` and `.screen`, each filled at load time
  with one precomputed entry per colour name. `front` and `back` carry a reset string `out`;
  `back`'s is assigned twice, and the second assignment (line 66) leaves it as the OSC 111 screen
  colour reset. `screen` has no `out`.

The project models this file as follows.

- `Numerals` renders integers as JavaScript's template literals (`${n}`) and `toString(16)` do,
  and reads digit strings back.
- `Catalogue` holds the literal strings and the toggle pairs, and decodes each of them into the
  ECMA-48 and DEC control functions it is made of.
- `CursorControl` holds the builders, with the four relative builders delegating to each other
  on negative counts exactly as the source does.
- `Terminal` is an independent reference: a small interpreter for the ECMA-48 control functions
  CUU, CUD, CUF, CUB and CUP (sections 8.3.22, 8.3.19, 8.3.20, 8.3.18 and 8.3.21 of ECMA-48).
  The builders are proved against it.
- `Colors` holds the screen colour format and two readers of it:
  - plain hexadecimal;
  - the `rgb:` syntax of X11's XParseColor, which xterm uses for OSC 11.

  It also holds the `ColorStyle` class, whose loading loop fills the per-name caches.

The colour resolver and the colour sequences come from `./tools/getColor`, which is not part of
this model. They are parameters: the `ColorTools` datatype carries them as function values. A
thrown `UnknownColorError` is their `Failure` result.

The colour name table `./data/colorNames.compiled.json` is not part of this model. The loading
loop only uses its keys, which it takes as a sequence in their order (`Object.keys`).

The screen colour's channels are written with `toString(16)`, which gives a single digit below
16. `ColorScreen` and the screen cache follow the code as written, through `UnpaddedScreenColor`.
The X11 `rgb:` colour syntax scales a one-digit field, so a terminal misreads channels 1 to 15;
the lemmas about `UnpaddedScreenColor` show this (see Findings). `ScreenColor` is the zero-padded
form, which both readers read back exactly.

## Model

| member | source | states |
|---|---|---|
| Numerals.Decimal | sources/core/index.ts:43 | `${n}` of an integer is non-empty and starts with `-` exactly when n is negative |
| Numerals.ValueOfDigits | sources/core/index.ts:43 | the decimal or hex digits written for n read back as n |
| Numerals.DigitsNoLeadingZero | sources/core/index.ts:43 | the digits of n start with `0` only when n is 0 |
| Numerals.Hex | sources/core/index.ts:64 | `toString(16)` of a non-negative integer is lowercase hex digits that read back as the integer, starting with `0` only for 0 |
| Numerals.HexOfByte | sources/core/index.ts:64 | `toString(16)` of a channel is one lowercase hex digit below 16 and two otherwise, has no leading zero unless the channel is 0, and reads back as the channel |
| Catalogue.PrivateModeWellFormed | sources/core/index.ts:7-10 | a DEC private mode's set and reset strings are non-empty and differ, in either order (`noWrap` swaps them) |
| Catalogue.TogglesWellFormed | sources/core/index.ts:77-83 | every feature, screen and style toggle has non-empty `in` and `out` strings that differ |
| Catalogue.ModeTogglesDecoded | sources/core/index.ts:6-24 | each feature toggle and the alternate screen set a DEC private mode on `in` and reset the same mode on `out`; `noWrap` resets auto-wrap mode 7 on `in` and sets it on `out` |
| Catalogue.RequestDecoded | sources/core/index.ts:14 | the screen background request is the OSC 11 colour query |
| Catalogue.ScreenDecoded | sources/core/index.ts:18-20 | screen reset is RIS, mouse tracking off and the cursor shown; clear is cursor home then erase below; clear-below is erase below |
| Catalogue.CursorDecoded | sources/core/index.ts:39-51 | the normal, hidden and enhanced cursor strings set or reset mode 34 and DEC mode 25; the cursor request is DSR 6 |
| Catalogue.StyleDecoded | sources/core/index.ts:75-83 | the style clear is SGR with no parameter then SI; every style's `in` is its SGR code and its `out` the SGR code that cancels it (22 for bold and faint, 20 + n otherwise) |
| CursorControl.UpBy | sources/core/index.ts:43 | empty exactly for 0; otherwise a CSI sequence ending in `A` for a positive count and in `B` for a negative one |
| CursorControl.DownBy | sources/core/index.ts:44 | empty exactly for 0; otherwise a CSI sequence ending in `B` for a positive count and in `A` for a negative one |
| CursorControl.LeftBy | sources/core/index.ts:45 | empty exactly for 0; otherwise a CSI sequence ending in `D` for a positive count and in `C` for a negative one |
| CursorControl.RightBy | sources/core/index.ts:46 | empty exactly for 0; otherwise a CSI sequence ending in `C` for a positive count and in `D` for a negative one |
| CursorControl.ZeroMovesNothing | sources/core/index.ts:43-46 | a count of 0 gives the empty string in all four directions |
| CursorControl.DefaultCount | sources/core/index.ts:43-46 | without an argument each builder moves one cell |
| CursorControl.SignSymmetry | sources/core/index.ts:43-46 | a negative count in one direction is the positive count in the opposite direction, for all four pairs |
| CursorControl.MoveTo | sources/core/index.ts:28-29 | a CUP string, starting with CSI and ending with `H`; what a terminal does with it is stated by `Terminal.MoveToPlaces` and `Terminal.MoveToAboveScreen` |
| CursorControl.Position | sources/core/index.ts:29 | the CUP string starts with CSI and ends with `H` |
| CursorControl.MoveBy | sources/core/index.ts:34-35 | empty exactly when both offsets are 0 |
| CursorControl.SpellingsAgree | sources/core/index.ts:28 | `{x, y}` and `{col, row}` give the same `moveTo` and `moveBy` output |
| CursorControl.MoveToExample | sources/core/index.ts:28-29 | `moveTo({x: 3, y: 4})` is `ESC[5;4H`, row first and one-based |
| CursorControl.MoveByExample | sources/core/index.ts:34-35 | `moveBy({x: 2, y: -1})` is `downBy(-1)` then `rightBy(2)`, that is `ESC[1A ESC[2C` |
| Terminal.ParseRelative | sources/core/index.ts:43-46 | a terminal reads a relative move as one command, with its count and final byte |
| Terminal.RunRelative | sources/core/index.ts:43-46 | a terminal performs a relative move and goes on with whatever follows it |
| Terminal.MovesForward | sources/core/index.ts:43-46 | read by a terminal, a positive count moves the cursor that many cells in the builder's direction |
| Terminal.MovesBackward | sources/core/index.ts:43-46 | read by a terminal, a negative count moves the cursor that many cells the opposite way |
| Terminal.Moves | sources/core/index.ts:43-46 | for every integer count, each builder moves the cursor by the count in its own direction, whatever follows it |
| Terminal.MoveByShifts | sources/core/index.ts:34-35 | read by a terminal, `moveBy` shifts the cursor by exactly the given column and row offsets |
| Terminal.ParseMoveTo | sources/core/index.ts:29 | a terminal reads `moveTo` of a position whose row and column are at least -1 as a single CUP command with the one-based row and column |
| Terminal.MoveToPlaces | sources/core/index.ts:28-29 | read by a terminal, `moveTo` puts the cursor at the given zero-based position wherever it was; a row or column of -1 is written as parameter 0 and lands on 0 |
| Terminal.MoveToAboveScreen | sources/core/index.ts:29 | a row below -1 produces a string with a minus sign, which the interpreter rejects |
| Colors.SplitScreenColorOf | sources/core/index.ts:64 | the three slash-separated fields of an OSC 11 `rgb:` string are recovered from it |
| Colors.UnpaddedShape | sources/core/index.ts:64 | the screen colour string starts with `ESC]11;rgb:`, ends with BEL, and holds six to nine characters after the prefix, six exactly when every channel is one digit |
| Colors.UnpaddedHexRoundTrip | sources/core/index.ts:64 | the string as written reads back, as plain hexadecimal, as the triple it was made from |
| Colors.IntensityOfHex | sources/core/index.ts:64 | XParseColor scales a single unpadded digit h to h * 0x11 and takes two digits as they are |
| Colors.UnpaddedAsXReads | sources/core/index.ts:64 | a terminal following XParseColor reads the string as written with every channel from 1 to 15 scaled by 17 |
| Colors.UnpaddedExactIff | sources/core/index.ts:64 | that terminal shows the resolved colour exactly when no channel lies between 1 and 15 |
| Colors.UnpaddedMisread | sources/core/index.ts:64 | red 5 is sent as `rgb:5/0/0` and read as red 0x55 |
| Colors.Hex2Reads | sources/core/index.ts:64 | a zero-padded channel is two hex digits that read back as the channel |
| Colors.ScreenColorRoundTrip | sources/core/index.ts:64 | the padded screen colour reads back as its triple, both as plain hexadecimal and under XParseColor |
| Colors.ColorFront | sources/core/index.ts:56 | `colorFront(id)` is the foreground colour sequence of `id`, errors included |
| Colors.ColorBack | sources/core/index.ts:59 | `colorBack(id)` is the background colour sequence of `id`, errors included |
| Colors.ColorScreen | sources/core/index.ts:62-65 | `colorScreen` fails exactly when resolving the colour fails, with the resolver's error |
| Colors.ColorScreenReads | sources/core/index.ts:62-65 | a successful `colorScreen` string reads back, as plain hexadecimal, as the resolved colour, and a terminal following XParseColor shows that colour with every channel from 1 to 15 scaled by 17 |
| Colors.ColorStyle.constructor | sources/core/index.ts:56-66 | the foreground reset is the tools' reset; the background reset is the OSC 111 string that overwrites it; all caches start empty |
| Colors.ColorStyle.CacheName | sources/core/index.ts:69-71 | front, back and screen entries are computed in that order and stop at the first error, which is the name's error; every entry is its general function's value (`colorScreen` as written for the screen); only this name is added |
| Colors.ColorStyle.CacheNames | sources/core/index.ts:68-72 | the loop succeeds exactly when every name resolves, and then each cache gains exactly the names; otherwise it reports the first failing name's error; entries always agree with the general functions and the resets are untouched |
| Colors.Load | sources/core/index.ts:56-72 | after loading, the resets are set and the caches hold exactly the colour names, or the error of the first failing name is reported |
| Colors.CachedScreenReads | sources/core/index.ts:71 | a cached screen entry reads back, as plain hexadecimal, as the colour its name resolves to, and a terminal shows that colour with channels 1 to 15 scaled by 17 |

## Left out

- `getColorSequence`, `getColorResetSequence` and `resolveColorToRgb` are not part of this model (`./tools/getColor`). They are the parameters carried by `ColorTools`. `ColorFront` and `ColorBack` only hand a name to them, so their properties are the caches' agreement with them.
- The colour name table (`./data/colorNames.compiled.json`) is not part of this model. The loading loop takes its keys as a sequence.
- `ansiPattern`, re-exported from `./tools/ansiPattern`, is not part of this model.
- Counts and coordinates are unbounded integers. JavaScript numbers are doubles: a count of 10^21 or more renders in exponent form (`1e+21`), and integers beyond 2^53 are not exact. Neither is modelled.
- Arguments that are not integers are not modelled. JavaScript would render a fraction or `NaN` into the string, as `moveTo({})` does with its missing fields. A missing field of `moveBy` is different: `downBy(undefined)` and `rightBy(undefined)` take the default count 1, so `moveBy({x: 2})` also moves one line down.
- The colour functions are JavaScript functions that also carry per-name properties. They are modelled as a function plus separate maps, and the resets as separate fields. Colour names that collide with a property of the function object are not modelled: a colour called `out` would overwrite `colorFront.out` and `colorBack.out` at lines 69-70, which `CacheNames` and `Load` state are left unchanged, and built-in properties such as `name` or `length` cannot be assigned.
- The terminal grid in `Terminal` has no edges. Real terminals clamp the cursor at the screen border.
- The interpreter reads only the five cursor functions. Every other sequence is rejected.
- Terminal.MoveToPlaces and Terminal.ParseMoveTo: stated for rows and columns of at least -1. A column below -1 is outside their contract; `MoveToAboveScreen` covers rows below -1.
- Colors.XParseRgb: fields of three or four hex digits, which XParseColor also accepts, are outside the model.

## Findings

| source | as written | input that shows it | evidently intended | confidence | as-written member | corrected member |
|---|---|---|---|---|---|---|
| sources/core/index.ts:64 | each channel is written with `toString(16)`, a single hex digit below 16 | a colour with R = 5, G = 0, B = 0 gives `rgb:5/0/0`. Under XParseColor's `rgb:` syntax a one-digit field h means h * 0x11, so the terminal shows red 0x55 | every channel as two zero-padded hex digits (`rgb:05/00/00`), the form the X11 `rgb:` colour syntax (XParseColor, which xterm uses for OSC 11) reads as the 8-bit value itself | not executed | Colors.UnpaddedMisread | Colors.ScreenColorRoundTrip |
