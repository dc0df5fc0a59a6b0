/**
 * The colour functions of the style table. `ColorFront` and `ColorBack`
 * hand a colour name to the colour tools; `ColorScreen` resolves the name to
 * an RGB triple and formats it as the xterm OSC 11 request
 * `ESC ] 11 ; rgb: r / g / b BEL`, each channel written by `toString(16)`,
 * without padding (`UnpaddedScreenColor`). Under the X11 `rgb:` colour syntax
 * a one-digit field is scaled, so a terminal misreads channels 1 to 15; the
 * lemmas about `UnpaddedScreenColor` show the misreading, and `ScreenColor`
 * is the zero-padded form that reads back exactly. `ColorStyle` is the table
 * itself: the reset strings and, per colour name, the three sequences
 * computed once at load time.
 */
module Colors {
  import opened Wrappers
  import opened Numerals
  import opened Catalogue

  type Byte = n: nat | n < 256

  datatype Rgb = Rgb(r: Byte, g: Byte, b: Byte)

  /** The channel a colour sequence sets. */
  datatype Target = Foreground | Background

  datatype ColorError = UnknownColor(id: string)

  /**
   * The colour resolution this table is built on, whose definitions are not
   * part of this model: `resolve` turns a colour name or other identifier into
   * an RGB triple, `sequence` gives the sequence that sets a target's colour,
   * `reset` the sequence that restores a target's default. Each may fail on
   * an identifier it does not know.
   */
  datatype ColorTools = ColorTools(
    resolve: string -> Result<Rgb, ColorError>,
    sequence: (string, Target) -> Result<string, ColorError>,
    reset: Target -> string)

  const ScreenColorPrefix: string := OSC + "11;rgb:"
  /** OSC 111: restore the default screen background. */
  const ScreenColorReset: string := OSC + "111" + [BEL]

  /** The OSC 11 template around three channel fields. */
  function ScreenColorOf(red: string, green: string, blue: string): string
  {
    ScreenColorPrefix + (red + (['/'] + (green + (['/'] + (blue + [BEL])))))
  }

  /**
   * The screen colour string of a triple, each channel rendered by
   * `toString(16)` with no padding: one to two digits per channel.
   */
  function UnpaddedScreenColor(c: Rgb): string
  {
    ScreenColorOf(Hex(c.r), Hex(c.g), Hex(c.b))
  }

  /**
   * The string starts with the OSC 11 `rgb:` prefix, ends with BEL, and has
   * six to nine characters after the prefix; six exactly when every channel
   * is below 16, that is when every channel is one digit.
   */
  lemma UnpaddedShape(c: Rgb)
    ensures var s := UnpaddedScreenColor(c);
      && |ScreenColorPrefix| + 6 <= |s| <= |ScreenColorPrefix| + 9
      && s[..|ScreenColorPrefix|] == ScreenColorPrefix && s[|s| - 1] == BEL
      && (|s| == |ScreenColorPrefix| + 6 <==> c.r < 16 && c.g < 16 && c.b < 16)
  {
    HexOfByte(c.r);
    HexOfByte(c.g);
    HexOfByte(c.b);
  }

  /** The hex-digit field at the head of `s`, and what follows it. */
  function Field(s: string): (r: (string, string))
    ensures AllDigits(r.0, 16) && r.0 + r.1 == s
    ensures r.1 == [] || !IsDigit(r.1[0], 16)
  {
    var k := Span(s, 16);
    assert s[..k] + s[k..] == s;
    (s[..k], s[k..])
  }

  /** The three hex fields of a screen colour string, if it is one. */
  function SplitScreenColor(s: string): (r: Option<(string, string, string)>)
    ensures r.Some? ==> AllDigits(r.value.0, 16) && AllDigits(r.value.1, 16) && AllDigits(r.value.2, 16)
    ensures r.Some? ==> r.value.0 != [] && r.value.1 != [] && r.value.2 != []
  {
    var n := |ScreenColorPrefix|;
    if |s| < n || s[..n] != ScreenColorPrefix then None
    else
      var (red, t1) := Field(s[n..]);
      if red == [] || t1 == [] || t1[0] != '/' then None
      else
        var (green, t2) := Field(t1[1..]);
        if green == [] || t2 == [] || t2[0] != '/' then None
        else
          var (blue, t3) := Field(t2[1..]);
          if blue == [] || t3 != [BEL] then None
          else Some((red, green, blue))
  }

  /** Each field read as a plain hexadecimal number. */
  function HexTriple(s: string): Option<Rgb>
  {
    match SplitScreenColor(s)
    case None => None
    case Some((red, green, blue)) =>
      var r, g, b := Value(red, 16), Value(green, 16), Value(blue, 16);
      if r < 256 && g < 256 && b < 256 then Some(Rgb(r, g, b)) else None
  }

  /** A field of one or two hex digits is below 16 or below 256. */
  lemma ShortValue(field: string)
    requires AllDigits(field, 16) && 1 <= |field| <= 2
    ensures Value(field, 16) < if |field| == 1 then 16 else 256
  {
    assert field[..|field| - 1][..0] == [];
  }

  /**
   * The 8-bit intensity that the `rgb:` syntax of XParseColor, which xterm
   * uses to read OSC 11, gives a field: one digit h is scaled to h * 0x11,
   * two digits are taken as they are. Longer fields are outside the model.
   */
  function Intensity(field: string): (v: Option<Byte>)
    requires AllDigits(field, 16)
  {
    if |field| == 1 then ShortValue(field); Some(Value(field, 16) * 17)
    else if |field| == 2 then ShortValue(field); Some(Value(field, 16))
    else None
  }

  /** The colour a terminal following XParseColor reads from a screen colour string. */
  function XParseRgb(s: string): Option<Rgb>
  {
    match SplitScreenColor(s)
    case None => None
    case Some((red, green, blue)) =>
      match (Intensity(red), Intensity(green), Intensity(blue))
      case (Some(r), Some(g), Some(b)) => Some(Rgb(r, g, b))
      case _ => None
  }

  /** A field followed by a non-digit reads back as itself. */
  lemma {:induction false} FieldStops(field: string, rest: string)
    requires AllDigits(field, 16)
    requires rest == [] || !IsDigit(rest[0], 16)
    ensures Field(field + rest) == (field, rest)
  {
    SpanStops(field, rest, 16);
    assert (field + rest)[..|field|] == field;
    assert (field + rest)[|field|..] == rest;
  }

  /** The template's three fields are recovered from it, whatever their digits. */
  lemma {:induction false} SplitScreenColorOf(red: string, green: string, blue: string)
    requires AllDigits(red, 16) && AllDigits(green, 16) && AllDigits(blue, 16)
    requires red != [] && green != [] && blue != []
    ensures SplitScreenColor(ScreenColorOf(red, green, blue)) == Some((red, green, blue))
  {
    var s := ScreenColorOf(red, green, blue);
    var n := |ScreenColorPrefix|;
    var t3 := [BEL];
    var t2 := ['/'] + (blue + t3);
    var t1 := ['/'] + (green + t2);
    assert s[..n] == ScreenColorPrefix;
    assert s[n..] == red + t1;
    FieldStops(red, t1);
    assert t1[1..] == green + t2;
    FieldStops(green, t2);
    assert t2[1..] == blue + t3;
    FieldStops(blue, t3);
  }

  /**
   * The channels of a screen colour string read back, as plain hexadecimal,
   * as the triple it was made from.
   */
  lemma UnpaddedHexRoundTrip(c: Rgb)
    ensures HexTriple(UnpaddedScreenColor(c)) == Some(c)
  {
    HexOfByte(c.r);
    HexOfByte(c.g);
    HexOfByte(c.b);
    SplitScreenColorOf(Hex(c.r), Hex(c.g), Hex(c.b));
  }

  /** The intensity a terminal reads back for a channel rendered without padding. */
  function Seen(v: Byte): Byte
  {
    if v < 16 then v * 17 else v
  }

  /** An unpadded field: one digit is scaled up, two are read as they are. */
  lemma IntensityOfHex(v: Byte)
    ensures AllDigits(Hex(v), 16) && Intensity(Hex(v)) == Some(Seen(v))
  {
    HexOfByte(v);
  }

  /** The colour a terminal reads back for a triple rendered without padding. */
  function Seen3(c: Rgb): Rgb
  {
    Rgb(Seen(c.r), Seen(c.g), Seen(c.b))
  }

  /** What a terminal following XParseColor makes of `UnpaddedScreenColor(c)`. */
  lemma UnpaddedAsXReads(c: Rgb)
    ensures XParseRgb(UnpaddedScreenColor(c)) == Some(Seen3(c))
  {
    HexOfByte(c.r);
    HexOfByte(c.g);
    HexOfByte(c.b);
    SplitScreenColorOf(Hex(c.r), Hex(c.g), Hex(c.b));
    IntensityOfHex(c.r);
    IntensityOfHex(c.g);
    IntensityOfHex(c.b);
  }

  /** The terminal shows the intended colour exactly when no channel lies in 1..15. */
  lemma UnpaddedExactIff(c: Rgb)
    ensures XParseRgb(UnpaddedScreenColor(c)) == Some(c) <==>
      (c.r == 0 || c.r >= 16) && (c.g == 0 || c.g >= 16) && (c.b == 0 || c.b >= 16)
  {
    UnpaddedAsXReads(c);
  }

  /** Red 5 is sent as `rgb:5/0/0`, which the terminal reads as red 0x55. */
  lemma UnpaddedMisread()
    ensures UnpaddedScreenColor(Rgb(5, 0, 0)) == ScreenColorOf("5", "0", "0")
    ensures XParseRgb(UnpaddedScreenColor(Rgb(5, 0, 0))) == Some(Rgb(85, 0, 0))
  {
    UnpaddedAsXReads(Rgb(5, 0, 0));
    assert Hex(5) == "5" && Hex(0) == "0";
  }

  /** A channel as two lowercase hex digits, zero-padded. */
  function Hex2(v: Byte): (s: string)
  {
    if v < 16 then "0" + Hex(v) else Hex(v)
  }

  lemma Hex2Reads(v: Byte)
    ensures AllDigits(Hex2(v), 16) && |Hex2(v)| == 2 && Value(Hex2(v), 16) == v
  {
    HexOfByte(v);
    if v < 16 {
      var s := Hex2(v);
      assert s[..1] == "0";
      assert s[..1][..0] == [];
    }
  }

  /** The screen colour string with every channel as two lowercase hex digits, zero-padded. */
  function ScreenColor(c: Rgb): string
  {
    ScreenColorOf(Hex2(c.r), Hex2(c.g), Hex2(c.b))
  }

  /** Padded channels read back as the triple, both as plain hexadecimal and under XParseColor. */
  lemma ScreenColorRoundTrip(c: Rgb)
    ensures HexTriple(ScreenColor(c)) == Some(c)
    ensures XParseRgb(ScreenColor(c)) == Some(c)
  {
    Hex2Reads(c.r);
    Hex2Reads(c.g);
    Hex2Reads(c.b);
    SplitScreenColorOf(Hex2(c.r), Hex2(c.g), Hex2(c.b));
  }

  /** `colorFront`: the foreground sequence of `id`, or the tools' error. */
  function ColorFront(tools: ColorTools, id: string): (r: Result<string, ColorError>)
    ensures r == tools.sequence(id, Foreground)
  {
    tools.sequence(id, Foreground)
  }

  /** `colorBack`: the background sequence of `id`, or the tools' error. */
  function ColorBack(tools: ColorTools, id: string): (r: Result<string, ColorError>)
    ensures r == tools.sequence(id, Background)
  {
    tools.sequence(id, Background)
  }

  /** `colorScreen`: the screen colour of `id`, or the resolver's error. */
  function ColorScreen(tools: ColorTools, id: string): (r: Result<string, ColorError>)
    ensures r.Failure? <==> tools.resolve(id).Failure?
    ensures r.Failure? ==> r.error == tools.resolve(id).error
  {
    match tools.resolve(id)
    case Failure(e) => Failure(e)
    case Success(rgb) => Success(UnpaddedScreenColor(rgb))
  }

  /**
   * A successful `ColorScreen` string reads back as the resolved triple in
   * plain hexadecimal, and a terminal following XParseColor shows it with
   * every channel from 1 to 15 scaled by 17.
   */
  lemma ColorScreenReads(tools: ColorTools, id: string)
    requires tools.resolve(id).Success?
    ensures ColorScreen(tools, id).Success?
    ensures HexTriple(ColorScreen(tools, id).value) == Some(tools.resolve(id).value)
    ensures XParseRgb(ColorScreen(tools, id).value) == Some(Seen3(tools.resolve(id).value))
  {
    UnpaddedHexRoundTrip(tools.resolve(id).value);
    UnpaddedAsXReads(tools.resolve(id).value);
  }

  /**
   * The error the cache loop raises at `name`, if any: the foreground
   * sequence is computed first, then the background one, then the screen one.
   */
  function CacheError(tools: ColorTools, name: string): Option<ColorError>
  {
    if ColorFront(tools, name).Failure? then Some(ColorFront(tools, name).error)
    else if ColorBack(tools, name).Failure? then Some(ColorBack(tools, name).error)
    else if ColorScreen(tools, name).Failure? then Some(ColorScreen(tools, name).error)
    else None
  }

  /** Every entry of `m` is the foreground sequence of its name. */
  ghost predicate FrontAgrees(tools: ColorTools, m: map<string, string>)
  {
    forall name :: name in m ==> ColorFront(tools, name) == Success(m[name])
  }

  /** Every entry of `m` is the background sequence of its name. */
  ghost predicate BackAgrees(tools: ColorTools, m: map<string, string>)
  {
    forall name :: name in m ==> ColorBack(tools, name) == Success(m[name])
  }

  /** Every entry of `m` is the screen colour of its name. */
  ghost predicate ScreenAgrees(tools: ColorTools, m: map<string, string>)
  {
    forall name :: name in m ==> ColorScreen(tools, name) == Success(m[name])
  }

  /** Adding an entry that agrees with the general function keeps a map in agreement. */
  lemma FrontAgreesAdd(tools: ColorTools, m: map<string, string>, name: string, v: string)
    requires FrontAgrees(tools, m) && ColorFront(tools, name) == Success(v)
    ensures FrontAgrees(tools, m[name := v]) && m[name := v].Keys == m.Keys + {name}
  {
  }

  lemma BackAgreesAdd(tools: ColorTools, m: map<string, string>, name: string, v: string)
    requires BackAgrees(tools, m) && ColorBack(tools, name) == Success(v)
    ensures BackAgrees(tools, m[name := v]) && m[name := v].Keys == m.Keys + {name}
  {
  }

  lemma ScreenAgreesAdd(tools: ColorTools, m: map<string, string>, name: string, v: string)
    requires ScreenAgrees(tools, m) && ColorScreen(tools, name) == Success(v)
    ensures ScreenAgrees(tools, m[name := v]) && m[name := v].Keys == m.Keys + {name}
  {
  }

  /** The names a sequence holds. */
  function Elements(names: seq<string>): set<string>
  {
    set name | name in names
  }

  /** `names[i]` is the first name the cache loop fails at. */
  predicate FailsFirstAt(tools: ColorTools, names: seq<string>, i: int)
  {
    && 0 <= i < |names|
    && CacheError(tools, names[i]).Some?
    && forall j :: 0 <= j < i ==> CacheError(tools, names[j]).None?
  }

  /** How one pass of the cache loop grows a map's key set. */
  lemma KeysStep(k0: set<string>, k1: set<string>, k2: set<string>, names: seq<string>, i: nat, ok: bool)
    requires i < |names|
    requires k1 == k0 + Elements(names[..i])
    requires k2 <= k1 + {names[i]}
    requires ok ==> k2 == k1 + {names[i]}
    ensures k2 <= k0 + Elements(names)
    ensures ok ==> k2 == k0 + Elements(names[..i + 1])
  {
    assert names[..i + 1] == names[..i] + [names[i]];
    assert Elements(names[..i + 1]) == Elements(names[..i]) + {names[i]};
    assert forall name :: name in names[..i + 1] ==> name in names;
  }

  /**
   * `style.color`: the three colour functions with their resets (`out`) and
   * their per-name entries, kept as three maps beside the functions.
   */
  class ColorStyle {
    const tools: ColorTools
    var frontOut: string
    var backOut: string
    var front: map<string, string>
    var back: map<string, string>
    var screen: map<string, string>

    /** Every cached entry is what the general function gives for that name. */
    ghost predicate Cached()
      reads this
    {
      FrontAgrees(tools, front) && BackAgrees(tools, back) && ScreenAgrees(tools, screen)
    }

    /**
     * The functions and their resets. The background reset is assigned
     * twice, and the second assignment, the screen's reset, is the one that
     * stays; the screen function gets no reset.
     */
    constructor (tools: ColorTools)
      ensures this.tools == tools && Cached()
      ensures frontOut == tools.reset(Foreground)
      ensures backOut == ScreenColorReset
      ensures front == map[] && back == map[] && screen == map[]
    {
      this.tools := tools;
      frontOut := tools.reset(Foreground);
      backOut := tools.reset(Background);
      backOut := ScreenColorReset;
      front, back, screen := map[], map[], map[];
    }

    /**
     * One pass of the cache loop: the foreground, background and screen
     * sequences of `color`, in that order, stopping at the first error.
     */
    method CacheName(color: string) returns (err: Option<ColorError>)
      requires Cached()
      modifies this
      ensures Cached()
      ensures frontOut == old(frontOut) && backOut == old(backOut)
      ensures err == CacheError(tools, color)
      ensures err.None? ==> front.Keys == old(front.Keys) + {color}
      ensures err.None? ==> back.Keys == old(back.Keys) + {color}
      ensures err.None? ==> screen.Keys == old(screen.Keys) + {color}
      ensures front.Keys <= old(front.Keys) + {color}
      ensures back.Keys <= old(back.Keys) + {color}
      ensures screen.Keys <= old(screen.Keys) + {color}
    {
      var f := ColorFront(tools, color);
      if f.Failure? {
        return Some(f.error);
      }
      FrontAgreesAdd(tools, front, color, f.value);
      front := front[color := f.value];
      var b := ColorBack(tools, color);
      if b.Failure? {
        return Some(b.error);
      }
      BackAgreesAdd(tools, back, color, b.value);
      back := back[color := b.value];
      var s := ColorScreen(tools, color);
      if s.Failure? {
        return Some(s.error);
      }
      ScreenAgreesAdd(tools, screen, color, s.value);
      screen := screen[color := s.value];
      return None;
    }

    /**
     * The cache loop: every colour name in turn, in the order of `names`.
     * An error stops the loop where it happens and leaves the entries made
     * so far; it is the error of the first name that fails.
     */
    method CacheNames(names: seq<string>) returns (err: Option<ColorError>)
      requires Cached()
      modifies this
      ensures Cached()
      ensures frontOut == old(frontOut) && backOut == old(backOut)
      ensures err.None? ==> front.Keys == old(front.Keys) + Elements(names)
      ensures err.None? ==> back.Keys == old(back.Keys) + Elements(names)
      ensures err.None? ==> screen.Keys == old(screen.Keys) + Elements(names)
      ensures front.Keys <= old(front.Keys) + Elements(names)
      ensures back.Keys <= old(back.Keys) + Elements(names)
      ensures screen.Keys <= old(screen.Keys) + Elements(names)
      ensures err.None? <==> forall i :: 0 <= i < |names| ==> CacheError(tools, names[i]).None?
      ensures err.Some? ==> exists i :: FailsFirstAt(tools, names, i) && CacheError(tools, names[i]) == err
    {
      var i := 0;
      while i < |names|
        invariant i <= |names|
        invariant Cached()
        invariant frontOut == old(frontOut) && backOut == old(backOut)
        invariant front.Keys == old(front.Keys) + Elements(names[..i])
        invariant back.Keys == old(back.Keys) + Elements(names[..i])
        invariant screen.Keys == old(screen.Keys) + Elements(names[..i])
        invariant forall j :: 0 <= j < i ==> CacheError(tools, names[j]).None?
      {
        ghost var f1, b1, s1 := front.Keys, back.Keys, screen.Keys;
        err := CacheName(names[i]);
        KeysStep(old(front.Keys), f1, front.Keys, names, i, err.None?);
        KeysStep(old(back.Keys), b1, back.Keys, names, i, err.None?);
        KeysStep(old(screen.Keys), s1, screen.Keys, names, i, err.None?);
        if err.Some? {
          assert FailsFirstAt(tools, names, i);
          return;
        }
        i := i + 1;
      }
      assert names[..i] == names;
      return None;
    }
  }

  /**
   * Loading the table: the functions and resets, then the cache loop over
   * the colour names, `names` being the keys of the colour name table in
   * their order. It succeeds exactly when every name resolves, and then
   * each map holds one entry per colour name and no other.
   */
  method Load(tools: ColorTools, names: seq<string>) returns (style: ColorStyle, err: Option<ColorError>)
    ensures fresh(style) && style.tools == tools && style.Cached()
    ensures style.frontOut == tools.reset(Foreground) && style.backOut == ScreenColorReset
    ensures err.None? <==> forall name :: name in names ==> CacheError(tools, name).None?
    ensures err.Some? ==> exists i :: FailsFirstAt(tools, names, i) && CacheError(tools, names[i]) == err
    ensures err.None? ==> style.front.Keys == Elements(names)
    ensures err.None? ==> style.back.Keys == Elements(names)
    ensures err.None? ==> style.screen.Keys == Elements(names)
  {
    style := new ColorStyle(tools);
    err := style.CacheNames(names);
  }

  /**
   * A cached screen entry reads back, as plain hexadecimal, as the colour its
   * name resolves to, and a terminal shows that colour with channels 1 to 15
   * scaled by 17.
   */
  lemma CachedScreenReads(style: ColorStyle, name: string)
    requires style.Cached() && name in style.screen
    ensures style.tools.resolve(name).Success?
    ensures HexTriple(style.screen[name]) == Some(style.tools.resolve(name).value)
    ensures XParseRgb(style.screen[name]) == Some(Seen3(style.tools.resolve(name).value))
  {
    ColorScreenReads(style.tools, name);
  }
}
