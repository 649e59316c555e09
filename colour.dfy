/**
 * Theme colours: the CSS custom properties read by `getThemeColors`, the
 * regular expression `rgba?\((\d+),\s*(\d+),\s*(\d+)(?:,\s*([\d.]+))?\)`
 * every draw routine applies to them, and the three ways its captures are
 * turned into a colour (2D nodes and edges, 2D signals, 3D materials).
 */
module Colour {
  import opened Js

  /** The four capture groups of a successful match; the alpha group is optional. */
  datatype RgbaMatch = RgbaMatch(red: string, green: string, blue: string, alpha: Option<string>)

  predicate AllDecimalChars(s: string) {
    forall k | 0 <= k < |s| :: IsDecimalChar(s[k])
  }

  /** What the groups can hold: non-empty digit runs, and a non-empty run of digits and dots. */
  predicate WellFormed(m: RgbaMatch) {
    && m.red != [] && AllDigits(m.red)
    && m.green != [] && AllDigits(m.green)
    && m.blue != [] && AllDigits(m.blue)
    && (m.alpha.Some? ==> m.alpha.value != [] && AllDecimalChars(m.alpha.value))
  }

  /** `rgba?\(` at position i: the index just past the parenthesis. */
  function Opener(s: string, i: nat): (r: Option<nat>)
    requires i <= |s|
    ensures r.Some? ==> i + 4 <= r.value <= |s|
  {
    if i + 3 < |s| && s[i..i + 3] == "rgb" then
      var open := if s[i + 3] == 'a' then i + 4 else i + 3;
      if open < |s| && s[open] == '(' then Some(open + 1) else None
    else None
  }

  /** `(\d+),` at position i: the index of the comma. */
  function DigitsComma(s: string, i: nat): (r: Option<nat>)
    requires i <= |s|
    ensures r.Some? ==> r.value == DigitsEnd(s, i) && i < r.value < |s| && s[r.value] == ','
  {
    var j := DigitsEnd(s, i);
    if i < j < |s| && s[j] == ',' then Some(j) else None
  }

  /**
   * What may follow the blue group at position j: `)` with no alpha, or
   * `,\s*([\d.]+)\)` with one.
   */
  function Tail(s: string, j: nat): (r: Option<Option<string>>)
    requires j <= |s|
  {
    if j == |s| then None
    else if s[j] == ')' then Some(None)
    else if s[j] != ',' then None
    else
      var a0 := SpaceEnd(s, j + 1);
      var a1 := DecimalEnd(s, a0);
      if a0 < a1 < |s| && s[a1] == ')' then Some(Some(s[a0..a1])) else None
  }

  /**
   * The pattern anchored at position i. No quantifier of the pattern can give
   * back a character and still succeed, so the backtracking matcher has a
   * single candidate at each step and this is a plain left-to-right scan.
   */
  function MatchAt(s: string, i: nat): Option<RgbaMatch>
    requires i <= |s|
  {
    match Opener(s, i)
    case None => None
    case Some(r0) =>
      match DigitsComma(s, r0)
      case None => None
      case Some(r1) =>
        var g0 := SpaceEnd(s, r1 + 1);
        match DigitsComma(s, g0)
        case None => None
        case Some(g1) =>
          var b0 := SpaceEnd(s, g1 + 1);
          var b1 := DigitsEnd(s, b0);
          if b1 == b0 then None
          else
            match Tail(s, b1)
            case None => None
            case Some(alpha) => Some(RgbaMatch(s[r0..r1], s[g0..g1], s[b0..b1], alpha))
  }

  /** No match anchored anywhere in [i, j). */
  predicate NoMatchBetween(s: string, i: nat, j: nat)
    requires i <= j <= |s| + 1
  {
    forall k | i <= k < j :: MatchAt(s, k).None?
  }

  /** The leftmost position from i on where the pattern matches, if any. */
  function FirstMatchFrom(s: string, i: nat): (r: Option<nat>)
    requires i <= |s|
    ensures r.Some? ==> i <= r.value <= |s| && MatchAt(s, r.value).Some? && NoMatchBetween(s, i, r.value)
    ensures r.None? ==> NoMatchBetween(s, i, |s| + 1)
    decreases |s| - i
  {
    if MatchAt(s, i).Some? then Some(i)
    else if i == |s| then None
    else FirstMatchFrom(s, i + 1)
  }

  /** `String.prototype.match` with a non-global pattern: the match at the leftmost position where there is one. */
  function Search(s: string): (r: Option<RgbaMatch>)
    ensures r.Some? ==> WellFormed(r.value)
  {
    match FirstMatchFrom(s, 0)
    case None => None
    case Some(j) => MatchAtWellFormed(s, j); MatchAt(s, j)
  }

  /** Whatever the pattern captures has the shape of its groups. */
  lemma MatchAtWellFormed(s: string, i: nat)
    requires i <= |s|
    ensures MatchAt(s, i).Some? ==> WellFormed(MatchAt(s, i).value)
  {
    match Opener(s, i)
    case None =>
    case Some(r0) =>
      match DigitsComma(s, r0)
      case None =>
      case Some(r1) =>
        DigitsCommaGroup(s, r0);
        var g0 := SpaceEnd(s, r1 + 1);
        match DigitsComma(s, g0)
        case None =>
        case Some(g1) =>
          DigitsCommaGroup(s, g0);
          var b0 := SpaceEnd(s, g1 + 1);
          DigitsEndAll(s, b0);
          TailGroup(s, DigitsEnd(s, b0));
  }

  /** The group before the comma DigitsComma finds is a non-empty run of digits. */
  lemma DigitsCommaGroup(s: string, i: nat)
    requires i <= |s| && DigitsComma(s, i).Some?
    ensures s[i..DigitsComma(s, i).value] != [] && AllDigits(s[i..DigitsComma(s, i).value])
  {
    DigitsEndAll(s, i);
  }

  /** An alpha group Tail captures is a non-empty run of digits and dots. */
  lemma TailGroup(s: string, j: nat)
    requires j <= |s|
    ensures Tail(s, j).Some? && Tail(s, j).value.Some? ==>
      Tail(s, j).value.value != [] && AllDecimalChars(Tail(s, j).value.value)
  {
    if j < |s| && s[j] == ',' {
      var a0 := SpaceEnd(s, j + 1);
      var a1 := DecimalEnd(s, a0);
      DecimalEndAll(s, a0);
      assert forall k | 0 <= k < a1 - a0 :: s[a0..a1][k] == s[a0 + k];
    }
  }

  /** The opening `rgb(` or `rgba(` of the CSS text, by whether there is an alpha. */
  function Opening(alpha: Option<string>): string {
    if alpha.Some? then "rgba(" else "rgb("
  }

  /** The closing `)` or `, a)` of the CSS text. */
  function Closing(alpha: Option<string>): string {
    if alpha.Some? then ", " + alpha.value + ")" else ")"
  }

  /** The CSS text `rgb(r, g, b)` or `rgba(r, g, b, a)`. */
  function FormatRgba(red: string, green: string, blue: string, alpha: Option<string>): string {
    Opening(alpha) + red + ", " + green + ", " + blue + Closing(alpha)
  }

  /** The pattern reads back the components of the text FormatRgba writes. */
  lemma MatchFormat(red: string, green: string, blue: string, alpha: Option<string>)
    requires WellFormed(RgbaMatch(red, green, blue, alpha))
    ensures MatchAt(FormatRgba(red, green, blue, alpha), 0) == Some(RgbaMatch(red, green, blue, alpha))
    ensures Search(FormatRgba(red, green, blue, alpha)) == Some(RgbaMatch(red, green, blue, alpha))
  {
    var s := FormatRgba(red, green, blue, alpha);
    var r0 := |Opening(alpha)|;
    var r1 := r0 + |red|;
    var g0 := r1 + 2;
    var g1 := g0 + |green|;
    var b0 := g1 + 2;
    var b1 := b0 + |blue|;
    var a0 := b1 + 2;
    var a1 := if alpha.Some? then a0 + |alpha.value| else |s| - 1;
    FormatOpening(red, green, blue, alpha);
    FormatRed(red, green, blue, alpha, r0, r1);
    FormatGreen(red, green, blue, alpha, r1, g0, g1);
    FormatBlue(red, green, blue, alpha, g1, b0, b1);
    if alpha.Some? {
      FormatAlpha(red, green, blue, alpha.value, b1, a0, a1);
      FormatAlphaRun(red, green, blue, alpha.value, a0, a1);
    }
    MatchLaidOut(s, red, green, blue, alpha, r0, r1, g0, g1, b0, b1, a0, a1);
    SearchAtStart(s);
  }

  /**
   * A text whose groups and separators lie at the given positions (the facts
   * the Format lemmas establish, about a text whose construction is no longer
   * visible) matches, capturing those groups.
   */
  lemma MatchLaidOut(s: string, red: string, green: string, blue: string, alpha: Option<string>,
                     r0: nat, r1: nat, g0: nat, g1: nat, b0: nat, b1: nat, a0: nat, a1: nat)
    requires r0 == (if alpha.Some? then 5 else 4) && r0 < r1 < g0 < g1 < b0 < b1 < |s|
    requires s[0..3] == "rgb" && s[r0 - 1] == '(' && (s[3] == 'a' <==> alpha.Some?)
    requires s[r0..r1] == red && DigitsEnd(s, r0) == r1 && s[r1] == ','
    requires SpaceEnd(s, r1 + 1) == g0 && s[g0..g1] == green && DigitsEnd(s, g0) == g1 && s[g1] == ','
    requires SpaceEnd(s, g1 + 1) == b0 && s[b0..b1] == blue && DigitsEnd(s, b0) == b1
    requires alpha.None? ==> s[b1] == ')'
    requires alpha.Some? ==> && s[b1] == ',' && b1 < a0 < a1 < |s| && s[a0..a1] == alpha.value
                             && SpaceEnd(s, b1 + 1) == a0 && DecimalEnd(s, a0) == a1 && s[a1] == ')'
    ensures MatchAt(s, 0) == Some(RgbaMatch(red, green, blue, alpha))
  {
    assert Opener(s, 0) == Some(r0);
    assert DigitsComma(s, r0) == Some(r1);
    assert DigitsComma(s, g0) == Some(g1);
    assert Tail(s, b1) == Some(alpha);
  }

  /** A text that matches at its first character gives that match. */
  lemma SearchAtStart(s: string)
    requires MatchAt(s, 0).Some?
    ensures Search(s) == MatchAt(s, 0)
  {
    assert FirstMatchFrom(s, 0) == Some(0);
  }

  /** The opening `rgb(` or `rgba(` of the formatted text. */
  lemma FormatOpening(red: string, green: string, blue: string, alpha: Option<string>)
    ensures |Opening(alpha)| == if alpha.Some? then 5 else 4
    ensures FormatRgba(red, green, blue, alpha)[0..3] == "rgb"
    ensures FormatRgba(red, green, blue, alpha)[|Opening(alpha)| - 1] == '('
    ensures FormatRgba(red, green, blue, alpha)[3] == 'a' <==> alpha.Some?
  {
  }

  /** The red group of the formatted text and the comma after it. */
  lemma FormatRed(red: string, green: string, blue: string, alpha: Option<string>, r0: nat, r1: nat)
    requires AllDigits(red) && r0 == |Opening(alpha)| && r1 == r0 + |red|
    ensures var s := FormatRgba(red, green, blue, alpha);
      r1 < |s| && s[r0..r1] == red && DigitsEnd(s, r0) == r1 && s[r1] == ','
  {
    var pre, post := Opening(alpha), Closing(alpha);
    assert FormatRgba(red, green, blue, alpha) == pre + red + (", " + green + ", " + blue + post);
    DigitsEndIn(pre, red, ", " + green + ", " + blue + post);
  }

  /** The space before the green group, the group itself and the comma after it. */
  lemma FormatGreen(red: string, green: string, blue: string, alpha: Option<string>, r1: nat, g0: nat, g1: nat)
    requires green != [] && AllDigits(green)
    requires r1 == |Opening(alpha)| + |red| && g0 == r1 + 2 && g1 == g0 + |green|
    ensures var s := FormatRgba(red, green, blue, alpha);
      g1 < |s| && SpaceEnd(s, r1 + 1) == g0 && s[g0..g1] == green && DigitsEnd(s, g0) == g1 && s[g1] == ','
  {
    var pre, post := Opening(alpha), Closing(alpha);
    assert FormatRgba(red, green, blue, alpha) == (pre + red + ",") + " " + (green + ", " + blue + post);
    SpaceEndIn(pre + red + ",", " ", green + ", " + blue + post);
    assert FormatRgba(red, green, blue, alpha) == (pre + red + ", ") + green + (", " + blue + post);
    DigitsEndIn(pre + red + ", ", green, ", " + blue + post);
  }

  /** The space before the blue group, the group itself and what closes it. */
  lemma FormatBlue(red: string, green: string, blue: string, alpha: Option<string>, g1: nat, b0: nat, b1: nat)
    requires blue != [] && AllDigits(blue)
    requires g1 == |Opening(alpha)| + |red| + 2 + |green| && b0 == g1 + 2 && b1 == b0 + |blue|
    ensures var s := FormatRgba(red, green, blue, alpha);
      && b1 < |s| && SpaceEnd(s, g1 + 1) == b0 && s[b0..b1] == blue && DigitsEnd(s, b0) == b1
      && s[b1] == (if alpha.Some? then ',' else ')')
  {
    var pre, post := Opening(alpha), Closing(alpha);
    assert FormatRgba(red, green, blue, alpha) == (pre + red + ", " + green + ",") + " " + (blue + post);
    SpaceEndIn(pre + red + ", " + green + ",", " ", blue + post);
    assert FormatRgba(red, green, blue, alpha) == (pre + red + ", " + green + ", ") + blue + post;
    DigitsEndIn(pre + red + ", " + green + ", ", blue, post);
  }

  /** The space before the alpha group and the group itself. */
  lemma FormatAlpha(red: string, green: string, blue: string, a: string, b1: nat, a0: nat, a1: nat)
    requires a != [] && AllDecimalChars(a)
    requires b1 == 5 + |red| + 2 + |green| + 2 + |blue| && a0 == b1 + 2 && a1 == a0 + |a|
    ensures var s := FormatRgba(red, green, blue, Some(a));
      && a0 < a1 && a1 == |s| - 1 && s[a0..a1] == a && s[a1] == ')' && SpaceEnd(s, b1 + 1) == a0
  {
    var pre := Opening(Some(a));
    assert FormatRgba(red, green, blue, Some(a)) == (pre + red + ", " + green + ", " + blue + ",") + " " + (a + ")");
    SpaceEndIn(pre + red + ", " + green + ", " + blue + ",", " ", a + ")");
  }

  /** Where the alpha group ends. */
  lemma FormatAlphaRun(red: string, green: string, blue: string, a: string, a0: nat, a1: nat)
    requires AllDecimalChars(a)
    requires a0 == 5 + |red| + 2 + |green| + 2 + |blue| + 2 && a1 == a0 + |a|
    ensures DecimalEnd(FormatRgba(red, green, blue, Some(a)), a0) == a1
  {
    var body := "rgba(" + red + ", " + green + ", " + blue;
    var head := body + ", ";
    assert |head| == a0;
    assert FormatRgba(red, green, blue, Some(a)) == body + (", " + a + ")");
    assert body + (", " + a + ")") == head + a + ")";
    DecimalEndIn(head, a, ")");
  }

  /** The fallbacks `getThemeColors` uses when a custom property is unset or blank. */
  const DefaultNodeColour: string := "rgba(26, 54, 93, 0.6)"
  const DefaultEdgeColour: string := "rgba(26, 54, 93, 0.5)"
  const DefaultSignalColour: string := "rgba(14, 165, 233, 0.9)"

  datatype ThemeColours = ThemeColours(node: string, edge: string, signal: string)

  /** `value.trim() || fallback`: the trimmed property, or the fallback when nothing is left. */
  function PropertyOr(value: string, fallback: string): (r: string)
    requires fallback != []
    ensures r != []
    ensures Trim(value) != [] ==> r == Trim(value)
    ensures AllWhiteSpace(value) ==> r == fallback
  {
    if Trim(value) != [] then Trim(value) else fallback
  }

  /** `getThemeColors`, given the three custom property values as the computed style reports them. */
  function GetThemeColours(nodeProperty: string, edgeProperty: string, signalProperty: string): (c: ThemeColours)
    ensures c.node != [] && c.edge != [] && c.signal != []
    ensures !IsWhiteSpace(c.node[0]) && !IsWhiteSpace(c.edge[0]) && !IsWhiteSpace(c.signal[0])
    ensures nodeProperty == [] ==> c.node == DefaultNodeColour
    ensures edgeProperty == [] ==> c.edge == DefaultEdgeColour
    ensures signalProperty == [] ==> c.signal == DefaultSignalColour
    ensures Trim(nodeProperty) != [] ==> c.node == Trim(nodeProperty)
    ensures Trim(edgeProperty) != [] ==> c.edge == Trim(edgeProperty)
    ensures Trim(signalProperty) != [] ==> c.signal == Trim(signalProperty)
    ensures AllWhiteSpace(nodeProperty) ==> c.node == DefaultNodeColour
    ensures AllWhiteSpace(edgeProperty) ==> c.edge == DefaultEdgeColour
    ensures AllWhiteSpace(signalProperty) ==> c.signal == DefaultSignalColour
  {
    ThemeColours(
      PropertyOr(nodeProperty, DefaultNodeColour),
      PropertyOr(edgeProperty, DefaultEdgeColour),
      PropertyOr(signalProperty, DefaultSignalColour))
  }

  /** A stroke or fill style `rgba(r, g, b, alpha)`: the digit text of each channel and the alpha number. */
  datatype Style = Style(red: string, green: string, blue: string, alpha: Num)

  /** `rgbaMatch[4] ? parseFloat(rgbaMatch[4]) : fallback` */
  function BaseOpacity(m: RgbaMatch, fallback: real): Num {
    if m.alpha.Some? && m.alpha.value != [] then ParseFloat(m.alpha.value) else Finite(fallback)
  }

  /**
   * The colour of a 2D node or edge: the parsed channels with the parsed
   * alpha (1 when absent) times the computed opacity; `rgba(26, 54, 93, opacity)`
   * when the text does not match.
   */
  function NodeEdgeStyle(colour: string, opacity: real): (st: Style)
    ensures Search(colour).None? ==> st == Style("26", "54", "93", Finite(opacity))
    ensures Search(colour).Some? ==>
      var m := Search(colour).value;
      st.red == m.red && st.green == m.green && st.blue == m.blue
    ensures Search(colour).Some? && Search(colour).value.alpha.None? ==> st.alpha == Finite(opacity)
    ensures Search(colour).Some? && Search(colour).value.alpha.Some? ==>
      st.alpha == Times(ParseFloat(Search(colour).value.alpha.value), opacity)
  {
    match Search(colour)
    case None => Style("26", "54", "93", Finite(opacity))
    case Some(m) => Style(m.red, m.green, m.blue, Times(BaseOpacity(m, 1.0), opacity))
  }

  /** A colour written as decimal text comes out with its own channels and alpha times the opacity. */
  lemma NodeEdgeStyleFormat(red: string, green: string, blue: string, ip: string, fp: string, opacity: real)
    requires WellFormed(RgbaMatch(red, green, blue, None))
    requires ip != [] && AllDigits(ip) && AllDigits(fp)
    ensures NodeEdgeStyle(FormatRgba(red, green, blue, Some(DecimalText(ip, fp))), opacity)
         == Style(red, green, blue, Times(Finite(DecimalValue(ip, fp)), opacity))
  {
    var a := DecimalText(ip, fp);
    DecimalTextChars(ip, fp);
    MatchFormat(red, green, blue, Some(a));
    ParseFloatDecimal(ip, fp);
    StyleOfMatch(FormatRgba(red, green, blue, Some(a)), red, green, blue, a, DecimalValue(ip, fp), opacity);
  }

  /** NodeEdgeStyle of a text whose match and parsed alpha are known. */
  lemma StyleOfMatch(colour: string, red: string, green: string, blue: string, a: string, v: real, opacity: real)
    requires Search(colour) == Some(RgbaMatch(red, green, blue, Some(a))) && ParseFloat(a) == Finite(v)
    ensures NodeEdgeStyle(colour, opacity) == Style(red, green, blue, Times(Finite(v), opacity))
  {
  }

  /** The decimal text of a number is a non-empty run of digits and dots. */
  lemma DecimalTextChars(ip: string, fp: string)
    requires ip != [] && AllDigits(ip) && AllDigits(fp)
    ensures DecimalText(ip, fp) != [] && AllDecimalChars(DecimalText(ip, fp))
  {
    var a := DecimalText(ip, fp);
    if fp != [] {
      forall k | 0 <= k < |a| ensures IsDecimalChar(a[k]) {
        if k < |ip| { assert a[k] == ip[k]; }
        else if k > |ip| { assert a[k] == fp[k - |ip| - 1]; }
      }
    }
  }

  /** The channels and base alpha of a 2D signal. */
  datatype SignalColour = SignalColour(red: nat, green: nat, blue: nat, base: Num)

  /**
   * The colour of a 2D signal: parseInt of each channel and the parsed alpha
   * (0.9 when absent); 14, 165, 233 and 0.9 when the text does not match.
   */
  function GetSignalColour(colour: string): (sc: SignalColour)
    ensures Search(colour).None? ==> sc == SignalColour(14, 165, 233, Finite(0.9))
    ensures Search(colour).Some? ==>
      var m := Search(colour).value;
      sc.red == DigitsValue(m.red) && sc.green == DigitsValue(m.green) && sc.blue == DigitsValue(m.blue)
    ensures Search(colour).Some? && Search(colour).value.alpha.None? ==> sc.base == Finite(0.9)
    ensures Search(colour).Some? && Search(colour).value.alpha.Some? ==>
      sc.base == ParseFloat(Search(colour).value.alpha.value)
  {
    match Search(colour)
    case None => SignalColour(14, 165, 233, Finite(0.9))
    case Some(m) => SignalColour(DigitsValue(m.red), DigitsValue(m.green), DigitsValue(m.blue), BaseOpacity(m, 0.9))
  }

  /** `Math.min(a, 1)` on a JavaScript number. */
  function MinOne(a: Num): (r: Num)
    ensures r.Finite? ==> r.v <= 1.0
    ensures a.Finite? && a.v <= 1.0 ==> r == a
  {
    match a
    case Finite(v) => Finite(if v <= 1.0 then v else 1.0)
    case NaN => NaN
    case Infinity => Finite(1.0)
    case NegInfinity => NegInfinity
  }

  /** The alphas of the glow (centre, middle, rim) and of the head of the trail. */
  datatype SignalAlphas = SignalAlphas(centre: Num, middle: Num, rim: Num, trailHead: Num)

  /** The gradient stops of `Signal.draw` for a signal of the given opacity. */
  function GetSignalAlphas(sc: SignalColour, signalOpacity: real): (a: SignalAlphas)
    ensures a.rim == Finite(0.0)
    ensures a.centre.Finite? ==> a.centre.v <= 1.0
    ensures sc.base.Finite? ==> a.middle == Finite(sc.base.v * signalOpacity)
    ensures sc.base.Finite? ==> a.trailHead == Finite(sc.base.v * signalOpacity * 0.5)
    ensures sc.base.Finite? ==>
      var twice := sc.base.v * signalOpacity * 2.0;
      a.centre == Finite(if twice <= 1.0 then twice else 1.0)
  {
    var middle := Times(sc.base, signalOpacity);
    SignalAlphas(MinOne(Times(middle, 2.0)), middle, Finite(0.0), Times(middle, 0.5))
  }

  /** A THREE.Color: three channels, nominally in [0, 1]. */
  datatype Rgb = Rgb(r: real, g: real, b: real)

  /** The dark blue `parseColor` falls back to. */
  const DefaultRgb: Rgb := Rgb(0.1, 0.21, 0.36)

  /**
   * `parseColor` of the 3D background: each matched channel over 255, or the
   * dark blue fallback for an empty string or text that does not match.
   */
  function ParseColour(text: string): (c: Rgb)
    ensures text == [] ==> c == DefaultRgb
    ensures Search(text).None? ==> c == DefaultRgb
    ensures text != [] && Search(text).Some? ==> c == ChannelsRgb(Search(text).value)
  {
    if text == [] then DefaultRgb
    else
      match Search(text)
      case None => DefaultRgb
      case Some(m) => ChannelsRgb(m)
  }

  function ChannelsRgb(m: RgbaMatch): Rgb
    requires WellFormed(m)
  {
    Rgb(DigitsValue(m.red) as real / 255.0, DigitsValue(m.green) as real / 255.0, DigitsValue(m.blue) as real / 255.0)
  }

  /** Channels up to 255 give a colour inside the unit cube; nothing above 255 is clamped. */
  lemma ParseColourInUnitCube(text: string)
    requires text != [] && Search(text).Some?
    requires var m := Search(text).value;
      DigitsValue(m.red) <= 255 && DigitsValue(m.green) <= 255 && DigitsValue(m.blue) <= 255
    ensures var c := ParseColour(text);
      0.0 <= c.r <= 1.0 && 0.0 <= c.g <= 1.0 && 0.0 <= c.b <= 1.0
  {
  }

  /** The fallback texts match, with the channels and alphas written in them. */
  lemma DefaultNodeColourMatches()
    ensures Search(DefaultNodeColour) == Some(RgbaMatch("26", "54", "93", Some("0.6")))
  {
    assert FormatRgba("26", "54", "93", Some("0.6")) == DefaultNodeColour;
    MatchFormat("26", "54", "93", Some("0.6"));
  }

  lemma DefaultEdgeColourMatches()
    ensures Search(DefaultEdgeColour) == Some(RgbaMatch("26", "54", "93", Some("0.5")))
  {
    assert FormatRgba("26", "54", "93", Some("0.5")) == DefaultEdgeColour;
    MatchFormat("26", "54", "93", Some("0.5"));
  }

  lemma DefaultSignalColourMatches()
    ensures Search(DefaultSignalColour) == Some(RgbaMatch("14", "165", "233", Some("0.9")))
  {
    assert FormatRgba("14", "165", "233", Some("0.9")) == DefaultSignalColour;
    MatchFormat("14", "165", "233", Some("0.9"));
  }



}
