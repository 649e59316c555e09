/**
 * The theme hook: which theme the page starts in, how it is changed and
 * toggled, and what applying it does to the document (the colour custom
 * properties, the saved preference and the `theme-<name>` body class).
 */
module Theme {
  import opened Js

  /** The own keys of `themes`, in declaration order: `Object.keys(themes)`. */
  const ThemeNames: seq<string> := ["dark", "light"]

  /** Members that `themes`, an object literal, inherits from Object.prototype. */
  const Inherited: set<string> := {
    "constructor", "hasOwnProperty", "isPrototypeOf", "propertyIsEnumerable",
    "toLocaleString", "toString", "valueOf", "__proto__",
    "__defineGetter__", "__defineSetter__", "__lookupGetter__", "__lookupSetter__"}

  /** `themes[name]` is truthy: an own key, or a member inherited from Object.prototype. */
  predicate Known(name: string) {
    name in ThemeNames || name in Inherited
  }

  /** `themes[name]` is a palette, with a `colors` object: only the own keys. */
  predicate HasPalette(name: string) {
    name in ThemeNames
  }

  /** The localStorage key of the saved preference. */
  const StorageKey := "aess-theme"

  /** The order `toggleTheme` cycles through. */
  const ToggleOrder: seq<string> := ["default", "light", "dark"]

  /**
   * The initial state of the hook: the saved theme when it is known, else
   * the configured default when it is known, else 'default' (which is not a
   * key of `themes`).
   */
  function InitialTheme(saved: Option<string>, envTheme: string): (t: string)
    ensures saved.Some? && Known(saved.value) ==> t == saved.value
    ensures !(saved.Some? && Known(saved.value)) && Known(envTheme) ==> t == envTheme
    ensures !(saved.Some? && Known(saved.value)) && !Known(envTheme) ==> t == "default"
    ensures Known(t) || t == "default"
  {
    if saved.Some? && saved.value != "" && Known(saved.value) then saved.value
    else if envTheme != "" && Known(envTheme) then envTheme
    else "default"
  }

  /** Array.prototype.indexOf: the first index holding x, or -1. */
  function IndexOf(xs: seq<string>, x: string): (i: int)
    ensures -1 <= i < |xs|
    ensures i >= 0 ==> xs[i] == x && x !in xs[..i]
    ensures i == -1 <==> x !in xs
  {
    if xs == [] then -1
    else if xs[0] == x then 0
    else
      var j := IndexOf(xs[1..], x);
      assert j >= 0 ==> xs[..j + 1] == [xs[0]] + xs[1..][..j];
      if j == -1 then -1 else j + 1
  }

  /** ASCII white space, which separates the tokens of a class attribute. */
  predicate IsAsciiSpace(c: char) {
    c == '\t' || c == '\n' || c == '\U{C}' || c == '\r' || c == ' '
  }

  /** `\w`: a letter, a digit or an underscore. */
  predicate IsWordChar(c: char) {
    ('a' <= c <= 'z') || ('A' <= c <= 'Z') || ('0' <= c <= '9') || c == '_'
  }

  const ThemePrefix := "theme-"

  /** `theme-` starts at i. */
  predicate PrefixAt(s: string, i: nat) {
    i + 6 <= |s| && s[i..i + 6] == ThemePrefix
  }

  /** `theme-\w+` starts at i: the prefix, then at least one word character. */
  predicate MatchAt(s: string, i: nat) {
    PrefixAt(s, i) && i + 6 < |s| && IsWordChar(s[i + 6])
  }

  /** Index just past the run of word characters starting at i (the greedy `\w+`). */
  function WordEnd(s: string, i: nat): (j: nat)
    requires i <= |s|
    ensures i <= j <= |s|
    ensures j < |s| ==> !IsWordChar(s[j])
    decreases |s| - i
  {
    if i < |s| && IsWordChar(s[i]) then WordEnd(s, i + 1) else i
  }

  /** The replacement scan from position i: each match is dropped and the scan resumes after it. */
  function StripFrom(s: string, i: nat): (r: string)
    requires i <= |s|
    ensures |r| <= |s| - i
    decreases |s| - i
  {
    if i == |s| then []
    else if MatchAt(s, i) then StripFrom(s, WordEnd(s, i + 6))
    else [s[i]] + StripFrom(s, i + 1)
  }

  /** `s.replace(/theme-\w+/g, '')` */
  function StripThemes(s: string): (r: string)
    ensures |r| <= |s|
  {
    StripFrom(s, 0)
  }

  /** Index of the first white space at or after i, or the end. */
  function TokenEnd(s: string, i: nat): (j: nat)
    requires i <= |s|
    ensures i <= j <= |s|
    ensures j < |s| ==> IsAsciiSpace(s[j])
    ensures i < |s| && !IsAsciiSpace(s[i]) ==> i < j
    decreases |s| - i
  {
    if i < |s| && !IsAsciiSpace(s[i]) then TokenEnd(s, i + 1) else i
  }

  /** The tokens of a class attribute, in order: the runs between white space. */
  function Split(s: string): (ts: seq<string>)
    decreases |s|
  {
    if s == [] then []
    else if IsAsciiSpace(s[0]) then Split(s[1..])
    else
      var e := TokenEnd(s, 0);
      [s[..e]] + Split(s[e..])
  }

  /** Tokens joined by single spaces: how a DOMTokenList writes its attribute back. */
  function Join(ts: seq<string>): string {
    if ts == [] then []
    else if |ts| == 1 then ts[0]
    else ts[0] + " " + Join(ts[1..])
  }

  /** A token as a class list holds it: not empty, without white space. */
  predicate Clean(t: string) {
    t != [] && forall k | 0 <= k < |t| :: !IsAsciiSpace(t[k])
  }

  predicate AllClean(ts: seq<string>) {
    forall t | t in ts :: Clean(t)
  }

  predicate Distinct(ts: seq<string>) {
    forall i, j | 0 <= i < j < |ts| :: ts[i] != ts[j]
  }

  /** The ordered set of the tokens: each kept where it first appears. */
  function Dedup(ts: seq<string>): (r: seq<string>)
    ensures Distinct(r)
    ensures forall t :: t in r <==> t in ts
  {
    if ts == [] then []
    else
      var d := Dedup(ts[..|ts| - 1]);
      assert forall t :: t in ts <==> t in ts[..|ts| - 1] || t == ts[|ts| - 1];
      if ts[|ts| - 1] in d then d else d + [ts[|ts| - 1]]
  }

  /** `classList` of an element whose class attribute is s. */
  function ClassList(s: string): seq<string> {
    Dedup(Split(s))
  }

  /** `classList.add(token)` on a token set: appended unless already there. */
  function AddToken(ts: seq<string>, token: string): (r: seq<string>)
    ensures Distinct(ts) ==> Distinct(r)
    ensures forall t :: t in r <==> t in ts || t == token
  {
    if token in ts then ts else ts + [token]
  }

  /**
   * The body class after the effect: the `theme-\w+` runs are removed and
   * the result trimmed, then `theme-<current>` is added to the class list.
   */
  function BodyClass(className: string, current: string): string {
    Join(AddToken(ClassList(Trim(StripThemes(className))), ThemePrefix + current))
  }

  /** A theme name as a class name suffix: one or more word characters. */
  predicate IsWord(w: string) {
    w != [] && forall k | 0 <= k < |w| :: IsWordChar(w[k])
  }

  /** A class `theme-<word>`, which the effect removes. */
  predicate IsThemeClass(t: string) {
    |t| > 6 && t[..6] == ThemePrefix && IsWord(t[6..])
  }

  /** A class the effect leaves alone: no white space of any kind and no `theme-` inside it. */
  predicate Plain(t: string) {
    && t != []
    && (forall k | 0 <= k < |t| :: !IsWhiteSpace(t[k]))
    && (forall i | 0 <= i <= |t| :: !PrefixAt(t, i))
  }

  /** The plain tokens of a list, in order. */
  function KeepPlain(ts: seq<string>): (r: seq<string>)
    ensures forall t :: t in r <==> t in ts && Plain(t)
  {
    if ts == [] then []
    else
      var rest := KeepPlain(ts[1..]);
      assert forall t :: t in ts <==> t == ts[0] || t in ts[1..];
      if Plain(ts[0]) then [ts[0]] + rest else rest
  }

  /**
   * The hook together with the parts of the document it writes: the
   * current theme (the hook's state), the custom properties of the root
   * element, localStorage and the class attribute of the body.
   */
  class ThemeHook {
    var current: string
    var styleProps: map<string, string>
    var storage: map<string, string>
    var bodyClass: string

    /**
     * The first render: the state starts from the saved preference, the
     * configured default or 'default'; the document is as the page left it.
     */
    constructor (envTheme: string, styleProps0: map<string, string>, storage0: map<string, string>, bodyClass0: string)
      ensures current == InitialTheme(if StorageKey in storage0 then Some(storage0[StorageKey]) else None, envTheme)
      ensures styleProps == styleProps0 && storage == storage0 && bodyClass == bodyClass0
    {
      current := InitialTheme(if StorageKey in storage0 then Some(storage0[StorageKey]) else None, envTheme);
      styleProps, storage, bodyClass := styleProps0, storage0, bodyClass0;
    }

    /** `setTheme(name)`: the state changes only to a known theme. */
    method SetTheme(name: string)
      modifies this`current
      ensures Known(name) ==> current == name
      ensures !Known(name) ==> current == old(current)
    {
      if name != "" && Known(name) {
        current := name;
      }
    }

    /**
     * `toggleTheme`: the entry after the current one in the toggle order,
     * through `setTheme`. 'default' is not a key of `themes`, so from 'dark'
     * the toggle is refused and 'dark' stays; a theme outside the order
     * would go to index 0, 'default', and stays too.
     */
    method ToggleTheme()
      modifies this`current
      ensures old(current) == "default" ==> current == "light"
      ensures old(current) == "light" ==> current == "dark"
      ensures old(current) == "dark" ==> current == "dark"
      ensures old(current) !in ToggleOrder ==> current == old(current)
    {
      var currentIndex := IndexOf(ToggleOrder, current);
      var nextIndex := (currentIndex + 1) % |ToggleOrder|;
      SetTheme(ToggleOrder[nextIndex]);
    }

    /**
     * The effect that applies the current theme. Reading `colors` of
     * anything but a palette yields undefined and `Object.entries` throws
     * before anything is written. Otherwise each colour becomes the custom
     * property `--color-<key>`, the theme is saved under `aess-theme`, and
     * the body class is rewritten.
     */
    method ApplyTheme(colors: seq<(string, string)>) returns (threw: bool)
      requires forall i, j | 0 <= i < j < |colors| :: colors[i].0 != colors[j].0
      modifies this`styleProps, this`storage, this`bodyClass
      ensures threw <==> !HasPalette(current)
      ensures threw ==> styleProps == old(styleProps) && storage == old(storage) && bodyClass == old(bodyClass)
      ensures !threw ==> Stamped(old(styleProps), colors, styleProps)
      ensures !threw ==> storage == old(storage)[StorageKey := current]
      ensures !threw ==> bodyClass == BodyClass(old(bodyClass), current)
    {
      if !HasPalette(current) {
        return true;
      }
      threw := false;
      SetColours(colors);
      storage := storage[StorageKey := current];
      bodyClass := Trim(StripThemes(bodyClass));
      bodyClass := Join(AddToken(ClassList(bodyClass), ThemePrefix + current));
    }

    /** `Object.entries(theme.colors).forEach(...)`: `root.style.setProperty('--color-' + key, value)` for each entry. */
    method SetColours(colors: seq<(string, string)>)
      requires forall i, j | 0 <= i < j < |colors| :: colors[i].0 != colors[j].0
      modifies this`styleProps
      ensures Stamped(old(styleProps), colors, styleProps)
    {
      var i := 0;
      while i < |colors|
        invariant 0 <= i <= |colors|
        invariant Stamped(old(styleProps), colors[..i], styleProps)
      {
        PropertyNamesDiffer(colors, i);
        StampedSnoc(old(styleProps), colors[..i], colors[i], styleProps);
        assert colors[..i + 1] == colors[..i] + [colors[i]];
        styleProps := styleProps[PropertyName(colors[i].0) := colors[i].1];
        i := i + 1;
      }
      assert colors[..i] == colors;
    }
  }

  /** The custom property a colour key is written to. */
  function PropertyName(key: string): string {
    "--color-" + key
  }

  /**
   * The properties after `setProperty` for each entry: every entry's
   * property holds its value, and every other property keeps its own.
   */
  predicate Stamped(before: map<string, string>, colors: seq<(string, string)>, after: map<string, string>) {
    && (forall i | 0 <= i < |colors| :: PropertyName(colors[i].0) in after && after[PropertyName(colors[i].0)] == colors[i].1)
    && (forall p | p in after :: p in before || exists i | 0 <= i < |colors| :: p == PropertyName(colors[i].0))
    && (forall p | p in before && (forall i | 0 <= i < |colors| :: p != PropertyName(colors[i].0)) ::
          p in after && after[p] == before[p])
  }

  /** Distinct keys give distinct property names. */
  lemma PropertyNamesDiffer(colors: seq<(string, string)>, i: nat)
    requires i < |colors|
    requires forall a, b | 0 <= a < b < |colors| :: colors[a].0 != colors[b].0
    ensures forall k | 0 <= k < i :: PropertyName(colors[k].0) != PropertyName(colors[i].0)
  {
    forall k | 0 <= k < i
      ensures PropertyName(colors[k].0) != PropertyName(colors[i].0)
    {
      assert PropertyName(colors[k].0)[8..] == colors[k].0;
      assert PropertyName(colors[i].0)[8..] == colors[i].0;
    }
  }

  /** One more `setProperty` extends the stamped entries by one. */
  lemma StampedSnoc(before: map<string, string>, done: seq<(string, string)>, entry: (string, string),
                    mid: map<string, string>)
    requires forall k | 0 <= k < |done| :: PropertyName(done[k].0) != PropertyName(entry.0)
    requires Stamped(before, done, mid)
    ensures Stamped(before, done + [entry], mid[PropertyName(entry.0) := entry.1])
  {
    var all := done + [entry];
    var after := mid[PropertyName(entry.0) := entry.1];
    forall p | p in after
      ensures p in before || exists i | 0 <= i < |all| :: p == PropertyName(all[i].0)
    {
      if p == PropertyName(entry.0) {
        assert p == PropertyName(all[|done|].0);
      } else if p !in before {
        var i :| 0 <= i < |done| && p == PropertyName(done[i].0);
        assert p == PropertyName(all[i].0);
      }
    }
    forall p | p in before && (forall i | 0 <= i < |all| :: p != PropertyName(all[i].0))
      ensures p in after && after[p] == before[p]
    {
      assert p != PropertyName(all[|done|].0);
      assert forall i | 0 <= i < |done| :: all[i] == done[i];
    }
  }

  /** Each token of a list with its `theme-\w+` runs removed. */
  function StripEach(ts: seq<string>): (us: seq<string>)
    ensures |us| == |ts|
    ensures forall i | 0 <= i < |ts| :: us[i] == StripThemes(ts[i])
  {
    if ts == [] then [] else [StripThemes(ts[0])] + StripEach(ts[1..])
  }

  /** The non-empty strings of a list, in order. */
  function NonEmpty(us: seq<string>): seq<string> {
    if us == [] then []
    else if us[0] == [] then NonEmpty(us[1..])
    else [us[0]] + NonEmpty(us[1..])
  }

  /** A string without white space between its separators. */
  predicate NoSpace(u: string) {
    forall k | 0 <= k < |u| :: !IsAsciiSpace(u[k])
  }

  /** Its only ECMAScript white space is the space character. */
  predicate Spaced(s: string) {
    forall k | 0 <= k < |s| :: IsWhiteSpace(s[k]) ==> s[k] == ' '
  }

  lemma {:induction false} TokenEndAt(s: string, i: nat, j: nat)
    requires i <= j <= |s|
    requires forall k | i <= k < j :: !IsAsciiSpace(s[k])
    requires j < |s| ==> IsAsciiSpace(s[j])
    ensures TokenEnd(s, i) == j
    decreases j - i
  {
    if i < j {
      TokenEndAt(s, i + 1, j);
    }
  }

  lemma {:induction false} WordEndAt(s: string, i: nat, j: nat)
    requires i <= j <= |s|
    requires forall k | i <= k < j :: IsWordChar(s[k])
    requires j < |s| ==> !IsWordChar(s[j])
    ensures WordEnd(s, i) == j
    decreases j - i
  {
    if i < j {
      WordEndAt(s, i + 1, j);
    }
  }

  /** Nothing but white space. */
  predicate Spaces(w: string) {
    forall k | 0 <= k < |w| :: IsAsciiSpace(w[k])
  }

  lemma SpacesSlice(x: string, i: nat, j: nat)
    requires i <= j <= |x| && forall k | i <= k < j :: IsAsciiSpace(x[k])
    ensures Spaces(x[i..j])
  {
    assert forall k | 0 <= k < j - i :: x[i..j][k] == x[i + k];
  }

  /** Leading white space adds no token. */
  lemma {:induction false} SplitSpacesLeft(w: string, y: string)
    requires Spaces(w)
    ensures Split(w + y) == Split(y)
    decreases |w|
  {
    if w != [] {
      assert (w + y)[1..] == w[1..] + y;
      SplitSpacesLeft(w[1..], y);
    } else {
      assert w + y == y;
    }
  }

  /** Trailing white space adds no token. */
  lemma {:induction false} SplitSpacesRight(y: string, w: string)
    requires Spaces(w)
    ensures Split(y + w) == Split(y)
    decreases |y|
  {
    var s := y + w;
    if y == [] {
      SplitSpacesLeft(w, []);
      assert w + [] == w && s == w;
    } else if IsAsciiSpace(y[0]) {
      assert s[1..] == y[1..] + w;
      SplitSpacesRight(y[1..], w);
    } else {
      var e := TokenEnd(y, 0);
      TokenEndAll(y, 0);
      TokenEndAt(s, 0, e);
      assert s[..e] == y[..e];
      assert s[e..] == y[e..] + w;
      SplitSpacesRight(y[e..], w);
    }
  }

  lemma TokenEndAll(s: string, i: nat)
    requires i <= |s|
    ensures forall k | i <= k < TokenEnd(s, i) :: !IsAsciiSpace(s[k])
    decreases |s| - i
  {
    if i < |s| && !IsAsciiSpace(s[i]) {
      TokenEndAll(s, i + 1);
    }
  }

  /** The tokens of any string are clean. */
  lemma {:induction false} SplitClean(s: string)
    ensures AllClean(Split(s))
    decreases |s|
  {
    if s != [] {
      if IsAsciiSpace(s[0]) {
        SplitClean(s[1..]);
      } else {
        var e := TokenEnd(s, 0);
        TokenEndAll(s, 0);
        SplitClean(s[e..]);
        assert Clean(s[..e]);
      }
    }
  }

  /** Splitting strings joined by spaces gives back the non-empty ones. */
  lemma {:induction false} SplitJoin(us: seq<string>)
    requires forall u | u in us :: NoSpace(u)
    ensures Split(Join(us)) == NonEmpty(us)
  {
    if us == [] {
    } else if |us| == 1 {
      assert us[0] in us;
      SplitWord(us[0]);
      assert NonEmpty(us[1..]) == [];
    } else {
      assert us[0] in us;
      assert forall v | v in us[1..] :: v in us;
      SplitJoin(us[1..]);
      assert Join(us) == us[0] + " " + Join(us[1..]);
      SplitWordThen(us[0], Join(us[1..]));
      NonEmptyCons(us);
    }
  }

  /** The non-empty strings of a sequence: those of its head, then those of its tail. */
  lemma {:induction false} NonEmptyCons(us: seq<string>)
    requires us != []
    ensures NonEmpty(us) == NonEmpty([us[0]]) + NonEmpty(us[1..])
  {
    var h := [us[0]];
    assert NonEmpty(h) == if us[0] == [] then [] else h by {
      assert h[1..] == [];
    }
  }

  /** A string without white space is one token, or none when it is empty. */
  lemma SplitWord(u: string)
    requires NoSpace(u)
    ensures Split(u) == NonEmpty([u])
  {
    if u != [] {
      TokenEndAt(u, 0, |u|);
      assert u[..|u|] == u && u[|u|..] == [];
    }
  }

  /** A string without white space, a space and the rest: that token first, then the rest's. */
  lemma SplitWordThen(u: string, rest: string)
    requires NoSpace(u)
    ensures Split(u + " " + rest) == NonEmpty([u]) + Split(rest)
  {
    var s := u + " " + rest;
    if u == [] {
      assert s == " " + rest && s[1..] == rest;
    } else {
      assert forall k | 0 <= k < |u| :: s[k] == u[k];
      TokenEndAt(s, 0, |u|);
      assert s[..|u|] == u && s[|u|..] == " " + rest;
      assert (" " + rest)[1..] == rest;
    }
  }

  /** Clean tokens are all non-empty. */
  lemma {:induction false} NonEmptyClean(ts: seq<string>)
    requires AllClean(ts)
    ensures NonEmpty(ts) == ts
  {
    if ts != [] {
      assert ts[0] in ts;
      assert forall t | t in ts[1..] :: t in ts;
      NonEmptyClean(ts[1..]);
      assert ts == [ts[0]] + ts[1..];
    }
  }

  /** Writing clean tokens out and reading them back gives the same tokens. */
  lemma SplitJoinClean(ts: seq<string>)
    requires AllClean(ts)
    ensures Split(Join(ts)) == ts
  {
    SplitJoin(ts);
    NonEmptyClean(ts);
  }

  /**
   * Whatever the body class was, afterwards its tokens are distinct, include
   * `theme-<current>`, and are otherwise tokens of the stripped class string.
   */
  lemma BodyClassTokens(className: string, current: string)
    requires NoSpace(current)
    ensures var ts := Split(BodyClass(className, current));
      && ThemePrefix + current in ts
      && Distinct(ts)
      && forall t | t in ts :: t == ThemePrefix + current || t in Split(Trim(StripThemes(className)))
  {
    var kept := ClassList(Trim(StripThemes(className)));
    var added := AddToken(kept, ThemePrefix + current);
    SplitClean(Trim(StripThemes(className)));
    ThemeClassClean(current);
    assert AllClean(added);
    SplitJoinClean(added);
  }

  /** `theme-<name>` is a clean token when the name has no white space. */
  lemma ThemeClassClean(name: string)
    requires NoSpace(name)
    ensures Clean(ThemePrefix + name)
  {
    var t := ThemePrefix + name;
    assert forall k | 0 <= k < 6 :: t[k] == ThemePrefix[k];
    assert forall k | 6 <= k < |t| :: t[k] == name[k - 6];
  }

  /** The scan from a position past a prefix x is the scan of the rest. */
  lemma {:induction false} StripShift(x: string, y: string, j: nat)
    requires j <= |y|
    ensures StripFrom(x + y, |x| + j) == StripFrom(y, j)
    decreases |y| - j
  {
    if j < |y| {
      MatchShift(x, y, j);
      if MatchAt(y, j) {
        WordEndShift(x, y, j + 6);
        StripShift(x, y, WordEnd(y, j + 6));
      } else {
        assert (x + y)[|x| + j] == y[j];
        StripShift(x, y, j + 1);
      }
    }
  }

  /** Past a prefix, a match starts where it starts in the rest. */
  lemma MatchShift(x: string, y: string, j: nat)
    requires j < |y|
    ensures MatchAt(x + y, |x| + j) == MatchAt(y, j)
  {
    var s := x + y;
    if j + 6 <= |y| {
      assert s[|x| + j..|x| + j + 6] == y[j..j + 6];
    }
    if j + 6 < |y| {
      assert s[|x| + j + 6] == y[j + 6];
    }
  }

  /** Past a prefix, a run of word characters ends where it ends in the rest. */
  lemma WordEndShift(x: string, y: string, j: nat)
    requires j <= |y|
    ensures WordEnd(x + y, |x| + j) == |x| + WordEnd(y, j)
  {
    var e := WordEnd(y, j);
    WordEndAll(y, j);
    assert forall k | |x| + j <= k < |x| + e :: (x + y)[k] == y[k - |x|];
    if e < |y| {
      assert (x + y)[|x| + e] == y[e];
    }
    WordEndAt(x + y, |x| + j, |x| + e);
  }

  lemma WordEndAll(s: string, i: nat)
    requires i <= |s|
    ensures forall k | i <= k < WordEnd(s, i) :: IsWordChar(s[k])
    decreases |s| - i
  {
    if i < |s| && IsWordChar(s[i]) {
      WordEndAll(s, i + 1);
    }
  }

  /** Before a space, a match starts where it starts in the text before the space. */
  lemma MatchBeforeSpace(a: string, b: string, i: nat)
    requires i < |a|
    ensures MatchAt(a + " " + b, i) == MatchAt(a, i)
  {
    var s := a + " " + b;
    if i + 6 <= |a| {
      assert s[i..i + 6] == a[i..i + 6];
    } else if i + 6 <= |s| {
      assert s[i..i + 6][|a| - i] == s[|a|] == ' ';
    }
    if i + 6 < |a| {
      assert s[i + 6] == a[i + 6];
    }
  }

  /** No match starts at a space. */
  lemma NoMatchAtSpace(a: string, b: string)
    ensures !MatchAt(a + " " + b, |a|)
  {
    var s := a + " " + b;
    if |a| + 6 <= |s| {
      assert s[|a|..|a| + 6][0] == s[|a|] == ' ';
    }
  }

  /** A run of word characters ends at a space at the latest. */
  lemma WordEndBeforeSpace(a: string, b: string, i: nat)
    requires i <= |a|
    ensures WordEnd(a + " " + b, i) == WordEnd(a, i)
  {
    var s := a + " " + b;
    var e := WordEnd(a, i);
    WordEndAll(a, i);
    assert forall k | i <= k < e :: s[k] == a[k];
    assert s[e] == if e < |a| then a[e] else ' ';
    WordEndAt(s, i, e);
  }

  /** No match runs across a space: the text before a space is stripped on its own. */
  lemma {:induction false} StripAround(a: string, b: string, i: nat)
    requires i <= |a|
    ensures StripFrom(a + " " + b, i) == StripFrom(a, i) + " " + StripFrom(b, 0)
    decreases |a| - i
  {
    var s := a + " " + b;
    if i == |a| {
      NoMatchAtSpace(a, b);
      assert s[i] == ' ';
      StripShift(a + " ", b, 0);
      assert s == (a + " ") + b;
    } else {
      MatchBeforeSpace(a, b, i);
      if MatchAt(a, i) {
        WordEndBeforeSpace(a, b, i + 6);
        StripAround(a, b, WordEnd(a, i + 6));
      } else {
        assert s[i] == a[i];
        StripAround(a, b, i + 1);
      }
    }
  }

  /** Stripping tokens joined by spaces strips each token. */
  lemma {:induction false} StripJoin(ts: seq<string>)
    ensures StripThemes(Join(ts)) == Join(StripEach(ts))
  {
    if |ts| >= 2 {
      StripAround(ts[0], Join(ts[1..]), 0);
      StripJoin(ts[1..]);
      assert StripEach(ts)[1..] == StripEach(ts[1..]);
    }
  }

  /** A plain class has nothing to strip. */
  lemma {:induction false} StripPlain(t: string, i: nat)
    requires i <= |t| && forall k | 0 <= k <= |t| :: !PrefixAt(t, k)
    ensures StripFrom(t, i) == t[i..]
    decreases |t| - i
  {
    if i < |t| {
      assert !MatchAt(t, i);
      StripPlain(t, i + 1);
      assert t[i..] == [t[i]] + t[i + 1..];
    }
  }

  /** A theme class is stripped entirely. */
  lemma StripThemeClass(t: string)
    requires IsThemeClass(t)
    ensures StripThemes(t) == []
  {
    assert t[..6] == t[0..6];
    assert IsWordChar(t[6]) by { assert t[6..][0] == t[6]; }
    assert MatchAt(t, 0);
    assert forall k | 6 <= k < |t| :: IsWordChar(t[k]) by {
      assert forall k | 6 <= k < |t| :: t[6..][k - 6] == t[k];
    }
    WordEndAt(t, 6, |t|);
  }

  /** Stripping a list of plain and theme classes keeps exactly the plain ones. */
  lemma {:induction false} StripKeepsPlain(ts: seq<string>)
    requires forall t | t in ts :: Plain(t) || IsThemeClass(t)
    ensures NonEmpty(StripEach(ts)) == KeepPlain(ts)
  {
    if ts != [] {
      var t := ts[0];
      assert t in ts;
      assert forall u | u in ts[1..] :: u in ts;
      StripKeepsPlain(ts[1..]);
      assert StripEach(ts)[1..] == StripEach(ts[1..]);
      if Plain(t) {
        StripPlain(t, 0);
        assert t[0..] == t;
      } else {
        StripThemeClass(t);
      }
    }
  }

  /** Joining strings free of white space leaves the separators as the only white space. */
  lemma {:induction false} JoinSpaced(us: seq<string>)
    requires forall u | u in us :: forall k | 0 <= k < |u| :: !IsWhiteSpace(u[k])
    ensures Spaced(Join(us))
  {
    if |us| >= 2 {
      assert us[0] in us;
      assert forall u | u in us[1..] :: u in us;
      JoinSpaced(us[1..]);
      var s := us[0] + " " + Join(us[1..]);
      assert forall k | 0 <= k < |us[0]| :: s[k] == us[0][k];
      assert forall k | |us[0]| < k < |s| :: s[k] == Join(us[1..])[k - |us[0]| - 1];
    } else if |us| == 1 {
      assert us[0] in us;
    }
  }

  /** Trimming a string whose only white space is spaces changes none of its tokens. */
  lemma SplitTrim(x: string)
    requires Spaced(x)
    ensures Split(Trim(x)) == Split(x)
  {
    var start := SpaceEnd(x, 0);
    SpaceEndAll(x, 0);
    if start == |x| {
      SplitSpacesLeft(x, []);
      assert x + [] == x;
    } else {
      var end := TrimmedEnd(x, |x|, start);
      assert Trim(x) == x[start..end];
      assert forall k | 0 <= k < start :: IsAsciiSpace(x[k]);
      assert forall k | end <= k < |x| :: IsAsciiSpace(x[k]);
      SpacesSlice(x, 0, start);
      SpacesSlice(x, end, |x|);
      assert x[..start] == x[0..start] && x[end..] == x[end..|x|];
      SplitMiddle(x, start, end);
    }
  }

  /** Cutting white space off both ends of a string changes none of its tokens. */
  lemma SplitMiddle(x: string, i: nat, j: nat)
    requires i <= j <= |x| && Spaces(x[..i]) && Spaces(x[j..])
    ensures Split(x[i..j]) == Split(x)
  {
    var y := x[i..];
    assert Split(y) == Split(x) by { SplitDropHead(x, i); }
    assert Split(x[i..j]) == Split(y) by {
      assert y[j - i..] == x[j..];
      SplitDropTail(y, j - i);
      assert y[..j - i] == x[i..j];
    }
  }

  /** Cutting leading white space changes no token. */
  lemma SplitDropHead(x: string, i: nat)
    requires i <= |x| && Spaces(x[..i])
    ensures Split(x[i..]) == Split(x)
  {
    assert x == x[..i] + x[i..];
    SplitSpacesLeft(x[..i], x[i..]);
  }

  /** Cutting trailing white space changes no token. */
  lemma SplitDropTail(y: string, j: nat)
    requires j <= |y| && Spaces(y[j..])
    ensures Split(y[..j]) == Split(y)
  {
    assert y == y[..j] + y[j..];
    SplitSpacesRight(y[..j], y[j..]);
  }

  /**
   * A body class made of plain classes and `theme-<word>` classes: after
   * the effect its classes are the plain ones, once each and in order, then
   * `theme-<current>`; every earlier theme class is gone.
   */
  lemma SwitchTheme(ts: seq<string>, current: string)
    requires forall t | t in ts :: Plain(t) || IsThemeClass(t)
    requires IsWord(current)
    ensures Split(BodyClass(Join(ts), current)) == AddToken(Dedup(KeepPlain(ts)), ThemePrefix + current)
  {
    StrippedTokens(ts);
    var added := AddToken(Dedup(KeepPlain(ts)), ThemePrefix + current);
    assert NoSpace(current);
    ThemeClassClean(current);
    assert forall t | t in KeepPlain(ts) :: Clean(t);
    assert AllClean(added);
    SplitJoinClean(added);
  }

  /** The tokens left once the theme classes are stripped and the string trimmed: the plain classes. */
  lemma StrippedTokens(ts: seq<string>)
    requires forall t | t in ts :: Plain(t) || IsThemeClass(t)
    ensures Split(Trim(StripThemes(Join(ts)))) == KeepPlain(ts)
  {
    var us := StripEach(ts);
    StripJoin(ts);
    assert forall u | u in us :: u == [] || Plain(u) by {
      forall u | u in us
        ensures u == [] || Plain(u)
      {
        var i :| 0 <= i < |us| && us[i] == u;
        assert ts[i] in ts;
        if Plain(ts[i]) {
          StripPlain(ts[i], 0);
          assert ts[i][0..] == ts[i];
        } else {
          StripThemeClass(ts[i]);
        }
      }
    }
    JoinSpaced(us);
    SplitTrim(Join(us));
    assert forall u | u in us :: NoSpace(u);
    SplitJoin(us);
    StripKeepsPlain(ts);
  }
}
