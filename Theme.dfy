/** `src/components/ThemeProvider.tsx`: the colour theme, its partial updates,
    and the text colours chosen from the background's brightness. Saving to
    and loading from browser storage and writing CSS variables are not
    modelled. */
module Theme {
  import opened JsText

  datatype Theme = Theme(
    primary: string,
    secondary: string,
    accent: string,
    background: string,
    businessName: string,
    logoUrl: Option<string>,
    location: Option<string>,
    phone: Option<string>,
    policy: Option<string>,
    slogan: Option<string>)

  /** `Partial<Theme>`: `None` for a key that is not present. */
  datatype ThemePatch = ThemePatch(
    primary: Option<string>,
    secondary: Option<string>,
    accent: Option<string>,
    background: Option<string>,
    businessName: Option<string>,
    logoUrl: Option<string>,
    location: Option<string>,
    phone: Option<string>,
    policy: Option<string>,
    slogan: Option<string>)

  const NoChanges: ThemePatch := ThemePatch(None, None, None, None, None, None, None, None, None, None)

  const DefaultTheme: Theme := Theme("#318AD8", "#ebebeb", "#0042aa", "#ffffff", "eyeroniq PoS Lite",
                                     Some(""), Some(""), Some(""), Some(""), Some(""))

  const DarkText: string := "#171717"
  const LightText: string := "#f8fafc"
  const DarkMuted: string := "#525252"
  const LightMuted: string := "#94a3b8"

  function Pick(supplied: Option<string>, current: string): string {
    if supplied.Some? then supplied.value else current
  }

  function PickOpt(supplied: Option<string>, current: Option<string>): Option<string> {
    if supplied.Some? then supplied else current
  }

  /** `{ ...theme, ...patch }`. */
  function Merge(t: Theme, p: ThemePatch): Theme {
    Theme(Pick(p.primary, t.primary), Pick(p.secondary, t.secondary), Pick(p.accent, t.accent),
          Pick(p.background, t.background), Pick(p.businessName, t.businessName),
          PickOpt(p.logoUrl, t.logoUrl), PickOpt(p.location, t.location), PickOpt(p.phone, t.phone),
          PickOpt(p.policy, t.policy), PickOpt(p.slogan, t.slogan))
  }

  /** The state's initial value: the defaults overridden by `initialTheme`. */
  function InitialTheme(initial: Option<ThemePatch>): Theme {
    Merge(DefaultTheme, if initial.Some? then initial.value else NoChanges)
  }

  /** `updateTheme(newTheme)`. */
  function UpdateTheme(prev: Theme, p: ThemePatch): Theme {
    Merge(prev, p)
  }

  /** `resetTheme()`. */
  function ResetTheme(): Theme {
    DefaultTheme
  }

  /** An update stores every supplied key and keeps every other one. */
  lemma UpdateThemeEffect(prev: Theme, p: ThemePatch)
    ensures var t := UpdateTheme(prev, p);
      && t.primary == (if p.primary.Some? then p.primary.value else prev.primary)
      && t.secondary == (if p.secondary.Some? then p.secondary.value else prev.secondary)
      && t.accent == (if p.accent.Some? then p.accent.value else prev.accent)
      && t.background == (if p.background.Some? then p.background.value else prev.background)
      && t.businessName == (if p.businessName.Some? then p.businessName.value else prev.businessName)
      && t.logoUrl == (if p.logoUrl.Some? then p.logoUrl else prev.logoUrl)
      && t.location == (if p.location.Some? then p.location else prev.location)
      && t.phone == (if p.phone.Some? then p.phone else prev.phone)
      && t.policy == (if p.policy.Some? then p.policy else prev.policy)
      && t.slogan == (if p.slogan.Some? then p.slogan else prev.slogan)
  {
  }

  /** Applying an update twice is applying it once; an empty update changes
      nothing; no initial theme means the defaults. */
  lemma UpdateThemeIdempotent(prev: Theme, p: ThemePatch)
    ensures UpdateTheme(UpdateTheme(prev, p), p) == UpdateTheme(prev, p)
    ensures UpdateTheme(prev, NoChanges) == prev
    ensures InitialTheme(None) == DefaultTheme
  {
  }

  // ------------------------------------------------------------ brightness

  /** `s.replace(c, '')` with a string pattern: only the first occurrence goes. */
  function RemoveFirst(s: string, c: char): (r: string)
    ensures c !in s ==> r == s
    ensures c in s ==> |r| == |s| - 1
  {
    if s == [] then []
    else if s[0] == c then s[1..]
    else [s[0]] + RemoveFirst(s[1..], c)
  }

  /** `s.substring(a, b)` for `a <= b`: both ends clamped to the length. */
  function Substring(s: string, a: nat, b: nat): string
    requires a <= b
  {
    s[Min(a, |s|)..Min(b, |s|)]
  }

  function HexDigit(c: char): Option<nat> {
    if '0' <= c <= '9' then Some(c as int - '0' as int)
    else if 'a' <= c <= 'f' then Some(c as int - 'a' as int + 10)
    else if 'A' <= c <= 'F' then Some(c as int - 'A' as int + 10)
    else None
  }

  /** The number of leading hexadecimal digits. */
  function HexRun(s: string): (n: nat)
    ensures n <= |s|
    ensures forall i :: 0 <= i < n ==> HexDigit(s[i]).Some?
  {
    if s != [] && HexDigit(s[0]).Some? then 1 + HexRun(s[1..]) else 0
  }

  function HexValue(s: string): nat
    requires forall i :: 0 <= i < |s| ==> HexDigit(s[i]).Some?
  {
    if s == [] then 0 else HexValue(s[..|s| - 1]) * 16 + HexDigit(s[|s| - 1]).value
  }

  /** `parseInt(s, 16)`: an optional sign, an optional `0x`, then the longest
      run of hexadecimal digits; `None` (NaN) when there is none. */
  function ParseHex(s: string): Option<int> {
    var negative := |s| > 0 && s[0] == '-';
    var unsigned := if |s| > 0 && (s[0] == '-' || s[0] == '+') then s[1..] else s;
    var body := if |unsigned| >= 2 && unsigned[0] == '0' && (unsigned[1] == 'x' || unsigned[1] == 'X') then unsigned[2..] else unsigned;
    var n := HexRun(body);
    if n == 0 then None
    else
      var v: int := HexValue(body[..n]);
      Some(if negative then -v else v)
  }

  /** `r * 299 + g * 587 + b * 114`, 1000 times the YIQ brightness, or `None`
      when a channel is NaN. */
  function Brightness(hexColor: string): Option<int> {
    var hex := RemoveFirst(hexColor, '#');
    Weighted(ParseHex(Substring(hex, 0, 2)), ParseHex(Substring(hex, 2, 4)), ParseHex(Substring(hex, 4, 6)))
  }

  function Weighted(r: Option<int>, g: Option<int>, b: Option<int>): Option<int> {
    if r.Some? && g.Some? && b.Some? then Some(r.value * 299 + g.value * 587 + b.value * 114) else None
  }

  /** `yiq >= 128`; a NaN brightness compares false. */
  predicate IsLight(hexColor: string) {
    var y := Brightness(hexColor);
    y.Some? && y.value >= 128000
  }

  /** `getContrastColor`. */
  function ContrastColor(hexColor: string): (c: string)
    ensures c == DarkText || c == LightText
  {
    if IsLight(hexColor) then DarkText else LightText
  }

  /** `getMutedColor`. */
  function MutedColor(hexColor: string): (c: string)
    ensures c == DarkMuted || c == LightMuted
  {
    if IsLight(hexColor) then DarkMuted else LightMuted
  }

  /** The two colours always agree on whether the background is light. */
  lemma ContrastAndMutedAgree(hexColor: string)
    ensures ContrastColor(hexColor) == "#171717" <==> MutedColor(hexColor) == "#525252"
    ensures ContrastColor(hexColor) == "#f8fafc" <==> MutedColor(hexColor) == "#94a3b8"
  {
  }

  function HexChar(d: nat): (c: char)
    requires d < 16
    ensures HexDigit(c) == Some(d)
  {
    if d < 10 then ('0' as int + d) as char else ('a' as int + d - 10) as char
  }

  /** A channel as two lower-case hexadecimal digits. */
  function Hex2(n: nat): (s: string)
    requires n < 256
    ensures |s| == 2
  {
    [HexChar(n / 16), HexChar(n % 16)]
  }

  /** Two hexadecimal digits read back as the channel they encode. */
  lemma ParseHex2(n: nat)
    requires n < 256
    ensures ParseHex(Hex2(n)) == Some(n)
  {
    var s := Hex2(n);
    assert HexRun(s[1..]) == 1 by {
      assert HexRun(s[1..][1..]) == 0;
    }
    assert HexRun(s) == 2;
    assert s[..2] == s;
    assert s[..1] == [s[0]];
    assert HexValue(s[..1]) == n / 16 by {
      assert s[..1][..0] == [];
    }
  }

  lemma StripHash(hex: string)
    ensures RemoveFirst("#" + hex, '#') == hex
  {
    assert ("#" + hex)[1..] == hex;
  }

  lemma Channels(x: string, y: string, z: string)
    requires |x| == 2 && |y| == 2 && |z| == 2
    ensures Substring(x + y + z, 0, 2) == x
    ensures Substring(x + y + z, 2, 4) == y
    ensures Substring(x + y + z, 4, 6) == z
  {
    var hex := x + y + z;
    assert hex[0..2] == x;
    assert hex[2..4] == y;
    assert hex[4..6] == z;
  }

  /** The brightness of `#` followed by three two-character channels. */
  lemma BrightnessOfChannels(x: string, y: string, z: string)
    requires |x| == 2 && |y| == 2 && |z| == 2
    ensures Brightness("#" + x + y + z) == Weighted(ParseHex(x), ParseHex(y), ParseHex(z))
  {
    assert "#" + x + y + z == "#" + (x + y + z);
    StripHash(x + y + z);
    Channels(x, y, z);
  }

  /** For a colour written `#rrggbb`, the text is dark exactly when
      299r + 587g + 114b reaches 128000. */
  lemma ContrastOfRgb(r: nat, g: nat, b: nat)
    requires r < 256 && g < 256 && b < 256
    ensures ContrastColor("#" + Hex2(r) + Hex2(g) + Hex2(b)) == "#171717" <==> 299 * r + 587 * g + 114 * b >= 128000
    ensures MutedColor("#" + Hex2(r) + Hex2(g) + Hex2(b)) == "#525252" <==> 299 * r + 587 * g + 114 * b >= 128000
  {
    ParseHex2(r);
    ParseHex2(g);
    ParseHex2(b);
    BrightnessOfChannels(Hex2(r), Hex2(g), Hex2(b));
  }

  /** After a reset the background is white and the text dark. */
  lemma ResetGivesDarkText()
    ensures ResetTheme().background == "#ffffff"
    ensures ContrastColor(ResetTheme().background) == "#171717"
    ensures MutedColor(ResetTheme().background) == "#525252"
  {
    WhiteInHex();
    ContrastOfRgb(255, 255, 255);
  }

  lemma WhiteInHex()
    ensures "#" + Hex2(255) + Hex2(255) + Hex2(255) == "#ffffff"
  {
    assert Hex2(255) == "ff";
  }
}
