/**
 * `CanvasManager._alpha` (canvas.js:181-188): turns a `#rgb` or `#rrggbb` colour string into
 * `rgba(r,g,b,a)`. The digit pairs are read with JavaScript's `parseInt(s, 16)` and the numbers
 * written back with JavaScript's number-to-string conversion, both modelled here.
 */
module HexColor {

  /** A number as `parseInt` returns it: an integer or NaN. */
  datatype JsNumber = NaN | Int(value: int)

  predicate IsHexDigit(c: char) {
    '0' <= c <= '9' || 'a' <= c <= 'f' || 'A' <= c <= 'F'
  }

  function HexDigitValue(c: char): (v: nat)
    requires IsHexDigit(c)
    ensures v < 16
  {
    if '0' <= c <= '9' then c as int - '0' as int
    else if 'a' <= c <= 'f' then c as int - 'a' as int + 10
    else c as int - 'A' as int + 10
  }

  /** The white-space characters `parseInt` skips at the front (the ASCII ones and four others). */
  predicate IsJsSpace(c: char) {
    c == ' ' || c == '\t' || c == '\n' || c == '\r' || c == '\U{B}' || c == '\U{C}'
    || c == '\U{A0}' || c == '\U{FEFF}' || c == '\U{2028}' || c == '\U{2029}'
  }

  function TrimStart(s: string): (t: string)
    ensures |t| <= |s| && t == s[|s| - |t|..]
    ensures |t| > 0 ==> !IsJsSpace(t[0])
  {
    if |s| > 0 && IsJsSpace(s[0]) then TrimStart(s[1..]) else s
  }

  /** The length of the run of hexadecimal digits at the front of `s`. */
  function HexRun(s: string): (n: nat)
    ensures n <= |s|
    ensures forall i :: 0 <= i < n ==> IsHexDigit(s[i])
    ensures n < |s| ==> !IsHexDigit(s[n])
  {
    if |s| > 0 && IsHexDigit(s[0]) then 1 + HexRun(s[1..]) else 0
  }

  /** The value of a string of hexadecimal digits, most significant first. */
  function HexValue(ds: string): nat
    requires forall i :: 0 <= i < |ds| ==> IsHexDigit(ds[i])
  {
    if |ds| == 0 then 0 else 16 * HexValue(ds[..|ds| - 1]) + HexDigitValue(ds[|ds| - 1])
  }

  /**
   * `parseInt(s, 16)`: skip leading white space, read an optional sign and an optional `0x`/`0X`
   * prefix, then as many hexadecimal digits as follow; NaN when there are none.
   */
  function ParseInt16(s: string): JsNumber {
    var t := TrimStart(s);
    if |t| > 0 && t[0] == '-' then Negate(ReadHexPrefixed(t[1..]))
    else if |t| > 0 && t[0] == '+' then ReadHexPrefixed(t[1..])
    else ReadHexPrefixed(t)
  }

  function Negate(n: JsNumber): JsNumber {
    match n
    case NaN => NaN
    case Int(i) => Int(-i)
  }

  /** The digits after an optional `0x`/`0X` prefix. */
  function ReadHexPrefixed(u: string): JsNumber {
    if |u| >= 2 && u[0] == '0' && (u[1] == 'x' || u[1] == 'X') then ReadHex(u[2..]) else ReadHex(u)
  }

  /** The value of the leading hexadecimal digits of `w`; NaN when there are none. */
  function ReadHex(w: string): JsNumber {
    var k := HexRun(w);
    if k == 0 then NaN else Int(HexValue(w[..k]))
  }

  predicate IsDecDigit(c: char) {
    '0' <= c <= '9'
  }

  function DecDigit(d: nat): (c: char)
    requires d < 10
    ensures IsDecDigit(c)
  {
    ('0' as int + d) as char
  }

  /** The decimal text of a natural number, without leading zeros. */
  function NatText(n: nat): (r: string)
    ensures |r| > 0
    ensures forall i :: 0 <= i < |r| ==> IsDecDigit(r[i])
  {
    if n < 10 then [DecDigit(n)] else NatText(n / 10) + [DecDigit(n % 10)]
  }

  /** Reads a string of decimal digits. */
  function DecValue(ds: string): nat
    requires forall i :: 0 <= i < |ds| ==> IsDecDigit(ds[i])
  {
    if |ds| == 0 then 0 else 10 * DecValue(ds[..|ds| - 1]) + DecDigitValue(ds[|ds| - 1])
  }

  function DecDigitValue(c: char): (v: nat)
    requires IsDecDigit(c)
    ensures v < 10
  {
    c as int - '0' as int
  }

  /** `NatText` loses nothing: the number can be read back from its text. */
  lemma {:induction false} DecValueOfNatText(n: nat)
    ensures DecValue(NatText(n)) == n
  {
    var r := NatText(n);
    if n >= 10 {
      DecValueOfNatText(n / 10);
      assert r[..|r| - 1] == NatText(n / 10);
    }
  }

  /** JavaScript's text for a number (`${n}`). */
  function NumberText(n: JsNumber): string {
    match n
    case NaN => "NaN"
    case Int(i) => if i < 0 then "-" + NatText(-i) else NatText(i)
  }

  /** `s.slice(i, j)` for `0 <= i <= j`: the bounds are clamped to the string. */
  function Slice(s: string, i: nat, j: nat): (r: string)
    requires i <= j
    ensures |r| <= j - i
  {
    var a := if i < |s| then i else |s|;
    var b := if j < |s| then j else |s|;
    s[a..b]
  }

  /** Each character written twice: `c.split("").map(x => x + x).join("")`. */
  function Doubled(c: string): (r: string)
    ensures |r| == 2 * |c|
    ensures forall i :: 0 <= i < |c| ==> r[2 * i] == c[i] && r[2 * i + 1] == c[i]
  {
    if c == [] then [] else [c[0], c[0]] + Doubled(c[1..])
  }

  /** The text `rgba(r,g,b,val)`. */
  function RgbaText(r: JsNumber, g: JsNumber, b: JsNumber, val: string): string {
    "rgba(" + NumberText(r) + "," + NumberText(g) + "," + NumberText(b) + "," + val + ")"
  }

  /**
   * `_alpha(hex, val)`: the character after the first is the start of the digits; three digits are
   * first doubled; then the digit pairs at 0-2, 2-4 and 4-6 are the red, green and blue values.
   * `val` is the text of the alpha number.
   */
  function Alpha(hex: string, val: string): string {
    var c0 := Slice(hex, 1, |hex| + 1);
    var c := if |c0| == 3 then Doubled(c0) else c0;
    RgbaText(ParseInt16(Slice(c, 0, 2)), ParseInt16(Slice(c, 2, 4)), ParseInt16(Slice(c, 4, 6)), val)
  }

  /** The value of the digit pair `a b`. */
  function PairValue(a: char, b: char): nat
    requires IsHexDigit(a) && IsHexDigit(b)
  {
    16 * HexDigitValue(a) + HexDigitValue(b)
  }

  /** `parseInt` of two hexadecimal digits is their value, a number in 0..255. */
  lemma ParsePair(a: char, b: char)
    requires IsHexDigit(a) && IsHexDigit(b)
    ensures ParseInt16([a, b]) == Int(PairValue(a, b))
    ensures 0 <= PairValue(a, b) <= 255
  {
    var s := [a, b];
    assert !IsJsSpace(a);
    assert TrimStart(s) == s;
    assert a != '-' && a != '+';
    assert b != 'x' && b != 'X';
    assert ReadHexPrefixed(s) == ReadHex(s);
    ReadHexPair(a, b);
  }

  lemma ReadHexPair(a: char, b: char)
    requires IsHexDigit(a) && IsHexDigit(b)
    ensures ReadHex([a, b]) == Int(PairValue(a, b))
  {
    var s := [a, b];
    assert s[1..] == [b];
    assert [b][1..] == [];
    assert HexRun(s) == 2;
    assert s[..2] == s;
    assert s[..1] == [a];
    assert [a][..0] == [];
    assert HexValue([a]) == HexDigitValue(a);
    assert HexValue(s) == PairValue(a, b);
  }

  /**
   * On `#rrggbb` the result is `rgba(r,g,b,val)` with r, g and b the values of the digit pairs
   * 1-2, 3-4 and 5-6, each in 0..255.
   */
  lemma AlphaLongForm(hex: string, val: string)
    requires |hex| == 7
    requires forall i :: 1 <= i < 7 ==> IsHexDigit(hex[i])
    ensures Alpha(hex, val) ==
      RgbaText(Int(PairValue(hex[1], hex[2])), Int(PairValue(hex[3], hex[4])),
               Int(PairValue(hex[5], hex[6])), val)
    ensures PairValue(hex[1], hex[2]) <= 255 && PairValue(hex[3], hex[4]) <= 255
         && PairValue(hex[5], hex[6]) <= 255
  {
    var c := hex[1..];
    assert Slice(hex, 1, 8) == c;
    assert Slice(c, 0, 2) == [hex[1], hex[2]];
    assert Slice(c, 2, 4) == [hex[3], hex[4]];
    assert Slice(c, 4, 6) == [hex[5], hex[6]];
    ParsePair(hex[1], hex[2]);
    ParsePair(hex[3], hex[4]);
    ParsePair(hex[5], hex[6]);
  }

  /** A 3-digit `#rgb` reads as `#rrggbb`: `#abc` gives the same text as `#aabbcc`. */
  lemma AlphaShortForm(hex: string, val: string)
    requires |hex| == 4
    ensures Alpha(hex, val) == Alpha([hex[0], hex[1], hex[1], hex[2], hex[2], hex[3], hex[3]], val)
  {
    var long := [hex[0], hex[1], hex[1], hex[2], hex[2], hex[3], hex[3]];
    var c0 := hex[1..];
    assert Slice(hex, 1, 5) == c0;
    assert Doubled(c0) == long[1..];
    assert Slice(long, 1, 8) == long[1..];
  }

  /** With no digits at all, every component is NaN. */
  lemma AlphaNoDigits(hex: string, val: string)
    requires |hex| <= 1
    ensures Alpha(hex, val) == "rgba(NaN,NaN,NaN," + val + ")"
  {
    assert Slice(hex, 1, |hex| + 1) == [];
    assert ParseInt16([]) == NaN;
  }

  /** A number in 0..255 as two lower-case hexadecimal digits: the colour picker's format. */
  function HexByte(n: nat): (r: string)
    requires n < 256
    ensures |r| == 2 && IsHexDigit(r[0]) && IsHexDigit(r[1])
    ensures PairValue(r[0], r[1]) == n
  {
    [HexChar(n / 16), HexChar(n % 16)]
  }

  function HexChar(d: nat): (c: char)
    requires d < 16
    ensures IsHexDigit(c) && HexDigitValue(c) == d
  {
    if d < 10 then ('0' as int + d) as char else ('a' as int + d - 10) as char
  }

  /** The `#rrggbb` text of a colour. */
  function HexColorText(r: nat, g: nat, b: nat): string
    requires r < 256 && g < 256 && b < 256
  {
    "#" + HexByte(r) + HexByte(g) + HexByte(b)
  }

  /** `_alpha` recovers the components of any colour written as `#rrggbb`. */
  lemma AlphaOfHexColor(r: nat, g: nat, b: nat, val: string)
    requires r < 256 && g < 256 && b < 256
    ensures Alpha(HexColorText(r, g, b), val) == RgbaText(Int(r), Int(g), Int(b), val)
  {
    var hex := HexColorText(r, g, b);
    assert hex[1..3] == HexByte(r) && hex[3..5] == HexByte(g) && hex[5..7] == HexByte(b);
    AlphaLongForm(hex, val);
  }
}
