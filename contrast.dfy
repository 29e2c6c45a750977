/**
 * Text colour for a source's badge (`getContrastYIQ` in
 * src/components/SimuladorAudioEspacial.tsx): parses a hex colour and picks
 * dark text on bright colours and white text on dark ones by YIQ luma.
 */
module Contrast {
  import opened Wrappers

  /** `s.replace(c, "")` with a one-character string pattern: only the first occurrence goes. */
  function RemoveFirst(s: string, c: char): (r: string)
    ensures c !in s ==> r == s
    ensures c in s ==> |r| == |s| - 1
  {
    if s == [] then []
    else if s[0] == c then s[1..]
    else [s[0]] + RemoveFirst(s[1..], c)
  }

  /** What `RemoveFirst` does: drop the character at the first index holding `c`. */
  lemma {:induction false} RemoveFirstAt(s: string, c: char, k: nat)
    requires k < |s| && s[k] == c && c !in s[..k]
    ensures RemoveFirst(s, c) == s[..k] + s[k + 1..]
  {
    if k > 0 {
      assert s[0] != c by { assert s[0] == s[..k][0]; }
      assert s[1..][..k - 1] == s[..k][1..];
      RemoveFirstAt(s[1..], c, k - 1);
      assert s[..k] == [s[0]] + s[1..][..k - 1];
      assert s[1..][k..] == s[k + 1..];
    }
  }

  /** `s.split('').map(x => x + x).join('')`: every character doubled. */
  function DoubleEach(s: string): (r: string)
    ensures |r| == 2 * |s|
    ensures forall i :: 0 <= i < |s| ==> r[2 * i] == s[i] && r[2 * i + 1] == s[i]
  {
    if s == [] then [] else [s[0], s[0]] + DoubleEach(s[1..])
  }

  /** The hex digits the colour is read from: first '#' removed, three-digit shorthand doubled. */
  function Normalize(hex: string): (r: string)
    ensures |RemoveFirst(hex, '#')| == 3 ==> |r| == 6
    ensures |RemoveFirst(hex, '#')| != 3 ==> r == RemoveFirst(hex, '#')
  {
    var c := RemoveFirst(hex, '#');
    if |c| == 3 then DoubleEach(c) else c
  }

  /** `s.substr(start, len)`: at most `len` characters from `start`, fewer near the end. */
  function Substr(s: string, start: nat, len: nat): (r: string)
    ensures |r| <= len
    ensures start + len <= |s| ==> |r| == len
    ensures start >= |s| ==> r == []
    ensures forall i :: 0 <= i < |r| ==> start + i < |s| && r[i] == s[start + i]
  {
    if start >= |s| then [] else s[start..if start + len < |s| then start + len else |s|]
  }

  predicate IsHexDigit(c: char) {
    '0' <= c <= '9' || 'a' <= c <= 'f' || 'A' <= c <= 'F'
  }

  function HexValue(c: char): (v: nat)
    requires IsHexDigit(c)
    ensures v < 16
  {
    if '0' <= c <= '9' then (c - '0') as nat
    else if 'a' <= c <= 'f' then (c - 'a') as nat + 10
    else (c - 'A') as nat + 10
  }

  /** The characters `parseInt` skips before a number (ECMAScript StrWhiteSpaceChar). */
  predicate IsJsWhitespace(c: char) {
    || c == '\t' || c == '\n' || c == '\U{000B}' || c == '\U{000C}' || c == '\r' || c == ' '
    || c == '\U{00A0}' || c == '\U{1680}' || '\U{2000}' <= c <= '\U{200A}'
    || c == '\U{2028}' || c == '\U{2029}' || c == '\U{202F}' || c == '\U{205F}'
    || c == '\U{3000}' || c == '\U{FEFF}'
  }

  function TrimStart(s: string): (r: string)
    ensures |r| <= |s|
  {
    if s != [] && IsJsWhitespace(s[0]) then TrimStart(s[1..]) else s
  }

  /** The longest prefix of hex digits. */
  function HexPrefix(s: string): (r: string)
    ensures |r| <= |s| && r == s[..|r|]
    ensures forall i :: 0 <= i < |r| ==> IsHexDigit(r[i])
  {
    if s != [] && IsHexDigit(s[0]) then [s[0]] + HexPrefix(s[1..]) else []
  }

  /** The value of a string of hex digits, most significant first. */
  function HexNumber(ds: string): nat
    requires forall i :: 0 <= i < |ds| ==> IsHexDigit(ds[i])
  {
    if ds == [] then 0 else HexNumber(ds[..|ds| - 1]) * 16 + HexValue(ds[|ds| - 1])
  }

  /**
   * `parseInt(s, 16)`: skip leading white space, take an optional sign and
   * an optional 0x/0X prefix, then read as many hex digits as there are;
   * `None` is NaN (no digit at all).
   */
  function ParseIntHex(s: string): (r: Option<int>)
    ensures s == [] ==> r.None?
    ensures s != [] && s[0] == '#' ==> r.None?
    ensures s != [] && IsHexDigit(s[0]) && (|s| == 1 || IsHexDigit(s[1])) ==> r.Some? && r.value >= 0
  {
    var t := TrimStart(s);
    var negative := t != [] && t[0] == '-';
    var u := if t != [] && (t[0] == '-' || t[0] == '+') then t[1..] else t;
    var v := if |u| >= 2 && u[0] == '0' && (u[1] == 'x' || u[1] == 'X') then u[2..] else u;
    var digits := HexPrefix(v);
    if digits == [] then None
    else Some(if negative then -(HexNumber(digits) as int) else HexNumber(digits) as int)
  }

  /** The three channels read from digits `c`: the values at offsets 0, 2 and 4. */
  function ReadChannels(c: string): (Option<int>, Option<int>, Option<int>) {
    (ParseIntHex(Substr(c, 0, 2)), ParseIntHex(Substr(c, 2, 2)), ParseIntHex(Substr(c, 4, 2)))
  }

  /** The three channels of a colour string. */
  function Channels(hex: string): (Option<int>, Option<int>, Option<int>) {
    ReadChannels(Normalize(hex))
  }

  /** The decision on parsed channels; NaN in any channel makes the comparison false. */
  function Verdict(r: Option<int>, g: Option<int>, b: Option<int>): (v: string)
    ensures v == "#222" || v == "#fff"
    ensures v == "#222" ==> r.Some? && g.Some? && b.Some?
  {
    if r.Some? && g.Some? && b.Some?
       && ((r.value * 299 + g.value * 587 + b.value * 114) as real) / 1000.0 >= 128.0
    then "#222" else "#fff"
  }

  /** `getContrastYIQ`: dark text exactly when every channel parsed and the integer luma sum reaches 128000. */
  function ContrastYIQ(hex: string): (v: string)
    ensures v == "#222" || v == "#fff"
    ensures var (r, g, b) := Channels(hex);
      v == "#222" <==> r.Some? && g.Some? && b.Some? && r.value * 299 + g.value * 587 + b.value * 114 >= 128000
  {
    var (r, g, b) := Channels(hex);
    VerdictIff(r, g, b);
    Verdict(r, g, b)
  }

  /** The luma test is an integer threshold: dark text exactly when 299r + 587g + 114b ≥ 128000. */
  lemma VerdictIff(r: Option<int>, g: Option<int>, b: Option<int>)
    ensures Verdict(r, g, b) == "#222" || Verdict(r, g, b) == "#fff"
    ensures Verdict(r, g, b) == "#222"
        <==> r.Some? && g.Some? && b.Some? && r.value * 299 + g.value * 587 + b.value * 114 >= 128000
  {
    if r.Some? && g.Some? && b.Some? {
      var y := r.value * 299 + g.value * 587 + b.value * 114;
      assert (y as real) / 1000.0 >= 128.0 <==> y as real >= 128000.0;
    }
  }

  /** Raising one channel never turns dark text white. */
  lemma VerdictMonotone(r: int, g: int, b: int, r': int, g': int, b': int)
    requires r <= r' && g <= g' && b <= b'
    requires Verdict(Some(r), Some(g), Some(b)) == "#222"
    ensures Verdict(Some(r'), Some(g'), Some(b')) == "#222"
  {
    VerdictIff(Some(r), Some(g), Some(b));
    VerdictIff(Some(r'), Some(g'), Some(b'));
  }

  /** Two hex digits read as one byte: each channel of a valid pair lies in [0, 255]. */
  lemma ParsePair(c0: char, c1: char)
    requires IsHexDigit(c0) && IsHexDigit(c1)
    ensures ParseIntHex([c0, c1]) == Some(HexValue(c0) * 16 + HexValue(c1))
    ensures 0 <= HexValue(c0) * 16 + HexValue(c1) <= 255
  {
    var s := [c0, c1];
    assert !IsJsWhitespace(c0);
    assert TrimStart(s) == s;
    assert HexPrefix(s) == s by {
      assert HexPrefix(s[1..]) == [c1];
    }
    assert s[..1] == [c0];
    assert HexNumber(s) == HexNumber([c0]) * 16 + HexValue(c1);
    assert HexNumber([c0]) == HexValue(c0) by {
      assert [c0][..0] == [];
    }
  }

  /** The pair of hex digits at offset k reads as one byte. */
  lemma PairAt(c: string, k: nat)
    requires k + 2 <= |c| && IsHexDigit(c[k]) && IsHexDigit(c[k + 1])
    ensures ParseIntHex(Substr(c, k, 2)) == Some(HexValue(c[k]) * 16 + HexValue(c[k + 1]))
  {
    assert Substr(c, k, 2) == [c[k], c[k + 1]];
    ParsePair(c[k], c[k + 1]);
  }

  /** A colour whose digits (first '#' removed) are six hex digits is read as exactly those digits. */
  lemma SixDigitColour(hex: string)
    requires |RemoveFirst(hex, '#')| == 6
    ensures Channels(hex) == ReadChannels(RemoveFirst(hex, '#'))
  {
  }

  /** Three-character input is read as its doubled form: "abc" is "aabbcc". */
  lemma ShorthandDoubles(hex: string)
    requires |RemoveFirst(hex, '#')| == 3
    ensures var c := RemoveFirst(hex, '#');
      Normalize(hex) == [c[0], c[0], c[1], c[1], c[2], c[2]]
  {
    var c := RemoveFirst(hex, '#');
    var n := Normalize(hex);
    assert n[0] == c[0] && n[1] == c[0] && n[2] == c[1] && n[3] == c[1] && n[4] == c[2] && n[5] == c[2];
  }

  /** The shorthands "#fff" and "#000" expand to six digits. */
  lemma ShorthandWhiteBlack()
    ensures Normalize("#fff") == "ffffff"
    ensures Normalize("#000") == "000000"
  {
    assert RemoveFirst("#fff", '#') == "fff";
    ShorthandDoubles("#fff");
    assert RemoveFirst("#000", '#') == "000";
    ShorthandDoubles("#000");
  }

  /** Each pair of a six-digit string made of one repeated pair is read as that pair. */
  lemma RepeatedPair(p: string, v: int)
    requires |p| == 2 && ParseIntHex(p) == Some(v)
    ensures ReadChannels(p + p + p) == (Some(v), Some(v), Some(v))
  {
    var c := p + p + p;
    assert Substr(c, 0, 2) == p && Substr(c, 2, 2) == p && Substr(c, 4, 2) == p;
  }

  /** "#fff" reads as three channels of 255. */
  lemma WhiteChannels()
    ensures Channels("#fff") == (Some(255), Some(255), Some(255))
  {
    ShorthandWhiteBlack();
    ParsePair('f', 'f');
    assert "ff" + "ff" + "ff" == "ffffff";
    RepeatedPair("ff", 255);
  }

  /** "#000" reads as three channels of 0. */
  lemma BlackChannels()
    ensures Channels("#000") == (Some(0), Some(0), Some(0))
  {
    ShorthandWhiteBlack();
    ParsePair('0', '0');
    assert "00" + "00" + "00" == "000000";
    RepeatedPair("00", 0);
  }

  /** White ("#fff") gets dark text and black ("#000") white text. */
  lemma WhiteAndBlack()
    ensures ContrastYIQ("#fff") == "#222"
    ensures ContrastYIQ("#000") == "#fff"
  {
    WhiteChannels();
    BlackChannels();
  }

  /** Only the first '#' is removed: "##fff" keeps a '#', parses to NaN and gets white text. */
  lemma OnlyFirstHashRemoved()
    ensures Normalize("##fff") == "#fff"
    ensures ContrastYIQ("##fff") == "#fff"
  {
    assert RemoveFirst("##fff", '#') == "#fff";
    assert Substr("#fff", 0, 2) == "#f";
    assert TrimStart("#f") == "#f";
    assert HexPrefix("#f") == [];
  }
}
