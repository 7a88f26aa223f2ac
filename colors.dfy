/** CSS hex colours `#rrggbb` (section 5.2 of CSS Color Module Level 4) and
    `lightenColor`, which raises each channel by a fixed amount, clamped at
    255. The source holds two identical copies of `lightenColor` (one in the
    background manager, one in the video processor); the model defines it once. */
module Colors {

  /** A character JavaScript's `parseInt(_, 16)` accepts as a digit. */
  predicate IsHexDigit(c: char) {
    ('0' <= c <= '9') || ('a' <= c <= 'f') || ('A' <= c <= 'F')
  }

  /** A digit as `Number.prototype.toString(16)` writes it: lower case. */
  predicate IsLowerHexDigit(c: char) {
    ('0' <= c <= '9') || ('a' <= c <= 'f')
  }

  predicate AllHex(s: string) {
    forall i :: 0 <= i < |s| ==> IsHexDigit(s[i])
  }

  /** `#` followed by exactly six hex digits, in either case. */
  predicate IsHexColor(s: string) {
    |s| == 7 && s[0] == '#' && AllHex(s[1..])
  }

  /** `#` followed by exactly six lower-case hex digits. */
  predicate IsLowerHexColor(s: string) {
    |s| == 7 && s[0] == '#' && forall i :: 1 <= i < 7 ==> IsLowerHexDigit(s[i])
  }

  function DigitValue(c: char): (d: nat)
    requires IsHexDigit(c)
    ensures d < 16
  {
    if '0' <= c <= '9' then c as int - '0' as int
    else if 'a' <= c <= 'f' then c as int - 'a' as int + 10
    else c as int - 'A' as int + 10
  }

  function DigitChar(d: nat): (c: char)
    requires d < 16
    ensures IsLowerHexDigit(c) && IsHexDigit(c) && DigitValue(c) == d
  {
    if d < 10 then ('0' as int + d) as char else ('a' as int + d - 10) as char
  }

  /** The lower-case spelling of a hex digit; other characters are kept. */
  function LowerChar(c: char): char {
    if 'A' <= c <= 'F' then (c as int - 'A' as int + 'a' as int) as char else c
  }

  function Lower(s: string): (r: string)
    ensures |r| == |s|
    ensures forall i :: 0 <= i < |s| ==> r[i] == LowerChar(s[i])
  {
    seq(|s|, i requires 0 <= i < |s| => LowerChar(s[i]))
  }

  function Pow16(k: nat): (p: nat)
    ensures p >= 1
  {
    if k == 0 then 1 else 16 * Pow16(k - 1)
  }

  /** `parseInt(s, 16)` for a string made only of hex digits (the empty
      string, which `parseInt` rejects, is never parsed here: helper value 0). */
  function ParseHex(s: string): (n: nat)
    requires AllHex(s)
    ensures n < Pow16(|s|)
  {
    if |s| == 0 then 0
    else
      assert AllHex(s[..|s| - 1]);
      ParseHex(s[..|s| - 1]) * 16 + DigitValue(s[|s| - 1])
  }

  /** `n.toString(16)` for a non-negative integer: no leading zeros, lower case. */
  function ToBase16(n: nat): (s: string)
    ensures |s| >= 1
  {
    if n < 16 then [DigitChar(n)] else ToBase16(n / 16) + [DigitChar(n % 16)]
  }

  /** The `k` low-order hex digits of `v`, zero-padded, lower case. */
  function FixedHex(v: nat, k: nat): (s: string)
    ensures |s| == k
    ensures forall i :: 0 <= i < k ==> IsLowerHexDigit(s[i]) && IsHexDigit(s[i])
  {
    if k == 0 then [] else FixedHex(v / 16, k - 1) + [DigitChar(v % 16)]
  }

  /** The value of channel `i` (0 red, 1 green, 2 blue) of a hex colour,
      read from its own pair of digits. */
  function Channel(color: string, i: nat): (c: nat)
    requires IsHexColor(color) && i < 3
    ensures c < 256
  {
    var pair := color[1 + 2 * i .. 3 + 2 * i];
    assert forall j :: 0 <= j < 2 ==> pair[j] == color[1..][2 * i + j];
    ParseHex(pair)
  }

  function Min(a: int, b: int): int {
    if a <= b then a else b
  }

  /** `lightenColor(color, percent)` with `amt = Math.round(2.55 * percent)`
      given directly: parse the six digits as one number, split it with
      shifts and masks, add `amt` to each channel clamped at 255, and format
      `(1 << 24) + (R << 16) + (G << 8) + B` in base 16 without its first digit. */
  function LightenColor(color: string, amt: nat): (r: string)
    requires IsHexColor(color)
    ensures IsLowerHexColor(r) && IsHexColor(r)
    ensures forall i :: 0 <= i < 3 ==>
      Channel(r, i) == Min(255, Channel(color, i) + amt) && Channel(color, i) <= Channel(r, i) <= 255
  {
    var num := ParseHex(color[1..]);
    var red := Min(255, num / 65536 + amt);
    var green := Min(255, (num / 256) % 256 + amt);
    var blue := Min(255, num % 256 + amt);
    var packed := 16777216 + red * 65536 + green * 256 + blue;
    var r := "#" + ToBase16(packed)[1..];
    LightenColorFacts(color, amt, num, red, green, blue, packed, r);
    r
  }

  /** The contract of LightenColor, with the intermediate values named. */
  lemma LightenColorFacts(color: string, amt: nat, num: nat, red: int, green: int, blue: int, packed: nat, r: string)
    requires IsHexColor(color) && num == ParseHex(color[1..])
    requires red == Min(255, num / 65536 + amt)
    requires green == Min(255, (num / 256) % 256 + amt)
    requires blue == Min(255, num % 256 + amt)
    requires packed == 16777216 + red * 65536 + green * 256 + blue
    requires r == "#" + ToBase16(packed)[1..]
    ensures IsLowerHexColor(r) && IsHexColor(r)
    ensures forall i :: 0 <= i < 3 ==>
      Channel(r, i) == Min(255, Channel(color, i) + amt) && Channel(color, i) <= Channel(r, i) <= 255
  {
    SplitChannels(color);
    assert red == Min(255, Channel(color, 0) + amt);
    assert green == Min(255, Channel(color, 1) + amt);
    assert blue == Min(255, Channel(color, 2) + amt);
    FormattedChannels(red, green, blue, packed, r);
    AllChannels(r, color, amt);
  }

  /** Formatting three packed bytes gives a lower-case colour with those channels. */
  lemma FormattedChannels(red: nat, green: nat, blue: nat, packed: nat, r: string)
    requires red < 256 && green < 256 && blue < 256
    requires packed == 16777216 + red * 65536 + green * 256 + blue
    requires r == "#" + ToBase16(packed)[1..]
    ensures IsLowerHexColor(r) && IsHexColor(r)
    ensures Channel(r, 0) == red && Channel(r, 1) == green && Channel(r, 2) == blue
  {
    var a, b, c := FixedHex(red, 2), FixedHex(green, 2), FixedHex(blue, 2);
    FormatPacked(red, green, blue);
    assert r == "#" + a + b + c;
    ParseFixedHex(red, 2);
    ParseFixedHex(green, 2);
    ParseFixedHex(blue, 2);
    assert LowerPair(a) && LowerPair(b) && LowerPair(c);
    JoinedChannels(a, b, c);
  }

  lemma AllChannels(r: string, color: string, amt: nat)
    requires IsHexColor(r) && IsHexColor(color)
    requires Channel(r, 0) == Min(255, Channel(color, 0) + amt)
    requires Channel(r, 1) == Min(255, Channel(color, 1) + amt)
    requires Channel(r, 2) == Min(255, Channel(color, 2) + amt)
    ensures forall i :: 0 <= i < 3 ==>
      Channel(r, i) == Min(255, Channel(color, i) + amt) && Channel(color, i) <= Channel(r, i) <= 255
  {
    forall i | 0 <= i < 3
      ensures Channel(r, i) == Min(255, Channel(color, i) + amt) && Channel(color, i) <= Channel(r, i) <= 255
    {
      if i == 0 {
      } else if i == 1 {
      } else {
      }
    }
  }

  predicate LowerPair(a: string) {
    |a| == 2 && IsLowerHexDigit(a[0]) && IsLowerHexDigit(a[1])
  }

  /** A colour written from three digit pairs has those pairs as channels. */
  lemma JoinedChannels(a: string, b: string, c: string)
    requires LowerPair(a) && LowerPair(b) && LowerPair(c)
    ensures AllHex(a) && AllHex(b) && AllHex(c)
    ensures var r := "#" + a + b + c;
      IsLowerHexColor(r) && IsHexColor(r) &&
      Channel(r, 0) == ParseHex(a) && Channel(r, 1) == ParseHex(b) && Channel(r, 2) == ParseHex(c)
  {
    var r := "#" + a + b + c;
    JoinedIsColor(a, b, c);
    assert r[1..3] == a && r[3..5] == b && r[5..7] == c;
  }

  lemma JoinedIsColor(a: string, b: string, c: string)
    requires LowerPair(a) && LowerPair(b) && LowerPair(c)
    ensures AllHex(a) && AllHex(b) && AllHex(c)
    ensures IsLowerHexColor("#" + a + b + c) && IsHexColor("#" + a + b + c)
  {
    var r := "#" + a + b + c;
    assert r == ['#', a[0], a[1], b[0], b[1], c[0], c[1]];
    assert AllHex(r[1..]) by {
      assert r[1..] == [a[0], a[1], b[0], b[1], c[0], c[1]];
    }
  }

  lemma FormatPacked(red: nat, green: nat, blue: nat)
    requires red < 256 && green < 256 && blue < 256
    ensures ToBase16(16777216 + red * 65536 + green * 256 + blue)[1..] ==
      FixedHex(red, 2) + FixedHex(green, 2) + FixedHex(blue, 2)
  {
    var v := red * 65536 + green * 256 + blue;
    assert Pow16(6) == 16777216;
    ToBase16Padded(v, 6);
    PackChannels(red, green, blue);
  }

  /** The shift-and-mask split of the parsed number gives the three digit pairs. */
  lemma SplitChannels(color: string)
    requires IsHexColor(color)
    ensures var num := ParseHex(color[1..]);
      num / 65536 == Channel(color, 0) &&
      (num / 256) % 256 == Channel(color, 1) &&
      num % 256 == Channel(color, 2)
  {
    var s := color[1..];
    var a, b, c := Channel(color, 0), Channel(color, 1), Channel(color, 2);
    assert s == color[1..3] + color[3..5] + color[5..7];
    ParseHexAppend(color[1..3] + color[3..5], color[5..7]);
    ParseHexAppend(color[1..3], color[3..5]);
    assert ParseHex(s) == (a * 256 + b) * 256 + c;
    DivModSplit(a, b, c);
  }

  lemma DivModSplit(a: nat, b: nat, c: nat)
    requires a < 256 && b < 256 && c < 256
    ensures var n := (a * 256 + b) * 256 + c;
      n / 65536 == a && (n / 256) % 256 == b && n % 256 == c
  {
    var n := (a * 256 + b) * 256 + c;
    assert n == (a * 256 + b) * 256 + c;
    assert n / 256 == a * 256 + b;
    assert (n / 256) % 256 == b;
    assert n == a * 65536 + (b * 256 + c);
  }

  lemma AllHexAppend(s: string, t: string)
    requires AllHex(s) && AllHex(t)
    ensures AllHex(s + t)
  {
    var st := s + t;
    forall i | 0 <= i < |st| ensures IsHexDigit(st[i]) {
      if i < |s| { assert st[i] == s[i]; } else { assert st[i] == t[i - |s|]; }
    }
  }

  /** `parseInt` reads digits most-significant first. */
  lemma {:induction false} ParseHexAppend(s: string, t: string)
    requires AllHex(s) && AllHex(t)
    ensures AllHex(s + t)
    ensures ParseHex(s + t) == ParseHex(s) * Pow16(|t|) + ParseHex(t)
    decreases |t|
  {
    AllHexAppend(s, t);
    if |t| == 0 {
      assert s + t == s;
    } else {
      var t' := t[..|t| - 1];
      assert AllHex(t');
      ParseHexAppend(s, t');
      var d := DigitValue(t[|t| - 1]);
      var a, p, b := ParseHex(s), Pow16(|t'|), ParseHex(t');
      assert ParseHex(s + t) == ParseHex(s + t') * 16 + d by {
        var st := s + t;
        assert st[..|st| - 1] == s + t';
        assert st[|st| - 1] == t[|t| - 1];
      }
      Regroup(a, p, b, d);
    }
  }

  lemma Regroup(a: int, p: int, b: int, d: int)
    ensures (a * p + b) * 16 + d == a * (16 * p) + (b * 16 + d)
  {
  }

  /** `(16^k + v).toString(16)` is a `1` followed by `v` padded to `k` digits:
      the `1 << 24` term of `lightenColor` is what gives the zero padding. */
  lemma {:induction false} ToBase16Padded(v: nat, k: nat)
    requires v < Pow16(k)
    ensures ToBase16(Pow16(k) + v) == "1" + FixedHex(v, k)
  {
    if k == 0 {
      assert v == 0;
    } else {
      var n := Pow16(k) + v;
      assert Pow16(k) >= 16 by { assert Pow16(k) == 16 * Pow16(k - 1); }
      assert n / 16 == Pow16(k - 1) + v / 16 && n % 16 == v % 16 by {
        assert n == 16 * (Pow16(k - 1) + v / 16) + v % 16;
      }
      assert v / 16 < Pow16(k - 1);
      ToBase16Padded(v / 16, k - 1);
    }
  }

  /** Packing three bytes with shifts is writing their digit pairs side by side. */
  lemma PackChannels(red: nat, green: nat, blue: nat)
    requires red < 256 && green < 256 && blue < 256
    ensures FixedHex(red * 65536 + green * 256 + blue, 6) == FixedHex(red, 2) + FixedHex(green, 2) + FixedHex(blue, 2)
  {
    Pow16Values();
    var rg := red * 256 + green;
    FixedHexAppend(red, green, 2, 2, 256, rg);
    FixedHexAppend(rg, blue, 4, 2, 256, red * 65536 + green * 256 + blue);
  }

  lemma Pow16Values()
    ensures Pow16(2) == 256 && Pow16(4) == 65536 && Pow16(6) == 16777216
  {
    assert Pow16(1) == 16;
    assert Pow16(3) == 4096;
    assert Pow16(5) == 1048576;
  }

  /** Writing `x` and then `y` (padded to `k` digits) is writing
      `n = x * 16^k + y` with `j + k` digits; `p` is `16^k`. */
  lemma {:induction false} FixedHexAppend(x: nat, y: nat, j: nat, k: nat, p: nat, n: nat)
    requires p == Pow16(k) && y < p && n == x * p + y
    ensures FixedHex(n, j + k) == FixedHex(x, j) + FixedHex(y, k)
  {
    if k == 0 {
      assert y == 0;
    } else {
      var q := Pow16(k - 1);
      assert p == 16 * q;
      var a, b := x * q + y / 16, y % 16;
      ShiftDigit(x, y, q, n);
      DivMod16(n, a, b);
      FixedHexAppend(x, y / 16, j, k - 1, q, n / 16);
      AppendLastDigit(n, y, j, k, FixedHex(x, j));
    }
  }

  /** The last digit of `n` is the last digit of `y`, so writing it after
      the rest extends the written `y` by that digit. */
  lemma AppendLastDigit(n: nat, y: nat, j: nat, k: nat, left: string)
    requires k > 0 && n % 16 == y % 16
    requires FixedHex(n / 16, j + (k - 1)) == left + FixedHex(y / 16, k - 1)
    ensures FixedHex(n, j + k) == left + FixedHex(y, k)
  {
    var low, last := FixedHex(y / 16, k - 1), [DigitChar(y % 16)];
    assert FixedHex(n, j + k) == FixedHex(n / 16, j + (k - 1)) + last;
    assert FixedHex(y, k) == low + last;
    assert (left + low) + last == left + (low + last);
  }

  /** Taking the last hex digit off `x * 16q + y`. */
  lemma ShiftDigit(x: nat, y: nat, q: nat, n: nat)
    requires n == x * (16 * q) + y && y < 16 * q
    ensures n == 16 * (x * q + y / 16) + y % 16 && y / 16 < q
  {
    assert x * (16 * q) == 16 * (x * q);
  }

  lemma DivMod16(n: int, a: int, b: int)
    requires n == 16 * a + b && 0 <= b < 16
    ensures n / 16 == a && n % 16 == b
  {
  }

  /** Formatting to `k` digits and parsing back gives the value again. */
  lemma {:induction false} ParseFixedHex(v: nat, k: nat)
    requires v < Pow16(k)
    ensures AllHex(FixedHex(v, k)) && ParseHex(FixedHex(v, k)) == v
  {
    var s := FixedHex(v, k);
    if k > 0 {
      ParseFixedHex(v / 16, k - 1);
      assert s[..k - 1] == FixedHex(v / 16, k - 1);
    }
  }

  /** Parsing and formatting back to the same width gives the digits again,
      in lower case. */
  lemma {:induction false} FixedHexParse(s: string)
    requires AllHex(s)
    ensures FixedHex(ParseHex(s), |s|) == Lower(s)
  {
    if |s| > 0 {
      var p := s[..|s| - 1];
      assert AllHex(p);
      FixedHexParse(p);
      var c := s[|s| - 1];
      var n := ParseHex(s);
      assert n / 16 == ParseHex(p) && n % 16 == DigitValue(c);
      assert DigitChar(DigitValue(c)) == LowerChar(c);
      assert Lower(s) == Lower(p) + [LowerChar(c)];
    }
  }

  /** A channel written back as two digits is its pair of digits, in lower case. */
  lemma PairDigits(color: string, i: nat)
    requires IsHexColor(color) && i < 3
    ensures FixedHex(Channel(color, i), 2) == Lower(color[1 + 2 * i .. 3 + 2 * i])
  {
    var pair := color[1 + 2 * i .. 3 + 2 * i];
    assert forall j :: 0 <= j < 2 ==> pair[j] == color[1..][2 * i + j];
    FixedHexParse(pair);
  }

  lemma LowerOfLower(s: string)
    requires forall j :: 0 <= j < |s| ==> IsLowerHexDigit(s[j])
    ensures Lower(s) == s
  {
  }

  lemma Reassemble(x: string)
    requires |x| == 7
    ensures x == [x[0]] + x[1..3] + x[3..5] + x[5..7]
  {
  }

  /** Two colours with the same channels, the first written in lower case,
      agree digit pair by digit pair once the second is lowered. */
  lemma SamePairs(r: string, color: string)
    requires IsLowerHexColor(r) && IsHexColor(color)
    requires Channel(r, 0) == Channel(color, 0) && Channel(r, 1) == Channel(color, 1) && Channel(r, 2) == Channel(color, 2)
    ensures r[1..3] == Lower(color[1..3]) && r[3..5] == Lower(color[3..5]) && r[5..7] == Lower(color[5..7])
  {
    PairDigits(r, 0);
    PairDigits(r, 1);
    PairDigits(r, 2);
    PairDigits(color, 0);
    PairDigits(color, 1);
    PairDigits(color, 2);
    LowerOfLower(r[1..3]);
    LowerOfLower(r[3..5]);
    LowerOfLower(r[5..7]);
  }

  /** Lightening by nothing returns the input colour in lower case: the
      parse/format round trip of `lightenColor`. */
  lemma LightenColorByZero(color: string)
    requires IsHexColor(color)
    ensures LightenColor(color, 0) == Lower(color)
  {
    var r := LightenColor(color, 0);
    SamePairs(r, color);
    Reassemble(r);
    Reassemble(color);
    LowerAppend4([color[0]], color[1..3], color[3..5], color[5..7]);
    assert Lower([color[0]]) == [r[0]];
  }

  lemma LowerAppend4(a: string, b: string, c: string, d: string)
    ensures Lower(a + b + c + d) == Lower(a) + Lower(b) + Lower(c) + Lower(d)
  {
  }
}
