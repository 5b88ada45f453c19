/**
 * The JavaScript string operations the modelled code calls: `trim`,
 * `toLowerCase`/`toUpperCase` (on ASCII letters), `includes`, `join`, `split`,
 * number-to-string conversion, `parseInt(s, 10)` and the radix-less
 * `parseInt(s)` (`ParseIntAuto`), which reads a "0x"/"0X" prefix as base 16.
 */
module Text {
  import opened Wrappers

  /** JavaScript's WhiteSpace and LineTerminator characters, which `trim` and `parseInt` skip. */
  predicate IsSpace(c: char)
  {
    || c == ' ' || c == '\t' || c == '\n' || c == '\r' || c == '\U{000B}' || c == '\U{000C}'
    || c == '\U{00A0}' || c == '\U{1680}' || ('\U{2000}' <= c <= '\U{200A}')
    || c == '\U{2028}' || c == '\U{2029}' || c == '\U{202F}' || c == '\U{205F}'
    || c == '\U{3000}' || c == '\U{FEFF}'
  }

  /** `s.trimStart()`: drops the leading white space and nothing else. */
  function TrimStart(s: string): (r: string)
    ensures |r| <= |s|
    ensures forall i :: 0 <= i < |s| - |r| ==> IsSpace(s[i])
    ensures r != [] ==> !IsSpace(r[0])
  {
    if s != [] && IsSpace(s[0]) then TrimStart(s[1..]) else s
  }

  /** `s.trimEnd()`: drops the trailing white space and nothing else. */
  function TrimEnd(s: string): (r: string)
    ensures |r| <= |s|
    ensures forall i :: |r| <= i < |s| ==> IsSpace(s[i])
    ensures r != [] ==> !IsSpace(r[|r| - 1])
  {
    if s != [] && IsSpace(s[|s| - 1]) then TrimEnd(s[..|s| - 1]) else s
  }

  /** What `trimStart` keeps is a suffix of its input. */
  lemma {:induction false} TrimStartSuffix(s: string)
    ensures TrimStart(s) == s[|s| - |TrimStart(s)|..]
    decreases |s|
  {
    if s != [] && IsSpace(s[0]) {
      TrimStartSuffix(s[1..]);
      var k := |TrimStart(s[1..])|;
      assert s[1..][|s| - 1 - k..] == s[|s| - k..];
    }
  }

  /** What `trimEnd` keeps is a prefix of its input. */
  lemma {:induction false} TrimEndPrefix(s: string)
    ensures TrimEnd(s) == s[..|TrimEnd(s)|]
    decreases |s|
  {
    if s != [] && IsSpace(s[|s| - 1]) {
      TrimEndPrefix(s[..|s| - 1]);
    }
  }

  /** `s.trim()`. */
  function Trim(s: string): (r: string)
    ensures |r| <= |s|
    ensures r != [] ==> !IsSpace(r[0]) && !IsSpace(r[|r| - 1])
  {
    TrimEndPrefix(TrimStart(s));
    TrimEnd(TrimStart(s))
  }

  /** A string is blank when trimming leaves nothing: `s.trim() === ''`. */
  lemma {:induction false} TrimEmptyIffBlank(s: string)
    ensures Trim(s) == [] <==> forall i :: 0 <= i < |s| ==> IsSpace(s[i])
  {
    var t := TrimStart(s);
    TrimStartSuffix(s);
    if t != [] {
      assert !IsSpace(t[0]);
      assert TrimEnd(t) != [];
    }
  }

  lemma {:induction false} TrimIdempotent(s: string)
    ensures Trim(Trim(s)) == Trim(s)
  {
    var r := Trim(s);
    if r != [] {
      assert TrimStart(r) == r;
      assert TrimEnd(r) == r;
    }
  }

  function LowerChar(c: char): char
  {
    if 'A' <= c <= 'Z' then (c as int + 32) as char else c
  }

  function UpperChar(c: char): char
  {
    if 'a' <= c <= 'z' then (c as int - 32) as char else c
  }

  /** `s.toLowerCase()` on ASCII letters; every other character is kept. */
  function ToLower(s: string): (r: string)
    ensures |r| == |s| && forall i :: 0 <= i < |s| ==> r[i] == LowerChar(s[i])
  {
    seq(|s|, i requires 0 <= i < |s| => LowerChar(s[i]))
  }

  /** `s.toUpperCase()` on ASCII letters; every other character is kept. */
  function ToUpper(s: string): (r: string)
    ensures |r| == |s| && forall i :: 0 <= i < |s| ==> r[i] == UpperChar(s[i])
  {
    seq(|s|, i requires 0 <= i < |s| => UpperChar(s[i]))
  }

  lemma ToLowerIdempotent(s: string)
    ensures ToLower(ToLower(s)) == ToLower(s)
  {
  }

  /** Lower-casing neither creates nor removes white space. */
  lemma LowerCharSpace(c: char)
    ensures IsSpace(LowerChar(c)) <==> IsSpace(c)
  {
  }

  lemma {:induction false} TrimStartLower(s: string)
    ensures TrimStart(ToLower(s)) == ToLower(TrimStart(s))
    decreases |s|
  {
    if s != [] {
      var l := ToLower(s);
      assert l[0] == LowerChar(s[0]);
      LowerCharSpace(s[0]);
      assert l[1..] == ToLower(s[1..]);
      if IsSpace(s[0]) {
        TrimStartLower(s[1..]);
      }
    }
  }

  lemma {:induction false} TrimEndLower(s: string)
    ensures TrimEnd(ToLower(s)) == ToLower(TrimEnd(s))
    decreases |s|
  {
    if s != [] {
      var l := ToLower(s);
      assert l[|s| - 1] == LowerChar(s[|s| - 1]);
      LowerCharSpace(s[|s| - 1]);
      assert l[..|s| - 1] == ToLower(s[..|s| - 1]);
      if IsSpace(s[|s| - 1]) {
        TrimEndLower(s[..|s| - 1]);
      }
    }
  }

  /** Trimming and lower-casing commute, so the order a schema applies them in does not matter. */
  lemma TrimLowerCommute(s: string)
    ensures Trim(ToLower(s)) == ToLower(Trim(s))
  {
    TrimStartLower(s);
    TrimEndLower(TrimStart(s));
  }

  /** `needle` occurs in `hay` starting at index `i`. */
  predicate OccursAt(hay: string, needle: string, i: int)
  {
    0 <= i <= |hay| - |needle| && hay[i..i + |needle|] == needle
  }

  /** `hay.includes(needle)`: `needle` occurs somewhere in `hay`. */
  predicate Contains(hay: string, needle: string)
  {
    exists i :: 0 <= i <= |hay| - |needle| && OccursAt(hay, needle, i)
  }

  /** Every string includes the empty string. */
  lemma ContainsEmpty(hay: string)
    ensures Contains(hay, "")
  {
    assert OccursAt(hay, "", 0);
  }

  /** `parts.join(sep)`. */
  function Join(parts: seq<string>, sep: string): (r: string)
    ensures parts == [] ==> r == ""
    ensures |parts| == 1 ==> r == parts[0]
  {
    if parts == [] then "" else if |parts| == 1 then parts[0] else parts[0] + sep + Join(parts[1..], sep)
  }

  /** `s.split(c)` for a one-character separator: never empty, and `""` gives `[""]`. */
  function Split(s: string, c: char): (r: seq<string>)
    ensures |r| >= 1
  {
    if s == [] then [""]
    else
      var rest := Split(s[1..], c);
      if s[0] == c then [""] + rest else [[s[0]] + rest[0]] + rest[1..]
  }

  lemma {:induction false} SplitAfterPlain(p: string, t: string, c: char)
    requires c !in p
    ensures Split(p + t, c) == [p + Split(t, c)[0]] + Split(t, c)[1..]
    decreases |p|
  {
    if p != [] {
      assert (p + t)[1..] == p[1..] + t;
      assert (p + t)[0] == p[0];
      SplitAfterPlain(p[1..], t, c);
      assert [p[0]] + (p[1..] + Split(t, c)[0]) == p + Split(t, c)[0];
    } else {
      assert p + t == t;
      var r := Split(t, c);
      assert r == [r[0]] + r[1..];
      assert p + r[0] == r[0];
    }
  }

  /**
   * Splitting a joined text on the separator gives the parts back, provided no part
   * contains the separator: a text written one record per line reads back record by record.
   */
  lemma {:induction false} SplitJoin(parts: seq<string>, c: char)
    requires |parts| >= 1
    requires forall i :: 0 <= i < |parts| ==> c !in parts[i]
    ensures Split(Join(parts, [c]), c) == parts
    decreases |parts|
  {
    if |parts| == 1 {
      SplitAfterPlain(parts[0], "", c);
      assert parts[0] + "" == parts[0];
    } else {
      var tail := Join(parts[1..], [c]);
      SplitJoin(parts[1..], c);
      assert Join(parts, [c]) == parts[0] + ([c] + tail);
      SplitAfterPlain(parts[0], [c] + tail, c);
      assert ([c] + tail)[1..] == tail;
      assert Split([c] + tail, c) == [""] + parts[1..];
      assert parts[0] + "" == parts[0];
    }
  }

  predicate IsDigit(c: char)
  {
    '0' <= c <= '9'
  }

  function DigitChar(d: nat): (c: char)
    requires d < 10
    ensures IsDigit(c)
  {
    ('0' as int + d) as char
  }

  function DigitValue(c: char): (d: nat)
    requires IsDigit(c)
    ensures d < 10
  {
    c as int - '0' as int
  }

  predicate AllDigits(s: string)
  {
    forall i :: 0 <= i < |s| ==> IsDigit(s[i])
  }

  /** The number a string of decimal digits denotes. */
  function DigitsValue(s: string): nat
    requires AllDigits(s)
  {
    if s == [] then 0 else DigitsValue(s[..|s| - 1]) * 10 + DigitValue(s[|s| - 1])
  }

  /** The decimal numeral of a natural number, as `String(n)` writes it. */
  function NatToString(n: nat): (r: string)
    ensures r != [] && AllDigits(r)
  {
    if n < 10 then [DigitChar(n)] else NatToString(n / 10) + [DigitChar(n % 10)]
  }

  /** `String(n)` for an integer `n`. */
  function IntToString(n: int): (r: string)
    ensures r != []
    ensures r[0] == '-' || IsDigit(r[0])
  {
    if n < 0 then "-" + NatToString(-n) else NatToString(n)
  }

  lemma {:induction false} NatToStringValue(n: nat)
    ensures DigitsValue(NatToString(n)) == n
  {
    if n >= 10 {
      var s := NatToString(n);
      assert s[..|s| - 1] == NatToString(n / 10);
      NatToStringValue(n / 10);
    }
  }

  /** The length of the run of decimal digits that starts `s`. */
  function DigitRun(s: string): (k: nat)
    ensures k <= |s|
    ensures forall i :: 0 <= i < k ==> IsDigit(s[i])
    ensures k < |s| ==> !IsDigit(s[k])
  {
    if s != [] && IsDigit(s[0]) then 1 + DigitRun(s[1..]) else 0
  }

  /**
   * `parseInt(s, 10)`: skip leading white space, read an optional sign, then the
   * longest run of decimal digits; `None` stands for NaN (no digit found).
   * JavaScript's loss of precision above 2^53 is not modelled.
   */
  function ParseInt(s: string): Option<int>
  {
    var t := TrimStart(s);
    var negative := t != [] && t[0] == '-';
    var body := if t != [] && (t[0] == '-' || t[0] == '+') then t[1..] else t;
    var k := DigitRun(body);
    if k == 0 then None
    else
      var v: int := DigitsValue(body[..k]);
      Some(if negative then -v else v)
  }

  /** A hexadecimal digit, in either case. */
  predicate IsHexDigit(c: char)
  {
    IsDigit(c) || 'a' <= c <= 'f' || 'A' <= c <= 'F'
  }

  function HexValue(c: char): (d: nat)
    requires IsHexDigit(c)
    ensures d < 16
    ensures IsDigit(c) ==> d == DigitValue(c)
  {
    if IsDigit(c) then DigitValue(c)
    else if 'a' <= c <= 'f' then c as int - 'a' as int + 10
    else c as int - 'A' as int + 10
  }

  predicate AllHexDigits(s: string)
  {
    forall i :: 0 <= i < |s| ==> IsHexDigit(s[i])
  }

  /** The number a string of hexadecimal digits denotes. */
  function HexDigitsValue(s: string): nat
    requires AllHexDigits(s)
  {
    if s == [] then 0 else HexDigitsValue(s[..|s| - 1]) * 16 + HexValue(s[|s| - 1])
  }

  /** The length of the run of hexadecimal digits that starts `s`. */
  function HexRun(s: string): (k: nat)
    ensures k <= |s|
    ensures forall i :: 0 <= i < k ==> IsHexDigit(s[i])
    ensures k < |s| ==> !IsHexDigit(s[k])
  {
    if s != [] && IsHexDigit(s[0]) then 1 + HexRun(s[1..]) else 0
  }

  /** What `parseInt` reads after skipping leading white space and one sign. */
  function Unsigned(s: string): string
  {
    var t := TrimStart(s);
    if t != [] && (t[0] == '-' || t[0] == '+') then t[1..] else t
  }

  /** The sign `parseInt` skips is a minus. */
  predicate Negative(s: string)
  {
    var t := TrimStart(s);
    t != [] && t[0] == '-'
  }

  /** `0x` or `0X`: the prefix on which `parseInt` without a radix reads base 16. */
  predicate HexPrefixed(body: string)
  {
    |body| >= 2 && body[0] == '0' && (body[1] == 'x' || body[1] == 'X')
  }

  /**
   * `parseInt(s)` with no radix: after the white space and the sign, a `0x` or
   * `0X` prefix selects base 16 and is skipped, and `None` (NaN) comes when no
   * hexadecimal digit follows it; any other text is read in base 10.
   */
  function ParseIntAuto(s: string): Option<int>
  {
    var body := Unsigned(s);
    if HexPrefixed(body) then
      var h := body[2..];
      var k := HexRun(h);
      if k == 0 then None
      else
        var v: int := HexDigitsValue(h[..k]);
        Some(if Negative(s) then -v else v)
    else
      ParseInt(s)
  }

  /** Without the hexadecimal prefix, `parseInt(s)` and `parseInt(s, 10)` agree. */
  lemma ParseIntAutoDecimal(s: string)
    requires !HexPrefixed(Unsigned(s))
    ensures ParseIntAuto(s) == ParseInt(s)
  {
  }

  /**
   * `parseInt` without a radix reads back what `String(n)` wrote, whatever text
   * follows the numeral as long as it does not start with a digit, an `x` or an `X`.
   */
  lemma ParseIntAutoOfIntToString(n: int, rest: string)
    requires rest == [] || (!IsDigit(rest[0]) && rest[0] != 'x' && rest[0] != 'X')
    ensures ParseIntAuto(IntToString(n) + rest) == Some(n)
  {
    var m: nat := if n < 0 then -n else n;
    IntToStringSplit(n, rest);
    UnsignedOfSigned(IntToString(n) + rest, NatToString(m) + rest, n < 0);
    NumeralNotHexPrefixed(NatToString(m), rest);
    ParseIntOfIntToString(n, rest);
  }

  /** On an optional minus sign followed by a digit, `parseInt` skips exactly the sign. */
  lemma UnsignedOfSigned(t: string, body: string, negative: bool)
    requires body != [] && IsDigit(body[0])
    requires t == if negative then "-" + body else body
    ensures Unsigned(t) == body
  {
    assert !IsSpace(t[0]);
    assert TrimStart(t) == t;
    if negative {
      assert t[1..] == body;
    }
  }

  /** A numeral followed by text that does not start with a digit, an `x` or an `X` has no `0x` prefix. */
  lemma NumeralNotHexPrefixed(digits: string, rest: string)
    requires digits != [] && AllDigits(digits)
    requires rest == [] || (!IsDigit(rest[0]) && rest[0] != 'x' && rest[0] != 'X')
    ensures !HexPrefixed(digits + rest)
  {
    var b := digits + rest;
    if |b| >= 2 {
      if |digits| >= 2 {
        assert b[1] == digits[1];
      } else {
        assert b[1] == rest[0];
      }
    }
  }

  /** A radix-less `parseInt` on hexadecimal input: `0x1F` is 31, `-0x10` is -16, and a bare `0x` is NaN. */
  lemma ParseIntAutoHex()
    ensures ParseIntAuto("0x1F") == Some(31)
    ensures ParseIntAuto("-0x10") == Some(-16)
    ensures ParseIntAuto("0x") == None
    ensures ParseInt("0x1F") == Some(0)
  {
    HexOneF();
    HexMinusTen();
    HexPrefixAlone();
    DecimalStopsAtX();
  }

  lemma HexOneF()
    ensures ParseIntAuto("0x1F") == Some(31)
  {
    var a := "0x1F";
    assert Unsigned(a) == a by { assert TrimStart(a) == a; }
    assert a[2..] == "1F";
    assert HexRun("1F") == 2 by { assert "1F"[1..] == "F"; assert HexRun("F") == 1 by { assert "F"[1..] == ""; } }
    assert "1F"[..2] == "1F";
    assert HexDigitsValue("1F") == 31 by { assert "1F"[..1] == "1"; assert HexDigitsValue("1") == 1 by { assert "1"[..0] == ""; } }
  }

  lemma HexMinusTen()
    ensures ParseIntAuto("-0x10") == Some(-16)
  {
    var b := "-0x10";
    assert TrimStart(b) == b;
    assert Unsigned(b) == "0x10" by { assert b[1..] == "0x10"; }
    assert "0x10"[2..] == "10";
    assert HexRun("10") == 2 by { assert "10"[1..] == "0"; assert HexRun("0") == 1 by { assert "0"[1..] == ""; } }
    assert "10"[..2] == "10";
    assert HexDigitsValue("10") == 16 by { assert "10"[..1] == "1"; assert HexDigitsValue("1") == 1 by { assert "1"[..0] == ""; } }
  }

  lemma HexPrefixAlone()
    ensures ParseIntAuto("0x") == None
  {
    var c := "0x";
    assert Unsigned(c) == c by { assert TrimStart(c) == c; }
    assert c[2..] == "";
  }

  lemma DecimalStopsAtX()
    ensures ParseInt("0x1F") == Some(0)
  {
    var a := "0x1F";
    assert TrimStart(a) == a;
    assert DigitRun(a) == 1 by { assert a[1..] == "x1F"; }
    assert a[..1] == "0" && DigitsValue("0") == 0 by { assert "0"[..0] == ""; }
  }

  /**
   * `parseInt` reads back what `String(n)` wrote, whatever text follows the numeral
   * as long as that text does not start with a digit (`parseInt("5m ago") === 5`).
   */
  lemma ParseIntOfIntToString(n: int, rest: string)
    requires rest == [] || !IsDigit(rest[0])
    ensures ParseInt(IntToString(n) + rest) == Some(n)
  {
    var m: nat := if n < 0 then -n else n;
    DigitRunOfNumeral(NatToString(m), rest);
    NatToStringValue(m);
    IntToStringSplit(n, rest);
    ParseIntReads(IntToString(n) + rest, NatToString(m) + rest, n < 0);
  }

  /** `String(n)` followed by `rest` is an optional minus sign, then the numeral of `|n|`, then `rest`. */
  lemma IntToStringSplit(n: int, rest: string)
    ensures var body := NatToString(if n < 0 then -n else n) + rest;
      && body != [] && IsDigit(body[0])
      && IntToString(n) + rest == if n < 0 then "-" + body else body
  {
    var body := NatToString(if n < 0 then -n else n) + rest;
    assert body[0] == NatToString(if n < 0 then -n else n)[0];
    if n < 0 {
      assert IntToString(n) + rest == "-" + body;
    }
  }

  /** `parseInt` on an optional minus sign followed by a digit run: the run's value with that sign. */
  lemma ParseIntReads(t: string, body: string, negative: bool)
    requires body != [] && IsDigit(body[0])
    requires t == if negative then "-" + body else body
    ensures var v: int := DigitsValue(body[..DigitRun(body)]);
      ParseInt(t) == Some(if negative then -v else v)
  {
    assert !IsSpace(t[0]);
    assert TrimStart(t) == t;
    if negative {
      assert t[1..] == body;
    }
  }

  /** The digit run of a numeral followed by text that does not start with a digit is the numeral. */
  lemma {:induction false} DigitRunOfNumeral(digits: string, rest: string)
    requires AllDigits(digits)
    requires rest == [] || !IsDigit(rest[0])
    ensures DigitRun(digits + rest) == |digits|
    ensures (digits + rest)[..|digits|] == digits
  {
    if digits != [] {
      assert (digits + rest)[1..] == digits[1..] + rest;
      DigitRunOfNumeral(digits[1..], rest);
    }
  }
}
