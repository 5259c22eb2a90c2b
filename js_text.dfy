/** The optional value used wherever the source has `T | undefined` or `T | null`. */
module Options {
  datatype Option<+T> = None | Some(value: T)
}

/**
 * The few JavaScript string and number built-ins the booking code relies on:
 * `String.prototype.trim`, the `\s` character class, `parseInt` with no radix,
 * `Number.prototype.toString` on whole numbers, `padStart` and `split(':')[0]`.
 * Numbers are whole numbers here; `NaN` is `None`.
 */
module JsText {
  import opened Options

  /** The characters JavaScript counts as WhiteSpace or LineTerminator (used by trim, parseInt and `\s`). */
  predicate IsJsSpace(c: char) {
    var n := c as int;
    n == 0x09 || n == 0x0A || n == 0x0B || n == 0x0C || n == 0x0D || n == 0x20 ||
    n == 0xA0 || n == 0x1680 || (0x2000 <= n <= 0x200A) || n == 0x2028 || n == 0x2029 ||
    n == 0x202F || n == 0x205F || n == 0x3000 || n == 0xFEFF
  }

  predicate IsDecimalDigit(c: char) {
    '0' <= c <= '9'
  }

  function DigitChar(d: nat): (c: char)
    requires d < 10
    ensures IsDecimalDigit(c)
  {
    "0123456789"[d]
  }

  /** Value of a digit character in the given radix, or -1 when it is not a digit of that radix. */
  function DigitValue(c: char, radix: nat): (v: int)
    requires radix == 10 || radix == 16
    ensures -1 <= v < radix as int
    ensures radix == 10 ==> (v >= 0 <==> IsDecimalDigit(c))
  {
    if '0' <= c <= '9' then c as int - '0' as int
    else if radix == 16 && 'a' <= c <= 'f' then c as int - 'a' as int + 10
    else if radix == 16 && 'A' <= c <= 'F' then c as int - 'A' as int + 10
    else -1
  }

  lemma DigitValueOfDigitChar(d: nat)
    requires d < 10
    ensures DigitValue(DigitChar(d), 10) == d
  {
  }

  /** `n.toString()` for a non-negative whole number. */
  function NatToString(n: nat): (s: string)
    ensures |s| >= 1
    ensures forall i :: 0 <= i < |s| ==> IsDecimalDigit(s[i])
    decreases n
  {
    if n < 10 then [DigitChar(n)] else NatToString(n / 10) + [DigitChar(n % 10)]
  }

  /** `n.toString()` for a whole number: a minus sign, then the decimal digits of its magnitude. */
  function IntToString(n: int): (s: string)
    ensures |s| >= 1
  {
    if n < 0 then "-" + NatToString(-n) else NatToString(n)
  }

  /** `s.padStart(width, c)`: prefix copies of `c` until `s` is `width` long. */
  function PadStart(s: string, width: nat, c: char): (r: string)
    ensures |r| == if |s| >= width then |s| else width
    ensures r[|r| - |s|..] == s
    ensures forall i :: 0 <= i < |r| - |s| ==> r[i] == c
  {
    if |s| >= width then s else seq(width - |s|, _ => c) + s
  }

  /** `s.split(':')[0]`: everything before the first colon, or all of `s` when it has none. */
  function BeforeColon(s: string): (r: string)
    ensures |r| <= |s| && r == s[..|r|]
    ensures ':' !in r
    ensures |r| < |s| ==> s[|r|] == ':'
  {
    if s == [] then []
    else if s[0] == ':' then []
    else [s[0]] + BeforeColon(s[1..])
  }

  /** Drops leading JavaScript white space. */
  function TrimStart(s: string): (r: string)
    ensures |r| <= |s| && r == s[|s| - |r|..]
    ensures r != [] ==> !IsJsSpace(r[0])
  {
    if s != [] && IsJsSpace(s[0]) then TrimStart(s[1..]) else s
  }

  /** Everything `TrimStart` drops is white space. */
  lemma {:induction false} TrimStartDropsSpace(s: string)
    ensures forall i :: 0 <= i < |s| - |TrimStart(s)| ==> IsJsSpace(s[i])
  {
    if s != [] && IsJsSpace(s[0]) {
      TrimStartDropsSpace(s[1..]);
      assert forall i :: 1 <= i < |s| - |TrimStart(s)| ==> s[i] == s[1..][i - 1];
    }
  }

  /** Drops trailing JavaScript white space. */
  function TrimEnd(s: string): (r: string)
    ensures |r| <= |s| && r == s[..|r|]
    ensures r != [] ==> !IsJsSpace(r[|r| - 1])
  {
    if s != [] && IsJsSpace(s[|s| - 1]) then TrimEnd(s[..|s| - 1]) else s
  }

  /** Everything `TrimEnd` drops is white space. */
  lemma {:induction false} TrimEndDropsSpace(s: string)
    ensures forall i :: |TrimEnd(s)| <= i < |s| ==> IsJsSpace(s[i])
  {
    if s != [] && IsJsSpace(s[|s| - 1]) {
      TrimEndDropsSpace(s[..|s| - 1]);
    }
  }

  /** `s.trim()`. */
  function Trim(s: string): string {
    TrimEnd(TrimStart(s))
  }

  /** `s.trim()` is empty exactly when every character of `s` is white space. */
  lemma TrimEmptyIffAllSpace(s: string)
    ensures Trim(s) == [] <==> forall i :: 0 <= i < |s| ==> IsJsSpace(s[i])
  {
    var t := TrimStart(s);
    if Trim(s) == [] {
      TrimEndDropsSpace(t);
      assert t == [];
      TrimStartDropsSpace(s);
    } else {
      var r := Trim(s);
      assert r[0] == t[0];
      assert !IsJsSpace(s[|s| - |t|]);
    }
  }

  /** The longest prefix of `s` made of digits of the radix. */
  function DigitPrefix(s: string, radix: nat): (r: string)
    requires radix == 10 || radix == 16
    ensures |r| <= |s| && r == s[..|r|]
  {
    if s != [] && DigitValue(s[0], radix) >= 0 then [s[0]] + DigitPrefix(s[1..], radix) else []
  }

  /** The value of a string of digits of the radix, most significant first (a non-digit counts as 0). */
  function DigitsValue(s: string, radix: nat): (v: nat)
    requires radix == 10 || radix == 16
  {
    if s == [] then 0
    else
      var d := DigitValue(s[|s| - 1], radix);
      DigitsValue(s[..|s| - 1], radix) * radix + (if d < 0 then 0 else d)
  }

  /** Digits after the sign: base 16 after a `0x`/`0X` prefix, else base 10; `None` when no digit follows. */
  function ParseMagnitude(u: string): (r: Option<nat>)
  {
    if |u| >= 2 && u[0] == '0' && (u[1] == 'x' || u[1] == 'X') then
      var digits := DigitPrefix(u[2..], 16);
      if digits == [] then None else Some(DigitsValue(digits, 16))
    else
      var digits := DigitPrefix(u, 10);
      if digits == [] then None else Some(DigitsValue(digits, 10))
  }

  /**
   * `parseInt(s)` with no radix: skip leading white space, read an optional sign, then the
   * magnitude; `NaN` (here `None`) when no digit follows.
   */
  function ParseInt(s: string): (r: Option<int>)
  {
    var t := TrimStart(s);
    var negative := t != [] && t[0] == '-';
    var magnitude := ParseMagnitude(if t != [] && (t[0] == '-' || t[0] == '+') then t[1..] else t);
    if magnitude.None? then None
    else if negative then Some(-(magnitude.value as int))
    else Some(magnitude.value)
  }

  /** `parseInt(s.split(':')[0])`: the hour written before the first colon. */
  function ParseHour(s: string): Option<int> {
    ParseInt(BeforeColon(s))
  }

  /** Reading back the decimal digits of `n` gives `n`. */
  lemma {:induction false} NatToStringValue(n: nat)
    ensures DigitsValue(NatToString(n), 10) == n
    decreases n
  {
    var s := NatToString(n);
    if n < 10 {
      DigitValueOfDigitChar(n);
    } else {
      NatToStringValue(n / 10);
      assert s[..|s| - 1] == NatToString(n / 10);
      DigitValueOfDigitChar(n % 10);
    }
  }

  /** `toString` never gives two whole numbers the same text, so ids built from it are distinct. */
  lemma NatToStringInjective(m: nat, n: nat)
    ensures NatToString(m) == NatToString(n) <==> m == n
  {
    if NatToString(m) == NatToString(n) {
      NatToStringValue(m);
      NatToStringValue(n);
    }
  }

  lemma IntToStringInjective(m: int, n: int)
    ensures IntToString(m) == IntToString(n) <==> m == n
  {
    if m < 0 && n < 0 {
      assert IntToString(m) == "-" + NatToString(-m) && IntToString(n) == "-" + NatToString(-n);
      MinusTextInjective(-m, -n);
    } else if m >= 0 && n >= 0 {
      assert IntToString(m) == NatToString(m) && IntToString(n) == NatToString(n);
      NatToStringInjective(m, n);
    } else if m < 0 {
      SignsDiffer(m, n);
    } else {
      SignsDiffer(n, m);
    }
  }

  /** Two negative numbers' texts: a minus sign in front of their magnitudes' texts. */
  lemma MinusTextInjective(a: nat, b: nat)
    ensures "-" + NatToString(a) == "-" + NatToString(b) ==> a == b
  {
    if "-" + NatToString(a) == "-" + NatToString(b) {
      PrefixCancels("-", NatToString(a), NatToString(b));
      NatToStringInjective(a, b);
    }
  }

  /** The same prefix in front of two texts keeps them equal or different, as they were. */
  lemma PrefixCancels(prefix: string, a: string, b: string)
    ensures prefix + a == prefix + b <==> a == b
  {
    assert a == (prefix + a)[|prefix|..];
    assert b == (prefix + b)[|prefix|..];
  }

  /** A negative number's text starts with a minus sign, a non-negative one's with a digit. */
  lemma SignsDiffer(p: int, q: int)
    requires p < 0 <= q
    ensures IntToString(p) != IntToString(q)
  {
    NegativeToString(p);
    assert IsDecimalDigit(IntToString(q)[0]);
  }

  lemma NegativeToString(m: int)
    requires m < 0
    ensures IntToString(m)[0] == '-' && IntToString(m)[1..] == NatToString(-m)
  {
  }

  /** A leading zero does not change the value of a decimal numeral. */
  lemma {:induction false} LeadingZeroValue(s: string)
    ensures DigitsValue(['0'] + s, 10) == DigitsValue(s, 10)
    decreases |s|
  {
    if s != [] {
      LeadingZeroValue(s[..|s| - 1]);
      assert (['0'] + s)[..|s|] == ['0'] + s[..|s| - 1];
    }
  }

  /** The digit run of `d + t` is `d` when `d` is all digits and `t` does not start with one. */
  lemma {:induction false} DigitPrefixStops(d: string, t: string)
    requires forall i :: 0 <= i < |d| ==> IsDecimalDigit(d[i])
    requires t == [] || !IsDecimalDigit(t[0])
    ensures DigitPrefix(d + t, 10) == d
    decreases |d|
  {
    if d != [] {
      DigitPrefixStops(d[1..], t);
      assert (d + t)[1..] == d[1..] + t;
    }
  }

  /** The two-digit hour label `hour.toString().padStart(2, '0')`. */
  function HourLabel(hour: int): (s: string)
    ensures |s| >= 2
  {
    PadStart(IntToString(hour), 2, '0')
  }

  /** The hour label spells `hour` in decimal, with a leading zero for 0..9. */
  lemma HourLabelShape(hour: int)
    ensures 0 <= hour < 10 ==> HourLabel(hour) == ['0'] + NatToString(hour)
    ensures hour >= 10 ==> HourLabel(hour) == NatToString(hour)
    ensures hour < 0 ==> HourLabel(hour) == "-" + NatToString(-hour)
  {
    if 0 <= hour < 10 {
      assert |NatToString(hour)| == 1;
    } else if hour < 0 {
      assert |IntToString(hour)| >= 2;
    } else {
      assert NatToString(hour) == NatToString(hour / 10) + [DigitChar(hour % 10)];
    }
  }

  /** Text that does not start with white space is left alone by `TrimStart`. */
  lemma TrimStartKeeps(s: string)
    requires s != [] && (s[0] == '-' || IsDecimalDigit(s[0]))
    ensures TrimStart(s) == s
  {
  }

  /** A decimal numeral followed by a colon is read in base 10 up to the colon. */
  lemma ParseMagnitudeOfNumeral(digits: string, rest: string)
    requires digits != [] && forall i :: 0 <= i < |digits| ==> IsDecimalDigit(digits[i])
    requires rest == [] || rest[0] == ':'
    ensures ParseMagnitude(digits + rest) == Some(DigitsValue(digits, 10))
  {
    var u := digits + rest;
    assert |u| >= 2 ==> u[1] == if |digits| >= 2 then digits[1] else rest[0];
    DigitPrefixStops(digits, rest);
  }

  /** Text that starts with a digit is read as an unsigned magnitude. */
  lemma ParseUnsigned(s: string, m: nat)
    requires s != [] && IsDecimalDigit(s[0])
    requires ParseMagnitude(s) == Some(m)
    ensures ParseInt(s) == Some(m)
  {
    TrimStartKeeps(s);
  }

  /** A minus sign followed by a magnitude is read as the negated magnitude. */
  lemma ParseSigned(u: string, m: nat)
    requires ParseMagnitude(u) == Some(m)
    ensures ParseInt("-" + u) == Some(-(m as int))
  {
    var s := "-" + u;
    assert s != [] && s[0] == '-';
    assert TrimStart(s) == s by { TrimStartKeeps(s); }
    assert s[1..] == u;
    assert ParseMagnitude(s[1..]) == Some(m);
  }

  /** The label of a non-negative hour, followed by a colon-led tail, parses back to the hour. */
  lemma NonNegativeLabelParses(hour: nat, rest: string)
    requires rest == [] || rest[0] == ':'
    ensures ParseInt(HourLabel(hour) + rest) == Some(hour)
  {
    var digits := HourLabel(hour);
    assert forall i :: 0 <= i < |digits| ==> IsDecimalDigit(digits[i]) by { HourLabelShape(hour); }
    assert DigitsValue(digits, 10) == hour by {
      HourLabelShape(hour);
      NatToStringValue(hour);
      if hour < 10 { LeadingZeroValue(NatToString(hour)); }
    }
    assert ParseMagnitude(digits + rest) == Some(hour) by {
      HourLabelShape(hour);
      ParseMagnitudeOfNumeral(digits, rest);
    }
    ParseUnsigned(digits + rest, hour);
  }

  /** The label of a negative hour, followed by a colon-led tail, parses back to the hour. */
  lemma NegativeLabelParses(hour: int, rest: string)
    requires hour < 0
    requires rest == [] || rest[0] == ':'
    ensures ParseInt(HourLabel(hour) + rest) == Some(hour)
  {
    var u := NatToString(-hour) + rest;
    assert HourLabel(hour) + rest == "-" + u by {
      HourLabelShape(hour);
    }
    NumeralMagnitude(-hour, rest);
    ParseSigned(u, -hour);
  }

  lemma NumeralMagnitude(n: nat, rest: string)
    requires rest == [] || rest[0] == ':'
    ensures ParseMagnitude(NatToString(n) + rest) == Some(n)
  {
    NatToStringValue(n);
    ParseMagnitudeOfNumeral(NatToString(n), rest);
  }

  /** `parseInt` of the label, or of the label followed by text that starts with a colon, is the hour. */
  lemma HourLabelParses(hour: int, rest: string)
    requires rest == [] || rest[0] == ':'
    ensures ParseInt(HourLabel(hour) + rest) == Some(hour)
  {
    if hour < 0 {
      NegativeLabelParses(hour, rest);
    } else {
      NonNegativeLabelParses(hour, rest);
    }
  }

  lemma HourLabelHasNoColon(hour: int)
    ensures ':' !in HourLabel(hour)
  {
    HourLabelShape(hour);
    var digits := NatToString(if hour < 0 then -hour else hour);
    assert forall i :: 0 <= i < |digits| ==> digits[i] != ':';
  }

  /** A colon-free head that parses to `hour` still does once a colon and minutes follow it. */
  lemma ParseHourOfHead(head: string, minutes: string, hour: int)
    requires ':' !in head
    requires ParseInt(head) == Some(hour)
    ensures ParseHour(head + ":" + minutes) == Some(hour)
  {
    BeforeColonOfLabel(head, ":" + minutes);
    assert head + ":" + minutes == head + (":" + minutes);
  }

  lemma HourLabelAlone(hour: int)
    ensures ParseInt(HourLabel(hour)) == Some(hour)
  {
    HourLabelParses(hour, []);
    assert HourLabel(hour) + [] == HourLabel(hour);
  }

  /** `split(':')[0]` of a colon-free head followed by a colon is that head. */
  lemma {:induction false} BeforeColonOfLabel(head: string, rest: string)
    requires ':' !in head
    requires rest == [] || rest[0] == ':'
    ensures BeforeColon(head + rest) == head
    decreases |head|
  {
    if head != [] {
      BeforeColonOfLabel(head[1..], rest);
      assert (head + rest)[1..] == head[1..] + rest;
    }
  }

  /** Only the text before the first colon matters: the minutes never change the parsed hour. */
  lemma MinutesIgnored(hours: string, minutes1: string, minutes2: string)
    requires ':' !in hours
    ensures ParseHour(hours + ":" + minutes1) == ParseHour(hours + ":" + minutes2)
  {
    BeforeColonOfLabel(hours, ":" + minutes1);
    BeforeColonOfLabel(hours, ":" + minutes2);
    assert hours + ":" + minutes1 == hours + (":" + minutes1);
    assert hours + ":" + minutes2 == hours + (":" + minutes2);
  }
}
