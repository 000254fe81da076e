/** The parts of Python the ingestion service relies on: the exceptions it
    can raise, `int()` applied to a `str`, `str.rstrip`, and
    slicing with a bound that may be negative. */
module Builtins {

  datatype Option<T> = None | Some(value: T)

  /** The exceptions the modelled code can raise. */
  datatype Exception =
    | ValueError(cause: ValueErrorCause)
    | KeyError(key: string)
    | IndexError
    | IntegrityError(column: string)   // raised by the database on a NOT NULL violation

  datatype ValueErrorCause =
    | InvalidLiteral(literal: string)     // int() of a string that is no base-10 literal
    | UnpackMismatch                      // `a, b = s.split(c)` where c occurs more than once
    | NoChannelFound(identifier: string)  // raised by get_channel_data itself

  /** A value, or the exception that was raised instead. */
  datatype Result<T> = Ok(value: T) | Err(error: Exception)

  predicate IsDigit(c: char) { '0' <= c <= '9' }

  /** The whitespace `int()` skips around a literal: the six ASCII
      whitespace characters, and the non-ASCII characters for which
      `str.isspace()` holds (`int()` first turns those into ' ').  The
      ASCII separators U+001C to U+001F satisfy `str.isspace()` but are not
      skipped. */
  predicate IsSpace(c: char) {
    var k := c as int;
    k == 32 || 9 <= k <= 13 || k == 0x85 || k == 0xA0 || k == 0x1680
    || 0x2000 <= k <= 0x200A || k == 0x2028 || k == 0x2029 || k == 0x202F || k == 0x205F
    || k == 0x3000
  }

  /** Leading whitespace removed. */
  function LStripSpace(s: string): (r: string)
    ensures |r| <= |s| && r == s[|s| - |r|..]
    ensures r != [] ==> !IsSpace(r[0])
    ensures forall i :: 0 <= i < |s| - |r| ==> IsSpace(s[i])
  {
    if s != [] && IsSpace(s[0]) then LStripSpace(s[1..]) else s
  }

  /** Trailing whitespace removed. */
  function RStripSpace(s: string): (r: string)
    ensures |r| <= |s| && r == s[..|r|]
    ensures r != [] ==> !IsSpace(r[|r| - 1])
    ensures forall i :: |r| <= i < |s| ==> IsSpace(s[i])
  {
    if s != [] && IsSpace(s[|s| - 1]) then RStripSpace(s[..|s| - 1]) else s
  }

  /** The whitespace `int()` skips at both ends removed. */
  function StripSpace(s: string): string {
    RStripSpace(LStripSpace(s))
  }

  /** `s.rstrip(c)` for a one-character argument: every trailing `c` goes. */
  function RStrip(s: string, c: char): (r: string)
    ensures |r| <= |s| && r == s[..|r|]
    ensures r != [] ==> r[|r| - 1] != c
    ensures forall i :: |r| <= i < |s| ==> s[i] == c
  {
    if s != [] && s[|s| - 1] == c then RStrip(s[..|s| - 1], c) else s
  }

  /** The digits of a base-10 literal as `int()` reads them: ASCII digits,
      with single underscores allowed between two digits. */
  predicate IsLiteral(s: string) {
    && |s| > 0 && IsDigit(s[0]) && IsDigit(s[|s| - 1])
    && (forall i :: 0 <= i < |s| ==> IsDigit(s[i]) || s[i] == '_')
    && (forall i :: 0 <= i < |s| - 1 ==> IsDigit(s[i]) || IsDigit(s[i + 1]))
  }

  /** The number the digits of `s` spell, underscores skipped. */
  function DigitsValue(s: string): nat {
    if s == [] then 0
    else if IsDigit(s[|s| - 1]) then 10 * DigitsValue(s[..|s| - 1]) + (s[|s| - 1] as int - '0' as int)
    else DigitsValue(s[..|s| - 1])
  }

  /** `int(s)` for a `str` argument: surrounding whitespace, then an
      optional sign, then a literal; anything else raises ValueError. */
  function ParseInt(s: string): (r: Result<int>)
    ensures r.Err? ==> r.error == ValueError(InvalidLiteral(s))
  {
    var t := StripSpace(s);
    var signed := |t| > 0 && (t[0] == '-' || t[0] == '+');
    var body := if signed then t[1..] else t;
    if !IsLiteral(body) then Err(ValueError(InvalidLiteral(s)))
    else
      var magnitude: int := DigitsValue(body);
      Ok(if signed && t[0] == '-' then -magnitude else magnitude)
  }

  function DigitChar(d: nat): (c: char)
    requires d < 10
    ensures IsDigit(c) && c as int - '0' as int == d
  {
    ('0' as int + d) as char
  }

  /** `str(n)` for a natural number. */
  function Show(n: nat): (s: string)
    ensures |s| > 0 && forall i :: 0 <= i < |s| ==> IsDigit(s[i])
  {
    if n < 10 then [DigitChar(n)] else Show(n / 10) + [DigitChar(n % 10)]
  }

  lemma {:induction false} ShowValue(n: nat)
    ensures DigitsValue(Show(n)) == n
  {
    if n >= 10 {
      var s := Show(n);
      assert s[..|s| - 1] == Show(n / 10);
      ShowValue(n / 10);
    }
  }

  lemma StripDigits(s: string)
    requires |s| > 0 && IsDigit(s[0]) && IsDigit(s[|s| - 1])
    ensures StripSpace(s) == s
  {
  }

  /** `int()` reads a string of ASCII digits as the number it spells. */
  lemma ParseIntDigits(s: string)
    requires |s| > 0 && forall i :: 0 <= i < |s| ==> IsDigit(s[i])
    ensures ParseInt(s) == Ok(DigitsValue(s))
  {
    StripDigits(s);
  }

  /** `int(str(n)) == n` */
  lemma ParseIntShow(n: nat)
    ensures ParseInt(Show(n)) == Ok(n)
  {
    ParseIntDigits(Show(n));
    ShowValue(n);
  }

  /** A character that is neither whitespace, a sign, a digit nor an
      underscore makes `int()` raise, wherever it stands. */
  lemma ParseIntRejects(s: string, c: char)
    requires c in s && !IsSpace(c) && !IsDigit(c) && c != '_' && c != '-' && c != '+'
    ensures ParseInt(s).Err?
  {
    var t := StripSpace(s);
    StripKeeps(s, c);
    var signed := |t| > 0 && (t[0] == '-' || t[0] == '+');
    var body := if signed then t[1..] else t;
    assert c in body;
    NotLiteral(body, c);
  }

  lemma StripKeeps(s: string, c: char)
    requires c in s && !IsSpace(c)
    ensures c in StripSpace(s)
  {
    var i :| 0 <= i < |s| && s[i] == c;
    var l := LStripSpace(s);
    var d := |s| - |l|;
    if i < d {
      assert false;
    }
    var j := i - d;
    assert l[j] == s[i];
    var t := RStripSpace(l);
    if j >= |t| {
      assert false;
    }
    assert t[j] == c;
  }

  lemma NotLiteral(s: string, c: char)
    requires c in s && !IsDigit(c) && c != '_'
    ensures !IsLiteral(s)
  {
    var i :| 0 <= i < |s| && s[i] == c;
  }

  /** A file separator before the digits is not skipped: `int("\x1c5")`
      raises. */
  lemma SeparatorNotSkipped()
    ensures ParseInt([28 as char, '5']).Err?
  {
    ParseIntRejects([28 as char, '5'], 28 as char);
  }

  /** Without a minus sign, `int()` never yields a negative number. */
  lemma ParseIntUnsigned(s: string)
    requires '-' !in s && ParseInt(s).Ok?
    ensures ParseInt(s).value >= 0
  {
  }

  /** `int(d.get(key, 0))` for a dict of strings: an absent key is 0, a
      present value goes through `int()`. */
  function CountField(o: Option<string>): (r: Result<int>)
    ensures o.None? ==> r == Ok(0)
    ensures o.Some? ==> r == ParseInt(o.value)
  {
    if o.None? then Ok(0) else ParseInt(o.value)
  }

  /** `s[:m]` in Python: a negative bound counts from the end. */
  function PyPrefix<T>(s: seq<T>, m: int): (r: seq<T>)
    ensures r <= s
    ensures m >= 0 ==> |r| == if m <= |s| then m else |s|
    ensures m < 0 ==> |r| == if -m <= |s| then |s| + m else 0
  {
    if m >= 0 then (if m <= |s| then s[..m] else s)
    else if -m <= |s| then s[..|s| + m] else []
  }
}
