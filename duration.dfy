/** `_parse_duration` (youtube/services/youtube.py:255-278): the subset of
    the ISO 8601 duration format (section 4.4.3.2 of ISO 8601:2004) that
    the service reads, `PT#H#M#S`, turned into a number of seconds.

    The code drops the first two characters whatever they are, then splits
    on 'H', then on 'M', and finally strips trailing 'S' characters; each
    part before a marker goes through `int()`.  A marker that occurs twice
    makes the two-name unpacking raise ValueError, and so does a part that
    is no integer literal. */
module Duration {
  import opened Builtins

  /** The index of the first `c` in `s`. */
  function IndexOf(s: string, c: char): (i: nat)
    requires c in s
    ensures i < |s| && s[i] == c && c !in s[..i]
  {
    if s[0] == c then 0
    else
      var j := IndexOf(s[1..], c);
      assert s[..j + 1] == [s[0]] + s[1..][..j];
      j + 1
  }

  /** `a, rest = s.split(c)` and then `int(a)`, for a `c` that occurs in `s`. */
  function SplitComponent(s: string, c: char): (r: Result<(int, string)>)
    requires c in s
    ensures r.Err? ==> r.error.ValueError?
  {
    var i := IndexOf(s, c);
    if c in s[i + 1..] then Err(ValueError(UnpackMismatch))
    else
      match ParseInt(s[..i])
      case Err(e) => Err(e)
      case Ok(n) => Ok((n, s[i + 1..]))
  }

  /** One `if marker in rest:` step: the number before the marker and
      what follows it, or 0 and `rest` unchanged when the marker is absent. */
  function Stage(rest: string, marker: char): (r: Result<(int, string)>)
    ensures r.Err? ==> r.error.ValueError?
  {
    if marker in rest then SplitComponent(rest, marker) else Ok((0, rest))
  }

  /** The final step: `int(rest.rstrip('S'))` when an 'S' is present. */
  function SecondsStage(rest: string): (r: Result<int>)
    ensures r.Err? ==> r.error.ValueError?
  {
    if 'S' in rest then ParseInt(RStrip(rest, 'S')) else Ok(0)
  }

  /** `duration[2:]` */
  function DropMarker(duration: string): string {
    if |duration| >= 2 then duration[2..] else []
  }

  /** The length of h hours, m minutes and s seconds, in seconds. */
  function Seconds(h: int, m: int, s: int): int {
    3600 * h + 60 * m + s
  }

  /** Seconds in `duration`, or the ValueError the code raises. */
  function ParseDuration(duration: string): (r: Result<int>)
    ensures r.Err? ==> r.error.ValueError?
  {
    match Stage(DropMarker(duration), 'H')
    case Err(e) => Err(e)
    case Ok((hours, rest1)) =>
      match Stage(rest1, 'M')
      case Err(e) => Err(e)
      case Ok((minutes, rest2)) =>
        match SecondsStage(rest2)
        case Err(e) => Err(e)
        case Ok(seconds) => Ok(Seconds(hours, minutes, seconds))
  }

  // ---- a component-wise encoder, the partner of the parser ----

  /** A run of ASCII digits, as a duration component is written. */
  predicate Numeral(s: string) {
    |s| > 0 && forall i :: 0 <= i < |s| ==> IsDigit(s[i])
  }

  predicate Numerals(h: Option<string>, m: Option<string>, s: Option<string>) {
    (h.Some? ==> Numeral(h.value)) && (m.Some? ==> Numeral(m.value)) && (s.Some? ==> Numeral(s.value))
  }

  /** The numeral followed by its marker, or nothing for an absent component. */
  function Component(n: Option<string>, marker: char): string {
    if n.Some? then n.value + [marker] else []
  }

  /** What a component contributes: its value, 0 when absent. */
  function Amount(n: Option<string>): nat {
    if n.Some? then DigitsValue(n.value) else 0
  }

  /** `PT[hH][mM][sS]` */
  function Encode(h: Option<string>, m: Option<string>, s: Option<string>): string {
    "PT" + Component(h, 'H') + Component(m, 'M') + Component(s, 'S')
  }

  lemma ComponentLacks(n: Option<string>, marker: char, c: char)
    requires n.Some? ==> Numeral(n.value)
    requires c != marker && !IsDigit(c)
    ensures c !in Component(n, marker)
  {
    if n.Some? {
      assert Component(n, marker) == n.value + [marker];
    }
  }

  /** Splitting `a + [c] + b` on `c` gives back `a` and `b` when `c` is
      in neither. */
  lemma SplitAt(a: string, c: char, b: string)
    requires c !in a && c !in b
    ensures c in a + [c] + b
    ensures IndexOf(a + [c] + b, c) == |a|
    ensures (a + [c] + b)[..|a|] == a && (a + [c] + b)[|a| + 1..] == b
  {
    var s := a + [c] + b;
    assert s[|a|] == c;
    var i := IndexOf(s, c);
    if i < |a| {
      assert false;
    } else if i > |a| {
      assert false;
    }
    assert s[..|a|] == a;
    assert s[|a| + 1..] == b;
  }

  /** A step reads a present component and hands on the tail; an absent
      one contributes 0 and leaves the text alone. */
  lemma StageComponent(n: Option<string>, c: char, tail: string)
    requires n.Some? ==> Numeral(n.value)
    requires !IsDigit(c) && c !in tail
    ensures Stage(Component(n, c) + tail, c) == Ok((Amount(n) as int, tail))
  {
    if n.Some? {
      var d := n.value;
      assert Component(n, c) + tail == d + [c] + tail;
      SplitAt(d, c, tail);
      ParseIntDigits(d);
    } else {
      assert Component(n, c) + tail == tail;
    }
  }

  lemma SecondsComponent(n: Option<string>)
    requires n.Some? ==> Numeral(n.value)
    ensures SecondsStage(Component(n, 'S')) == Ok(Amount(n) as int)
  {
    if n.Some? {
      var d := n.value;
      assert Component(n, 'S') == d + ['S'];
      assert RStrip(d + ['S'], 'S') == d;
      ParseIntDigits(d);
    }
  }

  lemma TailLacks(m: Option<string>, s: Option<string>)
    requires (m.Some? ==> Numeral(m.value)) && (s.Some? ==> Numeral(s.value))
    ensures 'H' !in Component(m, 'M') + Component(s, 'S')
    ensures 'M' !in Component(s, 'S')
  {
    ComponentLacks(m, 'M', 'H');
    ComponentLacks(s, 'S', 'H');
    ComponentLacks(s, 'S', 'M');
  }

  lemma HoursStep(h: Option<string>, m: Option<string>, s: Option<string>)
    requires Numerals(h, m, s)
    ensures Stage(DropMarker(Encode(h, m, s)), 'H') == Ok((Amount(h) as int, Component(m, 'M') + Component(s, 'S')))
  {
    var tail1 := Component(m, 'M') + Component(s, 'S');
    assert DropMarker(Encode(h, m, s)) == Component(h, 'H') + tail1;
    TailLacks(m, s);
    StageComponent(h, 'H', tail1);
  }

  lemma MinutesStep(m: Option<string>, s: Option<string>)
    requires (m.Some? ==> Numeral(m.value)) && (s.Some? ==> Numeral(s.value))
    ensures Stage(Component(m, 'M') + Component(s, 'S'), 'M') == Ok((Amount(m) as int, Component(s, 'S')))
  {
    TailLacks(m, s);
    StageComponent(m, 'M', Component(s, 'S'));
  }

  lemma StagesCompose(e: string, rest1: string, rest2: string, hours: int, minutes: int, seconds: int)
    requires Stage(DropMarker(e), 'H') == Ok((hours, rest1))
    requires Stage(rest1, 'M') == Ok((minutes, rest2))
    requires SecondsStage(rest2) == Ok(seconds)
    ensures ParseDuration(e) == Ok(Seconds(hours, minutes, seconds))
  {
  }

  /** A failing step makes the whole parse fail. */
  lemma StageFails(e: string)
    requires || Stage(DropMarker(e), 'H').Err?
             || (Stage(DropMarker(e), 'H') == Ok((0, DropMarker(e))) && Stage(DropMarker(e), 'M').Err?)
             || (&& Stage(DropMarker(e), 'H') == Ok((0, DropMarker(e)))
                 && Stage(DropMarker(e), 'M') == Ok((0, DropMarker(e)))
                 && SecondsStage(DropMarker(e)).Err?)
    ensures ParseDuration(e).Err?
  {
  }

  /** For digit components in the fixed order, each optional, parsing
      yields 3600 h + 60 m + s, an absent component counting 0 (so "PT"
      and "PT0S" both give 0). */
  lemma ParseEncoded(h: Option<string>, m: Option<string>, s: Option<string>)
    requires Numerals(h, m, s)
    ensures ParseDuration(Encode(h, m, s)) == Ok(Seconds(Amount(h), Amount(m), Amount(s)))
  {
    var e := Encode(h, m, s);
    var a, b, c := Amount(h) as int, Amount(m) as int, Amount(s) as int;
    var rest1, rest2 := Component(m, 'M') + Component(s, 'S'), Component(s, 'S');
    HoursStep(h, m, s);
    MinutesStep(m, s);
    SecondsComponent(s);
    assert Stage(DropMarker(e), 'H') == Ok((a, rest1));
    assert Stage(rest1, 'M') == Ok((b, rest2));
    assert SecondsStage(rest2) == Ok(c);
    StagesCompose(e, rest1, rest2, a, b, c);
  }

  function ShowSome(n: Option<nat>): (r: Option<string>)
    ensures r.Some? ==> Numeral(r.value)
  {
    if n.Some? then Some(Show(n.value)) else None
  }

  function Count(n: Option<nat>): nat {
    if n.Some? then n.value else 0
  }

  lemma ShownAmount(n: Option<nat>)
    ensures Amount(ShowSome(n)) == Count(n)
  {
    if n.Some? {
      ShowValue(n.value);
    }
  }

  /** The same with the components given as numbers written by `str()`. */
  lemma ParseShown(h: Option<nat>, m: Option<nat>, s: Option<nat>)
    ensures ParseDuration(Encode(ShowSome(h), ShowSome(m), ShowSome(s))) == Ok(Seconds(Count(h), Count(m), Count(s)))
  {
    ParseEncoded(ShowSome(h), ShowSome(m), ShowSome(s));
    ShownAmount(h);
    ShownAmount(m);
    ShownAmount(s);
  }

  /** "PT1H2M3S" is 3723 seconds. */
  lemma ParseExample()
    ensures ParseDuration("PT1H2M3S") == Ok(3723)
  {
    var h, m, s := Some("1"), Some("2"), Some("3");
    assert Encode(h, m, s) == "PT1H2M3S";
    ParseEncoded(h, m, s);
    assert DigitsValue("1") == 1 && DigitsValue("2") == 2 && DigitsValue("3") == 3;
    assert Seconds(Amount(h), Amount(m), Amount(s)) == 3723;
  }

  /** An hour marker with no numeral before it raises ValueError, whatever
      follows. */
  lemma HourMarkerWithoutNumeral(rest: string)
    ensures ParseDuration("PTH" + rest).Err?
  {
    var rest0 := DropMarker("PTH" + rest);
    assert rest0 == "H" + rest;
    assert IndexOf(rest0, 'H') == 0;
    assert rest0[..0] == [];
  }

  /** A failing minutes step, after any hours step, makes the parse fail. */
  lemma MinutesFail(e: string, hours: int, rest1: string)
    requires Stage(DropMarker(e), 'H') == Ok((hours, rest1)) && Stage(rest1, 'M').Err?
    ensures ParseDuration(e).Err?
  {
  }

  /** A failing seconds step, after any hours and minutes steps, makes the
      parse fail. */
  lemma SecondsFail(e: string, hours: int, rest1: string, minutes: int, rest2: string)
    requires Stage(DropMarker(e), 'H') == Ok((hours, rest1)) && Stage(rest1, 'M') == Ok((minutes, rest2))
    requires SecondsStage(rest2).Err?
    ensures ParseDuration(e).Err?
  {
  }

  /** A numeral holds no marker. */
  lemma NumeralLacks(n: string, c: char)
    requires Numeral(n) && !IsDigit(c)
    ensures c !in n
  {
    forall k | 0 <= k < |n|
      ensures n[k] != c
    {
      assert IsDigit(n[k]);
    }
  }

  /** A step whose marker comes first raises: the number before it is
      empty. */
  lemma LeadingMarker(c: char, rest: string)
    ensures Stage([c] + rest, c).Err?
  {
    var s := [c] + rest;
    assert IndexOf(s, c) == 0;
    assert s[..0] == [];
  }

  /** An 'S' with nothing before it is no number of seconds. */
  lemma LeadingSeconds(rest: string)
    ensures SecondsStage("S" + rest).Err?
  {
    var stripped := RStrip("S" + rest, 'S');
    if stripped != [] {
      assert stripped[0] == 'S';
      ParseIntRejects(stripped, 'S');
    }
  }

  /** A failing hours step makes the parse fail. */
  lemma HoursFail(e: string)
    requires Stage(DropMarker(e), 'H').Err?
    ensures ParseDuration(e).Err?
  {
  }

  /** A marker that occurs again after its first occurrence makes the
      two-name unpacking raise. */
  lemma StageTwice(a: string, c: char, b: string)
    requires c !in a && c in b
    ensures Stage(a + [c] + b, c).Err?
  {
    var s := a + [c] + b;
    assert s[|a|] == c;
    var i := IndexOf(s, c);
    assert i == |a|;
    assert s[i + 1..] == b;
  }

  /** A step whose number part holds a character `int()` rejects raises,
      whether or not the marker occurs again. */
  lemma StageRejectsBefore(a: string, c: char, b: string, x: char)
    requires c !in a && c in b && x in a
    requires !IsSpace(x) && !IsDigit(x) && x != '_' && x != '-' && x != '+'
    ensures Stage(a + b, c).Err?
  {
    var s := a + b;
    var i := IndexOf(s, c);
    assert i >= |a|;
    assert s[..i][..|a|] == a;
    ParseIntRejects(s[..i], x);
  }

  /** A step over an optional component, then text `mid` without the
      marker, then the marker again raises: either the marker occurs twice
      or the number part holds the character `x` of `mid`. */
  lemma LaterMarker(n: Option<string>, c: char, mid: string, x: char, rest: string)
    requires n.Some? ==> Numeral(n.value)
    requires !IsDigit(c) && c !in mid && c in rest && x in mid
    requires !IsSpace(x) && !IsDigit(x) && x != '_' && x != '-' && x != '+'
    ensures Stage(Component(n, c) + mid + rest, c).Err?
  {
    if n.Some? {
      NumeralLacks(n.value, c);
      assert Component(n, c) + mid + rest == n.value + [c] + (mid + rest);
      assert c in mid + rest by { assert (mid + rest)[|mid|..] == rest; }
      StageTwice(n.value, c, mid + rest);
    } else {
      assert Component(n, c) + mid + rest == mid + rest;
      StageRejectsBefore(mid, c, rest, x);
    }
  }

  /** So does a minute marker with no numeral before it, after an hours
      component or none ("PTM5S", "PT1HM5S"), whatever follows it. */
  lemma MinuteMarkerWithoutNumeral(h: Option<string>, rest: string)
    requires h.Some? ==> Numeral(h.value)
    ensures ParseDuration("PT" + Component(h, 'H') + "M" + rest).Err?
  {
    var e := "PT" + Component(h, 'H') + "M" + rest;
    var rest1 := "M" + rest;
    assert DropMarker(e) == Component(h, 'H') + rest1;
    if 'H' in rest {
      assert Component(h, 'H') + rest1 == Component(h, 'H') + "M" + rest;
      LaterMarker(h, 'H', "M", 'M', rest);
      HoursFail(e);
    } else {
      StageComponent(h, 'H', rest1);
      LeadingMarker('M', rest);
      MinutesFail(e, Amount(h), rest1);
    }
  }

  /** And a seconds marker with no numeral before it, after hours and
      minutes components or none ("PTS", "PT1H2MS"), whatever follows it. */
  lemma SecondMarkerWithoutNumeral(h: Option<string>, m: Option<string>, rest: string)
    requires (h.Some? ==> Numeral(h.value)) && (m.Some? ==> Numeral(m.value))
    ensures ParseDuration("PT" + Component(h, 'H') + Component(m, 'M') + "S" + rest).Err?
  {
    if 'H' in rest {
      SecondsThenHours(h, m, rest);
    } else if 'M' in rest {
      SecondsThenMinutes(h, m, rest);
    } else {
      SecondsLast(h, m, rest);
    }
  }

  /** The hours step raises when an 'H' follows the empty seconds. */
  lemma SecondsThenHours(h: Option<string>, m: Option<string>, rest: string)
    requires (h.Some? ==> Numeral(h.value)) && (m.Some? ==> Numeral(m.value)) && 'H' in rest
    ensures ParseDuration("PT" + Component(h, 'H') + Component(m, 'M') + "S" + rest).Err?
  {
    var e := "PT" + Component(h, 'H') + Component(m, 'M') + "S" + rest;
    var mid := Component(m, 'M') + "S";
    assert mid[|mid| - 1] == 'S';
    assert DropMarker(e) == Component(h, 'H') + mid + rest;
    ComponentLacks(m, 'M', 'H');
    LaterMarker(h, 'H', mid, 'S', rest);
    HoursFail(e);
  }

  /** The minutes step raises when an 'M', but no 'H', follows the empty
      seconds. */
  lemma SecondsThenMinutes(h: Option<string>, m: Option<string>, rest: string)
    requires (h.Some? ==> Numeral(h.value)) && (m.Some? ==> Numeral(m.value)) && 'H' !in rest && 'M' in rest
    ensures ParseDuration("PT" + Component(h, 'H') + Component(m, 'M') + "S" + rest).Err?
  {
    var e := "PT" + Component(h, 'H') + Component(m, 'M') + "S" + rest;
    var rest1 := Component(m, 'M') + "S" + rest;
    assert DropMarker(e) == Component(h, 'H') + rest1;
    ComponentLacks(m, 'M', 'H');
    StageComponent(h, 'H', rest1);
    LaterMarker(m, 'M', "S", 'S', rest);
    MinutesFail(e, Amount(h), rest1);
  }

  /** Otherwise the seconds step itself raises. */
  lemma SecondsLast(h: Option<string>, m: Option<string>, rest: string)
    requires (h.Some? ==> Numeral(h.value)) && (m.Some? ==> Numeral(m.value)) && 'H' !in rest && 'M' !in rest
    ensures ParseDuration("PT" + Component(h, 'H') + Component(m, 'M') + "S" + rest).Err?
  {
    var e := "PT" + Component(h, 'H') + Component(m, 'M') + "S" + rest;
    var rest2 := "S" + rest;
    var rest1 := Component(m, 'M') + rest2;
    assert DropMarker(e) == Component(h, 'H') + rest1;
    ComponentLacks(m, 'M', 'H');
    StageComponent(h, 'H', rest1);
    StageComponent(m, 'M', rest2);
    LeadingSeconds(rest);
    SecondsFail(e, Amount(h), rest1, Amount(m), rest2);
  }

  /** The empty minutes in "PT1HM5S" raise. */
  lemma EmptyMinutesExample()
    ensures ParseDuration("PT1HM5S").Err?
  {
    var h := Some("1");
    assert Numeral("1");
    assert Component(h, 'H') == "1H";
    MinuteMarkerWithoutNumeral(h, "5S");
    assert "PT" + Component(h, 'H') + "M" + "5S" == "PT1HM5S";
  }

  /** So do the empty seconds in "PT1H2MS". */
  lemma EmptySecondsExample()
    ensures ParseDuration("PT1H2MS").Err?
  {
    var h, m := Some("1"), Some("2");
    assert Numeral("1") && Numeral("2");
    assert Component(h, 'H') == "1H" && Component(m, 'M') == "2M";
    SecondMarkerWithoutNumeral(h, m, "");
    assert "PT" + Component(h, 'H') + Component(m, 'M') + "S" + "" == "PT1H2MS";
  }

  /** A step over a text whose number part holds a 'D' raises. */
  lemma StageRejectsDay(a: string, c: char, tail: string)
    requires 'D' in a && !IsDigit(c) && c != 'D' && c !in a && c !in tail
    ensures Stage(a + [c] + tail, c).Err?
  {
    SplitAt(a, c, tail);
    ParseIntRejects(a, 'D');
  }

  /** What is left of a duration with a day part once its first two
      characters are dropped. */
  lemma DayDrop(d: string, t: string)
    requires |d| > 0
    ensures DropMarker("P" + d + "D" + ("T" + t)) == (d[1..] + "DT") + t
  {
    var input := "P" + d + "D" + ("T" + t);
    assert input == ("P" + [d[0]]) + ((d[1..] + "DT") + t);
    assert input[2..] == (d[1..] + "DT") + t;
  }

  /** An encoded duration without its "P" is "T" and the components. */
  lemma EncodeTail(h: Option<string>, m: Option<string>, s: Option<string>)
    ensures Encode(h, m, s)[1..] == "T" + (Component(h, 'H') + (Component(m, 'M') + Component(s, 'S')))
  {
    var t := Component(h, 'H') + (Component(m, 'M') + Component(s, 'S'));
    assert Encode(h, m, s) == "PT" + t;
  }

  lemma LeadLacksMarkers(d: string)
    requires Numeral(d)
    ensures 'D' in d[1..] + "DT"
    ensures 'H' !in d[1..] + "DT" && 'M' !in d[1..] + "DT" && 'S' !in d[1..] + "DT"
  {
    var lead := d[1..] + "DT";
    assert lead[|lead| - 2] == 'D';
  }

  lemma DayWithHours(lead: string, n: string, tail: string)
    requires 'D' in lead && 'H' !in lead && 'H' !in tail && Numeral(n)
    ensures Stage(lead + Component(Some(n), 'H') + tail, 'H').Err?
  {
    var a := lead + n;
    assert lead + Component(Some(n), 'H') + tail == a + ['H'] + tail;
    StageRejectsDay(a, 'H', tail);
  }

  lemma DayWithMinutes(lead: string, n: string, tail: string)
    requires 'D' in lead && 'H' !in lead && 'M' !in lead && 'H' !in tail && 'M' !in tail && Numeral(n)
    ensures Stage(lead + Component(Some(n), 'M') + tail, 'H') == Ok((0, lead + Component(Some(n), 'M') + tail))
    ensures Stage(lead + Component(Some(n), 'M') + tail, 'M').Err?
  {
    var a := lead + n;
    assert lead + Component(Some(n), 'M') + tail == a + ['M'] + tail;
    StageRejectsDay(a, 'M', tail);
  }

  lemma DayWithSeconds(lead: string, n: string)
    requires 'D' in lead && 'H' !in lead && 'M' !in lead && 'S' !in lead && Numeral(n)
    ensures Stage(lead + Component(Some(n), 'S'), 'H') == Ok((0, lead + Component(Some(n), 'S')))
    ensures Stage(lead + Component(Some(n), 'S'), 'M') == Ok((0, lead + Component(Some(n), 'S')))
    ensures SecondsStage(lead + Component(Some(n), 'S')).Err?
  {
    var a := lead + n;
    assert lead + Component(Some(n), 'S') == a + ['S'];
    NoMarkerIn(lead, n, 'H');
    NoMarkerIn(lead, n, 'M');
    SecondsRejectsDay(a);
  }

  lemma NoMarkerIn(lead: string, n: string, c: char)
    requires c !in lead && c != 'S' && Numeral(n) && !IsDigit(c)
    ensures c !in lead + n + ['S']
  {
  }

  lemma SecondsRejectsDay(a: string)
    requires 'D' in a
    ensures SecondsStage(a + ['S']).Err?
  {
    var r := RStrip(a + ['S'], 'S');
    assert r == RStrip(a, 'S');
    assert 'D' in r by {
      var i :| 0 <= i < |a| && a[i] == 'D';
      if i >= |r| {
        assert false;
      }
      assert r[i] == 'D';
    }
    ParseIntRejects(r, 'D');
  }

  /** A day part ("P1DT...") followed by any time component raises
      ValueError: the 'D' ends up in the text handed to `int()`. */
  lemma DayPartRejected(d: string, h: Option<string>, m: Option<string>, s: Option<string>)
    requires Numeral(d) && Numerals(h, m, s)
    requires h.Some? || m.Some? || s.Some?
    ensures ParseDuration("P" + d + "D" + Encode(h, m, s)[1..]).Err?
  {
    var input := "P" + d + "D" + Encode(h, m, s)[1..];
    var lead := d[1..] + "DT";
    var t := Component(h, 'H') + (Component(m, 'M') + Component(s, 'S'));
    EncodeTail(h, m, s);
    assert input == "P" + d + "D" + ("T" + t);
    DayDrop(d, t);
    assert DropMarker(input) == lead + t;
    LeadLacksMarkers(d);
    TailLacks(m, s);
    var e := DropMarker(input);
    if h.Some? {
      var tail := Component(m, 'M') + Component(s, 'S');
      assert e == lead + Component(Some(h.value), 'H') + tail;
      DayWithHours(lead, h.value, tail);
      assert Stage(e, 'H').Err?;
    } else if m.Some? {
      assert e == lead + Component(Some(m.value), 'M') + Component(s, 'S');
      DayWithMinutes(lead, m.value, Component(s, 'S'));
      assert Stage(e, 'H') == Ok((0, e)) && Stage(e, 'M').Err?;
    } else {
      assert e == lead + Component(Some(s.value), 'S');
      DayWithSeconds(lead, s.value);
      assert Stage(e, 'H') == Ok((0, e)) && Stage(e, 'M') == Ok((0, e)) && SecondsStage(e).Err?;
    }
    StageFails(input);
  }

  /** A day part alone ("P1D") is read as 0 seconds: no marker the code
      looks for is present. */
  lemma DayPartAloneIsZero(d: string)
    requires Numeral(d)
    ensures ParseDuration("P" + d + "D") == Ok(0)
  {
    var rest0 := DropMarker("P" + d + "D");
    assert rest0 == d[1..] + "D";
    assert 'H' !in rest0 && 'M' !in rest0 && 'S' !in rest0;
  }

  /** Without a minus sign the result is never negative. */
  lemma ParseDurationUnsigned(duration: string)
    requires '-' !in duration && ParseDuration(duration).Ok?
    ensures ParseDuration(duration).value >= 0
  {
    var rest0 := DropMarker(duration);
    assert '-' !in rest0;
    StageUnsigned(rest0, 'H');
    var rest1 := Stage(rest0, 'H').value.1;
    StageUnsigned(rest1, 'M');
    var rest2 := Stage(rest1, 'M').value.1;
    if 'S' in rest2 {
      ParseIntUnsigned(RStrip(rest2, 'S'));
    }
  }

  lemma StageUnsigned(rest: string, c: char)
    requires '-' !in rest && Stage(rest, c).Ok?
    ensures Stage(rest, c).value.0 >= 0 && '-' !in Stage(rest, c).value.1
  {
    if c in rest {
      var i := IndexOf(rest, c);
      ParseIntUnsigned(rest[..i]);
    }
  }
}
