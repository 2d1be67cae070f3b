/**
 * `Util.sec_to_human_readable_timestamp`: a number of seconds written as `hh:mm:s`, hours and
 * minutes padded to two digits with `padStart(2, "0")`, seconds left unpadded.
 */
module Timestamp {
  import opened Wrappers
  import opened Decimal

  /** `s.padStart(2, "0")`: zeros in front until the string is two characters long. */
  function PadStart2(s: string): (r: string)
    ensures |r| == if |s| >= 2 then |s| else 2
    ensures r[|r| - |s|..] == s
    ensures forall i :: 0 <= i < |r| - |s| ==> r[i] == '0'
  {
    if |s| >= 2 then s else if |s| == 1 then "0" + s else "00"
  }

  /** The hours field: at least two digits, zero-padded only up to two, holding the whole hours of `sec`. */
  function HoursField(sec: nat): (h: string)
    ensures IsNumeral(h) && |h| >= 2
    ensures |h| == 2 || h[0] != '0'
    ensures DigitsValue(h) == sec / 3600
  {
    PadStart2Value(NatToString(sec / 3600));
    NatToStringRoundTrip(sec / 3600);
    PadStart2(NatToString(sec / 3600))
  }

  /** The minutes field: always exactly two digits, holding the whole minutes within the hour. */
  function MinutesField(sec: nat): (m: string)
    ensures IsNumeral(m) && |m| == 2
    ensures DigitsValue(m) == (sec % 3600) / 60
  {
    PadStart2Value(NatToString((sec % 3600) / 60));
    NatToStringRoundTrip((sec % 3600) / 60);
    PadStart2(NatToString((sec % 3600) / 60))
  }

  /** The seconds field: never padded, one digit below ten seconds and two from ten on. */
  function SecondsField(sec: nat): (s: string)
    ensures IsNumeral(s) && |s| == (if sec % 60 < 10 then 1 else 2)
    ensures DigitsValue(s) == sec % 60
  {
    NatToStringRoundTrip(sec % 60);
    NatToString(sec % 60)
  }

  /** The timestamp shown for `sec` seconds of playback: exactly the three fields, separated by colons. */
  function FormatTimestamp(sec: nat): (t: string)
    ensures Split(t, ':') == [HoursField(sec), MinutesField(sec), SecondsField(sec)]
  {
    NumeralHasNoColon(HoursField(sec));
    NumeralHasNoColon(MinutesField(sec));
    NumeralHasNoColon(SecondsField(sec));
    SplitThree(HoursField(sec), MinutesField(sec), SecondsField(sec), ':');
    HoursField(sec) + ":" + MinutesField(sec) + ":" + SecondsField(sec)
  }

  /** `s.split(sep)`: the pieces between separators, in order. */
  function Split(s: string, sep: char): (parts: seq<string>)
    ensures |parts| >= 1
  {
    if s == [] then [[]]
    else
      var rest := Split(s[1..], sep);
      if s[0] == sep then [[]] + rest else [[s[0]] + rest[0]] + rest[1..]
  }

  /** A non-empty string of digits. */
  predicate IsNumeral(s: string)
  {
    s != [] && AllDigits(s)
  }

  /** Reads `h:m:s` back into seconds; anything not of three numerals separated by colons is rejected. */
  function ParseTimestamp(t: string): Option<nat>
  {
    ParseFields(Split(t, ':'))
  }

  /** Three numerals are hours, minutes and seconds; any other list of pieces is rejected. */
  function ParseFields(f: seq<string>): Option<nat>
  {
    if |f| == 3 && IsNumeral(f[0]) && IsNumeral(f[1]) && IsNumeral(f[2]) then
      Some(Seconds(DigitsValue(f[0]), DigitsValue(f[1]), DigitsValue(f[2])))
    else
      None
  }

  /** The number of seconds in a span of hours, minutes and seconds. */
  function Seconds(hours: nat, minutes: nat, seconds: nat): nat
  {
    hours * 3600 + minutes * 60 + seconds
  }

  /** Splitting at the first separator of a string peels off the part before it. */
  lemma {:induction false} SplitFirst(a: string, b: string, sep: char)
    requires sep !in a
    ensures Split(a + [sep] + b, sep) == [a] + Split(b, sep)
  {
    var s := a + [sep] + b;
    if a == [] {
      assert s[0] == sep && s[1..] == b;
    } else {
      assert s[0] == a[0] != sep;
      assert s[1..] == a[1..] + [sep] + b;
      SplitFirst(a[1..], b, sep);
      assert [a[0]] + a[1..] == a;
    }
  }

  /** A string without the separator is one piece. */
  lemma {:induction false} SplitNone(a: string, sep: char)
    requires sep !in a
    ensures Split(a, sep) == [a]
  {
    if a != [] {
      assert a[0] != sep;
      SplitNone(a[1..], sep);
      assert [a[0]] + a[1..] == a;
    }
  }

  /** Three separator-free pieces joined by the separator split back into those pieces. */
  lemma SplitThree(x: string, y: string, z: string, sep: char)
    requires sep !in x && sep !in y && sep !in z
    ensures Split(x + [sep] + y + [sep] + z, sep) == [x, y, z]
  {
    assert x + [sep] + y + [sep] + z == x + [sep] + (y + [sep] + z);
    SplitFirst(x, y + [sep] + z, sep);
    SplitFirst(y, z, sep);
    SplitNone(z, sep);
  }

  /** Padding a numeral with zeros keeps it a numeral of the same value. */
  lemma {:induction false} PadStart2Value(s: string)
    requires IsNumeral(s)
    ensures IsNumeral(PadStart2(s))
    ensures DigitsValue(PadStart2(s)) == DigitsValue(s)
    decreases 2 - |s|
  {
    if |s| < 2 {
      LeadingZeroValue(s);
      PadStart2Value("0" + s);
    }
  }

  lemma NumeralHasNoColon(s: string)
    requires AllDigits(s)
    ensures ':' !in s
  {
    assert forall i | 0 <= i < |s| :: s[i] != ':';
  }

  /** Hours, minutes and seconds recombine to the number of seconds they were cut from. */
  lemma FieldsRecombine(sec: nat)
    ensures Seconds(sec / 3600, (sec % 3600) / 60, sec % 60) == sec
  {
    var r := sec % 3600;
    assert sec == (sec / 3600) * 3600 + r;
    assert r == (r / 60) * 60 + r % 60;
    assert r % 60 == sec % 60 by {
      assert sec == ((sec / 3600) * 60 + r / 60) * 60 + r % 60;
    }
  }

  /** Three numerals parse to the seconds they spell. */
  lemma ParseFieldsValue(h: string, m: string, s: string)
    requires IsNumeral(h) && IsNumeral(m) && IsNumeral(s)
    ensures ParseFields([h, m, s]) == Some(Seconds(DigitsValue(h), DigitsValue(m), DigitsValue(s)))
  {
  }

  /** Reading a timestamp back yields the seconds it was made from. */
  lemma TimestampRoundTrip(sec: nat)
    ensures ParseTimestamp(FormatTimestamp(sec)) == Some(sec)
  {
    var h, m, s := HoursField(sec), MinutesField(sec), SecondsField(sec);
    assert ParseTimestamp(FormatTimestamp(sec)) == ParseFields([h, m, s]);
    ParseFieldsValue(h, m, s);
    FieldsRecombine(sec);
  }
}
