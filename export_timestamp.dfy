/** The timestamp `handleExportCSV` of `PlatformPostGrid` writes into every CSV row:
    local time as `MM/DD/YYYY HH:MM:SS AM`, with `pad = n.toString().padStart(2, '0')`. */
module ExportTimestamp {
  import opened Strings

  /** The local clock reading the export stamps on each row; `month0` counts from 0 as
      `getMonth()` does. */
  datatype LocalTime = LocalTime(year: nat, month0: nat, day: nat, hours: nat, minutes: nat, seconds: nat)

  /** The ranges a calendar clock reading stays in. */
  predicate ValidTime(t: LocalTime) {
    t.month0 < 12 && 1 <= t.day <= 31 && t.hours < 24 && t.minutes < 60 && t.seconds < 60
  }

  /** The 12-hour clock hour: `hours % 12`, with 0 shown as 12. */
  function Hour12(hours: nat): (r: nat)
    ensures 1 <= r <= 12
    ensures r % 12 == hours % 12
  {
    if hours % 12 == 0 then 12 else hours % 12
  }

  function Meridiem(hours: nat): (r: string)
    ensures r == "AM" || r == "PM"
  {
    if hours >= 12 then "PM" else "AM"
  }

  /** Reads a 12-hour clock hour and its marker back as a 24-hour clock hour. */
  function Hours24(hour12: nat, meridiem: string): nat {
    hour12 % 12 + (if meridiem == "PM" then 12 else 0)
  }

  /** `MM/DD/YYYY` */
  function DatePart(t: LocalTime): string {
    Pad2(t.month0 + 1) + "/" + Pad2(t.day) + "/" + NatToString(t.year)
  }

  /** `HH:MM:SS AM` */
  function TimePart(t: LocalTime): string {
    Pad2(Hour12(t.hours)) + ":" + Pad2(t.minutes) + ":" + Pad2(t.seconds) + " " + Meridiem(t.hours)
  }

  /** `MM/DD/YYYY HH:MM:SS AM` as the export writes it. */
  function FormatTimestamp(t: LocalTime): string {
    DatePart(t) + " " + TimePart(t)
  }

  /** Where the pieces of `a + sep + b + sep' + c` sit, for two-character `a` and `b`. */
  lemma {:induction false} Layout(a: string, sep: char, b: string, sep': char, c: string)
    requires |a| == 2 && |b| == 2
    ensures var r := a + [sep] + b + [sep'] + c;
      && |r| == 6 + |c| && r[2] == sep && r[5] == sep'
      && r[0..2] == a && r[3..5] == b && r[6..] == c
  {
  }

  lemma {:induction false} DateFields(t: LocalTime)
    requires ValidTime(t)
    ensures var r := DatePart(t); var y := |NatToString(t.year)|;
      && |r| == 6 + y && r[2] == '/' && r[5] == '/'
      && AllDigits(r[0..2]) && DecimalValue(r[0..2]) == t.month0 + 1
      && AllDigits(r[3..5]) && DecimalValue(r[3..5]) == t.day
      && AllDigits(r[6..]) && DecimalValue(r[6..]) == t.year
  {
    Layout(Pad2(t.month0 + 1), '/', Pad2(t.day), '/', NatToString(t.year));
    NatToStringRoundTrip(t.year);
  }

  /** Where the pieces of `a:b:c m` sit, for two-character `a`, `b` and `c`. */
  lemma {:induction false} TimeLayout(a: string, b: string, c: string, m: string)
    requires |a| == 2 && |b| == 2 && |c| == 2
    ensures var r := a + ":" + b + ":" + c + " " + m;
      && |r| == 9 + |m| && r[2] == ':' && r[5] == ':' && r[8] == ' '
      && r[0..2] == a && r[3..5] == b && r[6..8] == c && r[9..] == m
      && (AllDigits(a) ==> AllDigits(r[0..2]) && DecimalValue(r[0..2]) == DecimalValue(a))
      && (AllDigits(b) ==> AllDigits(r[3..5]) && DecimalValue(r[3..5]) == DecimalValue(b))
      && (AllDigits(c) ==> AllDigits(r[6..8]) && DecimalValue(r[6..8]) == DecimalValue(c))
  {
  }

  /** The 12-hour hour and its marker determine the 24-hour hour. */
  lemma {:induction false} HourRoundTrip(hours: nat)
    requires hours < 24
    ensures Hours24(Hour12(hours), Meridiem(hours)) == hours
  {
  }

  /** `TimePart` is `hh:mm:ss` and the marker, each number two digits. */
  lemma {:induction false} TimeShape(t: LocalTime)
    requires ValidTime(t)
    ensures var r := TimePart(t);
      && |r| == 11 && r[2] == ':' && r[5] == ':' && r[8] == ' '
      && AllDigits(r[0..2]) && AllDigits(r[3..5]) && AllDigits(r[6..8])
  {
    var h, mi, se, m := Pad2(Hour12(t.hours)), Pad2(t.minutes), Pad2(t.seconds), Meridiem(t.hours);
    assert |h| == 2 && |mi| == 2 && |se| == 2 && |m| == 2;
    TimeLayout(h, mi, se, m);
  }

  /** Reading the time part back gives the minutes, the seconds and, from the 12-hour hour
      and its marker, the 24-hour hour. */
  lemma {:induction false} TimeFields(t: LocalTime)
    requires ValidTime(t)
    ensures var r := TimePart(t);
      && |r| == 11 && AllDigits(r[0..2]) && AllDigits(r[3..5]) && AllDigits(r[6..8])
      && DecimalValue(r[3..5]) == t.minutes
      && DecimalValue(r[6..8]) == t.seconds
      && Hours24(DecimalValue(r[0..2]), r[9..]) == t.hours
  {
    TimeShape(t);
    var h, mi, se, m := Pad2(Hour12(t.hours)), Pad2(t.minutes), Pad2(t.seconds), Meridiem(t.hours);
    TimeLayout(h, mi, se, m);
    HourRoundTrip(t.hours);
  }

  /** Where the pieces of `d t` sit. */
  lemma {:induction false} SpaceLayout(d: string, tp: string)
    ensures var r := d + " " + tp;
      && |r| == |d| + 1 + |tp| && r[..|d|] == d && r[|d|] == ' ' && r[|d| + 1..] == tp
  {
  }

  /** Reading the timestamp field by field gives back the clock reading: the date part and
      the time part sit either side of one space, and `DateFields` and `TimeFields` read the
      month (1-based), day, year, minutes, seconds and 24-hour hour back from them. */
  lemma {:induction false} TimestampFields(t: LocalTime)
    requires ValidTime(t)
    ensures var r := FormatTimestamp(t); var y := |NatToString(t.year)|;
      && |r| == 18 + y
      && r[..6 + y] == DatePart(t) && r[6 + y] == ' ' && r[7 + y..] == TimePart(t)
  {
    var d, tp := DatePart(t), TimePart(t);
    SpaceLayout(d, tp);
    assert FormatTimestamp(t) == d + " " + tp;
    assert |d| == 6 + |NatToString(t.year)|;
    assert |tp| == 11;
  }
}
