/** Go's `time.Parse` for the one layout the loaders use, "Jan 2, 2006": a
    month abbreviation matched without regard to ASCII case, a blank, a
    one- or two-digit day, a comma and a blank, and a four-digit year, with
    the day checked against the month's length. A blank of the layout
    matches a run of blanks of the value, as Go's parser lets it. Time
    zones, clocks and every other layout element are not modelled. */
module GoTime {
  import opened Wrappers
  import opened Strconv

  const ShortMonthNames: seq<string> :=
    ["Jan", "Feb", "Mar", "Apr", "May", "Jun", "Jul", "Aug", "Sep", "Oct", "Nov", "Dec"]

  datatype Date = Date(year: int, month: int, day: int)

  /** ASCII lower case. */
  function Lower(c: char): char {
    if 'A' <= c <= 'Z' then (c as int + 32) as char else c
  }

  /** Go's `match`: equal up to the case of ASCII letters. */
  predicate FoldEqual(a: string, b: string) {
    |a| == |b| && forall i | 0 <= i < |a| :: Lower(a[i]) == Lower(b[i])
  }

  /** Go's `lookup` from table entry `i` on: the first month name `value`
      starts with, as a month number, and the rest of `value`. */
  function LookupFrom(value: string, i: nat): (r: Option<(int, string)>)
    requires i <= 12
    ensures r.Some? ==> i + 1 <= r.value.0 <= 12
    decreases 12 - i
  {
    if i == 12 then None
    else if |value| >= 3 && FoldEqual(value[..3], ShortMonthNames[i]) then Some((i + 1, value[3..]))
    else LookupFrom(value, i + 1)
  }

  /** Go's `cutspace`: drop leading blanks. */
  function CutSpace(s: string): (r: string)
    ensures |r| <= |s|
    ensures |s| > 0 && s[0] == ' ' ==> |r| < |s|
    ensures |r| > 0 ==> r[0] != ' '
  {
    if |s| > 0 && s[0] == ' ' then CutSpace(s[1..]) else s
  }

  /** Go's `skip`: match the literal `prefix` at the start of `value`; a
      blank of the prefix matches a run of blanks. */
  function Skip(value: string, prefix: string): Option<string>
    decreases |prefix|
  {
    if |prefix| == 0 then Some(value)
    else if prefix[0] == ' ' then
      if |value| > 0 && value[0] != ' ' then None
      else Skip(CutSpace(value), CutSpace(prefix))
    else if |value| == 0 || value[0] != prefix[0] then None
    else Skip(value[1..], prefix[1..])
  }

  /** Go's `getnum` without the fixed-width flag: one digit, or two when
      the second character is a digit too. */
  function GetNum(s: string): (r: Option<(int, string)>)
    ensures r.Some? ==> 0 <= r.value.0 <= 99
  {
    if |s| == 0 || !IsDigit(s[0]) then None
    else if |s| == 1 || !IsDigit(s[1]) then Some((DigitValue(s[0]), s[1..]))
    else Some((DigitValue(s[0]) * 10 + DigitValue(s[1]), s[2..]))
  }

  predicate IsLeap(year: int) {
    year % 4 == 0 && (year % 100 != 0 || year % 400 == 0)
  }

  /** Go's `daysIn`. */
  function DaysIn(month: int, year: int): int
    requires 1 <= month <= 12
  {
    if month == 2 then (if IsLeap(year) then 29 else 28)
    else if month == 4 || month == 6 || month == 9 || month == 11 then 30
    else 31
  }

  /** `time.Parse("Jan 2, 2006", value)`: None when Go returns an error. */
  function ParseDate(value: string): Option<Date> {
    match LookupFrom(value, 0)
    case None => None
    case Some((month, v1)) =>
      match Skip(v1, " ")
      case None => None
      case Some(v2) =>
        match GetNum(v2)
        case None => None
        case Some((day, v3)) =>
          match Skip(v3, ", ")
          case None => None
          case Some(v4) =>
            if |v4| != 4 || !AllDigits(v4) then None
            else
              var year := Value(v4);
              if day < 1 || day > DaysIn(month, year) then None else Some(Date(year, month, day))
  }

  /** A date Go can both print in the layout and read back. */
  predicate ValidDate(d: Date) {
    1000 <= d.year <= 9999 && 1 <= d.month <= 12 && 1 <= d.day <= DaysIn(d.month, d.year)
  }

  /** `t.Format("Jan 2, 2006")`. */
  function FormatDate(d: Date): string
    requires 1 <= d.month <= 12 && d.day >= 0 && d.year >= 0
  {
    ShortMonthNames[d.month - 1] + " " + NatToDecimal(d.day) + ", " + NatToDecimal(d.year)
  }

  // ---------------------------------------------------------------------
  // Reading back a printed date.

  function Blanks(k: nat): (r: string)
    ensures |r| == k && forall i | 0 <= i < k :: r[i] == ' '
  {
    if k == 0 then "" else " " + Blanks(k - 1)
  }

  /** A printed date as the parser also takes it: the month name in any
      case, and a run of blanks where the layout has one. */
  function LooseText(name: string, k1: nat, k2: nat, d: Date): string
    requires d.day >= 0 && d.year >= 0
  {
    name + Blanks(k1) + NatToDecimal(d.day) + "," + Blanks(k2) + NatToDecimal(d.year)
  }

  /** The month name in any case, then runs of blanks of any length, read
      back as the date. */
  lemma ParseLoose(name: string, k1: nat, k2: nat, d: Date)
    requires ValidDate(d) && FoldEqual(name, ShortMonthNames[d.month - 1]) && k1 >= 1 && k2 >= 1
    ensures ParseDate(LooseText(name, k1, k2, d)) == Some(d)
  {
    ParseLooseSteps(name, k1, k2, d);
  }

  /** Printing a valid date and parsing it gives the date back. */
  lemma ParseFormat(d: Date)
    requires ValidDate(d)
    ensures ParseDate(FormatDate(d)) == Some(d)
  {
    var name := ShortMonthNames[d.month - 1];
    assert Blanks(1) == " ";
    assert FormatDate(d) == LooseText(name, 1, 1, d);
    ParseLoose(name, 1, 1, d);
  }

  /** A well-shaped text whose day is past the month's end is refused. */
  lemma RejectsDay(d: Date)
    requires 1000 <= d.year <= 9999 && 1 <= d.month <= 12 && DaysIn(d.month, d.year) < d.day <= 31
    ensures ParseDate(FormatDate(d)) == None
  {
    var name := ShortMonthNames[d.month - 1];
    assert Blanks(1) == " ";
    assert FormatDate(d) == LooseText(name, 1, 1, d);
    ParseLooseSteps(name, 1, 1, d);
  }

  /** The stages of the parse of a loose text, for any day of 1 to 31. */
  lemma ParseLooseSteps(name: string, k1: nat, k2: nat, d: Date)
    requires 1000 <= d.year <= 9999 && 1 <= d.month <= 12 && 1 <= d.day <= 31
    requires FoldEqual(name, ShortMonthNames[d.month - 1]) && k1 >= 1 && k2 >= 1
    ensures ParseDate(LooseText(name, k1, k2, d)) ==
      if d.day > DaysIn(d.month, d.year) then None else Some(d)
  {
    var ds, ys := NatToDecimal(d.day), NatToDecimal(d.year);
    var v3 := "," + Blanks(k2) + ys;
    var v2 := ds + v3;
    var v1 := Blanks(k1) + v2;
    var value := name + v1;
    assert LooseText(name, k1, k2, d) == value;
    LookupFolded(name, v1, d.month);
    DayDigits(d.day, v3);
    SkipBlanks(k1, v2);
    YearDigits(d.year);
    SkipCommaBlanks(k2, ys);
    ParseSteps(value, d.month, v1, v2, d.day, v3, ys);
  }

  /** `ParseDate` stage by stage. */
  lemma ParseSteps(value: string, month: int, v1: string, v2: string, day: int, v3: string, v4: string)
    requires LookupFrom(value, 0) == Some((month, v1)) && Skip(v1, " ") == Some(v2)
    requires GetNum(v2) == Some((day, v3)) && Skip(v3, ", ") == Some(v4)
    requires |v4| == 4 && AllDigits(v4)
    ensures 1 <= month <= 12
    ensures ParseDate(value) ==
      if day < 1 || day > DaysIn(month, Value(v4)) then None else Some(Date(Value(v4), month, day))
  {
  }

  lemma LookupFolded(name: string, rest: string, month: int)
    requires 1 <= month <= 12 && FoldEqual(name, ShortMonthNames[month - 1])
    ensures LookupFrom(name + rest, 0) == Some((month, rest))
  {
    var value := name + rest;
    assert value[..3] == name && value[3..] == rest;
    LookupFromFolded(value, month - 1, 0);
  }

  lemma {:induction false} LookupFromFolded(value: string, m: nat, i: nat)
    requires i <= m < 12 && |value| >= 3 && FoldEqual(value[..3], ShortMonthNames[m])
    ensures LookupFrom(value, i) == Some((m + 1, value[3..]))
    decreases m - i
  {
    if i < m {
      NamesDiffer(i, m);
      FoldTransfers(value[..3], ShortMonthNames[m], ShortMonthNames[i]);
      LookupFromFolded(value, m, i + 1);
    }
  }

  /** No two month names are equal up to case. */
  lemma NamesDiffer(i: nat, j: nat)
    requires i < j < 12
    ensures !FoldEqual(ShortMonthNames[j], ShortMonthNames[i])
  {
    var a, b := ShortMonthNames[j], ShortMonthNames[i];
    if a[0] == b[0] && a[1] == b[1] {
      assert Lower(a[2]) != Lower(b[2]);
    } else if a[0] == b[0] {
      assert Lower(a[1]) != Lower(b[1]);
    } else {
      assert Lower(a[0]) != Lower(b[0]);
    }
  }

  lemma FoldTransfers(a: string, b: string, c: string)
    requires FoldEqual(a, b) && !FoldEqual(b, c)
    ensures !FoldEqual(a, c)
  {
  }

  lemma {:induction false} CutBlanks(k: nat, rest: string)
    requires |rest| > 0 && rest[0] != ' '
    ensures CutSpace(Blanks(k) + rest) == rest
  {
    if k > 0 {
      assert (Blanks(k) + rest)[1..] == Blanks(k - 1) + rest;
      CutBlanks(k - 1, rest);
    }
  }

  lemma SkipBlanks(k: nat, rest: string)
    requires k >= 1 && |rest| > 0 && IsDigit(rest[0])
    ensures Skip(Blanks(k) + rest, " ") == Some(rest)
  {
    CutBlanks(k, rest);
    assert CutSpace(" ") == CutSpace("");
  }

  lemma SkipCommaBlanks(k: nat, ys: string)
    requires k >= 1 && |ys| > 0 && IsDigit(ys[0])
    ensures Skip("," + Blanks(k) + ys, ", ") == Some(ys)
  {
    var v := "," + Blanks(k) + ys;
    assert v[1..] == Blanks(k) + ys;
    assert (", ")[1..] == " ";
    SkipBlanks(k, ys);
  }

  /** A day of the month prints as one or two digits that read back as it. */
  lemma DayDigits(day: int, rest: string)
    requires 1 <= day <= 31 && |rest| > 0 && !IsDigit(rest[0])
    ensures GetNum(NatToDecimal(day) + rest) == Some((day, rest))
    ensures IsDigit((NatToDecimal(day) + rest)[0])
  {
    var s := NatToDecimal(day) + rest;
    if day < 10 {
      assert NatToDecimal(day) == [DigitChar(day)];
      assert s[1..] == rest;
    } else {
      assert NatToDecimal(day / 10) == [DigitChar(day / 10)];
      assert NatToDecimal(day) == [DigitChar(day / 10), DigitChar(day % 10)];
      assert s[2..] == rest;
    }
  }

  /** A year of the range prints as four digits that read back as it. */
  lemma YearDigits(year: int)
    requires 1000 <= year <= 9999
    ensures |NatToDecimal(year)| == 4 && AllDigits(NatToDecimal(year)) && Value(NatToDecimal(year)) == year
    ensures IsDigit(NatToDecimal(year)[0])
  {
    var n1, n2, n3 := year / 10, year / 100, year / 1000;
    assert NatToDecimal(n3) == [DigitChar(n3)];
    assert n2 / 10 == n3 && n1 / 10 == n2;
    assert |NatToDecimal(n2)| == 2;
    assert |NatToDecimal(n1)| == 3;
  }
}
