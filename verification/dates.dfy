// The date conversion of generate_data.py:103-105:
//   datetime.strptime(data, "%m/%d/%Y").strftime("%Y-%m-%d")
// strptime compiles "%m/%d/%Y" to the pattern
//   (1[0-2]|0[1-9]|[1-9]) / (3[01]|[12]\d|0[1-9]|[1-9]| [1-9]) / (\d\d\d\d)
// which must match the whole text, and then builds a datetime.date, which
// fails for a year below 1 or a day past the end of the month.

module Dates {
  import opened Common
  import opened PyStr

  datatype Date = Date(year: int, month: int, day: int)

  /** Gregorian leap years. */
  predicate IsLeapYear(y: int)
  {
    y % 4 == 0 && (y % 100 != 0 || y % 400 == 0)
  }

  function DaysInMonth(y: int, m: int): (n: int)
    requires 1 <= m <= 12
    ensures 28 <= n <= 31
    ensures n == 29 <==> m == 2 && IsLeapYear(y)
  {
    if m == 2 then (if IsLeapYear(y) then 29 else 28)
    else if m == 4 || m == 6 || m == 9 || m == 11 then 30
    else 31
  }

  /** What datetime.date accepts for a four-digit year. */
  predicate ValidDate(d: Date)
    ensures ValidDate(d) ==> 1 <= d.day <= 31
    ensures ValidDate(d) && d.month == 2 && d.day == 29 ==> IsLeapYear(d.year)
    ensures ValidDate(d) && d.day == 31 ==> d.month in {1, 3, 5, 7, 8, 10, 12}
  {
    1 <= d.year <= 9999 && 1 <= d.month <= 12 && 1 <= d.day <= DaysInMonth(d.year, d.month)
  }

  predicate IsDigit(c: char)
  {
    '0' <= c <= '9'
  }

  predicate AllDigits(s: string)
  {
    forall k | 0 <= k < |s| :: IsDigit(s[k])
  }

  /** The decimal value of a string of digits. */
  function Number(s: string): nat
    requires AllDigits(s)
  {
    if s == [] then 0 else Number(s[..|s| - 1]) * 10 + (s[|s| - 1] as int - '0' as int)
  }

  function Digit(n: nat): (c: char)
    requires n < 10
    ensures IsDigit(c)
  {
    ('0' as int + n) as char
  }

  /** `%m` and `%d` on output: two digits, zero-padded. */
  function Pad2(n: nat): (s: string)
    requires n < 100
    ensures |s| == 2 && AllDigits(s) && Number(s) == n
  {
    var s := [Digit(n / 10), Digit(n % 10)];
    assert s[..1] == [Digit(n / 10)] && [Digit(n / 10)][..0] == [];
    assert Number(s[..1]) == n / 10;
    s
  }

  /** `%Y` on output: four digits, zero-padded. */
  function Pad4(n: nat): (s: string)
    requires n < 10000
    ensures |s| == 4 && AllDigits(s) && Number(s) == n
  {
    var s := Pad2(n / 100) + Pad2(n % 100);
    NumberAppend2(Pad2(n / 100), Pad2(n % 100));
    s
  }

  lemma NumberAppend2(a: string, b: string)
    requires AllDigits(a) && AllDigits(b) && |b| == 2
    ensures AllDigits(a + b) && Number(a + b) == Number(a) * 100 + Number(b)
  {
    var ab := a + b;
    var a1 := a + b[..1];
    assert ab[..|ab| - 1] == a1;
    assert a1[..|a1| - 1] == a;
    assert Number(a1) == Number(a) * 10 + (b[0] as int - '0' as int);
    assert b[..1][..0] == [];
    assert Number(b[..1]) == b[0] as int - '0' as int;
    assert Number(ab) == Number(a1) * 10 + (b[1] as int - '0' as int);
  }

  /** Two digits are written back by Pad2 unchanged. */
  lemma Pad2Number(u: string)
    requires |u| == 2 && AllDigits(u)
    ensures Number(u) < 100 && Pad2(Number(u)) == u
  {
    assert u[..1][..0] == [];
    assert Number(u[..1]) == u[0] as int - '0' as int;
    var p := Pad2(Number(u));
    assert p[0] == u[0] && p[1] == u[1];
  }

  /** Four digits are written back by Pad4 unchanged. */
  lemma Pad4Number(t: string)
    requires |t| == 4 && AllDigits(t)
    ensures Number(t) < 10000 && Pad4(Number(t)) == t
  {
    var hi, lo := t[..2], t[2..];
    assert t == hi + lo;
    NumberAppend2(hi, lo);
    Pad2Number(hi);
    Pad2Number(lo);
    Split100(Number(hi), Number(lo));
  }

  /** The one- and two-digit texts worth `n`: its zero-padded spelling, and
      its single digit when it has one. */
  lemma DigitSpellings(t: string, n: nat)
    requires 1 <= n < 100
    ensures (1 <= |t| <= 2 && AllDigits(t) && Number(t) == n) <==> (t == Pad2(n) || (n < 10 && t == [Digit(n)]))
  {
    if |t| == 2 && AllDigits(t) {
      Pad2Number(t);
    }
    if |t| == 1 {
      assert t[..0] == [];
    }
    if n < 10 && t == [Digit(n)] {
      assert t[..0] == [];
      assert Number(t) == n;
    }
  }

  lemma Split100(a: nat, b: nat)
    requires a < 100 && b < 100
    ensures a * 100 + b < 10000 && (a * 100 + b) / 100 == a && (a * 100 + b) % 100 == b
  {
  }

  /** The `%m` group: `1[0-2]|0[1-9]|[1-9]`, i.e. one or two digits worth 1 to 12. */
  function MonthField(t: string): (r: Option<int>)
    ensures r.Some? ==> 1 <= r.value <= 12
  {
    if 1 <= |t| <= 2 && AllDigits(t) && 1 <= Number(t) <= 12 then Some(Number(t)) else None
  }

  /** The `%d` group: `3[01]|[12]\d|0[1-9]|[1-9]| [1-9]`, i.e. one or two digits
      worth 1 to 31, or a space followed by a digit from 1 to 9. */
  function DayField(t: string): (r: Option<int>)
    ensures r.Some? ==> 1 <= r.value <= 31
  {
    if 1 <= |t| <= 2 && AllDigits(t) && 1 <= Number(t) <= 31 then Some(Number(t))
    else if |t| == 2 && t[0] == ' ' && '1' <= t[1] <= '9' then Some(t[1] as int - '0' as int)
    else None
  }

  /** `%m` accepts exactly the zero-padded spelling of a month, and the
      single digit of months 1 to 9. */
  lemma MonthFieldSpellings(t: string, m: int)
    ensures MonthField(t) == Some(m) <==> 1 <= m <= 12 && (t == Pad2(m) || (m < 10 && t == [Digit(m)]))
  {
    if 1 <= m <= 12 {
      DigitSpellings(t, m);
    }
  }

  /** `%d` accepts exactly the zero-padded spelling of a day, and the single
      digit of days 1 to 9, with or without a space before it. */
  lemma DayFieldSpellings(t: string, d: int)
    ensures DayField(t) == Some(d) <==>
      1 <= d <= 31 && (t == Pad2(d) || (d < 10 && (t == [Digit(d)] || t == [' ', Digit(d)])))
  {
    if 1 <= d <= 31 {
      DigitSpellings(t, d);
    }
  }

  /** The `%Y` group: exactly four digits. */
  function YearField(t: string): (r: Option<int>)
    ensures r.Some? <==> |t| == 4 && AllDigits(t)
    ensures r.Some? ==> 0 <= r.value <= 9999 && t == Pad4(r.value)
  {
    if |t| == 4 && AllDigits(t) then
      Pad4Number(t);
      Some(Number(t))
    else None
  }

  /** `datetime.strptime(text, "%m/%d/%Y")`: None where Python raises ValueError. */
  function ParseMdy(text: string): (r: Option<Date>)
    ensures r.Some? ==> ValidDate(r.value)
    ensures r.Some? ==> |text| >= 8 && text[|text| - 4..] == Pad4(r.value.year) && text[|text| - 5] == '/'
  {
    if '/' !in text then None
    else
      var i := IndexOf(text, '/');
      var rest := text[i + 1..];
      if '/' !in rest then None
      else
        var j := IndexOf(rest, '/');
        match (MonthField(text[..i]), DayField(rest[..j]), YearField(rest[j + 1..]))
        case (Some(m), Some(d), Some(y)) =>
          var date := Date(y, m, d);
          assert text[|text| - 4..] == rest[j + 1..];
          if ValidDate(date) then Some(date) else None
        case _ => None
  }

  /** `date.strftime("%Y-%m-%d")`. */
  function FormatIso(d: Date): (s: string)
    requires ValidDate(d)
    ensures |s| == 10 && s[4] == '-' && s[7] == '-'
    ensures AllDigits(s[..4]) && AllDigits(s[5..7]) && AllDigits(s[8..])
  {
    var s := Pad4(d.year) + "-" + Pad2(d.month) + "-" + Pad2(d.day);
    assert s[..4] == Pad4(d.year) && s[5..7] == Pad2(d.month) && s[8..] == Pad2(d.day);
    s
  }

  /** Reads the three fields back out of a YYYY-MM-DD text. */
  function ReadIso(s: string): Date
    requires |s| == 10 && AllDigits(s[..4]) && AllDigits(s[5..7]) && AllDigits(s[8..])
  {
    Date(Number(s[..4]), Number(s[5..7]), Number(s[8..]))
  }

  /** generate_data.py:103-105: the MM/DD/YYYY text of a BIOS date rewritten
      as YYYY-MM-DD, or None where strptime would raise. */
  function ConvertDate(text: string): (r: Option<string>)
    ensures r.Some? <==> ParseMdy(text).Some?
    ensures r.Some? ==> |r.value| == 10 && r.value[4] == '-' && r.value[7] == '-'
    ensures r.Some? ==> AllDigits(r.value[..4]) && AllDigits(r.value[5..7]) && AllDigits(r.value[8..])
    ensures r.Some? ==> ReadIso(r.value) == ParseMdy(text).value
  {
    match ParseMdy(text)
    case Some(d) => IsoReadsBack(d); Some(FormatIso(d))
    case None => None
  }

  /** The ISO text that ConvertDate produces names the same date again. */
  lemma IsoReadsBack(d: Date)
    requires ValidDate(d)
    ensures var s := FormatIso(d);
      |s| == 10 && AllDigits(s[..4]) && AllDigits(s[5..7]) && AllDigits(s[8..]) && ReadIso(s) == d
  {
    var s := FormatIso(d);
    assert s[..4] == Pad4(d.year);
    assert s[5..7] == Pad2(d.month);
    assert s[8..] == Pad2(d.day);
  }

  /** ParseMdy on a text made of three slash-free fields. */
  lemma ParseMdyFields(mt: string, dt: string, yt: string)
    requires '/' !in mt && '/' !in dt
    ensures ParseMdy(mt + "/" + dt + "/" + yt) ==
      match (MonthField(mt), DayField(dt), YearField(yt))
      case (Some(m), Some(d), Some(y)) => if ValidDate(Date(y, m, d)) then Some(Date(y, m, d)) else None
      case _ => None
  {
    var text := mt + "/" + dt + "/" + yt;
    assert text == mt + ['/'] + (dt + "/" + yt);
    IndexOfAfter(mt, '/', dt + "/" + yt);
    assert text[..|mt|] == mt;
    var rest := text[|mt| + 1..];
    assert rest == dt + ['/'] + yt;
    IndexOfAfter(dt, '/', yt);
    assert rest[..|dt|] == dt;
    assert rest[|dt| + 1..] == yt;
  }

  /** A zero-padded MM/DD/YYYY text is converted exactly when it names a
      valid calendar date. */
  lemma ConvertDateIffValid(m: nat, d: nat, y: nat)
    requires 1 <= m <= 12 && 1 <= d <= 31 && y <= 9999
    ensures var date := Date(y, m, d);
      ConvertDate(Pad2(m) + "/" + Pad2(d) + "/" + Pad4(y))
        == if ValidDate(date) then Some(FormatIso(date)) else None
  {
    ParseMdyFields(Pad2(m), Pad2(d), Pad4(y));
    Pad4Number(Pad4(y));
  }

  // The literal texts of the examples below, spelled out as the fields
  // they are made of; each is kept in a lemma of its own so that the solver
  // never evaluates a literal and ConvertDate on it in one proof.
  lemma SpellJan15()
    ensures "01/15/2023" == Pad2(1) + "/" + Pad2(15) + "/" + Pad4(2023)
    ensures FormatIso(Date(2023, 1, 15)) == "2023-01-15"
  {
  }

  lemma SpellFeb29()
    ensures "02/29/2023" == Pad2(2) + "/" + Pad2(29) + "/" + Pad4(2023)
  {
  }

  lemma SpellLeapDay()
    ensures "02/29/2024" == Pad2(2) + "/" + Pad2(29) + "/" + Pad4(2024)
    ensures FormatIso(Date(2024, 2, 29)) == "2024-02-29"
  {
  }

  lemma SpellShortForm()
    ensures "1/5/2023" == "1" + "/" + "5" + "/" + "2023"
    ensures FormatIso(Date(2023, 1, 5)) == "2023-01-05"
  {
  }

  lemma ShortFields()
    ensures MonthField("1") == Some(1) && DayField("5") == Some(5)
  {
    assert "1" == [Digit(1)] && "5" == [Digit(5)];
    MonthFieldSpellings("1", 1);
    DayFieldSpellings("5", 5);
  }

  lemma SpellYear2023()
    ensures YearField("2023") == Some(2023)
  {
    assert AllDigits("20") && Number("20") == 20;
    assert AllDigits("23") && Number("23") == 23;
    assert "2023" == "20" + "23";
    NumberAppend2("20", "23");
  }

  lemma SpellMonth13()
    ensures "13/01/2023" == "13" + "/" + "01" + "/" + "2023"
    ensures MonthField("13") == None
  {
    assert AllDigits("13") && Number("13") == 13;
  }

  lemma ConvertDateExample()
    ensures ConvertDate("01/15/2023") == Some("2023-01-15")
  {
    SpellJan15();
    ConvertDateIffValid(1, 15, 2023);
  }

  /** The single-digit forms that `%m` and `%d` allow are accepted too. */
  lemma ConvertDateShortForm()
    ensures ConvertDate("1/5/2023") == Some("2023-01-05")
  {
    SpellShortForm();
    ShortFields();
    SpellYear2023();
    ParseMdyFields("1", "5", "2023");
  }

  lemma ConvertDateLeapDay()
    ensures ConvertDate("02/29/2024") == Some("2024-02-29")
  {
    SpellLeapDay();
    assert IsLeapYear(2024);
    ConvertDateIffValid(2, 29, 2024);
  }

  /** February 29th of a year that is not a leap year is rejected. */
  lemma ConvertDateRejectsFeb29()
    ensures ConvertDate("02/29/2023") == None
  {
    SpellFeb29();
    ConvertDateIffValid(2, 29, 2023);
  }

  /** A thirteenth month is rejected. */
  lemma ConvertDateRejectsMonth13()
    ensures ConvertDate("13/01/2023") == None
  {
    SpellMonth13();
    ParseMdyFields("13", "01", "2023");
  }

  /** A date already in ISO 8601 form has no slash and is rejected. */
  lemma ConvertDateRejectsIso()
    ensures ConvertDate("2023-01-15") == None
  {
  }
}
