/**
 The trading calendar of the fetcher: calendar dates, Python's weekday
 numbering, the ISO text form of a date, the 2025 NSE holiday list and the
 trading-day test `is_market_open`.
 */
module Calendar {

  /** A calendar date, as the number of days since 1970-01-01 (negative before it). */
  type Day = int

  /** Python's `date.weekday()`: Monday is 0 and Sunday is 6; 1970-01-01 was a Thursday. */
  function Weekday(d: Day): (w: int)
    ensures 0 <= w < 7
  {
    (d + 3) % 7
  }

  /** Saturday (5) or Sunday (6), the weekend rule of `is_market_open`. */
  predicate IsWeekend(d: Day)
  {
    Weekday(d) == 5 || Weekday(d) == 6
  }

  /**
   The proleptic Gregorian (year, month, day) of a day number.  Dafny's `/`
   on `int` with a positive divisor is floor division, which is what the
   conversion needs for dates before a 400-year era boundary.
   */
  function CivilFromDays(d: Day): (int, int, int)
  {
    var z := d + 719468;
    var era := z / 146097;
    var doe := z - era * 146097;
    var yoe := (doe - doe / 1460 + doe / 36524 - doe / 146096) / 365;
    var doy := doe - (365 * yoe + yoe / 4 - yoe / 100);
    var mp := (5 * doy + 2) / 153;
    var day := doy - (153 * mp + 2) / 5 + 1;
    var month := if mp < 10 then mp + 3 else mp - 9;
    var year := yoe + era * 400 + (if month <= 2 then 1 else 0);
    (year, month, day)
  }

  /** The decimal digit character of `k`, for `0 <= k < 10`. */
  function DigitChar(k: int): (c: char)
    requires 0 <= k < 10
    ensures '0' <= c <= '9'
  {
    (48 + k) as char
  }

  /** The last two decimal digits of `n`, zero-padded, as `%m` and `%d` print a month or a day. */
  function Pad2(n: int): string
  {
    [DigitChar(n / 10 % 10), DigitChar(n % 10)]
  }

  /** The last four decimal digits of `n`, zero-padded, as `%Y` prints a year from 1000 to 9999. */
  function Pad4(n: int): string
  {
    [DigitChar(n / 1000 % 10), DigitChar(n / 100 % 10), DigitChar(n / 10 % 10), DigitChar(n % 10)]
  }

  /** `strftime('%Y-%m-%d')` of a day number, for years 1000 to 9999 (the only years the fetcher meets). */
  function IsoDate(d: Day): (s: string)
    ensures |s| == 10 && s[4] == '-' && s[7] == '-'
    ensures forall i :: 0 <= i < 10 && i != 4 && i != 7 ==> '0' <= s[i] <= '9'
  {
    var (year, month, day) := CivilFromDays(d);
    Pad4(year) + "-" + Pad2(month) + "-" + Pad2(day)
  }

  /** The holiday list NSE_HOLIDAYS_2025, written as the source writes it. */
  const NseHolidays2025: seq<string> := [
    "2025-01-26",
    "2025-02-26",
    "2025-03-14", "2025-03-31",
    "2025-04-10", "2025-04-14", "2025-04-18",
    "2025-05-01",
    "2025-06-07",
    "2025-07-07",
    "2025-08-15", "2025-08-16", "2025-08-27",
    "2025-10-02", "2025-10-21", "2025-10-22", "2025-10-23",
    "2025-11-05",
    "2025-12-25"
  ]

  /**
   The same holidays as day numbers, entry for entry; `HolidayListSpelling`
   proves that each prints as the corresponding entry of the list above.
   */
  const HolidayDays: seq<Day> := [
    20114,
    20145,
    20161, 20178,
    20188, 20192, 20196,
    20209,
    20246,
    20276,
    20315, 20316, 20327,
    20363, 20382, 20383, 20384,
    20397,
    20447
  ]

  /** The date is on the holiday list: the first test of `is_market_open`. */
  predicate IsHoliday(d: Day)
  {
    d in HolidayDays
  }

  /**
   `is_market_open`: a listed holiday is closed (tested before the date is
   parsed), then a Saturday or Sunday is closed, else open.
   */
  predicate IsMarketOpen(d: Day)
  {
    if IsHoliday(d) then false
    else if IsWeekend(d) then false
    else true
  }

  /** The three rules of `is_market_open`. */
  lemma MarketOpenRules(d: Day)
    ensures IsHoliday(d) ==> !IsMarketOpen(d)
    ensures IsWeekend(d) ==> !IsMarketOpen(d)
    ensures IsMarketOpen(d) <==> !IsHoliday(d) && Weekday(d) < 5
  {
  }

  /** The text of a date whose (year, month, day) is known. */
  lemma IsoDateOf(d: Day, year: int, month: int, day: int)
    requires CivilFromDays(d) == (year, month, day)
    ensures IsoDate(d) == Pad4(year) + "-" + Pad2(month) + "-" + Pad2(day)
  {
  }

  // The lemmas below evaluate the conversion on fixed days; the division
  // facts spell out each step so that the evaluation stays cheap.

  /** 1970-01-01, day 0, was a Thursday. */
  lemma EpochAnchor()
    ensures IsoDate(0) == "1970-01-01" && Weekday(0) == 3
  {
    assert CivilFromDays(0) == (1970, 1, 1) by {
      assert 719468 / 146097 == 4 && 135080 / 1460 == 92 && 135080 / 36524 == 3 && 135080 / 146096 == 0;
      assert 134991 / 365 == 369 && 369 / 4 == 92 && 369 / 100 == 3 && 1532 / 153 == 10 && 1532 / 5 == 306;
    }
    IsoDateOf(0, 1970, 1, 1);
    assert Pad4(1970) + "-" + Pad2(1) + "-" + Pad2(1) == "1970-01-01";
  }

  /** 2025-11-10, day 20402, is a Monday and a trading day. */
  lemma TradingMondayAnchor()
    ensures IsoDate(20402) == "2025-11-10" && Weekday(20402) == 0 && IsMarketOpen(20402)
  {
    assert CivilFromDays(20402) == (2025, 11, 10) by {
      assert 739870 / 146097 == 5 && 9385 / 1460 == 6 && 9385 / 36524 == 0 && 9385 / 146096 == 0;
      assert 9379 / 365 == 25 && 25 / 4 == 6 && 25 / 100 == 0 && 1272 / 153 == 8 && 1226 / 5 == 245;
    }
    IsoDateOf(20402, 2025, 11, 10);
    assert Pad4(2025) + "-" + Pad2(11) + "-" + Pad2(10) == "2025-11-10";
  }

  lemma SpellsJan26()
    ensures HolidayDays[0] == 20114 && NseHolidays2025[0] == "2025-01-26"
    ensures IsoDate(HolidayDays[0]) == NseHolidays2025[0]
  {
    assert CivilFromDays(20114) == (2025, 1, 26) by {
      assert 739582 / 146097 == 5 && 9097 / 1460 == 6 && 9097 / 36524 == 0 && 9097 / 146096 == 0;
      assert 9091 / 365 == 24 && 24 / 4 == 6 && 24 / 100 == 0 && 1657 / 153 == 10 && 1532 / 5 == 306;
    }
    IsoDateOf(20114, 2025, 1, 26);
    assert Pad4(2025) + "-" + Pad2(1) + "-" + Pad2(26) == "2025-01-26";
  }

  lemma SpellsFeb26()
    ensures HolidayDays[1] == 20145 && NseHolidays2025[1] == "2025-02-26"
    ensures IsoDate(HolidayDays[1]) == NseHolidays2025[1]
  {
    assert CivilFromDays(20145) == (2025, 2, 26) by {
      assert 739613 / 146097 == 5 && 9128 / 1460 == 6 && 9128 / 36524 == 0 && 9128 / 146096 == 0;
      assert 9122 / 365 == 24 && 24 / 4 == 6 && 24 / 100 == 0 && 1812 / 153 == 11 && 1685 / 5 == 337;
    }
    IsoDateOf(20145, 2025, 2, 26);
    assert Pad4(2025) + "-" + Pad2(2) + "-" + Pad2(26) == "2025-02-26";
  }

  lemma SpellsMar14()
    ensures HolidayDays[2] == 20161 && NseHolidays2025[2] == "2025-03-14"
    ensures IsoDate(HolidayDays[2]) == NseHolidays2025[2]
  {
    assert CivilFromDays(20161) == (2025, 3, 14) by {
      assert 739629 / 146097 == 5 && 9144 / 1460 == 6 && 9144 / 36524 == 0 && 9144 / 146096 == 0;
      assert 9138 / 365 == 25 && 25 / 4 == 6 && 25 / 100 == 0 && 67 / 153 == 0 && 2 / 5 == 0;
    }
    IsoDateOf(20161, 2025, 3, 14);
    assert Pad4(2025) + "-" + Pad2(3) + "-" + Pad2(14) == "2025-03-14";
  }

  lemma SpellsMar31()
    ensures HolidayDays[3] == 20178 && NseHolidays2025[3] == "2025-03-31"
    ensures IsoDate(HolidayDays[3]) == NseHolidays2025[3]
  {
    assert CivilFromDays(20178) == (2025, 3, 31) by {
      assert 739646 / 146097 == 5 && 9161 / 1460 == 6 && 9161 / 36524 == 0 && 9161 / 146096 == 0;
      assert 9155 / 365 == 25 && 25 / 4 == 6 && 25 / 100 == 0 && 152 / 153 == 0 && 2 / 5 == 0;
    }
    IsoDateOf(20178, 2025, 3, 31);
    assert Pad4(2025) + "-" + Pad2(3) + "-" + Pad2(31) == "2025-03-31";
  }

  lemma SpellsApr10()
    ensures HolidayDays[4] == 20188 && NseHolidays2025[4] == "2025-04-10"
    ensures IsoDate(HolidayDays[4]) == NseHolidays2025[4]
  {
    assert CivilFromDays(20188) == (2025, 4, 10) by {
      assert 739656 / 146097 == 5 && 9171 / 1460 == 6 && 9171 / 36524 == 0 && 9171 / 146096 == 0;
      assert 9165 / 365 == 25 && 25 / 4 == 6 && 25 / 100 == 0 && 202 / 153 == 1 && 155 / 5 == 31;
    }
    IsoDateOf(20188, 2025, 4, 10);
    assert Pad4(2025) + "-" + Pad2(4) + "-" + Pad2(10) == "2025-04-10";
  }

  lemma SpellsApr14()
    ensures HolidayDays[5] == 20192 && NseHolidays2025[5] == "2025-04-14"
    ensures IsoDate(HolidayDays[5]) == NseHolidays2025[5]
  {
    assert CivilFromDays(20192) == (2025, 4, 14) by {
      assert 739660 / 146097 == 5 && 9175 / 1460 == 6 && 9175 / 36524 == 0 && 9175 / 146096 == 0;
      assert 9169 / 365 == 25 && 25 / 4 == 6 && 25 / 100 == 0 && 222 / 153 == 1 && 155 / 5 == 31;
    }
    IsoDateOf(20192, 2025, 4, 14);
    assert Pad4(2025) + "-" + Pad2(4) + "-" + Pad2(14) == "2025-04-14";
  }

  lemma SpellsApr18()
    ensures HolidayDays[6] == 20196 && NseHolidays2025[6] == "2025-04-18"
    ensures IsoDate(HolidayDays[6]) == NseHolidays2025[6]
  {
    assert CivilFromDays(20196) == (2025, 4, 18) by {
      assert 739664 / 146097 == 5 && 9179 / 1460 == 6 && 9179 / 36524 == 0 && 9179 / 146096 == 0;
      assert 9173 / 365 == 25 && 25 / 4 == 6 && 25 / 100 == 0 && 242 / 153 == 1 && 155 / 5 == 31;
    }
    IsoDateOf(20196, 2025, 4, 18);
    assert Pad4(2025) + "-" + Pad2(4) + "-" + Pad2(18) == "2025-04-18";
  }

  lemma SpellsMay01()
    ensures HolidayDays[7] == 20209 && NseHolidays2025[7] == "2025-05-01"
    ensures IsoDate(HolidayDays[7]) == NseHolidays2025[7]
  {
    assert CivilFromDays(20209) == (2025, 5, 1) by {
      assert 739677 / 146097 == 5 && 9192 / 1460 == 6 && 9192 / 36524 == 0 && 9192 / 146096 == 0;
      assert 9186 / 365 == 25 && 25 / 4 == 6 && 25 / 100 == 0 && 307 / 153 == 2 && 308 / 5 == 61;
    }
    IsoDateOf(20209, 2025, 5, 1);
    assert Pad4(2025) + "-" + Pad2(5) + "-" + Pad2(1) == "2025-05-01";
  }

  lemma SpellsJun07()
    ensures HolidayDays[8] == 20246 && NseHolidays2025[8] == "2025-06-07"
    ensures IsoDate(HolidayDays[8]) == NseHolidays2025[8]
  {
    assert CivilFromDays(20246) == (2025, 6, 7) by {
      assert 739714 / 146097 == 5 && 9229 / 1460 == 6 && 9229 / 36524 == 0 && 9229 / 146096 == 0;
      assert 9223 / 365 == 25 && 25 / 4 == 6 && 25 / 100 == 0 && 492 / 153 == 3 && 461 / 5 == 92;
    }
    IsoDateOf(20246, 2025, 6, 7);
    assert Pad4(2025) + "-" + Pad2(6) + "-" + Pad2(7) == "2025-06-07";
  }

  lemma SpellsJul07()
    ensures HolidayDays[9] == 20276 && NseHolidays2025[9] == "2025-07-07"
    ensures IsoDate(HolidayDays[9]) == NseHolidays2025[9]
  {
    assert CivilFromDays(20276) == (2025, 7, 7) by {
      assert 739744 / 146097 == 5 && 9259 / 1460 == 6 && 9259 / 36524 == 0 && 9259 / 146096 == 0;
      assert 9253 / 365 == 25 && 25 / 4 == 6 && 25 / 100 == 0 && 642 / 153 == 4 && 614 / 5 == 122;
    }
    IsoDateOf(20276, 2025, 7, 7);
    assert Pad4(2025) + "-" + Pad2(7) + "-" + Pad2(7) == "2025-07-07";
  }

  lemma SpellsAug15()
    ensures HolidayDays[10] == 20315 && NseHolidays2025[10] == "2025-08-15"
    ensures IsoDate(HolidayDays[10]) == NseHolidays2025[10]
  {
    assert CivilFromDays(20315) == (2025, 8, 15) by {
      assert 739783 / 146097 == 5 && 9298 / 1460 == 6 && 9298 / 36524 == 0 && 9298 / 146096 == 0;
      assert 9292 / 365 == 25 && 25 / 4 == 6 && 25 / 100 == 0 && 837 / 153 == 5 && 767 / 5 == 153;
    }
    IsoDateOf(20315, 2025, 8, 15);
    assert Pad4(2025) + "-" + Pad2(8) + "-" + Pad2(15) == "2025-08-15";
  }

  lemma SpellsAug16()
    ensures HolidayDays[11] == 20316 && NseHolidays2025[11] == "2025-08-16"
    ensures IsoDate(HolidayDays[11]) == NseHolidays2025[11]
  {
    assert CivilFromDays(20316) == (2025, 8, 16) by {
      assert 739784 / 146097 == 5 && 9299 / 1460 == 6 && 9299 / 36524 == 0 && 9299 / 146096 == 0;
      assert 9293 / 365 == 25 && 25 / 4 == 6 && 25 / 100 == 0 && 842 / 153 == 5 && 767 / 5 == 153;
    }
    IsoDateOf(20316, 2025, 8, 16);
    assert Pad4(2025) + "-" + Pad2(8) + "-" + Pad2(16) == "2025-08-16";
  }

  lemma SpellsAug27()
    ensures HolidayDays[12] == 20327 && NseHolidays2025[12] == "2025-08-27"
    ensures IsoDate(HolidayDays[12]) == NseHolidays2025[12]
  {
    assert CivilFromDays(20327) == (2025, 8, 27) by {
      assert 739795 / 146097 == 5 && 9310 / 1460 == 6 && 9310 / 36524 == 0 && 9310 / 146096 == 0;
      assert 9304 / 365 == 25 && 25 / 4 == 6 && 25 / 100 == 0 && 897 / 153 == 5 && 767 / 5 == 153;
    }
    IsoDateOf(20327, 2025, 8, 27);
    assert Pad4(2025) + "-" + Pad2(8) + "-" + Pad2(27) == "2025-08-27";
  }

  lemma SpellsOct02()
    ensures HolidayDays[13] == 20363 && NseHolidays2025[13] == "2025-10-02"
    ensures IsoDate(HolidayDays[13]) == NseHolidays2025[13]
  {
    assert CivilFromDays(20363) == (2025, 10, 2) by {
      assert 739831 / 146097 == 5 && 9346 / 1460 == 6 && 9346 / 36524 == 0 && 9346 / 146096 == 0;
      assert 9340 / 365 == 25 && 25 / 4 == 6 && 25 / 100 == 0 && 1077 / 153 == 7 && 1073 / 5 == 214;
    }
    IsoDateOf(20363, 2025, 10, 2);
    assert Pad4(2025) + "-" + Pad2(10) + "-" + Pad2(2) == "2025-10-02";
  }

  lemma SpellsOct21()
    ensures HolidayDays[14] == 20382 && NseHolidays2025[14] == "2025-10-21"
    ensures IsoDate(HolidayDays[14]) == NseHolidays2025[14]
  {
    assert CivilFromDays(20382) == (2025, 10, 21) by {
      assert 739850 / 146097 == 5 && 9365 / 1460 == 6 && 9365 / 36524 == 0 && 9365 / 146096 == 0;
      assert 9359 / 365 == 25 && 25 / 4 == 6 && 25 / 100 == 0 && 1172 / 153 == 7 && 1073 / 5 == 214;
    }
    IsoDateOf(20382, 2025, 10, 21);
    assert Pad4(2025) + "-" + Pad2(10) + "-" + Pad2(21) == "2025-10-21";
  }

  lemma SpellsOct22()
    ensures HolidayDays[15] == 20383 && NseHolidays2025[15] == "2025-10-22"
    ensures IsoDate(HolidayDays[15]) == NseHolidays2025[15]
  {
    assert CivilFromDays(20383) == (2025, 10, 22) by {
      assert 739851 / 146097 == 5 && 9366 / 1460 == 6 && 9366 / 36524 == 0 && 9366 / 146096 == 0;
      assert 9360 / 365 == 25 && 25 / 4 == 6 && 25 / 100 == 0 && 1177 / 153 == 7 && 1073 / 5 == 214;
    }
    IsoDateOf(20383, 2025, 10, 22);
    assert Pad4(2025) + "-" + Pad2(10) + "-" + Pad2(22) == "2025-10-22";
  }

  lemma SpellsOct23()
    ensures HolidayDays[16] == 20384 && NseHolidays2025[16] == "2025-10-23"
    ensures IsoDate(HolidayDays[16]) == NseHolidays2025[16]
  {
    assert CivilFromDays(20384) == (2025, 10, 23) by {
      assert 739852 / 146097 == 5 && 9367 / 1460 == 6 && 9367 / 36524 == 0 && 9367 / 146096 == 0;
      assert 9361 / 365 == 25 && 25 / 4 == 6 && 25 / 100 == 0 && 1182 / 153 == 7 && 1073 / 5 == 214;
    }
    IsoDateOf(20384, 2025, 10, 23);
    assert Pad4(2025) + "-" + Pad2(10) + "-" + Pad2(23) == "2025-10-23";
  }

  lemma SpellsNov05()
    ensures HolidayDays[17] == 20397 && NseHolidays2025[17] == "2025-11-05"
    ensures IsoDate(HolidayDays[17]) == NseHolidays2025[17]
  {
    assert CivilFromDays(20397) == (2025, 11, 5) by {
      assert 739865 / 146097 == 5 && 9380 / 1460 == 6 && 9380 / 36524 == 0 && 9380 / 146096 == 0;
      assert 9374 / 365 == 25 && 25 / 4 == 6 && 25 / 100 == 0 && 1247 / 153 == 8 && 1226 / 5 == 245;
    }
    IsoDateOf(20397, 2025, 11, 5);
    assert Pad4(2025) + "-" + Pad2(11) + "-" + Pad2(5) == "2025-11-05";
  }

  lemma SpellsDec25()
    ensures HolidayDays[18] == 20447 && NseHolidays2025[18] == "2025-12-25"
    ensures IsoDate(HolidayDays[18]) == NseHolidays2025[18]
  {
    assert CivilFromDays(20447) == (2025, 12, 25) by {
      assert 739915 / 146097 == 5 && 9430 / 1460 == 6 && 9430 / 36524 == 0 && 9430 / 146096 == 0;
      assert 9424 / 365 == 25 && 25 / 4 == 6 && 25 / 100 == 0 && 1497 / 153 == 9 && 1379 / 5 == 275;
    }
    IsoDateOf(20447, 2025, 12, 25);
    assert Pad4(2025) + "-" + Pad2(12) + "-" + Pad2(25) == "2025-12-25";
  }

  /** Every day number of `HolidayDays` prints as the entry of `NseHolidays2025` at the same position. */
  lemma HolidayListSpelling()
    ensures |HolidayDays| == |NseHolidays2025|
    ensures forall i :: 0 <= i < |HolidayDays| ==> IsoDate(HolidayDays[i]) == NseHolidays2025[i]
  {
    forall i | 0 <= i < |HolidayDays|
      ensures IsoDate(HolidayDays[i]) == NseHolidays2025[i]
    {
      if i == 0 { SpellsJan26(); }
      else if i == 1 { SpellsFeb26(); }
      else if i == 2 { SpellsMar14(); }
      else if i == 3 { SpellsMar31(); }
      else if i == 4 { SpellsApr10(); }
      else if i == 5 { SpellsApr14(); }
      else if i == 6 { SpellsApr18(); }
      else if i == 7 { SpellsMay01(); }
      else if i == 8 { SpellsJun07(); }
      else if i == 9 { SpellsJul07(); }
      else if i == 10 { SpellsAug15(); }
      else if i == 11 { SpellsAug16(); }
      else if i == 12 { SpellsAug27(); }
      else if i == 13 { SpellsOct02(); }
      else if i == 14 { SpellsOct21(); }
      else if i == 15 { SpellsOct22(); }
      else if i == 16 { SpellsOct23(); }
      else if i == 17 { SpellsNov05(); }
      else { SpellsDec25(); }
    }
  }

  /** A day the model treats as a holiday prints as a date on the source's list. */
  lemma HolidaysAreListed(d: Day)
    requires IsHoliday(d)
    ensures IsoDate(d) in NseHolidays2025
  {
    var i :| 0 <= i < |HolidayDays| && HolidayDays[i] == d;
    HolidayListSpelling();
    assert NseHolidays2025[i] == IsoDate(d);
  }
}
