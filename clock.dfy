/** The wall clock as the services read it: a LocalDateTime, its epoch second
    (toEpochSecond(ZoneOffset.UTC)) and the date fields used in key names. */
module Clock {
  import opened Texts

  datatype LocalDateTime = LocalDateTime(year: nat, month: nat, day: nat, hour: nat, minute: nat, second: nat)

  predicate IsLeap(y: nat)
  {
    (y % 4 == 0 && y % 100 != 0) || y % 400 == 0
  }

  function DaysInMonth(y: nat, m: nat): nat
    requires 1 <= m <= 12
  {
    if m == 2 then (if IsLeap(y) then 29 else 28)
    else if m == 4 || m == 6 || m == 9 || m == 11 then 30
    else 31
  }

  /** A date-time that LocalDateTime can hold, from 1970 on, with a four-digit year. */
  predicate ValidTime(t: LocalDateTime)
  {
    && 1970 <= t.year <= 9999
    && 1 <= t.month <= 12
    && 1 <= t.day <= DaysInMonth(t.year, t.month)
    && t.hour < 24 && t.minute < 60 && t.second < 60
  }

  /** Days from 1970-01-01 to the given proleptic Gregorian date. */
  function DaysFromCivil(y: nat, m: nat, d: nat): int
    requires 1 <= m <= 12
  {
    var y' := if m <= 2 then y - 1 else y;
    var era := y' / 400;
    var yoe := y' - era * 400;
    var mp := if m > 2 then m - 3 else m + 9;
    var doy := (153 * mp + 2) / 5 + d - 1;
    var doe := yoe * 365 + yoe / 4 - yoe / 100 + doy;
    era * 146097 + doe - 719468
  }

  /** Dates from 1970 on lie at or after the epoch. */
  lemma DaysFromCivilNonNegative(y: nat, m: nat, d: nat)
    requires 1970 <= y && 1 <= m <= 12 && 1 <= d
    ensures DaysFromCivil(y, m, d) >= 0
  {
    var y' := if m <= 2 then y - 1 else y;
    var era := y' / 400;
    var yoe := y' - era * 400;
    assert 0 <= yoe < 400;
    if era == 4 {
      assert yoe >= 369;
    } else {
      assert era >= 5;
    }
  }

  /** Dates before the year 10000 lie fewer than 2^22 days after the epoch. */
  lemma DaysFromCivilBounded(y: nat, m: nat, d: nat)
    requires y <= 9999 && 1 <= m <= 12 && d <= 31
    ensures DaysFromCivil(y, m, d) < 0x40_0000
  {
    var y' := if m <= 2 then y - 1 else y;
    var era := y' / 400;
    assert era <= 24;
  }

  /** LocalDateTime.toEpochSecond(ZoneOffset.UTC). */
  function EpochSecond(t: LocalDateTime): (s: nat)
    requires ValidTime(t)
    ensures s < 0x100_0000_0000
  {
    DaysFromCivilNonNegative(t.year, t.month, t.day);
    DaysFromCivilBounded(t.year, t.month, t.day);
    DaysFromCivil(t.year, t.month, t.day) * 86400 + t.hour * 3600 + t.minute * 60 + t.second
  }

  /** The same instant in milliseconds, the unit of the store's clock. */
  function EpochMilli(t: LocalDateTime): nat
    requires ValidTime(t)
  {
    EpochSecond(t) * 1000
  }

  /** DateTimeFormatter "yyyy:MM:dd". */
  function FormatDay(t: LocalDateTime): string
  {
    Padded(t.year, 4) + ":" + Padded(t.month, 2) + ":" + Padded(t.day, 2)
  }

  /** DateTimeFormatter ":yyyyMM". */
  function FormatMonthSuffix(t: LocalDateTime): string
  {
    ":" + Padded(t.year, 4) + Padded(t.month, 2)
  }
}
