/** Stored timestamps are ISO 8601 text, and the restart count compares them as text. For UTC timestamps that
    agrees with the order of the instants, although a zero fraction is left out. */
module IsoTimestamps {
  import opened Basics
  import opened Fleet

  // --- text order ----------------------------------------------------------------

  /** Bytewise text order, a proper prefix first. */
  predicate Before(a: string, b: string) {
    b != [] && (a == [] || a[0] < b[0] || (a[0] == b[0] && Before(a[1..], b[1..])))
  }

  /** Where two texts share a field of equal width, its order decides unless it is equal. */
  lemma {:induction false} BeforeFields(a: string, b: string, x: string, y: string)
    requires |a| == |b|
    ensures Before(a + x, b + y) <==> Before(a, b) || (a == b && Before(x, y))
  {
    if a == [] {
      assert a + x == x && b + y == y;
    } else {
      assert (a + x)[1..] == a[1..] + x && (b + y)[1..] == b[1..] + y;
      BeforeFields(a[1..], b[1..], x, y);
      assert a == [a[0]] + a[1..] && b == [b[0]] + b[1..];
    }
  }

  // --- decimal fields --------------------------------------------------------------

  function Digit(n: nat): char
    requires n < 10
  {
    '0' + n as char
  }

  function Pow10(w: nat): nat { if w == 0 then 1 else 10 * Pow10(w - 1) }

  /** `n` in `w` digits, zeros in front. */
  function Decimal(n: nat, w: nat): (s: string)
    requires n < Pow10(w)
    ensures |s| == w
  {
    if w == 0 then [] else Decimal(n / 10, w - 1) + [Digit(n % 10)]
  }

  lemma {:induction false} DecimalOrder(n: nat, m: nat, w: nat)
    requires n < Pow10(w) && m < Pow10(w)
    ensures Before(Decimal(n, w), Decimal(m, w)) <==> n < m
    ensures Decimal(n, w) == Decimal(m, w) <==> n == m
  {
    if w > 0 {
      DecimalOrder(n / 10, m / 10, w - 1);
      var (a, b) := (Decimal(n / 10, w - 1), Decimal(m / 10, w - 1));
      var (x, y) := ([Digit(n % 10)], [Digit(m % 10)]);
      BeforeFields(a, b, x, y);
      assert Before(x, y) <==> n % 10 < m % 10 by {
        assert x[1..] == [] && y[1..] == [];
      }
      assert a == Decimal(n, w)[..w - 1] && b == Decimal(m, w)[..w - 1];
      assert Decimal(n, w)[w - 1] == x[0] && Decimal(m, w)[w - 1] == y[0];
    }
  }

  // --- dates -------------------------------------------------------------------------

  /** A UTC timestamp, field by field. */
  datatype Stamp = Stamp(year: nat, month: nat, day: nat, hour: nat, minute: nat, second: nat, micro: nat)
  {
    predicate Valid() {
      && 1 <= year <= 9999 && 1 <= month <= 12 && 1 <= day <= DaysIn(year, month)
      && hour < 24 && minute < 60 && second < 60 && micro < 1000000
    }
  }

  predicate Leap(year: nat) { year % 4 == 0 && (year % 100 != 0 || year % 400 == 0) }

  function DaysIn(year: nat, month: nat): nat {
    if month == 2 then (if Leap(year) then 29 else 28)
    else if month == 4 || month == 6 || month == 9 || month == 11 then 30
    else 31
  }

  /** Days in the months of the year before this one. */
  function DaysBefore(year: nat, month: nat): nat {
    if month <= 1 then 0 else DaysBefore(year, month - 1) + DaysIn(year, month - 1)
  }

  function YearLength(year: nat): nat { if Leap(year) then 366 else 365 }

  /** Days in the years before this one. */
  function DaysBeforeYear(year: nat): nat {
    if year <= 1 then 0 else DaysBeforeYear(year - 1) + YearLength(year - 1)
  }

  lemma {:induction false} ByMonth(year: nat, m: nat)
    requires 1 <= m <= 13
    ensures DaysBefore(year, m) ==
            [0, 31, 59, 90, 120, 151, 181, 212, 243, 273, 304, 334, 365][m - 1] + if m > 2 && Leap(year) then 1 else 0
  {
    if m > 1 {
      ByMonth(year, m - 1);
    }
  }

  lemma MonthsMakeAYear(year: nat)
    ensures DaysBefore(year, 13) == YearLength(year)
  {
    ByMonth(year, 13);
  }

  /** Microseconds since the start of year 1. */
  function Instant(t: Stamp): int {
    var days := DaysBeforeYear(t.year) + DaysBefore(t.year, t.month) + t.day;
    (((days * 24 + t.hour) * 60 + t.minute) * 60 + t.second) * 1000000 + t.micro
  }

  /** The fields in order of weight. */
  predicate Earlier(t: Stamp, u: Stamp) {
    if t.year != u.year then t.year < u.year
    else if t.month != u.month then t.month < u.month
    else if t.day != u.day then t.day < u.day
    else if t.hour != u.hour then t.hour < u.hour
    else if t.minute != u.minute then t.minute < u.minute
    else if t.second != u.second then t.second < u.second
    else t.micro < u.micro
  }

  lemma {:induction false} MonthsAddUp(year: nat, m: nat, n: nat)
    requires 1 <= m < n <= 13
    ensures DaysBefore(year, m) + DaysIn(year, m) <= DaysBefore(year, n)
  {
    if m + 1 < n {
      MonthsAddUp(year, m, n - 1);
    }
  }

  lemma {:induction false} YearsAddUp(y: nat, z: nat)
    requires 1 <= y < z
    ensures DaysBeforeYear(y) + YearLength(y) <= DaysBeforeYear(z)
  {
    if y + 1 < z {
      YearsAddUp(y, z - 1);
    }
  }

  lemma InstantRises(t: Stamp, u: Stamp)
    requires t.Valid() && u.Valid() && Earlier(t, u)
    ensures Instant(t) < Instant(u)
  {
    if t.year < u.year {
      MonthsAddUp(t.year, t.month, 13);
      MonthsMakeAYear(t.year);
      YearsAddUp(t.year, u.year);
    } else if t.year == u.year && t.month < u.month {
      MonthsAddUp(t.year, t.month, u.month);
    }
  }

  /** Instants are ordered as the fields are. */
  lemma InstantOrder(t: Stamp, u: Stamp)
    requires t.Valid() && u.Valid()
    ensures Instant(t) < Instant(u) <==> Earlier(t, u)
  {
    if Earlier(t, u) {
      InstantRises(t, u);
    } else if Earlier(u, t) {
      InstantRises(u, t);
    } else {
      assert t == u;
    }
  }

  // --- the text of a timestamp ----------------------------------------------------------

  const UTC := "+00:00"

  /** The fraction of a second, left out when it is zero, and the offset. */
  function Tail(micro: nat, zone: string): string
    requires micro < 1000000
  {
    if micro == 0 then zone else "." + Decimal(micro, 6) + zone
  }

  function FromSecond(t: Stamp, zone: string): string
    requires t.Valid()
  {
    ":" + (Decimal(t.second, 2) + Tail(t.micro, zone))
  }

  function FromMinute(t: Stamp, zone: string): string
    requires t.Valid()
  {
    ":" + (Decimal(t.minute, 2) + FromSecond(t, zone))
  }

  function FromHour(t: Stamp, zone: string): string
    requires t.Valid()
  {
    "T" + (Decimal(t.hour, 2) + FromMinute(t, zone))
  }

  function FromDay(t: Stamp, zone: string): string
    requires t.Valid()
  {
    "-" + (Decimal(t.day, 2) + FromHour(t, zone))
  }

  function FromMonth(t: Stamp, zone: string): string
    requires t.Valid()
  {
    "-" + (Decimal(t.month, 2) + FromDay(t, zone))
  }

  /** The text with the offset written `zone`. */
  function Text(t: Stamp, zone: string): string
    requires t.Valid()
  {
    Decimal(t.year, 4) + FromMonth(t, zone)
  }

  lemma FieldThen(n: nat, m: nat, w: nat, x: string, y: string)
    requires n < Pow10(w) && m < Pow10(w)
    ensures Before(Decimal(n, w) + x, Decimal(m, w) + y) <==> if n != m then n < m else Before(x, y)
  {
    DecimalOrder(n, m, w);
    BeforeFields(Decimal(n, w), Decimal(m, w), x, y);
  }

  lemma SameThen(c: char, x: string, y: string)
    ensures Before([c] + x, [c] + y) <==> Before(x, y)
  {
    assert ([c] + x)[1..] == x && ([c] + y)[1..] == y;
  }

  lemma {:induction false} NotBeforeItself(a: string)
    ensures !Before(a, a)
  {
    if a != [] {
      NotBeforeItself(a[1..]);
    }
  }

  /** Fractions compare as numbers when the offset starts below the point: a missing fraction sorts first. */
  lemma TailOrder(m: nat, n: nat, zone: string)
    requires m < 1000000 && n < 1000000 && zone != [] && zone[0] < '.'
    ensures Before(Tail(m, zone), Tail(n, zone)) <==> m < n
  {
    NotBeforeItself(zone);
    if m > 0 && n > 0 {
      FractionTail(m, zone);
      FractionTail(n, zone);
      SameThen('.', Decimal(m, 6) + zone, Decimal(n, 6) + zone);
      FieldThen(m, n, 6, zone, zone);
    } else if m > 0 {
      FractionTail(m, zone);
    } else if n > 0 {
      FractionTail(n, zone);
    }
  }

  lemma FractionTail(m: nat, zone: string)
    requires 0 < m < 1000000
    ensures Tail(m, zone) == ['.'] + (Decimal(m, 6) + zone)
  {
  }

  lemma PairThen(c: char, n: nat, m: nat, x: string, y: string)
    requires n < 100 && m < 100
    ensures Before([c] + (Decimal(n, 2) + x), [c] + (Decimal(m, 2) + y)) <==> if n != m then n < m else Before(x, y)
  {
    SameThen(c, Decimal(n, 2) + x, Decimal(m, 2) + y);
    FieldThen(n, m, 2, x, y);
  }

  lemma TextFields(t: Stamp, u: Stamp, zone: string)
    requires t.Valid() && u.Valid() && zone != [] && zone[0] < '.'
    ensures Before(Text(t, zone), Text(u, zone)) <==> Earlier(t, u)
  {
    FieldThen(t.year, u.year, 4, FromMonth(t, zone), FromMonth(u, zone));
    PairThen('-', t.month, u.month, FromDay(t, zone), FromDay(u, zone));
    PairThen('-', t.day, u.day, FromHour(t, zone), FromHour(u, zone));
    PairThen('T', t.hour, u.hour, FromMinute(t, zone), FromMinute(u, zone));
    PairThen(':', t.minute, u.minute, FromSecond(t, zone), FromSecond(u, zone));
    PairThen(':', t.second, u.second, Tail(t.micro, zone), Tail(u.micro, zone));
    TailOrder(t.micro, u.micro, zone);
  }

  /** Text order is time order for UTC timestamps, with and without a fraction; equal texts are equal times. */
  lemma TextOrderIsTimeOrder(t: Stamp, u: Stamp)
    requires t.Valid() && u.Valid()
    ensures Before(Text(t, UTC), Text(u, UTC)) <==> Instant(t) < Instant(u)
    ensures Text(t, UTC) == Text(u, UTC) <==> Instant(t) == Instant(u)
  {
    TextFields(t, u, UTC);
    TextFields(u, t, UTC);
    InstantOrder(t, u);
    InstantOrder(u, t);
    NotBeforeItself(Text(t, UTC));
  }

  /** What makes it so is the offset: with a missing fraction, text order is time order if and only if the
      offset's first character sorts before the decimal point, as `+` does and `Z` does not. */
  lemma OffsetExact(zone: string)
    requires zone != [] && zone[0] != '.'
    ensures (forall t: Stamp, u: Stamp :: t.Valid() && u.Valid() ==>
             (Before(Text(t, zone), Text(u, zone)) <==> Instant(t) < Instant(u)))
            <==> zone[0] < '.'
  {
    if zone[0] < '.' {
      forall t: Stamp, u: Stamp | t.Valid() && u.Valid()
        ensures Before(Text(t, zone), Text(u, zone)) <==> Instant(t) < Instant(u)
      {
        TextFields(t, u, zone);
        InstantOrder(t, u);
      }
    } else {
      var t, u := OutOfOrder(zone);
    }
  }

  /** A whole second, and the microsecond after it. */
  lemma OutOfOrder(zone: string) returns (t: Stamp, u: Stamp)
    requires zone != [] && zone[0] > '.'
    ensures t.Valid() && u.Valid() && !Before(Text(t, zone), Text(u, zone)) && Instant(t) < Instant(u)
  {
    t := Stamp(2024, 1, 1, 0, 0, 0, 0);
    u := t.(micro := 1);
    InstantOrder(t, u);
    WholeSecondLast(t, u, zone);
  }

  lemma WholeSecondLast(t: Stamp, u: Stamp, zone: string)
    requires t.Valid() && u.Valid() && u == t.(micro := u.micro) && t.micro == 0 && u.micro > 0
    requires zone != [] && zone[0] > '.'
    ensures !Before(Text(t, zone), Text(u, zone))
  {
    FieldThen(t.year, u.year, 4, FromMonth(t, zone), FromMonth(u, zone));
    PairThen('-', t.month, u.month, FromDay(t, zone), FromDay(u, zone));
    PairThen('-', t.day, u.day, FromHour(t, zone), FromHour(u, zone));
    PairThen('T', t.hour, u.hour, FromMinute(t, zone), FromMinute(u, zone));
    PairThen(':', t.minute, u.minute, FromSecond(t, zone), FromSecond(u, zone));
    PairThen(':', t.second, u.second, Tail(t.micro, zone), Tail(u.micro, zone));
    FractionTail(u.micro, zone);
  }

  // --- counting restarts by text ------------------------------------------------------------

  /** A history row as stored: its time is text. */
  datatype StoredRow = StoredRow(ts: Stamp, action: Action, id: Option<nat>, ok: bool)

  /** The query's count: rows of restarts of `id` whose text is not before the cutoff's. */
  function CountByText(rows: seq<StoredRow>, id: nat, cutoff: Stamp): nat
    requires cutoff.Valid() && forall r :: r in rows ==> r.ts.Valid()
  {
    if rows == [] then 0
    else
      var r := rows[|rows| - 1];
      assert r in rows;
      CountByText(rows[..|rows| - 1], id, cutoff) +
      if r.id == Some(id) && r.action == Restart && !Before(Text(r.ts, UTC), Text(cutoff, UTC)) then 1 else 0
  }

  function AsRows(rows: seq<StoredRow>): (history: seq<Row>)
    ensures |history| == |rows|
  {
    if rows == [] then []
    else
      var r := rows[|rows| - 1];
      AsRows(rows[..|rows| - 1]) + [Row(Instant(r.ts), r.action, r.id, r.ok)]
  }

  /** The text query counts exactly the restarts at or after the cutoff instant. */
  lemma {:induction false} CountsByTextAgree(rows: seq<StoredRow>, id: nat, cutoff: Stamp)
    requires cutoff.Valid() && forall r :: r in rows ==> r.ts.Valid()
    ensures CountByText(rows, id, cutoff) == CountRestarts(AsRows(rows), id, Instant(cutoff))
  {
    if rows != [] {
      var init, r := rows[..|rows| - 1], rows[|rows| - 1];
      assert r in rows;
      CountsByTextAgree(init, id, cutoff);
      TextOrderIsTimeOrder(r.ts, cutoff);
      var before := AsRows(init);
      assert (before + [Row(Instant(r.ts), r.action, r.id, r.ok)])[..|before|] == before;
    }
  }
}
