/**
  The `created_at` column. Rows are ordered by the *text* of a timestamp whose fraction has
  0, 3, 6 or 9 digits; this module shows that the text order is the chronological one.
 */
module Timestamps {
  import opened Text

  /** chrono's UTC date-time. A leap second is second 59 with `nanos >= 1_000_000_000`. */
  datatype Utc = Utc(year: nat, month: nat, day: nat, hour: nat, minute: nat, second: nat, nanos: nat)

  const BILLION: nat := 1_000_000_000

  predicate IsLeapYear(y: nat) { y % 4 == 0 && (y % 100 != 0 || y % 400 == 0) }

  function DaysInMonth(y: nat, m: nat): (d: nat)
    ensures 28 <= d <= 31
  {
    if m == 2 then (if IsLeapYear(y) then 29 else 28)
    else if m == 4 || m == 6 || m == 9 || m == 11 then 30
    else 31
  }

  predicate Valid(t: Utc) {
    && t.year <= 9999
    && 1 <= t.month <= 12
    && 1 <= t.day <= DaysInMonth(t.year, t.month)
    && t.hour < 24 && t.minute < 60 && t.second < 60
    && t.nanos < 2 * BILLION
    && (t.nanos >= BILLION ==> t.second == 59)
  }

  // ---------------------------------------------------------------- chronology

  function DaysBeforeYear(y: nat): nat {
    if y == 0 then 0 else DaysBeforeYear(y - 1) + (if IsLeapYear(y - 1) then 366 else 365)
  }

  function DaysBeforeMonth(y: nat, m: nat): nat {
    if m <= 1 then 0 else DaysBeforeMonth(y, m - 1) + DaysInMonth(y, m - 1)
  }

  /** Whole seconds since the start of year 0. */
  function EpochSecond(t: Utc): nat {
    var days := DaysBeforeYear(t.year) + DaysBeforeMonth(t.year, t.month) + t.day;
    ((days * 24 + t.hour) * 60 + t.minute) * 60 + t.second
  }

  /** Chronological order: chrono compares the second, then the fraction (leap seconds last). */
  predicate Before(a: Utc, b: Utc) {
    EpochSecond(a) < EpochSecond(b) || (EpochSecond(a) == EpochSecond(b) && a.nanos < b.nanos)
  }

  // ---------------------------------------------------------------- text

  /** The fraction of the printed second: empty, or `.` and 3, 6 or 9 digits. */
  function Fraction(n: nat): string
    requires n < BILLION
  {
    if n == 0 then ""
    else if n % 1_000_000 == 0 then "." + Pad(n / 1_000_000, 3)
    else if n % 1_000 == 0 then "." + Pad(n / 1_000, 6)
    else "." + Pad(n, 9)
  }

  function PrintedSecond(t: Utc): nat { if t.nanos >= BILLION then t.second + 1 else t.second }

  function PrintedNanos(t: Utc): nat
    requires Valid(t)
  {
    if t.nanos >= BILLION then t.nanos - BILLION else t.nanos
  }

  /** `to_rfc3339()` of a UTC time: `YYYY-MM-DDTHH:MM:SS[.fff[fff[fff]]]+00:00`. */
  function Rfc3339(t: Utc): string
    requires Valid(t)
  {
    Pad(t.year, 4) + ("-" + (Pad(t.month, 2) + ("-" + (Pad(t.day, 2) + ("T" +
    (Pad(t.hour, 2) + (":" + (Pad(t.minute, 2) + (":" + (Pad(PrintedSecond(t), 2) +
    (Fraction(PrintedNanos(t)) + "+00:00")))))))))))
  }

  // ---------------------------------------------------------------- proofs

  /** One zero-padded field followed by a separator is compared before what follows. */
  lemma FieldOrder(m: nat, n: nat, w: nat, sep: string, a: string, b: string)
    requires m < Pow10(w) && n < Pow10(w)
    ensures Precedes(Pad(m, w) + (sep + a), Pad(n, w) + (sep + b)) <==> m < n || (m == n && Precedes(a, b))
  {
    PadOrder(m, n, w);
    PrecedesByPrefix(Pad(m, w), Pad(n, w), sep + a, sep + b);
    PrecedesByPrefix(sep, sep, a, b);
    PrecedesAsymmetric(sep, sep);
    PrecedesAsymmetric(Pad(m, w), Pad(m, w));
  }

  lemma PowersOfTen()
    ensures Pow10(2) == 100 && Pow10(3) == 1000 && Pow10(4) == 10_000
    ensures Pow10(6) == 1_000_000 && Pow10(9) == BILLION
  {
    assert Pow10(1) == 10;
    assert Pow10(5) == 100_000;
    assert Pow10(7) == 10_000_000 && Pow10(8) == 100_000_000;
  }

  /** A printed fraction denotes its nanoseconds, in the fewest groups of three digits. */
  lemma FractionReads(n: nat)
    requires 0 < n < BILLION
    ensures var f := Fraction(n); var k := |f| - 1;
      && k in {3, 6, 9} && f[0] == '.' && AllDigits(f[1..]) && Value(f[1..]) * Pow10(9 - k) == n
      && (k > 3 ==> n % Pow10(12 - k) != 0)
  {
    PowersOfTen();
    if n % 1_000_000 == 0 {
      PadReads(n / 1_000_000, 3);
      assert Fraction(n)[1..] == Pad(n / 1_000_000, 3);
    } else if n % 1_000 == 0 {
      PadReads(n / 1_000, 6);
      assert Fraction(n)[1..] == Pad(n / 1_000, 6);
    } else {
      PadReads(n, 9);
      assert Fraction(n)[1..] == Pad(n, 9);
    }
  }

  const ZONE := "+00:00"

  /** Digit groups of a fraction, most significant first. */
  function Group(n: nat, i: nat): nat
    requires n < BILLION && i < 3
  {
    if i == 0 then n / 1_000_000 else if i == 1 then n / 1_000 % 1_000 else n % 1_000
  }

  /** What follows the first `i` groups of a fraction in the text. */
  function Tail(n: nat, i: nat): string
    requires n < BILLION && i <= 3
    decreases 3 - i
  {
    if i == 3 || (forall j :: i <= j < 3 ==> Group(n, j) == 0) then ZONE
    else Pad(Group(n, i), 3) + Tail(n, i + 1)
  }

  lemma GroupArithmetic(n: nat)
    requires n < BILLION
    ensures var a, b, c := Group(n, 0), Group(n, 1), Group(n, 2);
      && n == 1_000_000 * a + 1_000 * b + c && b < 1_000 && c < 1_000
      && n / 1_000 == 1_000 * a + b && n / 1_000 / 1_000 == a && n / 1_000 % 1_000 == b && n % 1_000 == c
      && (n % 1_000_000 == 0 <==> b == 0 && c == 0)
  {}

  lemma TailUnfolds(n: nat)
    requires n < BILLION
    ensures Tail(n, 2) == if Group(n, 2) == 0 then ZONE else Pad(Group(n, 2), 3) + ZONE
    ensures Tail(n, 1) == if Group(n, 1) == 0 && Group(n, 2) == 0 then ZONE else Pad(Group(n, 1), 3) + Tail(n, 2)
    ensures Tail(n, 0) == if Group(n, 0) == 0 && Group(n, 1) == 0 && Group(n, 2) == 0 then ZONE
        else Pad(Group(n, 0), 3) + Tail(n, 1)
  {
    assert Tail(n, 3) == ZONE;
  }

  lemma NineDigits(n: nat)
    requires n < BILLION
    ensures Pad(n, 9) + ZONE == Pad(Group(n, 0), 3) + (Pad(Group(n, 1), 3) + (Pad(Group(n, 2), 3) + ZONE))
    ensures Pad(n / 1_000, 6) + ZONE == Pad(Group(n, 0), 3) + (Pad(Group(n, 1), 3) + ZONE)
  {
    GroupArithmetic(n);
    PadDropThree(n, 9);
    PadDropThree(n / 1_000, 6);
  }

  lemma FractionGroups(n: nat)
    requires n < BILLION
    ensures Fraction(n) + ZONE == if n == 0 then ZONE else "." + Tail(n, 0)
  {
    GroupArithmetic(n);
    TailUnfolds(n);
    NineDigits(n);
  }

  predicate GroupsBefore(m: nat, n: nat, i: nat)
    requires m < BILLION && n < BILLION && i <= 3
    decreases 3 - i
  {
    i < 3 && (Group(m, i) < Group(n, i) || (Group(m, i) == Group(n, i) && GroupsBefore(m, n, i + 1)))
  }

  lemma {:induction false} TailOrder(m: nat, n: nat, i: nat)
    requires m < BILLION && n < BILLION && i <= 3
    ensures Precedes(Tail(m, i), Tail(n, i)) <==> GroupsBefore(m, n, i)
    decreases 3 - i
  {
    PowersOfTen();
    if i == 3 {
      PrecedesAsymmetric(ZONE, ZONE);
    } else {
      TailOrder(m, n, i + 1);
      var restM, restN := (forall j :: i <= j < 3 ==> Group(m, j) == 0), (forall j :: i <= j < 3 ==> Group(n, j) == 0);
      if restM {
        ZeroTail(m, n, i);
        PrecedesAsymmetric(ZONE, ZONE);
        assert ZONE[0] == '+';
        if !restN { assert Tail(n, i)[0] == Pad(Group(n, i), 3)[0]; }
      } else if restN {
        ZeroTail(n, m, i);
        GroupsAsymmetric(m, n, i);
        assert ZONE[0] == '+' && Tail(m, i)[0] == Pad(Group(m, i), 3)[0];
      } else {
        PadOrder(Group(m, i), Group(n, i), 3);
        PrecedesByPrefix(Pad(Group(m, i), 3), Pad(Group(n, i), 3), Tail(m, i + 1), Tail(n, i + 1));
      }
    }
  }

  lemma {:induction false} ZeroTail(m: nat, n: nat, i: nat)
    requires m < BILLION && n < BILLION && i <= 3
    requires forall j :: i <= j < 3 ==> Group(m, j) == 0
    ensures GroupsBefore(m, n, i) <==> exists j :: i <= j < 3 && Group(n, j) != 0
    decreases 3 - i
  {
    if i < 3 {
      ZeroTail(m, n, i + 1);
      assert Group(n, i) != 0 || (forall j :: i <= j < 3 && Group(n, j) != 0 ==> i + 1 <= j);
    }
  }

  lemma {:induction false} GroupsAsymmetric(m: nat, n: nat, i: nat)
    requires m < BILLION && n < BILLION && i <= 3
    ensures !(GroupsBefore(m, n, i) && GroupsBefore(n, m, i))
    decreases 3 - i
  {
    if i < 3 { GroupsAsymmetric(m, n, i + 1); }
  }

  lemma GroupsAreNanos(m: nat, n: nat)
    requires m < BILLION && n < BILLION
    ensures GroupsBefore(m, n, 0) <==> m < n
  {
    var a, b, c := Group(m, 0), Group(m, 1), Group(m, 2);
    var x, y, z := Group(n, 0), Group(n, 1), Group(n, 2);
    assert m == 1_000_000 * a + 1_000 * b + c && b < 1_000 && c < 1_000;
    assert n == 1_000_000 * x + 1_000 * y + z && y < 1_000 && z < 1_000;
    assert GroupsBefore(m, n, 2) <==> c < z;
    assert GroupsBefore(m, n, 1) <==> b < y || (b == y && c < z);
    assert GroupsBefore(m, n, 0) <==> a < x || (a == x && (b < y || (b == y && c < z)));
  }

  /** Fractions of 0, 3, 6 and 9 digits compare as the nanoseconds they denote. */
  lemma FractionOrder(m: nat, n: nat)
    requires m < BILLION && n < BILLION
    ensures Precedes(Fraction(m) + ZONE, Fraction(n) + ZONE) <==> m < n
  {
    FractionGroups(m);
    FractionGroups(n);
    TailOrder(m, n, 0);
    PrecedesAsymmetric(ZONE, ZONE);
    assert ZONE[0] == '+';
    PrecedesByPrefix(".", ".", Tail(m, 0), Tail(n, 0));
    PrecedesAsymmetric(".", ".");
    GroupsAreNanos(m, n);
  }

  /** The calendar fields in the order in which the text shows them. */
  predicate FieldsBefore(a: Utc, b: Utc) {
    a.year < b.year || (a.year == b.year &&
    (a.month < b.month || (a.month == b.month &&
    (a.day < b.day || (a.day == b.day &&
    (a.hour < b.hour || (a.hour == b.hour &&
    (a.minute < b.minute || (a.minute == b.minute &&
    (a.second < b.second || (a.second == b.second && a.nanos < b.nanos)))))))))))
  }

  lemma TextComparesFields(a: Utc, b: Utc)
    requires Valid(a) && Valid(b)
    ensures Precedes(Rfc3339(a), Rfc3339(b)) <==> FieldsBefore(a, b)
  {
    PowersOfTen();
    var fa, fb := Fraction(PrintedNanos(a)) + ZONE, Fraction(PrintedNanos(b)) + ZONE;
    var sa, sb := PrintedSecond(a), PrintedSecond(b);
    FractionOrder(PrintedNanos(a), PrintedNanos(b));
    PadOrder(sa, sb, 2);
    PrecedesByPrefix(Pad(sa, 2), Pad(sb, 2), fa, fb);
    var s, t := Pad(sa, 2) + fa, Pad(sb, 2) + fb;
    FieldOrder(a.minute, b.minute, 2, ":", s, t);
    var ma, mb := Pad(a.minute, 2) + (":" + s), Pad(b.minute, 2) + (":" + t);
    FieldOrder(a.hour, b.hour, 2, ":", ma, mb);
    var ha, hb := Pad(a.hour, 2) + (":" + ma), Pad(b.hour, 2) + (":" + mb);
    FieldOrder(a.day, b.day, 2, "T", ha, hb);
    var da, db := Pad(a.day, 2) + ("T" + ha), Pad(b.day, 2) + ("T" + hb);
    FieldOrder(a.month, b.month, 2, "-", da, db);
    var na, nb := Pad(a.month, 2) + ("-" + da), Pad(b.month, 2) + ("-" + db);
    FieldOrder(a.year, b.year, 4, "-", na, nb);
  }

  lemma {:induction false} MonthsFitTheYear(y: nat, m: nat, n: nat)
    requires 1 <= m < n
    ensures DaysBeforeMonth(y, m) + DaysInMonth(y, m) <= DaysBeforeMonth(y, n)
  {
    if m + 1 < n { MonthsFitTheYear(y, m, n - 1); }
  }

  lemma {:induction false} YearsAccumulate(y: nat, z: nat)
    requires y < z
    ensures DaysBeforeYear(y) + (if IsLeapYear(y) then 366 else 365) <= DaysBeforeYear(z)
  {
    if y + 1 < z { YearsAccumulate(y, z - 1); }
  }

  lemma YearLength(y: nat)
    ensures DaysBeforeMonth(y, 13) == if IsLeapYear(y) then 366 else 365
  {
    assert DaysBeforeMonth(y, 2) == 31;
    assert DaysBeforeMonth(y, 3) == 31 + DaysInMonth(y, 2);
    assert DaysBeforeMonth(y, 5) == DaysBeforeMonth(y, 3) + 61;
    assert DaysBeforeMonth(y, 7) == DaysBeforeMonth(y, 5) + 61;
    assert DaysBeforeMonth(y, 9) == DaysBeforeMonth(y, 7) + 62;
    assert DaysBeforeMonth(y, 11) == DaysBeforeMonth(y, 9) + 61;
    assert DaysBeforeMonth(y, 13) == DaysBeforeMonth(y, 11) + 61;
  }

  lemma FieldsBeforeIsBefore(a: Utc, b: Utc)
    requires Valid(a) && Valid(b) && FieldsBefore(a, b)
    ensures Before(a, b)
  {
    var dayA := DaysBeforeYear(a.year) + DaysBeforeMonth(a.year, a.month) + a.day;
    var dayB := DaysBeforeYear(b.year) + DaysBeforeMonth(b.year, b.month) + b.day;
    if a.year < b.year {
      YearLength(a.year);
      MonthsFitTheYear(a.year, a.month, 13);
      YearsAccumulate(a.year, b.year);
      assert dayA < dayB;
    } else if a.month < b.month {
      MonthsFitTheYear(a.year, a.month, b.month);
      assert dayA < dayB;
    }
  }

  /** Sorting the stored text sorts the times, for every UTC time of years 0000 to 9999. */
  lemma TextOrderIsChronological(a: Utc, b: Utc)
    requires Valid(a) && Valid(b)
    ensures Precedes(Rfc3339(a), Rfc3339(b)) <==> Before(a, b)
    ensures Rfc3339(a) == Rfc3339(b) <==> a == b
  {
    TextComparesFields(a, b);
    TextComparesFields(b, a);
    PrecedesAsymmetric(Rfc3339(a), Rfc3339(b));
    if FieldsBefore(a, b) { FieldsBeforeIsBefore(a, b); }
    if FieldsBefore(b, a) { FieldsBeforeIsBefore(b, a); }
    assert FieldsBefore(a, b) || FieldsBefore(b, a) || a == b;
  }

  /** With another year range the text order fails: year 10000 prints a leading `+`. */
  function PrintedYear(y: nat): string {
    if y <= 9999 then Pad(y, 4) else "+" + Digits(y)
  }

  lemma YearBoundIsExact(y: nat)
    ensures (forall x: nat :: x < y ==> Precedes(PrintedYear(x) + "-", PrintedYear(y) + "-")) <==> y <= 9999
  {
    PowersOfTen();
    if y <= 9999 {
      forall x: nat | x < y ensures Precedes(PrintedYear(x) + "-", PrintedYear(y) + "-") {
        FieldOrder(x, y, 4, "-", "", "");
        assert "-" + "" == "-";
      }
    } else {
      var a, b := PrintedYear(9999) + "-", PrintedYear(y) + "-";
      assert a[0] == Pad(9999, 4)[0] && b[0] == '+';
      assert !Precedes(a, b);
    }
  }
}
