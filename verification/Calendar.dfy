/** The day count behind date literals, and the calendar it has to follow (encoding.rs). */
module Calendar {

  datatype Date = Date(y: int, m: int, d: int)

  /** Division that truncates toward zero, as the source's does. */
  function TruncDiv(a: int, b: int): int
    requires b > 0
  {
    if a >= 0 then a / b else -((-a) / b)
  }

  function DaysFromCivil(date: Date): int {
    var y := if date.m <= 2 then date.y - 1 else date.y;
    var era := TruncDiv(if y >= 0 then y else y - 399, 400);
    var yoe := y - era * 400;
    var mp := (date.m + 9) % 12;
    var doy := TruncDiv(153 * mp + 2, 5) + date.d - 1;
    var doe := yoe * 365 + TruncDiv(yoe, 4) - TruncDiv(yoe, 100) + doy;
    era * 146097 + doe - 719468
  }

  // ------------------------------------------------------------------ the calendar

  predicate IsLeap(y: int) {
    y % 4 == 0 && (y % 100 != 0 || y % 400 == 0)
  }

  function MonthLength(y: int, m: int): int {
    if m == 2 then (if IsLeap(y) then 29 else 28)
    else if m in {4, 6, 9, 11} then 30
    else 31
  }

  predicate IsValid(date: Date) {
    1 <= date.m <= 12 && 1 <= date.d <= MonthLength(date.y, date.m)
  }

  /** The next day. */
  function Successor(date: Date): Date {
    if date.d < MonthLength(date.y, date.m) then date.(d := date.d + 1)
    else if date.m < 12 then Date(date.y, date.m + 1, 1)
    else Date(date.y + 1, 1, 1)
  }

  function Predecessor(date: Date): Date {
    if date.d > 1 then date.(d := date.d - 1)
    else if date.m > 1 then Date(date.y, date.m - 1, MonthLength(date.y, date.m - 1))
    else Date(date.y - 1, 12, 31)
  }

  predicate Before(a: Date, b: Date) {
    a.y < b.y || (a.y == b.y && (a.m < b.m || (a.m == b.m && a.d < b.d)))
  }

  // ------------------------------------------------------------------ the algorithm, flattened

  /** The first of March of a year, in days. */
  function MarchFirst(y: int): int {
    365 * y + y / 4 - y / 100 + y / 400 - 719468
  }

  /** Days from the first of March to the first of a month, counted from March. */
  function MonthStart(m: int): int
    requires 1 <= m <= 12
  {
    (153 * ((m + 9) % 12) + 2) / 5
  }

  lemma EraIsFloor(y: int)
    ensures TruncDiv(if y >= 0 then y else y - 399, 400) == y / 400
  {
  }

  lemma EraAddsUp(y: int)
    ensures var era, yoe := y / 400, y % 400;
      era * 146097 + yoe * 365 + yoe / 4 - yoe / 100 == 365 * y + y / 4 - y / 100 + y / 400
  {
    var era, yoe := y / 400, y % 400;
    assert y == 400 * era + yoe;
    assert y / 4 == 100 * era + yoe / 4;
    assert y / 100 == 4 * era + yoe / 100;
  }

  /** Eras aside, the count is the first of March plus the month plus the day. */
  lemma DaysAre(date: Date)
    requires 1 <= date.m <= 12
    ensures DaysFromCivil(date) == MarchFirst(if date.m <= 2 then date.y - 1 else date.y) + MonthStart(date.m)
      + date.d - 1
  {
    var y := if date.m <= 2 then date.y - 1 else date.y;
    EraIsFloor(y);
    EraAddsUp(y);
  }

  lemma YearsAre(y: int)
    ensures MarchFirst(y) - MarchFirst(y - 1) == if IsLeap(y) then 366 else 365
  {
    StepOfQuotient(y, 4);
    StepOfQuotient(y, 100);
    StepOfQuotient(y, 400);
    Multiples(y, 100, 4);
    Multiples(y, 4, 25);
  }

  /** A multiple of a product is a multiple of its factor. */
  lemma Multiples(y: int, k: int, n: int)
    requires (k == 100 && n == 4) || (k == 4 && n == 25)
    ensures y % (k * n) == 0 ==> y % k == 0
  {
    var q := y / (k * n);
    assert y == k * n * q + y % (k * n);
  }

  lemma StepOfQuotient(y: int, k: int)
    requires k in {4, 100, 400}
    ensures y / k - (y - 1) / k == if y % k == 0 then 1 else 0
  {
  }

  /** Within a year from March, months follow one another. */
  lemma MonthsAre(y: int, m: int)
    requires 1 <= m <= 12 && m != 2
    ensures MonthStart(if m == 12 then 1 else m + 1) - MonthStart(m) == MonthLength(y, m)
  {
    assert m == 1 || m == 3 || m == 4 || m == 5 || m == 6 || m == 7 || m == 8 || m == 9 || m == 10 || m == 11
      || m == 12;
  }

  /** 1970-01-01 is day zero. */
  lemma EpochIsZero()
    ensures DaysFromCivil(Date(1970, 1, 1)) == 0
  {
    hide DaysFromCivil;
    DaysAre(Date(1970, 1, 1));
  }

  /** The next day of any valid date is one more, negative years and century years included. */
  lemma SuccessorIsOneMore(date: Date)
    requires IsValid(date)
    ensures IsValid(Successor(date)) && DaysFromCivil(Successor(date)) == DaysFromCivil(date) + 1
  {
    hide DaysFromCivil, MarchFirst, MonthStart;
    DaysAre(date);
    DaysAre(Successor(date));
    if date.d == MonthLength(date.y, date.m) {
      if date.m == 2 {
        YearsAre(date.y);
        FebruaryEnds();
      } else {
        MonthsAre(date.y, date.m);
      }
    }
  }

  lemma FebruaryEnds()
    ensures MonthStart(3) == 0 && MonthStart(2) == 337
  {
  }

  // ------------------------------------------------------------------ order

  function MonthIndex(date: Date): int {
    12 * date.y + date.m - 1
  }

  function FirstOfMonth(index: int): Date {
    Date(index / 12, index % 12 + 1, 1)
  }

  function LastOfMonth(index: int): Date {
    var first := FirstOfMonth(index);
    first.(d := MonthLength(first.y, first.m))
  }

  lemma MonthIndexSplits(date: Date)
    requires 1 <= date.m <= 12
    ensures FirstOfMonth(MonthIndex(date)) == date.(d := 1)
  {
  }

  lemma DaysOfAMonth(date: Date, days: int)
    requires 1 <= date.m <= 12
    ensures DaysFromCivil(date.(d := date.d + days)) == DaysFromCivil(date) + days
  {
    hide DaysFromCivil;
    DaysAre(date);
    DaysAre(date.(d := date.d + days));
  }

  /** Later months start after earlier ones end. */
  lemma {:induction false} MonthsGrow(i: int, j: int)
    requires i < j
    ensures DaysFromCivil(LastOfMonth(i)) < DaysFromCivil(FirstOfMonth(j))
    decreases j - i
  {
    hide DaysFromCivil;
    if i + 1 == j {
      NextMonth(i);
      SuccessorIsOneMore(LastOfMonth(i));
    } else {
      MonthsGrow(i, j - 1);
      NextMonth(j - 1);
      SuccessorIsOneMore(LastOfMonth(j - 1));
      var first := FirstOfMonth(j - 1);
      DaysOfAMonth(first, MonthLength(first.y, first.m) - 1);
    }
  }

  lemma NextMonth(i: int)
    ensures IsValid(LastOfMonth(i)) && Successor(LastOfMonth(i)) == FirstOfMonth(i + 1)
  {
  }

  /** The count is strictly increasing on valid dates. */
  lemma EarlierIsLess(a: Date, b: Date)
    requires IsValid(a) && IsValid(b) && Before(a, b)
    ensures DaysFromCivil(a) < DaysFromCivil(b)
  {
    hide DaysFromCivil;
    MonthIndexSplits(a);
    MonthIndexSplits(b);
    DaysOfAMonth(a.(d := 1), a.d - 1);
    DaysOfAMonth(b.(d := 1), b.d - 1);
    if MonthIndex(a) < MonthIndex(b) {
      MonthsGrow(MonthIndex(a), MonthIndex(b));
      DaysOfAMonth(a.(d := 1), MonthLength(a.y, a.m) - 1);
    }
  }

  /** Dates are ordered by their counts, and different dates have different counts. */
  lemma OrderIsKept(a: Date, b: Date)
    requires IsValid(a) && IsValid(b)
    ensures Before(a, b) <==> DaysFromCivil(a) < DaysFromCivil(b)
    ensures DaysFromCivil(a) == DaysFromCivil(b) ==> a == b
  {
    hide DaysFromCivil;
    if Before(a, b) {
      EarlierIsLess(a, b);
    } else if Before(b, a) {
      EarlierIsLess(b, a);
    }
  }

  /** Every number is the count of a valid date. */
  lemma {:induction false} EveryDayHasADate(n: int) returns (date: Date)
    ensures IsValid(date) && DaysFromCivil(date) == n
    decreases if n < 0 then -n else n
  {
    hide DaysFromCivil;
    if n == 0 {
      EpochIsZero();
      date := Date(1970, 1, 1);
    } else if n > 0 {
      var before := EveryDayHasADate(n - 1);
      SuccessorIsOneMore(before);
      date := Successor(before);
    } else {
      var after := EveryDayHasADate(n + 1);
      date := Predecessor(after);
      SuccessorIsOneMore(date);
    }
  }
}
