/** The monthly history chart: income, expense and balance for each of the last six months,
    the current one included. */
module MonthlyHistoryChart {
  import opened Wrappers
  import opened Seqs
  import opened FinanceContext

  /** A calendar day as a JavaScript `Date` gives it: `month` counts from 0 (`getMonth`). */
  datatype CalendarDate = CalendarDate(year: int, month: int, day: int)

  predicate IsLeapYear(year: int)
  {
    year % 4 == 0 && (year % 100 != 0 || year % 400 == 0)
  }

  /** The number of days of a month, `month` counting from 0. */
  function DaysInMonth(year: int, month: int): (n: int)
    ensures 28 <= n <= 31
  {
    if month == 1 then (if IsLeapYear(year) then 29 else 28)
    else if month == 3 || month == 5 || month == 8 || month == 10 then 30
    else 31
  }

  /** A day that exists: what a JavaScript `Date` always holds. */
  predicate ValidDate(d: CalendarDate)
  {
    0 <= d.month < 12 && 1 <= d.day <= DaysInMonth(d.year, d.month)
  }

  /** Months counted on one line, so that `subMonths(today, i)` is `MonthKey(today) - i`. */
  function MonthKey(d: CalendarDate): int
  {
    d.year * 12 + d.month
  }

  /** The position of a day on the time line; it orders valid days as `<`/`<=` on `Date`s do. */
  function Ordinal(d: CalendarDate): int
  {
    MonthKey(d) * 32 + d.day
  }

  /** `monthStart`: `new Date(year, month, 1)`. */
  function MonthStart(key: int): (d: CalendarDate)
    ensures ValidDate(d) && MonthKey(d) == key && d.day == 1
  {
    CalendarDate(key / 12, key % 12, 1)
  }

  /** `monthEnd`: `new Date(year, month + 1, 0)`, the last day of the month. */
  function MonthEnd(key: int): (d: CalendarDate)
    ensures ValidDate(d) && MonthKey(d) == key
    ensures d.day == DaysInMonth(key / 12, key % 12)
  {
    CalendarDate(key / 12, key % 12, DaysInMonth(key / 12, key % 12))
  }

  /** `tDate >= monthStart && tDate <= monthEnd`. */
  predicate InWindow(d: CalendarDate, key: int)
  {
    Ordinal(MonthStart(key)) <= Ordinal(d) <= Ordinal(MonthEnd(key))
  }

  /** A valid day lies in a month's window exactly when it is a day of that month. */
  lemma InWindowIffSameMonth(d: CalendarDate, key: int)
    requires ValidDate(d)
    ensures InWindow(d, key) <==> MonthKey(d) == key
  {
    var start, end := MonthStart(key), MonthEnd(key);
    if MonthKey(d) < key {
      assert Ordinal(d) <= (key - 1) * 32 + 31;
    } else if MonthKey(d) > key {
      assert Ordinal(d) >= (key + 1) * 32 + 1;
    }
  }

  /** The windows of different months are disjoint. */
  lemma WindowsDisjoint(d: CalendarDate, key1: int, key2: int)
    requires ValidDate(d)
    requires InWindow(d, key1) && InWindow(d, key2)
    ensures key1 == key2
  {
    InWindowIffSameMonth(d, key1);
    InWindowIffSameMonth(d, key2);
  }

  /** The filter of one month. `parseDate` stands for `new Date(t.date)`; `None` is an
      invalid date, which compares false with both ends of every window. */
  function InMonth(key: int, parseDate: string -> Option<CalendarDate>): Transaction -> bool
  {
    (t: Transaction) => parseDate(t.date).Some? && InWindow(parseDate(t.date).value, key)
  }

  /** `monthTransactions`. */
  function MonthTransactions(ts: seq<Transaction>, key: int, parseDate: string -> Option<CalendarDate>): seq<Transaction>
  {
    Filter(InMonth(key, parseDate), ts)
  }

  /** One point of the chart. The `MMM` label is kept as the month it names. */
  datatype MonthSummary = MonthSummary(month: int, income: real, expense: real, balance: real)

  /** The point for one month: the filters and sums in the body of the loop. */
  function Bucket(ts: seq<Transaction>, key: int, parseDate: string -> Option<CalendarDate>): MonthSummary
  {
    var monthTransactions := MonthTransactions(ts, key, parseDate);
    var income := Income(monthTransactions);
    var expense := Expenses(monthTransactions);
    MonthSummary(key, income, expense, income - expense)
  }

  /** `generateMonthlyData`: the loop counts `i` from 5 down to 0 and pushes the point of
      the month `i` months before today's. */
  method GenerateMonthlyData(transactions: seq<Transaction>, today: CalendarDate, parseDate: string -> Option<CalendarDate>)
    returns (data: seq<MonthSummary>)
    ensures |data| == 6
    ensures forall k :: 0 <= k < 6 ==> data[k] == Bucket(transactions, MonthKey(today) - 5 + k, parseDate)
  {
    data := [];
    var i := 5;
    while i >= 0
      invariant -1 <= i <= 5
      invariant |data| == 5 - i
      invariant forall k :: 0 <= k < |data| ==> data[k] == Bucket(transactions, MonthKey(today) - 5 + k, parseDate)
    {
      var month := MonthKey(today) - i;
      data := data + [Bucket(transactions, month, parseDate)];
      i := i - 1;
    }
  }

  /** A transaction is counted in a month exactly when its date parses to a day of that
      month; so it is counted in at most one point, and in none when its month is outside
      the six shown. */
  lemma MonthMembership(ts: seq<Transaction>, t: Transaction, key: int, parseDate: string -> Option<CalendarDate>)
    requires parseDate(t.date).Some? ==> ValidDate(parseDate(t.date).value)
    ensures t in MonthTransactions(ts, key, parseDate) <==>
              t in ts && parseDate(t.date).Some? && MonthKey(parseDate(t.date).value) == key
  {
    if parseDate(t.date).Some? {
      InWindowIffSameMonth(parseDate(t.date).value, key);
    }
  }

  /** No transaction is counted in two months. */
  lemma CountedAtMostOnce(ts: seq<Transaction>, t: Transaction, key1: int, key2: int, parseDate: string -> Option<CalendarDate>)
    requires parseDate(t.date).Some? ==> ValidDate(parseDate(t.date).value)
    requires t in MonthTransactions(ts, key1, parseDate) && t in MonthTransactions(ts, key2, parseDate)
    ensures key1 == key2
  {
    MonthMembership(ts, t, key1, parseDate);
    MonthMembership(ts, t, key2, parseDate);
  }

  /** A point's balance is the month's signed sum, receitas added and despesas subtracted. */
  lemma BucketBalance(ts: seq<Transaction>, key: int, parseDate: string -> Option<CalendarDate>)
    ensures Bucket(ts, key, parseDate).balance == Balance(MonthTransactions(ts, key, parseDate))
  {
    BalanceIsIncomeMinusExpenses(MonthTransactions(ts, key, parseDate));
  }

  /** Over transactions that all fall in one month, that month's point holds the totals of
      the whole list, and every other month's point is zero. */
  lemma BucketOfOneMonth(ts: seq<Transaction>, key: int, other: int, parseDate: string -> Option<CalendarDate>)
    requires forall t :: t in ts ==>
               parseDate(t.date).Some? && ValidDate(parseDate(t.date).value) && MonthKey(parseDate(t.date).value) == key
    requires other != key
    ensures Bucket(ts, key, parseDate).income == Income(ts)
    ensures Bucket(ts, key, parseDate).expense == Expenses(ts)
    ensures Bucket(ts, other, parseDate) == MonthSummary(other, 0.0, 0.0, 0.0)
  {
    forall t | t in ts
      ensures InMonth(key, parseDate)(t) && !InMonth(other, parseDate)(t)
    {
      InWindowIffSameMonth(parseDate(t.date).value, key);
      InWindowIffSameMonth(parseDate(t.date).value, other);
    }
    FilterKeepsAll(InMonth(key, parseDate), ts);
    FilterKeepsNone(InMonth(other, parseDate), ts);
  }
}
