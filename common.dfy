/** Values shared by the backend and the browser code: optional values, controller
    failures, calendar dates, JavaScript number results and the string operations the
    source applies (ASCII `toLowerCase`, `trim`, `startsWith`, `includes`, `split(" ")`). */
module Common {

  datatype Option<T> = None | Some(value: T)

  /** A record id (`_id`), also the acting user's id. */
  type Id = nat

  /** A controller failure: the status code the controller passed to `res.status`
      before raising (None when it raised without setting one) and the message. */
  datatype Failure = Failure(status: Option<int>, message: string)

  datatype Result<T> = Ok(value: T) | Err(failure: Failure)

  function Fail<T>(code: int, message: string): Result<T> {
    Err(Failure(Some(code), message))
  }

  /** A failure raised with no explicit status (a thrown TypeError or a schema validation error). */
  function Raise<T>(message: string): Result<T> {
    Err(Failure(None, message))
  }

  // ---------------------------------------------------------------------------
  // Calendar dates

  /** A calendar date; months run 1..12 as in `$month` (JavaScript's `getMonth()` is `month - 1`). */
  datatype Date = Date(year: int, month: int, day: int)

  function IsLeapYear(y: int): bool {
    (y % 4 == 0 && y % 100 != 0) || y % 400 == 0
  }

  function DaysInMonth(y: int, m: int): (r: int)
    ensures 28 <= r <= 31
  {
    if m == 2 then (if IsLeapYear(y) then 29 else 28)
    else if m == 4 || m == 6 || m == 9 || m == 11 then 30
    else 31
  }

  predicate ValidDate(d: Date) {
    1 <= d.month <= 12 && 1 <= d.day <= DaysInMonth(d.year, d.month)
  }

  /** Chronological order on dates, written out field by field. */
  predicate DateLe(a: Date, b: Date) {
    a.year < b.year || (a.year == b.year && (a.month < b.month || (a.month == b.month && a.day <= b.day)))
  }

  /** The integer every ordering of dates in the model sorts by. */
  function DateKey(d: Date): int {
    (d.year * 13 + d.month) * 32 + d.day
  }

  /** On valid dates, comparing keys is comparing dates chronologically. */
  lemma DateKeyOrder(a: Date, b: Date)
    requires ValidDate(a) && ValidDate(b)
    ensures DateKey(a) <= DateKey(b) <==> DateLe(a, b)
  {
    if a.year < b.year {
      assert a.year * 13 + a.month < b.year * 13 + b.month;
    } else if a.year > b.year {
      assert a.year * 13 + a.month > b.year * 13 + b.month;
    }
  }

  /** `d.setMonth(d.getMonth() - 1)` on `now`: step back one month (January goes to
      December of the previous year); a day that the earlier month lacks overflows into
      the following month, as JavaScript's Date does (31 March becomes 3 March). */
  function MinusOneMonth(now: Date): (r: Date)
    requires ValidDate(now)
    ensures ValidDate(r)
    ensures DateLe(r, now) && r != now
  {
    var y := if now.month == 1 then now.year - 1 else now.year;
    var m := if now.month == 1 then 12 else now.month - 1;
    if now.day <= DaysInMonth(y, m) then Date(y, m, now.day)
    else Date(now.year, now.month, now.day - DaysInMonth(y, m))
  }

  /** A "YYYY-MM" month string, held as its two numbers. */
  datatype YearMonth = YearMonth(year: int, month: int)

  function MonthIndex(ym: YearMonth): int {
    ym.year * 12 + (ym.month - 1)
  }

  /** `new Date(year, month - 1 + k, 1)` read back as a year and month. */
  function AddMonths(ym: YearMonth, k: int): (r: YearMonth)
    requires 1 <= ym.month <= 12
    ensures 1 <= r.month <= 12
    ensures MonthIndex(r) == MonthIndex(ym) + k
  {
    var idx := MonthIndex(ym) + k;
    YearMonth(idx / 12, idx % 12 + 1)
  }

  function MonthOf(d: Date): YearMonth {
    YearMonth(d.year, d.month)
  }

  // ---------------------------------------------------------------------------
  // JavaScript numbers produced by division

  /** The outcome of a JavaScript division: a finite value, an infinity or NaN. */
  datatype JsNum = Finite(v: real) | PosInf | NegInf | NaN

  /** `(part / whole) * 100` as JavaScript evaluates it. */
  function Percent(part: int, whole: int): (r: JsNum)
    ensures whole != 0 ==> r.Finite? && r.v * (whole as real) == (part as real) * 100.0
    ensures whole == 0 ==> (r == PosInf <==> part > 0) && (r == NegInf <==> part < 0) && (r == NaN <==> part == 0)
  {
    if whole != 0 then Finite((part as real) / (whole as real) * 100.0)
    else if part > 0 then PosInf
    else if part < 0 then NegInf
    else NaN
  }

  /** `x <= c` in JavaScript: false for NaN and for +Infinity, true for -Infinity. */
  predicate LeNum(x: JsNum, c: real) {
    match x
    case Finite(v) => v <= c
    case PosInf => false
    case NegInf => true
    case NaN => false
  }

  /** `Math.min(c, x)`: NaN stays NaN. */
  function MinNum(c: real, x: JsNum): (r: JsNum)
    ensures r.NaN? <==> x.NaN?
    ensures !r.NaN? ==> LeNum(r, c)
    ensures LeNum(x, c) ==> r == x
    ensures !x.NaN? && !LeNum(x, c) ==> r == Finite(c)
  {
    match x
    case Finite(v) => if v <= c then x else Finite(c)
    case PosInf => Finite(c)
    case NegInf => NegInf
    case NaN => NaN
  }

  // ---------------------------------------------------------------------------
  // Strings

  function LowerChar(c: char): char {
    if 'A' <= c <= 'Z' then (c as int + 32) as char else c
  }

  /** `toLowerCase()` restricted to ASCII letters. */
  function Lower(s: string): (r: string)
    ensures |r| == |s|
    ensures forall i :: 0 <= i < |s| ==> r[i] == LowerChar(s[i])
  {
    seq(|s|, i requires 0 <= i < |s| => LowerChar(s[i]))
  }

  lemma LowerIdempotent(s: string)
    ensures Lower(Lower(s)) == Lower(s)
  {
    var l := Lower(s);
    forall i | 0 <= i < |s| ensures Lower(l)[i] == l[i] {
      assert LowerChar(LowerChar(s[i])) == LowerChar(s[i]);
    }
  }

  predicate IsSpace(c: char) {
    c == ' ' || c == '\t' || c == '\n' || c == '\r' || c == '\U{000B}' || c == '\U{000C}'
  }

  function TrimStart(s: string): (r: string)
    ensures |r| <= |s| && r == s[|s| - |r|..]
    ensures r == [] || !IsSpace(r[0])
    ensures forall i :: 0 <= i < |s| - |r| ==> IsSpace(s[i])
  {
    if |s| > 0 && IsSpace(s[0]) then TrimStart(s[1..]) else s
  }

  function TrimEnd(s: string): (r: string)
    ensures |r| <= |s| && r == s[..|r|]
    ensures r == [] || !IsSpace(r[|r| - 1])
    ensures forall i :: |r| <= i < |s| ==> IsSpace(s[i])
  {
    if |s| > 0 && IsSpace(s[|s| - 1]) then TrimEnd(s[..|s| - 1]) else s
  }

  /** `trim()`: drop leading and trailing white space. */
  function Trim(s: string): (r: string)
    ensures |r| <= |s|
    ensures r == [] || (!IsSpace(r[0]) && !IsSpace(r[|r| - 1]))
  {
    TrimEnd(TrimStart(s))
  }

  lemma {:induction false} TrimStartOfClean(s: string)
    requires s == [] || !IsSpace(s[0])
    ensures TrimStart(s) == s
  {
  }

  lemma {:induction false} TrimEndOfClean(s: string)
    requires s == [] || !IsSpace(s[|s| - 1])
    ensures TrimEnd(s) == s
  {
  }

  lemma TrimIdempotent(s: string)
    ensures Trim(Trim(s)) == Trim(s)
  {
    var t := Trim(s);
    TrimStartOfClean(t);
    TrimEndOfClean(t);
  }

  predicate StartsWith(s: string, prefix: string) {
    |prefix| <= |s| && s[..|prefix|] == prefix
  }

  /** `s.includes(sub)`. */
  predicate Contains(s: string, sub: string) {
    exists i :: 0 <= i <= |s| - |sub| && OccursAt(s, sub, i)
  }

  predicate OccursAt(s: string, sub: string, i: int)
    requires 0 <= i <= |s| - |sub|
  {
    s[i..i + |sub|] == sub
  }

  /** Index of the first occurrence of `c` in `s`. */
  function IndexOf(s: string, c: char): (r: nat)
    requires c in s
    ensures r < |s| && s[r] == c && c !in s[..r]
  {
    if s[0] == c then 0 else 1 + IndexOf(s[1..], c)
  }

  /** `s.split(" ")`. */
  function Split(s: string): (r: seq<string>)
    ensures |r| >= 1
    decreases |s|
  {
    if ' ' !in s then [s]
    else
      var i := IndexOf(s, ' ');
      [s[..i]] + Split(s[i + 1..])
  }
}
