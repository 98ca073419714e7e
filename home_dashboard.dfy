/** The home dashboard (frontend/src/components/dashboard/HomeDashboard.jsx):
    the login streak kept in the browser's storage, the progress figures
    computed from the task list, and the greeting for the hour of the day.
    Dates are day numbers: `today` is passed in, and yesterday is
    `today - 1`. */
module HomeDashboard {
  import opened Common
  import opened TasksStore

  // ---------------------------------------------------------------------
  // The login streak

  const LastLoginKey := "last_login_date"
  const StreakKey := "user_streak"

  /** A JavaScript number as the streak can hold it: an integer, or `NaN`
      once `parseInt` found no number. */
  datatype Num = Int(n: int) | NaN

  /** `localStorage.getItem(key)`. */
  function Get(store: Store, key: string): Option<Value>
  {
    if key in store then Some(store[key]) else None
  }

  // ---------------------------------------------------------------------
  // `parseInt` with no radix

  /** A digit `parseInt` accepts in base `radix` (10 or 16). */
  predicate IsDigitOf(c: char, radix: nat)
  {
    '0' <= c <= '9' || (radix == 16 && ('a' <= c <= 'f' || 'A' <= c <= 'F'))
  }

  predicate IsDecimalDigit(c: char) { '0' <= c <= '9' }

  function DigitValue(c: char): nat
  {
    if '0' <= c <= '9' then c as int - '0' as int
    else if 'a' <= c <= 'f' then c as int - 'a' as int + 10
    else if 'A' <= c <= 'F' then c as int - 'A' as int + 10
    else 0
  }

  /** The length of the leading whitespace of `s`. */
  function LeadingSpaces(s: string): (n: nat)
    ensures n <= |s|
  {
    if s == [] || !IsJsSpace(s[0]) then 0 else 1 + LeadingSpaces(s[1..])
  }

  /** The length of the leading run of digits of base `radix`. */
  function DigitRun(s: string, radix: nat): (n: nat)
    ensures n <= |s|
  {
    if s == [] || !IsDigitOf(s[0], radix) then 0 else 1 + DigitRun(s[1..], radix)
  }

  /** The value of a digit string, most significant digit first. */
  function DigitsValue(ds: string, radix: nat): nat
  {
    if ds == [] then 0 else DigitsValue(ds[..|ds| - 1], radix) * radix + DigitValue(ds[|ds| - 1])
  }

  /** `parseInt(s)`: skips leading whitespace, reads an optional sign, reads
      base 16 after a `0x` or `0X` prefix and base 10 otherwise, and takes
      the longest run of digits; no digit at all gives `NaN`. */
  function ParseInt(s: string): Num
  {
    ParseSigned(s[LeadingSpaces(s)..])
  }

  /** `parseInt` after the leading whitespace: an optional sign, then the
      magnitude. */
  function ParseSigned(t: string): Num
  {
    if t != [] && t[0] == '-' then Negate(ParseMagnitude(t[1..]))
    else if t != [] && t[0] == '+' then ParseMagnitude(t[1..])
    else ParseMagnitude(t)
  }

  function Negate(x: Num): Num
  {
    match x
    case Int(n) => Int(-n)
    case NaN => NaN
  }

  /** The magnitude: hexadecimal after `0x` or `0X`, decimal otherwise. */
  function ParseMagnitude(u: string): Num
  {
    if |u| >= 2 && u[0] == '0' && (u[1] == 'x' || u[1] == 'X') then ParseDigits(u[2..], 16)
    else ParseDigits(u, 10)
  }

  /** The longest leading run of digits, or `NaN` when there is none. */
  function ParseDigits(v: string, radix: nat): Num
  {
    var n := DigitRun(v, radix);
    if n == 0 then NaN else Int(DigitsValue(v[..n], radix))
  }

  lemma {:induction false} LeadingSpacesOf(spaces: string, rest: string)
    requires forall i :: 0 <= i < |spaces| ==> IsJsSpace(spaces[i])
    requires rest == [] || !IsJsSpace(rest[0])
    ensures LeadingSpaces(spaces + rest) == |spaces|
  {
    if spaces == [] {
      assert spaces + rest == rest;
    } else {
      assert (spaces + rest)[1..] == spaces[1..] + rest;
      LeadingSpacesOf(spaces[1..], rest);
    }
  }

  lemma {:induction false} DigitRunOf(ds: string, rest: string)
    requires forall i :: 0 <= i < |ds| ==> IsDecimalDigit(ds[i])
    requires rest == [] || !IsDecimalDigit(rest[0])
    ensures DigitRun(ds + rest, 10) == |ds|
  {
    if ds == [] {
      assert ds + rest == rest;
    } else {
      assert (ds + rest)[1..] == ds[1..] + rest;
      DigitRunOf(ds[1..], rest);
    }
  }

  lemma MagnitudeDecimal(ds: string, rest: string)
    requires ds != [] && forall i :: 0 <= i < |ds| ==> IsDecimalDigit(ds[i])
    requires rest == [] || !IsDecimalDigit(rest[0])
    requires !(ds == "0" && rest != [] && (rest[0] == 'x' || rest[0] == 'X'))
    ensures ParseMagnitude(ds + rest) == Int(DigitsValue(ds, 10))
  {
    var u := ds + rest;
    assert u[0] == ds[0];
    assert |u| >= 2 ==> u[1] == (if |ds| >= 2 then ds[1] else rest[0]);
    DigitRunOf(ds, rest);
    assert u[..|ds|] == ds;
  }

  lemma SignedOf(sign: string, u: string)
    requires sign == "" || sign == "+" || sign == "-"
    requires u != [] && IsDecimalDigit(u[0])
    ensures ParseSigned(sign + u) == if sign == "-" then Negate(ParseMagnitude(u)) else ParseMagnitude(u)
  {
    var t := sign + u;
    if sign == "" {
      assert t == u;
    } else {
      assert t[1..] == u;
      assert t[0] == sign[0];
    }
  }

  lemma ParseIntAfterSpaces(spaces: string, t: string)
    requires forall i :: 0 <= i < |spaces| ==> IsJsSpace(spaces[i])
    requires t != [] && (t[0] == '+' || t[0] == '-' || IsDecimalDigit(t[0]))
    ensures ParseInt(spaces + t) == ParseSigned(t)
  {
    LeadingSpacesOf(spaces, t);
    assert (spaces + t)[|spaces|..] == t;
  }

  /** `parseInt` reads the integer at the front of a text: after leading
      whitespace and an optional sign, the longest run of decimal digits,
      whatever follows it (a `0` followed by `x` excepted, which starts a
      hexadecimal number). */
  lemma ParseIntDecimal(spaces: string, sign: string, ds: string, rest: string)
    requires forall i :: 0 <= i < |spaces| ==> IsJsSpace(spaces[i])
    requires sign == "" || sign == "+" || sign == "-"
    requires ds != [] && forall i :: 0 <= i < |ds| ==> IsDecimalDigit(ds[i])
    requires rest == [] || !IsDecimalDigit(rest[0])
    requires !(ds == "0" && rest != [] && (rest[0] == 'x' || rest[0] == 'X'))
    ensures ParseInt(spaces + (sign + (ds + rest))) ==
      if sign == "-" then Negate(Int(DigitsValue(ds, 10))) else Int(DigitsValue(ds, 10))
  {
    var u := ds + rest;
    MagnitudeDecimal(ds, rest);
    assert u[0] == ds[0];
    SignedOf(sign, u);
    var t := sign + u;
    assert t[0] == (if sign == "" then u[0] else sign[0]);
    ParseIntAfterSpaces(spaces, t);
  }

  /** Texts `parseInt` reads only in part: "12abc" gives 12, " 7" gives 7,
      "3.5" gives 3 and "-4 days" gives -4. */
  lemma ParseIntPrefixes()
    ensures ParseInt("12abc") == Int(12)
    ensures ParseInt(" 7") == Int(7)
    ensures ParseInt("3.5") == Int(3)
    ensures ParseInt("-4 days") == Int(-4)
  {
    ParseIntTrailingLetters();
    ParseIntLeadingSpace();
    ParseIntFraction();
    ParseIntNegative();
  }

  lemma ParseIntTrailingLetters()
    ensures ParseInt("12abc") == Int(12)
  {
    ParseIntDecimal("", "", "12", "abc");
    assert "12abc" == "" + ("" + ("12" + "abc"));
  }

  lemma ParseIntLeadingSpace()
    ensures ParseInt(" 7") == Int(7)
  {
  }

  lemma ParseIntFraction()
    ensures ParseInt("3.5") == Int(3)
  {
  }

  lemma ParseIntNegative()
    ensures ParseInt("-4 days") == Int(-4)
  {
    assert LeadingSpaces("-4 days") == 0;
    assert "-4 days"[0..] == "-4 days" && "-4 days"[1..] == "4 days";
    assert ParseMagnitude("4 days") == Int(4);
  }

  /** `parseInt(localStorage.getItem('user_streak') || '0')`: an absent or
      empty entry reads as 0, a stored integer as itself, and any other text
      as `parseInt` reads it. A stored calendar day starts with the name of
      the weekday, so it reads as `NaN`. */
  function StoredStreak(store: Store): (r: Num)
    ensures !StoredTruthy(store, StreakKey) ==> r == Int(0)
    ensures Get(store, StreakKey).Some? && Get(store, StreakKey).value.IntText? ==> r == Int(Get(store, StreakKey).value.n)
  {
    match Get(store, StreakKey)
    case None => Int(0)
    case Some(IntText(n)) => Int(n)
    case Some(Text(s)) => if s == "" then Int(0) else ParseInt(s)
    case Some(DateText(_)) => NaN
  }

  /** `currentStreak.toString()`. */
  function StreakText(streak: Num): Value
  {
    match streak
    case Int(n) => IntText(n)
    case NaN => Text("NaN")
  }

  /** What `parseInt` reads back from a streak written to storage is the
      streak written. */
  lemma StreakTextRoundTrip(store: Store, streak: Num)
    ensures StoredStreak(store[StreakKey := StreakText(streak)]) == streak
  {
  }

  /** `currentStreak += 1`. */
  function Increment(streak: Num): Num
  {
    match streak
    case Int(n) => Int(n + 1)
    case NaN => NaN
  }

  /** `calculateStreak` on `today`: the streak shown and the storage after. */
  function StreakOutcome(store: Store, today: int): (r: (Num, Store))
    ensures Get(store, LastLoginKey) == Some(DateText(today)) ==> r == (StoredStreak(store), store)
    ensures Get(store, LastLoginKey) == Some(DateText(today - 1)) ==> r.0 == Increment(StoredStreak(store))
    ensures Get(store, LastLoginKey) != Some(DateText(today)) && Get(store, LastLoginKey) != Some(DateText(today - 1)) ==>
      r.0 == Int(1)
    ensures Get(store, LastLoginKey) != Some(DateText(today)) ==>
      r.1 == store[LastLoginKey := DateText(today)][StreakKey := StreakText(r.0)]
  {
    var lastLogin := Get(store, LastLoginKey);
    var current := StoredStreak(store);
    if lastLogin != Some(DateText(today)) then
      var streak := if lastLogin == Some(DateText(today - 1)) then Increment(current) else Int(1);
      (streak, store[LastLoginKey := DateText(today)][StreakKey := StreakText(streak)])
    else (current, store)
  }

  /** The storage keeps every other key, and after any visit it records the
      visit day and the streak shown. */
  lemma StreakRecordsVisit(store: Store, today: int)
    ensures var (streak, store') := StreakOutcome(store, today);
      && (forall key :: key != LastLoginKey && key != StreakKey ==> Get(store', key) == Get(store, key))
      && (Get(store, LastLoginKey) != Some(DateText(today)) ==>
            Get(store', LastLoginKey) == Some(DateText(today)) && StoredStreak(store') == streak)
  {
    var (streak, store') := StreakOutcome(store, today);
    if Get(store, LastLoginKey) != Some(DateText(today)) {
      StreakTextRoundTrip(store[LastLoginKey := DateText(today)], streak);
    }
  }

  /** A second visit on the same day shows the same streak and writes
      nothing. */
  lemma StreakSameDayTwice(store: Store, today: int)
    ensures var (streak, store') := StreakOutcome(store, today);
      StreakOutcome(store', today) == (streak, store')
  {
    var (streak, store') := StreakOutcome(store, today);
    if Get(store, LastLoginKey) != Some(DateText(today)) {
      StreakTextRoundTrip(store[LastLoginKey := DateText(today)], streak);
      assert Get(store', LastLoginKey) == Some(DateText(today));
    }
  }

  /** The storage after visits on each of `days`, in order. */
  function Visits(store: Store, days: seq<int>): Store
    decreases |days|
  {
    if days == [] then store else Visits(StreakOutcome(store, days[0]).1, days[1..])
  }

  /** Visiting on `k + 1` consecutive days, starting on a day that follows
      no visit the day before, leaves a streak of `k + 1`. */
  lemma {:induction false} ConsecutiveVisits(store: Store, first: int, k: nat)
    requires Get(store, LastLoginKey) != Some(DateText(first)) && Get(store, LastLoginKey) != Some(DateText(first - 1))
    ensures var store' := Visits(store, seq(k + 1, i => first + i));
      Get(store', LastLoginKey) == Some(DateText(first + k)) && StoredStreak(store') == Int(k + 1)
  {
    var days := seq(k + 1, i => first + i);
    if k == 0 {
      StreakRecordsVisit(store, first);
      assert days[1..] == [];
    } else {
      var prior := seq(k, i => first + i);
      ConsecutiveVisits(store, first, k - 1);
      assert days == prior + [first + k];
      VisitsAppend(store, prior, first + k);
      var before := Visits(store, prior);
      StreakRecordsVisit(before, first + k);
    }
  }

  lemma {:induction false} VisitsAppend(store: Store, days: seq<int>, day: int)
    ensures Visits(store, days + [day]) == StreakOutcome(Visits(store, days), day).1
    decreases |days|
  {
    if days != [] {
      assert (days + [day])[1..] == days[1..] + [day];
      VisitsAppend(StreakOutcome(store, days[0]).1, days[1..], day);
    } else {
      assert (days + [day])[1..] == [];
    }
  }

  /** `calculateStreak`, reading and writing the browser's storage. */
  method CalculateStreak(storage: LocalStorage, today: int) returns (streak: Num)
    modifies storage
    ensures (streak, storage.items) == StreakOutcome(old(storage.items), today)
  {
    var lastLogin := if LastLoginKey in storage.items then Some(storage.items[LastLoginKey]) else None;
    var currentStreak := StoredStreak(storage.items);
    if lastLogin != Some(DateText(today)) {
      if lastLogin == Some(DateText(today - 1)) {
        currentStreak := Increment(currentStreak);
      } else {
        currentStreak := Int(1);
      }
      storage.items := storage.items[LastLoginKey := DateText(today)];
      storage.items := storage.items[StreakKey := StreakText(currentStreak)];
    }
    streak := currentStreak;
  }

  // ---------------------------------------------------------------------
  // Progress figures

  /** `tasks.filter(t => t.completed).length`: the number of positions
      holding a completed task. */
  function CompletedCount(tasks: seq<TaskRecord>): (n: nat)
    ensures n == |set k | 0 <= k < |tasks| && tasks[k].completed|
    ensures n <= |tasks|
    ensures n == |tasks| <==> forall k :: 0 <= k < |tasks| ==> tasks[k].completed
  {
    if tasks == [] then 0
    else
      var init, last := tasks[..|tasks| - 1], |tasks| - 1;
      assert forall k :: 0 <= k < |init| ==> init[k] == tasks[k];
      assert (set k | 0 <= k < |tasks| && tasks[k].completed)
          == (set k | 0 <= k < |init| && init[k].completed) + (if tasks[last].completed then {last} else {});
      CompletedCount(init) + (if tasks[last].completed then 1 else 0)
  }

  /** `tasks.find(t => !t.completed)`. */
  function NextTask(tasks: seq<TaskRecord>): (r: Option<TaskRecord>)
    ensures r.None? <==> forall k :: 0 <= k < |tasks| ==> tasks[k].completed
    ensures r.Some? ==> exists k :: 0 <= k < |tasks| && tasks[k] == r.value && !r.value.completed &&
                                    (forall j :: 0 <= j < k ==> tasks[j].completed)
  {
    if tasks == [] then None
    else if !tasks[0].completed then Some(tasks[0])
    else
      var r := NextTask(tasks[1..]);
      assert forall k :: 1 <= k < |tasks| ==> tasks[k] == tasks[1..][k - 1];
      if r.Some? then
        var k :| 0 <= k < |tasks[1..]| && tasks[1..][k] == r.value && !r.value.completed
          && forall j :: 0 <= j < k ==> tasks[1..][j].completed;
        assert tasks[k + 1] == r.value && forall j :: 0 <= j < k + 1 ==> tasks[j].completed;
        r
      else r
  }

  /** Euclidean division by a positive divisor brackets the dividend. */
  lemma DivBrackets(n: int, d: int)
    requires n >= 0 && d > 0
    ensures d * (n / d) <= n < d * (n / d) + d
  {
  }

  /** A positive factor keeps a strict order between products. */
  lemma MulCancelLess(d: int, a: int, b: int)
    requires d > 0 && d * a < d * b
    ensures a < b
  {
    assert d * (b - a) == d * b - d * a;
  }

  /** `Math.round((completed / total) * 100)`, or 0 when there are no tasks:
      the percentage rounded half up, computed exactly. */
  function ProgressPercent(completed: nat, total: nat): (r: int)
    requires completed <= total
    ensures total == 0 ==> r == 0
    ensures total > 0 ==> 2 * total * r - total <= 200 * completed < 2 * total * r + total
    ensures 0 <= r <= 100
    ensures total > 0 ==> (r == 100 <==> 200 * completed >= 199 * total)
  {
    if total == 0 then 0
    else
      var n := 200 * completed + total;
      var d := 2 * total;
      var r := n / d;
      DivBrackets(n, d);
      assert n < d * 101;
      MulCancelLess(d, r, 101);
      assert r == 100 <==> 200 * completed >= 199 * total by {
        if 200 * completed >= 199 * total {
          assert d * 100 <= n;
          MulCancelLess(d, 99, r);
        }
      }
      r
  }

  /** The dashboard's figures. */
  datatype Stats = Stats(total: nat, completed: nat, nextTask: Option<TaskRecord>, progress: int)

  function StatsOf(tasks: seq<TaskRecord>): (s: Stats)
    ensures s.total == |tasks| && s.completed <= s.total
    ensures s.completed == |set k | 0 <= k < |tasks| && tasks[k].completed|
    ensures s.nextTask.None? <==> s.completed == s.total
    ensures s.completed == s.total && s.total > 0 ==> s.progress == 100
    ensures s.total == 0 ==> s.progress == 0
  {
    var total := |tasks|;
    var completed := CompletedCount(tasks);
    Stats(total, completed, NextTask(tasks), ProgressPercent(completed, total))
  }

  // ---------------------------------------------------------------------
  // Greeting

  /** The greeting for the hour of the day (0 to 23). */
  function Greeting(hour: int): (g: string)
    ensures g == "Bom dia" <==> hour < 12
    ensures g == "Boa tarde" <==> 12 <= hour < 18
    ensures g == "Boa noite" <==> hour >= 18
  {
    if hour < 12 then "Bom dia"
    else if hour < 18 then "Boa tarde"
    else "Boa noite"
  }
}
