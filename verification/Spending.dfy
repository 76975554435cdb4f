/**
Usage per day (waldur_site_agent/common/spending_limits.py). Amounts are reals; what is sent
is whole cents. Component types are numbered in name order and a day is its date written as
a number, year, month and day (20240131), which `IsoOrder` shows is the order of the ISO
strings the code sorts by.
 */
module Spending {
  import opened Sums

  // ---- dates ------------------------------------------------------------------------

  datatype Date = Date(year: nat, month: nat, day: nat)
  {
    predicate Valid() { 1 <= year <= 9999 && 1 <= month <= 12 && 1 <= day <= DaysIn(year, month) }

    function Number(): nat { year * 10000 + month * 100 + day }

    function Iso(): string { Two(year / 100) + Two(year % 100) + "-" + Two(month) + "-" + Two(day) }
  }

  predicate Leap(year: nat) { year % 4 == 0 && (year % 100 != 0 || year % 400 == 0) }

  function DaysIn(year: nat, month: nat): (n: nat)
    ensures 28 <= n <= 31
  {
    if month == 2 then (if Leap(year) then 29 else 28)
    else if month == 4 || month == 6 || month == 9 || month == 11 then 30
    else 31
  }

  predicate Before(a: Date, b: Date) {
    || a.year < b.year
    || (a.year == b.year && a.month < b.month)
    || (a.year == b.year && a.month == b.month && a.day < b.day)
  }

  function Digit(n: nat): char { ('0' as int + n % 10) as char }

  function Two(n: nat): string { [Digit(n / 10), Digit(n)] }

  /** The order of strings. */
  predicate Lex(a: string, b: string) {
    b != [] && (a == [] || a[0] < b[0] || (a[0] == b[0] && Lex(a[1..], b[1..])))
  }

  lemma {:induction false} LexBlocks(a: string, b: string, x: string, y: string)
    requires |a| == |b|
    ensures Lex(a + x, b + y) <==> Lex(a, b) || (a == b && Lex(x, y))
  {
    if a == [] {
      assert a + x == x && b + y == y;
    } else {
      assert (a + x)[1..] == a[1..] + x && (b + y)[1..] == b[1..] + y;
      LexBlocks(a[1..], b[1..], x, y);
      assert a == [a[0]] + a[1..] && b == [b[0]] + b[1..];
    }
  }

  lemma DigitOrder(m: nat, n: nat)
    requires m < 10 && n < 10
    ensures Digit(m) < Digit(n) <==> m < n
    ensures Digit(m) == Digit(n) <==> m == n
  {
    assert m % 10 == m && n % 10 == n;
  }

  lemma LexTwo(m: nat, n: nat)
    requires m < 100 && n < 100
    ensures Lex(Two(m), Two(n)) <==> m < n
    ensures Two(m) == Two(n) <==> m == n
  {
    var m1, m0, n1, n0 := m / 10, m % 10, n / 10, n % 10;
    DigitOrder(m1, n1);
    DigitOrder(m0, n0);
    var a, b := Two(m), Two(n);
    assert a[0] == Digit(m1) && b[0] == Digit(n1);
    assert a[1..] == [Digit(m0)] && b[1..] == [Digit(n0)];
    assert a[1..][1..] == [] && b[1..][1..] == [];
    assert Lex(a[1..], b[1..]) <==> m0 < n0;
    assert a == b <==> (a[0] == b[0] && a[1] == b[1]);
  }

  /** Sorting by ISO string sorts by date, and so does sorting by number. */
  lemma IsoOrder(a: Date, b: Date)
    requires a.Valid() && b.Valid()
    ensures Lex(a.Iso(), b.Iso()) <==> Before(a, b)
    ensures a.Number() < b.Number() <==> Before(a, b)
  {
    var da, db := "-" + Two(a.day), "-" + Two(b.day);
    var ma, mb := "-" + Two(a.month) + da, "-" + Two(b.month) + db;
    var ya, yb := Two(a.year % 100) + ma, Two(b.year % 100) + mb;
    assert a.Iso() == Two(a.year / 100) + ya && b.Iso() == Two(b.year / 100) + yb;
    LexBlocks(Two(a.year / 100), Two(b.year / 100), ya, yb);
    LexBlocks(Two(a.year % 100), Two(b.year % 100), ma, mb);
    assert ma == "-" + (Two(a.month) + da) && mb == "-" + (Two(b.month) + db);
    LexBlocks("-", "-", Two(a.month) + da, Two(b.month) + db);
    LexBlocks(Two(a.month), Two(b.month), da, db);
    LexBlocks("-", "-", Two(a.day), Two(b.day));
    assert !Lex("-", "-") by { assert "-"[1..] == []; }
    LexTwo(a.year / 100, b.year / 100);
    LexTwo(a.year % 100, b.year % 100);
    LexTwo(a.month, b.month);
    LexTwo(a.day, b.day);
  }

  // ---- rounding ---------------------------------------------------------------------

  /** `round(x, 2)` in cents: to the nearest, a tie to the even cent. */
  function RoundCents(x: real): (r: int)
    ensures -0.5 <= r as real - 100.0 * x <= 0.5
  {
    var y := 100.0 * x;
    var f := y.Floor;
    var rest := y - f as real;
    if rest < 0.5 || (rest == 0.5 && f % 2 == 0) then f else f + 1
  }

  lemma RoundMonotone(x: real, y: real)
    requires x <= y
    ensures RoundCents(x) <= RoundCents(y)
  {
  }

  // ---- sums over days ---------------------------------------------------------------

  type Component = nat
  type Usages = Row
  type Daily = Table

  function UpTo(days: set<nat>, d: nat): set<nat> { set e | e in days && e <= d }

  /** The running total of a component at the end of a day. */
  ghost function Running(daily: Daily, d: nat, c: Component): real {
    Sum(daily, UpTo(daily.Keys, d), c)
  }

  // ---- the items sent ---------------------------------------------------------------

  datatype Item = Item(component: Component, day: nat, cents: int)

  /** What the items of a component add up to, up to a day. */
  function Sent(items: seq<Item>, c: Component, d: nat): int {
    if items == [] then 0
    else
      var it := items[|items| - 1];
      Sent(items[..|items| - 1], c, d) + (if it.component == c && it.day <= d then it.cents else 0)
  }

  lemma {:induction false} SentSplit(xs: seq<Item>, ys: seq<Item>, c: Component, d: nat)
    ensures Sent(xs + ys, c, d) == Sent(xs, c, d) + Sent(ys, c, d)
  {
    if ys == [] {
      assert xs + ys == xs;
    } else {
      var n := |ys| - 1;
      assert (xs + ys)[..|xs + ys| - 1] == xs + ys[..n];
      SentSplit(xs, ys[..n], c, d);
    }
  }

  /** What a step of the running total adds in cents. */
  function Step(before: real, after: real): int { RoundCents(after) - RoundCents(before) }

  /** By date, then by component: so at most one item for each pair. */
  predicate Sorted(items: seq<Item>) {
    forall i, j :: 0 <= i < j < |items| ==> Earlier(items[i], items[j])
  }

  predicate Earlier(a: Item, b: Item) { a.day < b.day || (a.day == b.day && a.component < b.component) }

  lemma SortedConcat(xs: seq<Item>, ys: seq<Item>)
    requires Sorted(xs) && Sorted(ys)
    requires forall i, j :: 0 <= i < |xs| && 0 <= j < |ys| ==> Earlier(xs[i], ys[j])
    ensures Sorted(xs + ys)
  {
  }

  /** The entries of one day: in order, one for each component, and no other. */
  predicate DayShape(day: nat, types: set<Component>, items: seq<Item>) {
    && Sorted(items)
    && (forall i :: 0 <= i < |items| ==> items[i].day == day && items[i].component in types)
    && (forall c {:trigger HasItem(items, day, c)} :: c in types ==> HasItem(items, day, c))
  }

  /** The totals before and after a day. */
  ghost predicate DayTotals(usages: Usages, running: Usages, after: Usages) {
    forall c :: At(after, c) == At(running, c) + At(usages, c)
  }

  /** The entries make up the difference of the rounded totals, from the day on. */
  ghost predicate DaySent(day: nat, running: Usages, items: seq<Item>, after: Usages) {
    && (forall c, d: nat ::
      Sent(items, c, d) == if day <= d then Step(At(running, c), At(after, c)) else 0)
    && (forall i :: 0 <= i < |items| ==>
      items[i].cents == Step(At(running, items[i].component), At(after, items[i].component)))
  }

  /** The entries of one day that bring the running totals from `running` to `after`. */
  ghost predicate DayExact(day: nat, usages: Usages, running: Usages, items: seq<Item>, after: Usages) {
    DayShape(day, usages.Keys, items) && DayTotals(usages, running, after) && DaySent(day, running, items, after)
  }

  lemma DayStepShape(day: nat, types: set<Component>, items: seq<Item>, it: Item)
    requires DayShape(day, types, items) && it.day == day && forall e :: e in types ==> e < it.component
    ensures DayShape(day, types + {it.component}, items + [it])
    ensures forall i :: 0 <= i < |items| ==> items[i].component != it.component
  {
    SortedConcat(items, [it]);
    forall e | e in types + {it.component} ensures HasItem(items + [it], day, e) {
      assert e == it.component ==> HasItem([it], day, e) by { assert [it][0] == it; }
      HasItemMore(items, [it], day, e);
    }
  }

  lemma DayStepSent(day: nat, running: Usages, items: seq<Item>, after: Usages, it: Item, total: real)
    requires DaySent(day, running, items, after) && it.day == day
    requires At(after, it.component) == At(running, it.component)
    requires it.cents == Step(At(after, it.component), total)
    requires forall i :: 0 <= i < |items| ==> items[i].component != it.component
    ensures DaySent(day, running, items + [it], after[it.component := total])
  {
    var items', after' := items + [it], after[it.component := total];
    assert items'[..|items|] == items && items'[|items|] == it;
    forall c, d: nat
      ensures Sent(items', c, d) == if day <= d then Step(At(running, c), At(after', c)) else 0
    {
      assert Sent(items, c, d) == if day <= d then Step(At(running, c), At(after, c)) else 0;
      assert c != it.component ==> At(after', c) == At(after, c);
    }
    forall i | 0 <= i < |items'|
      ensures items'[i].cents == Step(At(running, items'[i].component), At(after', items'[i].component))
    {
      assert i < |items| ==> items'[i] == items[i];
    }
  }

  lemma DayStepTotals(part: Usages, running: Usages, after: Usages, c: Component, amount: real)
    requires DayTotals(part, running, after) && c !in part
    ensures At(after, c) == At(running, c)
    ensures DayTotals(part[c := amount], running, after[c := At(after, c) + amount])
  {
    assert At(after, c) == At(running, c) + At(part, c);
  }

  lemma DayStep(day: nat, part: Usages, running: Usages, items: seq<Item>, after: Usages, it: Item, amount: real)
    requires DayExact(day, part, running, items, after)
    requires it.day == day && it.cents == Step(At(after, it.component), At(after, it.component) + amount)
    requires forall e :: e in part ==> e < it.component
    ensures DayExact(day, part[it.component := amount], running,
                     items + [it], after[it.component := At(after, it.component) + amount])
  {
    var c := it.component;
    var total := At(after, c) + amount;
    assert c !in part.Keys;
    DayStepTotals(part, running, after, c, amount);
    DayStepShape(day, part.Keys, items, it);
    DayStepSent(day, running, items, after, it, total);
    assert part[c := amount].Keys == part.Keys + {c};
  }

  lemma DayStart(day: nat, running: Usages)
    ensures DayExact(day, map[], running, [], running)
  {
  }

  /** The inner loop. */
  method DayItems(day: nat, usages: Usages, running: Usages) returns (items: seq<Item>, after: Usages)
    ensures DayExact(day, usages, running, items, after)
  {
    items, after := [], running;
    DayStart(day, running);
    var rest := usages.Keys;
    ghost var part: Usages := map[];
    while rest != {}
      invariant part.Keys == usages.Keys - rest && rest <= usages.Keys
      invariant forall e :: e in part ==> part[e] == usages[e]
      invariant forall e, c :: e in part && c in rest ==> e < c
      invariant DayExact(day, part, running, items, after)
      decreases rest
    {
      var c := First(rest);
      var it := Item(c, day, Step(At(after, c), At(after, c) + usages[c]));
      DayStep(day, part, running, items, after, it, usages[c]);
      items := items + [it];
      after := after[c := At(after, c) + usages[c]];
      rest, part := rest - {c}, part[c := usages[c]];
    }
    assert part == usages;
  }

  lemma RunningStep(daily: Daily, done: set<nat>, day: nat, d: nat, c: Component)
    requires day !in done && forall e :: e in done ==> e < day
    ensures Sum(daily, done + {day}, c) == Sum(daily, done, c) + Amount(daily, day, c)
    ensures UpTo(done + {day}, d) == if day <= d then done + {day} else UpTo(done, d)
    ensures day <= d ==> UpTo(done, d) == done
  {
    SumAdd(daily, done, c, day);
  }

  /** An item is the step of the rounded running total made by that day. */
  ghost predicate ItemExact(daily: Daily, days: set<nat>, it: Item) {
    && it.day in days && it.day in daily && it.component in daily[it.day]
    && var after := Sum(daily, UpTo(days, it.day), it.component);
      it.cents == Step(after - daily[it.day][it.component], after)
  }

  predicate HasItem(items: seq<Item>, d: nat, c: Component) {
    exists i :: 0 <= i < |items| && items[i].day == d && items[i].component == c
  }

  lemma HasItemMore(xs: seq<Item>, ys: seq<Item>, d: nat, c: Component)
    requires HasItem(xs, d, c) || HasItem(ys, d, c)
    ensures HasItem(xs + ys, d, c)
  {
    if HasItem(xs, d, c) {
      var i :| 0 <= i < |xs| && xs[i].day == d && xs[i].component == c;
      assert (xs + ys)[i] == xs[i];
    } else {
      var i :| 0 <= i < |ys| && ys[i].day == d && ys[i].component == c;
      assert (xs + ys)[|xs| + i] == ys[i];
    }
  }

  predicate NonNegative(daily: Daily) {
    forall d, c :: d in daily && c in daily[d] ==> daily[d][c] >= 0.0
  }

  predicate WithinACent(daily: Daily, it: Item) {
    -1.0 <= it.cents as real - 100.0 * Amount(daily, it.day, it.component) <= 1.0
  }

  lemma ItemBounds(daily: Daily, days: set<nat>, it: Item)
    requires ItemExact(daily, days, it)
    ensures WithinACent(daily, it)
    ensures NonNegative(daily) ==> it.cents >= 0
  {
    var after := Sum(daily, UpTo(days, it.day), it.component);
    if NonNegative(daily) {
      RoundMonotone(after - daily[it.day][it.component], after);
    }
  }

  /** The entries and running totals once the days in `done` have been visited. */
  ghost predicate Account(daily: Daily, done: set<nat>, items: seq<Item>, running: Usages) {
    && done <= daily.Keys && Sorted(items)
    && (forall c :: At(running, c) == Sum(daily, done, c))
    && (forall c, d: nat :: Sent(items, c, d) == RoundCents(Sum(daily, UpTo(done, d), c)))
    && (forall i :: 0 <= i < |items| ==> ItemExact(daily, done, items[i]))
    && (forall d, c {:trigger HasItem(items, d, c)} :: d in done && c in daily[d] ==> HasItem(items, d, c))
  }

  lemma AccountSums(daily: Daily, done: set<nat>, items: seq<Item>, running: Usages,
                    day: nat, more: seq<Item>, after: Usages, c: Component, d: nat)
    requires Account(daily, done, items, running)
    requires day in daily && day !in done && forall e :: e in done ==> e < day
    requires DayExact(day, daily[day], running, more, after)
    ensures At(after, c) == Sum(daily, done + {day}, c)
    ensures Sent(items + more, c, d) == RoundCents(Sum(daily, UpTo(done + {day}, d), c))
  {
    RunningStep(daily, done, day, d, c);
    SentSplit(items, more, c, d);
    assert Sent(items, c, d) == RoundCents(Sum(daily, UpTo(done, d), c));
    assert At(running, c) == Sum(daily, done, c);
  }

  lemma OldItem(daily: Daily, done: set<nat>, day: nat, it: Item)
    requires day !in done && forall e :: e in done ==> e < day
    requires ItemExact(daily, done, it)
    ensures ItemExact(daily, done + {day}, it)
  {
    RunningStep(daily, done, day, it.day, it.component);
  }

  lemma NewItem(daily: Daily, done: set<nat>, day: nat, it: Item)
    requires day !in done && forall e :: e in done ==> e < day
    requires it.day == day && day in daily && it.component in daily[day]
    requires it.cents == Step(Sum(daily, done, it.component), Sum(daily, done + {day}, it.component))
    ensures ItemExact(daily, done + {day}, it)
  {
    RunningStep(daily, done, day, it.day, it.component);
  }

  lemma AccountStep(daily: Daily, done: set<nat>, items: seq<Item>, running: Usages,
                    day: nat, more: seq<Item>, after: Usages)
    requires Account(daily, done, items, running)
    requires day in daily && day !in done && forall e :: e in done ==> e < day
    requires DayExact(day, daily[day], running, more, after)
    ensures Account(daily, done + {day}, items + more, after)
  {
    SortedConcat(items, more);
    forall c, d: nat
      ensures Sent(items + more, c, d) == RoundCents(Sum(daily, UpTo(done + {day}, d), c))
      ensures At(after, c) == Sum(daily, done + {day}, c)
    {
      AccountSums(daily, done, items, running, day, more, after, c, d);
    }
    forall c ensures At(after, c) == Sum(daily, done + {day}, c) {
      AccountSums(daily, done, items, running, day, more, after, c, day);
    }
    forall i | 0 <= i < |items + more| ensures ItemExact(daily, done + {day}, (items + more)[i]) {
      if i < |items| {
        OldItem(daily, done, day, items[i]);
      } else {
        NewItem(daily, done, day, more[i - |items|]);
      }
    }
    forall d, c | d in done + {day} && c in daily[d] ensures HasItem(items + more, d, c) {
      HasItemMore(items, more, d, c);
    }
  }

  /** One item per day and component, adding up to the rounded running total after every day. */
  method DailyUsageItems(daily: Daily) returns (items: seq<Item>)
    ensures Sorted(items)
    ensures forall d, c :: d in daily && c in daily[d] ==> HasItem(items, d, c)
    ensures forall c, d: nat :: Sent(items, c, d) == RoundCents(Running(daily, d, c))
    ensures forall i :: 0 <= i < |items| ==> ItemExact(daily, daily.Keys, items[i])
    ensures forall i :: 0 <= i < |items| ==> WithinACent(daily, items[i])
    ensures NonNegative(daily) ==> forall i :: 0 <= i < |items| ==> items[i].cents >= 0
  {
    items := [];
    var running: Usages := map[];
    var rest := daily.Keys;
    ghost var done: set<nat> := {};
    while rest != {}
      invariant rest <= daily.Keys && done == daily.Keys - rest
      invariant forall e, d :: e in done && d in rest ==> e < d
      invariant Account(daily, done, items, running)
      decreases rest
    {
      var day := First(rest);
      var more, after := DayItems(day, daily[day], running);
      AccountStep(daily, done, items, running, day, more, after);
      items, running, rest, done := items + more, after, rest - {day}, done + {day};
    }
    assert done == daily.Keys;
    forall i | 0 <= i < |items|
      ensures WithinACent(daily, items[i]) && (NonNegative(daily) ==> items[i].cents >= 0)
    {
      ItemBounds(daily, daily.Keys, items[i]);
    }
  }

  // ---- filling the month ------------------------------------------------------------

  function DayAfter(d: Date): Date {
    if d.day < DaysIn(d.year, d.month) then d.(day := d.day + 1)
    else if d.month < 12 then Date(d.year, d.month + 1, 1)
    else Date(d.year + 1, 1, 1)
  }

  /** The days of a month up to today. */
  ghost function MonthDays(year: nat, month: nat, today: Date): set<nat> {
    set i | 1 <= i <= DaysIn(year, month) && !Before(today, Date(year, month, i)) :: Date(year, month, i).Number()
  }

  ghost predicate FilledDay(usages: Usages, daily: Daily, d: nat, types: set<Component>) {
    usages.Keys == types && forall c :: c in types ==> usages[c] == Amount(daily, d, c)
  }

  /** Every day of the month up to today with every type, zero where absent, and no other day. */
  method FillDays(daily: Daily, year: nat, month: nat, types: set<Component>, today: Date) returns (filled: Daily)
    requires Date(year, month, 1).Valid() && today.Valid()
    ensures filled.Keys == MonthDays(year, month, today)
    ensures forall d :: d in filled ==> FilledDay(filled[d], daily, d, types)
  {
    filled := map[];
    var day := Date(year, month, 1);
    var n := DaysIn(year, month);
    while day.month == month && !Before(today, day)
      invariant day.month == month ==> day.year == year && 1 <= day.day <= n
      invariant day.month != month ==> day == DayAfter(Date(year, month, n))
      invariant forall d :: d in filled <==>
        (exists i :: 1 <= i <= n && Done(day, month, i) && d == Date(year, month, i).Number())
      invariant forall i :: 1 <= i <= n && Done(day, month, i) ==> !Before(today, Date(year, month, i))
      invariant forall d :: d in filled ==> FilledDay(filled[d], daily, d, types)
      decreases if day.month == month then n + 1 - day.day else 0
    {
      var usages := if day.Number() in daily then daily[day.Number()] else map[];
      filled := filled[day.Number() := map c | c in types :: At(usages, c)];
      day := DayAfter(day);
    }
    forall i | 1 <= i <= n && !Before(today, Date(year, month, i)) ensures Done(day, month, i) {
    }
  }

  predicate Done(day: Date, month: nat, i: nat) { day.month != month || i < day.day }

  // ---- totals -----------------------------------------------------------------------

  /** The totals do not depend on the order in which the days are visited. */
  method MonthTotals(daily: Daily) returns (totals: Usages)
    ensures forall c :: c in totals <==> exists d :: d in daily && c in daily[d]
    ensures forall c :: At(totals, c) == Sum(daily, daily.Keys, c)
  {
    totals := map[];
    var rest := daily.Keys;
    while rest != {}
      invariant rest <= daily.Keys
      invariant forall c :: c in totals <==> exists d :: d in daily && d !in rest && c in daily[d]
      invariant forall c :: At(totals, c) == Sum(daily, daily.Keys - rest, c)
      decreases rest
    {
      var day :| day in rest;
      ghost var before := totals;
      var usages := daily[day];
      var left := usages.Keys;
      while left != {}
        invariant left <= usages.Keys
        invariant forall c :: c in totals <==> c in before || (c in usages && c !in left)
        invariant forall c :: At(totals, c) == At(before, c) + (if c in left then 0.0 else At(usages, c))
        decreases left
      {
        var c :| c in left;
        totals := totals[c := At(totals, c) + usages[c]];
        left := left - {c};
      }
      ghost var done := daily.Keys - rest;
      forall c ensures At(totals, c) == Sum(daily, done + {day}, c) {
        SumAdd(daily, done, c, day);
      }
      assert daily.Keys - (rest - {day}) == done + {day};
      rest := rest - {day};
    }
    assert daily.Keys - rest == daily.Keys;
  }

  /**
  A report of the month: filled, then sent per day. For usage inside the month and up to
  today the cents add up to the rounded total that a monthly report would have sent.
   */
  method ReportMonth(daily: Daily, year: nat, month: nat, types: set<Component>, today: Date)
    returns (items: seq<Item>, totals: Usages)
    requires Date(year, month, 1).Valid() && today.Valid()
    ensures Sorted(items)
    ensures forall d, c :: d in MonthDays(year, month, today) && c in types ==> HasItem(items, d, c)
    ensures forall i :: 0 <= i < |items| ==>
      items[i].day in MonthDays(year, month, today) && items[i].component in types
    ensures daily.Keys <= MonthDays(year, month, today) ==>
      forall c, d: nat :: c in types ==> Sent(items, c, d) == RoundCents(Running(daily, d, c))
    ensures daily.Keys <= MonthDays(year, month, today) ==>
      forall c :: c in types ==> Sent(items, c, today.Number()) == RoundCents(At(totals, c))
    ensures NonNegative(daily) ==> forall i :: 0 <= i < |items| ==> items[i].cents >= 0
  {
    var filled := FillDays(daily, year, month, types, today);
    items := DailyUsageItems(filled);
    totals := MonthTotals(daily);
    FilledShape(daily, filled, types);
    if daily.Keys <= MonthDays(year, month, today) {
      forall c, d: nat | c in types ensures Sent(items, c, d) == RoundCents(Running(daily, d, c)) {
        FilledRunning(daily, filled, types, d, c);
      }
      MonthUpToToday(daily.Keys, year, month, today);
    }
  }

  lemma FilledShape(daily: Daily, filled: Daily, types: set<Component>)
    requires forall e :: e in filled ==> FilledDay(filled[e], daily, e, types)
    ensures forall d :: d in filled ==> filled[d].Keys == types
    ensures NonNegative(daily) ==> NonNegative(filled)
  {
  }

  lemma FilledRunning(daily: Daily, filled: Daily, types: set<Component>, d: nat, c: Component)
    requires daily.Keys <= filled.Keys && c in types
    requires forall e :: e in filled ==> FilledDay(filled[e], daily, e, types)
    ensures Running(daily, d, c) == Running(filled, d, c)
  {
    forall e | e in filled ensures Amount(filled, e, c) == Amount(daily, e, c) {
      assert FilledDay(filled[e], daily, e, types);
    }
    SumSame(daily, UpTo(daily.Keys, d), filled, UpTo(filled.Keys, d), c);
  }

  lemma MonthUpToToday(days: set<nat>, year: nat, month: nat, today: Date)
    requires Date(year, month, 1).Valid() && today.Valid()
    requires days <= MonthDays(year, month, today)
    ensures UpTo(days, today.Number()) == days
  {
    forall d | d in days ensures d <= today.Number() {
      var i :| && 1 <= i <= DaysIn(year, month) && d == Date(year, month, i).Number()
               && !Before(today, Date(year, month, i));
      IsoOrder(today, Date(year, month, i));
    }
  }
}
