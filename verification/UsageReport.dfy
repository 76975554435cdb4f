/**
Reporting a resource's usage for one billing period
(`_submit_total_usage_for_resource` in waldur_site_agent/common/processors.py). Amounts are
whole cents, as Waldur keeps them.
 */
module UsageReport {
  import Spending

  /** A component type. */
  type Kind = nat

  /** A usage record of the period, as listed and as stored. */
  datatype Row = Row(uuid: nat, kind: Kind, cents: int)

  datatype Record = Record(kind: Kind, cents: int)

  type Records = map<nat, Record>

  type Amounts = map<Kind, int>

  /** Waldur's records, and those among them that have per-user records below them. */
  datatype Store = Store(records: Records, parents: set<nat>)

  datatype Config = Config(decreasing: bool, omit: bool)

  // ---- the comparison ---------------------------------------------------------------

  function Abs(x: real): real { if x < 0.0 then -x else x }

  function Max(x: real, y: real): real { if x < y then y else x }

  /** `math.isclose` with a relative tolerance of 1e-9 and an absolute one of 1e-6. */
  predicate Close(a: int, b: int) {
    var x, y := a as real / 100.0, b as real / 100.0;
    Abs(x - y) <= Max(0.000000001 * Max(Abs(x), Abs(y)), 0.000001)
  }

  /** Below ten million, in either direction. */
  predicate Small(a: int) { -1_000_000_000 < a < 1_000_000_000 }

  lemma CloseIsEqual(a: int, b: int)
    requires Small(a) && Small(b)
    ensures Close(a, b) <==> a == b
  {
    var x, y := a as real / 100.0, b as real / 100.0;
    assert Max(Abs(x), Abs(y)) < 10_000_000.0;
    if a != b {
      assert a - b >= 1 || b - a >= 1;
      assert Abs(x - y) >= 0.01;
    }
  }

  /** From ten million on, and only there, an amount is taken for another one no larger than it. */
  lemma CloseExactly(a: int)
    ensures (exists b :: b != a && (-a <= b <= a || a <= b <= -a) && Close(a, b)) <==> !Small(a)
  {
    if Small(a) {
      forall b | -a <= b <= a || a <= b <= -a ensures Close(a, b) ==> a == b {
        CloseIsEqual(a, b);
      }
    } else {
      var b := if a > 0 then a - 1 else a + 1;
      assert b != a && (-a <= b <= a || a <= b <= -a) && Close(a, b);
    }
  }

  // ---- what a report should do ------------------------------------------------------

  /** The amounts Waldur has a component for, in cents. */
  function Submittable(total: map<Kind, real>, types: set<Kind>): Amounts {
    map t | t in total && t in types :: Spending.RoundCents(total[t])
  }

  ghost predicate Alone(records: Records, t: Kind) {
    forall u, v :: u in records && v in records && records[u].kind == t && records[v].kind == t ==> u == v
  }

  ghost predicate Single(records: Records) { forall t :: Alone(records, t) }

  predicate Has(records: Records, t: Kind) { exists u :: u in records && records[u].kind == t }

  predicate RecordsClose(records: Records, amounts: Amounts) {
    forall u :: u in records && records[u].kind in amounts ==> Close(amounts[records[u].kind], records[u].cents)
  }

  /** Every component stands at its amount, and no other component is recorded. */
  ghost predicate Matches(records: Records, amounts: Amounts) {
    && Single(records)
    && (forall t :: t in amounts <==> Has(records, t))
    && RecordsClose(records, amounts)
  }

  /** Every component stands at its amount; others do not matter. */
  ghost predicate MatchesPart(records: Records, amounts: Amounts) {
    || amounts == map[]
    || (&& Single(records)
        && (forall t :: t in amounts ==> Has(records, t))
        && RecordsClose(records, amounts))
  }

  /** Two aggregate records of a component, or one above the amount. */
  ghost predicate Anomalous(s: Store, t: Kind, a: int) {
    || (exists u, v :: u in s.records && v in s.records && u != v && u !in s.parents && v !in s.parents
                       && s.records[u].kind == t && s.records[v].kind == t)
    || (exists u :: u in s.records && u !in s.parents && s.records[u].kind == t && a < s.records[u].cents)
  }

  ghost function Anomalies(s: Store, amounts: Amounts, c: Config): set<Kind> {
    if c.decreasing then {} else set t | t in amounts && Anomalous(s, t, amounts[t])
  }

  datatype Decision = Skip(omitted: set<Kind>) | Refuse | Send(omitted: set<Kind>, amounts: Amounts)

  ghost function Decide(s: Store, amounts: Amounts, c: Config): Decision {
    var odd := Anomalies(s, amounts, c);
    var rest := amounts - odd;
    if Matches(s.records, amounts) then Skip({})
    else if odd == {} then Send({}, amounts)
    else if !c.omit || rest == map[] then Refuse
    else if MatchesPart(s.records, rest) then Skip(odd)
    else Send(odd, rest)
  }

  /** Records keep their component, and those of components not named keep their amount. */
  ghost predicate OthersKept(before: Records, after: Records, amounts: Amounts) {
    forall u :: u in before ==>
      u in after && after[u].kind == before[u].kind && (before[u].kind !in amounts ==> after[u] == before[u])
  }

  /** A record is added only for a named component that had none. */
  ghost predicate OnlyMissingAdded(before: Records, after: Records, amounts: Amounts) {
    forall u :: u in after && u !in before ==> after[u].kind in amounts && !Has(before, after[u].kind)
  }

  ghost predicate StayAlone(before: Records, after: Records) {
    forall t :: Alone(before, t) ==> Alone(after, t)
  }

  ghost predicate AllStand(records: Records, amounts: Amounts) {
    forall t :: t in amounts ==> Stands(records, t, amounts[t])
  }

  /** What `set_usage` makes of the records: only the named components change. */
  ghost predicate Applied(before: Records, after: Records, amounts: Amounts) {
    && OthersKept(before, after, amounts)
    && OnlyMissingAdded(before, after, amounts)
    && StayAlone(before, after)
    && AllStand(after, amounts)
  }

  predicate Stands(records: Records, t: Kind, a: int) {
    exists u :: u in records && records[u] == Record(t, a)
  }

  // ---- what it achieves -------------------------------------------------------------

  /** One report, or per-user records being added. */
  ghost predicate Moves(s: Store, s': Store, c: Config) {
    || (s'.records == s.records && s.parents <= s'.parents)
    || (s'.parents == s.parents
        && exists amounts ::
          Decide(s, amounts, c).Send? && Applied(s.records, s'.records, Decide(s, amounts, c).amounts))
  }

  lemma SendingMoves(s: Store, s': Store, amounts: Amounts, c: Config)
    requires s'.parents == s.parents && Decide(s, amounts, c).Send?
    requires Applied(s.records, s'.records, Decide(s, amounts, c).amounts)
    ensures Moves(s, s', c)
  {
  }

  /** The only record of its component, with no per-user records. */
  ghost predicate Sole(s: Store, u: nat) {
    u in s.records && u !in s.parents && Alone(s.records, s.records[u].kind)
  }

  /** What `set_usage` does to the only record of a component. */
  lemma AppliedToSole(before: Records, after: Records, amounts: Amounts, u: nat)
    requires Applied(before, after, amounts)
    requires u in before && Alone(before, before[u].kind)
    ensures u in after && Alone(after, before[u].kind)
    ensures after[u] == if before[u].kind in amounts then Record(before[u].kind, amounts[before[u].kind]) else before[u]
  {
    var t := before[u].kind;
    if t in amounts {
      assert Stands(after, t, amounts[t]);
      var v :| v in after && after[v] == Record(t, amounts[t]);
      assert Alone(after, t);
    }
  }

  lemma SentIsNoLower(s: Store, amounts: Amounts, c: Config, u: nat)
    requires !c.decreasing && Decide(s, amounts, c).Send?
    requires u in s.records && u !in s.parents
    ensures var sent := Decide(s, amounts, c).amounts;
      s.records[u].kind in sent ==> s.records[u].cents <= sent[s.records[u].kind]
  {
    var t := s.records[u].kind;
    if t in Decide(s, amounts, c).amounts {
      assert t in amounts && t !in Anomalies(s, amounts, c);
      assert !Anomalous(s, t, amounts[t]);
    }
  }

  lemma OneReportKeeps(s: Store, s': Store, c: Config, u: nat)
    requires !c.decreasing && Moves(s, s', c) && Sole(s, u)
    ensures u in s'.records && s'.records[u].kind == s.records[u].kind
    ensures Alone(s'.records, s.records[u].kind)
    ensures s.records[u].cents <= s'.records[u].cents
  {
    if !(s'.records == s.records && s.parents <= s'.parents) {
      var amounts :| Decide(s, amounts, c).Send? && Applied(s.records, s'.records, Decide(s, amounts, c).amounts);
      AppliedToSole(s.records, s'.records, Decide(s, amounts, c).amounts, u);
      SentIsNoLower(s, amounts, c, u);
    }
  }

  /** Over any reports of a period, in either mode, a sole record's amount never goes down. */
  lemma {:induction false} NeverDecreases(run: seq<Store>, c: Config, u: nat)
    requires !c.decreasing && run != []
    requires forall i :: 0 <= i < |run| - 1 ==> Moves(run[i], run[i + 1], c)
    requires u in run[0].records && Alone(run[0].records, run[0].records[u].kind)
    requires u !in run[|run| - 1].parents
    ensures u in run[|run| - 1].records
    ensures run[0].records[u].cents <= run[|run| - 1].records[u].cents
    ensures Alone(run[|run| - 1].records, run[0].records[u].kind)
    ensures run[|run| - 1].records[u].kind == run[0].records[u].kind
  {
    if |run| > 1 {
      var n := |run| - 1;
      assert Moves(run[n - 1], run[n], c);
      var front := run[..n];
      assert front[0] == run[0] && front[|front| - 1] == run[n - 1];
      NeverDecreases(front, c, u);
      OneReportKeeps(run[n - 1], run[n], c, u);
    }
  }

  /** An amount below another, and not taken for it. */
  function Lower(x: int): (a: int)
    ensures a < x && !Close(a, x)
  {
    (if x < 0 then 2 * x else -x) - 1
  }

  /** A report that would lower a component whose records all have per-user records goes out. */
  lemma FallIsSent(s: Store, c: Config, u: nat)
    requires u in s.records && u in s.parents && Alone(s.records, s.records[u].kind)
    ensures var amounts := map[s.records[u].kind := Lower(s.records[u].cents)];
      Decide(s, amounts, c) == Send({}, amounts)
  {
    var t := s.records[u].kind;
    var a := Lower(s.records[u].cents);
    var amounts := map[t := a];
    assert amounts[t] == a;
    assert !Matches(s.records, amounts);
    assert !Anomalous(s, t, a);
    assert Anomalies(s, amounts, c) == {};
  }

  lemma FallApplies(records: Records, u: nat, a: int)
    requires u in records && Alone(records, records[u].kind)
    ensures Applied(records, records[u := Record(records[u].kind, a)], map[records[u].kind := a])
  {
    var t := records[u].kind;
    var after := records[u := Record(t, a)];
    assert after[u] == Record(t, a);
    assert Stands(after, t, a);
    forall e | Alone(records, e) ensures Alone(after, e) {
    }
  }

  /** The only record of a component can fall in a report if and only if it has per-user
      records: then it is not compared at all. */
  lemma MayFallExactly(s: Store, c: Config, u: nat)
    requires !c.decreasing && u in s.records && Alone(s.records, s.records[u].kind)
    ensures (exists s' :: Moves(s, s', c) && u in s'.records && s'.records[u].cents < s.records[u].cents)
      <==> u in s.parents
  {
    if u in s.parents {
      var t := s.records[u].kind;
      var a := Lower(s.records[u].cents);
      FallIsSent(s, c, u);
      FallApplies(s.records, u, a);
      var s' := s.(records := s.records[u := Record(t, a)]);
      SendingMoves(s, s', map[t := a], c);
    } else {
      forall s' | Moves(s, s', c) ensures u in s'.records && s.records[u].cents <= s'.records[u].cents {
        OneReportKeeps(s, s', c, u);
      }
    }
  }

  /** Five units recorded with per-user records, one reported: it goes out. */
  lemma WithUserRecordsItMayFall()
    ensures Decide(Store(map[0 := Record(0, 500)], {0}), map[0 := 100], Config(false, false)) == Send({}, map[0 := 100])
  {
    var records: Records := map[0 := Record(0, 500)];
    assert records[0].kind == 0;
    assert !Close(100, 500);
    assert Anomalies(Store(records, {0}), map[0 := 100], Config(false, false)) == {};
  }

  lemma MatchedStands(records: Records, amounts: Amounts)
    requires amounts != map[] ==> Single(records)
    requires forall t :: t in amounts ==> Has(records, t)
    requires RecordsClose(records, amounts)
    requires forall t :: t in amounts ==> Small(amounts[t])
    requires forall u :: u in records ==> Small(records[u].cents)
    ensures forall u :: u in records && records[u].kind in amounts ==> records[u].cents == amounts[records[u].kind]
    ensures forall t :: t in amounts ==> Stands(records, t, amounts[t])
  {
    forall u | u in records && records[u].kind in amounts ensures records[u].cents == amounts[records[u].kind] {
      CloseIsEqual(amounts[records[u].kind], records[u].cents);
    }
    forall t | t in amounts ensures Stands(records, t, amounts[t]) {
      var u :| u in records && records[u].kind == t;
      assert records[u] == Record(t, amounts[t]);
    }
  }

  /** Amounts that already stand everywhere are applied by changing nothing, and only so. */
  lemma NothingToApply(records: Records, amounts: Amounts, after: Records)
    requires forall t :: t in amounts ==> Alone(records, t) && Has(records, t)
    requires forall u :: u in records && records[u].kind in amounts ==> records[u].cents == amounts[records[u].kind]
    requires Applied(records, after, amounts)
    ensures after == records
  {
    forall u | u in records ensures after[u] == records[u] {
      if records[u].kind in amounts {
        AppliedToSole(records, after, amounts, u);
      }
    }
    assert after.Keys == records.Keys;
  }

  lemma SkipMatches(s: Store, amounts: Amounts, c: Config)
    requires Decide(s, amounts, c).Skip?
    ensures var rest := amounts - Decide(s, amounts, c).omitted;
      && (rest != map[] ==> Single(s.records))
      && (forall t :: t in rest ==> Has(s.records, t))
      && RecordsClose(s.records, rest)
  {
  }

  /** Skipping leaves what submitting would have left, and submitting could leave nothing else. */
  lemma SkipIsSubmit(s: Store, amounts: Amounts, c: Config, after: Records)
    requires Decide(s, amounts, c).Skip?
    requires forall t :: t in amounts ==> Small(amounts[t])
    requires forall u :: u in s.records ==> Small(s.records[u].cents)
    ensures Applied(s.records, after, amounts - Decide(s, amounts, c).omitted) <==> after == s.records
  {
    var rest := amounts - Decide(s, amounts, c).omitted;
    SkipMatches(s, amounts, c);
    MatchedStands(s.records, rest);
    if Applied(s.records, after, rest) {
      assert forall t :: t in rest ==> Alone(s.records, t);
      NothingToApply(s.records, rest, after);
    }
  }

  /** The skip is that sharp only below ten million: at it, one cent goes unreported. */
  lemma LargeChangeGoesUnreported()
    ensures var s := Store(map[0 := Record(0, 999_999_999)], {});
      Decide(s, map[0 := 1_000_000_000], Config(false, true)) == Skip({})
  {
    var records: Records := map[0 := Record(0, 999_999_999)];
    assert records[0].kind == 0;
    assert Has(records, 0);
  }

  /** The records a report leaves that was not refused by a failing call. */
  ghost predicate Leaves(s: Store, amounts: Amounts, c: Config, after: Records) {
    var d := Decide(s, amounts, c);
    if d.Send? then Applied(s.records, after, d.amounts) else after == s.records
  }

  /** An anomalous component keeps what it had. */
  lemma OmittedKept(s: Store, amounts: Amounts, c: Config, t: Kind, after: Records, u: nat)
    requires Leaves(s, amounts, c, after) && t in Anomalies(s, amounts, c)
    requires u in s.records && s.records[u].kind == t
    ensures u in after && after[u] == s.records[u]
  {
  }

  lemma SkippedStands(s: Store, amounts: Amounts, c: Config, t: Kind)
    requires Decide(s, amounts, c).Skip? && t in amounts && t !in Anomalies(s, amounts, c)
    requires forall e :: e in amounts ==> Small(amounts[e])
    requires forall u :: u in s.records ==> Small(s.records[u].cents)
    ensures Stands(s.records, t, amounts[t])
  {
    var rest := amounts - Decide(s, amounts, c).omitted;
    SkipMatches(s, amounts, c);
    MatchedStands(s.records, rest);
    assert t in rest && rest[t] == amounts[t];
  }

  /** In omit mode every component that is not anomalous ends at its new amount, and every
      anomalous one keeps what it had. */
  lemma OmitReaches(s: Store, amounts: Amounts, c: Config, t: Kind, after: Records)
    requires c.omit && t in amounts
    requires forall e :: e in amounts ==> Small(amounts[e])
    requires forall u :: u in s.records ==> Small(s.records[u].cents)
    ensures Leaves(s, amounts, c, after) && t !in Anomalies(s, amounts, c) ==>
      Stands(after, t, amounts[t]) && (Alone(s.records, t) ==> Alone(after, t))
    ensures Leaves(s, amounts, c, after) && t in Anomalies(s, amounts, c) ==>
      forall u :: u in s.records && s.records[u].kind == t ==> u in after && after[u] == s.records[u]
  {
    if Leaves(s, amounts, c, after) {
      if t in Anomalies(s, amounts, c) {
        forall u | u in s.records && s.records[u].kind == t ensures u in after && after[u] == s.records[u] {
          OmittedKept(s, amounts, c, t, after, u);
        }
      } else if Decide(s, amounts, c).Skip? {
        SkippedStands(s, amounts, c, t);
      } else {
        assert t in amounts - Anomalies(s, amounts, c);
        assert Decide(s, amounts, c).Send?;
      }
    }
  }
}
