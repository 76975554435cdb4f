/**
The report processor itself (waldur_site_agent/common/processors.py), shown to do what
`UsageReport.Decide` says on every input. Waldur's side of the calls is the processor's
environment: its store, and which calls fail.
 */
module UsageReporter {
  import opened Wrappers
  import opened UsageReport

  /** A listing of records, in any order. */
  ghost predicate Lists(rows: seq<Row>, records: Records) {
    && (forall i, j :: 0 <= i < j < |rows| ==> rows[i].uuid != rows[j].uuid)
    && (forall i :: 0 <= i < |rows| ==>
      rows[i].uuid in records && records[rows[i].uuid] == Record(rows[i].kind, rows[i].cents))
    && (forall u :: u in records ==> exists i :: 0 <= i < |rows| && rows[i].uuid == u)
  }

  /** The amounts of records of which no two share a component. */
  ghost predicate Table(existing: Amounts, records: Records) {
    && Single(records)
    && (forall t :: t in existing <==> Has(records, t))
    && (forall u :: u in records ==> records[u].kind in existing && existing[records[u].kind] == records[u].cents)
  }

  ghost predicate Distinct(rows: seq<Row>, n: nat)
    requires n <= |rows|
  {
    forall i, j :: 0 <= i < j < n ==> rows[i].kind != rows[j].kind
  }

  ghost predicate Tabled(existing: Amounts, rows: seq<Row>, n: nat)
    requires n <= |rows|
  {
    && (forall t :: t in existing ==> exists i :: 0 <= i < n && rows[i].kind == t)
    && (forall i :: 0 <= i < n ==> rows[i].kind in existing && existing[rows[i].kind] == rows[i].cents)
  }

  lemma TabledStep(existing: Amounts, rows: seq<Row>, n: nat)
    requires n < |rows| && Tabled(existing, rows, n) && rows[n].kind !in existing
    ensures Tabled(existing[rows[n].kind := rows[n].cents], rows, n + 1)
  {
    forall t | t in existing ensures exists i :: 0 <= i < n + 1 && rows[i].kind == t {
      var i :| 0 <= i < n && rows[i].kind == t;
    }
  }

  /** The loop both comparisons start with: it gives up where a component comes twice. */
  method ByKind(rows: seq<Row>) returns (ok: bool, existing: Amounts)
    ensures ok <==> Distinct(rows, |rows|)
    ensures ok ==> Tabled(existing, rows, |rows|)
  {
    existing := map[];
    for n := 0 to |rows|
      invariant Distinct(rows, n) && Tabled(existing, rows, n)
    {
      if rows[n].kind in existing {
        ghost var i :| 0 <= i < n && rows[i].kind == rows[n].kind;
        return false, existing;
      }
      TabledStep(existing, rows, n);
      existing := existing[rows[n].kind := rows[n].cents];
    }
    return true, existing;
  }

  lemma TabledIsTable(existing: Amounts, rows: seq<Row>, records: Records)
    requires Lists(rows, records) && Single(records) && Tabled(existing, rows, |rows|)
    ensures Table(existing, records)
  {
    forall t | t in existing ensures Has(records, t) {
      var i :| 0 <= i < |rows| && rows[i].kind == t;
      assert records[rows[i].uuid].kind == t;
    }
    forall u | u in records ensures records[u].kind in existing && existing[records[u].kind] == records[u].cents {
      var i :| 0 <= i < |rows| && rows[i].uuid == u;
    }
  }

  lemma SameRow(rows: seq<Row>, i: nat, j: nat)
    requires Distinct(rows, |rows|) && i < |rows| && j < |rows| && rows[i].kind == rows[j].kind
    ensures i == j
  {
  }

  lemma DistinctIsSingle(rows: seq<Row>, records: Records)
    requires Lists(rows, records)
    ensures Distinct(rows, |rows|) <==> Single(records)
  {
    if Distinct(rows, |rows|) {
      forall u, v | u in records && v in records && records[u].kind == records[v].kind ensures u == v {
        var i :| 0 <= i < |rows| && rows[i].uuid == u;
        var j :| 0 <= j < |rows| && rows[j].uuid == v;
        SameRow(rows, i, j);
      }
    }
    if Single(records) {
      forall i, j | 0 <= i < j < |rows| ensures rows[i].kind != rows[j].kind {
        assert Alone(records, rows[i].kind);
      }
    }
  }

  ghost predicate AllClose(amounts: Amounts, existing: Amounts) {
    forall t :: t in amounts && t in existing ==> Close(amounts[t], existing[t])
  }

  /** The comparisons in terms of the table. */
  lemma MatchesTable(existing: Amounts, records: Records, amounts: Amounts)
    requires Table(existing, records)
    ensures Matches(records, amounts) <==> amounts.Keys == existing.Keys && AllClose(amounts, existing)
    ensures MatchesPart(records, amounts) <==> amounts.Keys <= existing.Keys && AllClose(amounts, existing)
  {
    TableClose(existing, records, amounts);
    assert amounts.Keys == existing.Keys <==> (forall t :: t in amounts <==> Has(records, t));
    assert amounts.Keys <= existing.Keys <==> (forall t :: t in amounts ==> Has(records, t));
  }

  lemma TableClose(existing: Amounts, records: Records, amounts: Amounts)
    requires Table(existing, records)
    ensures AllClose(amounts, existing) <==>
      RecordsClose(records, amounts)
  {
    if RecordsClose(records, amounts) {
      forall t | t in amounts && t in existing ensures Close(amounts[t], existing[t]) {
        assert Has(records, t);
        var u :| u in records && records[u].kind == t;
      }
    }
  }

  method ReadTable(rows: seq<Row>, ghost records: Records) returns (ok: bool, existing: Amounts)
    requires Lists(rows, records)
    ensures ok <==> Single(records)
    ensures ok ==> Table(existing, records)
  {
    ok, existing := ByKind(rows);
    DistinctIsSingle(rows, records);
    if ok {
      TabledIsTable(existing, rows, records);
    }
  }

  /** The loop both comparisons end with. */
  method AllPresentAndClose(amounts: Amounts, existing: Amounts) returns (same: bool)
    ensures same <==> amounts.Keys <= existing.Keys && AllClose(amounts, existing)
  {
    var left := amounts.Keys;
    while left != {}
      invariant left <= amounts.Keys
      invariant forall t :: t in amounts && t !in left ==> t in existing && Close(amounts[t], existing[t])
      decreases left
    {
      var t :| t in left;
      if t !in existing || !Close(amounts[t], existing[t]) {
        return false;
      }
      left := left - {t};
    }
    return true;
  }

  method UsageMatchesExisting(amounts: Amounts, rows: seq<Row>, ghost records: Records) returns (same: bool)
    requires Lists(rows, records)
    ensures same <==> Matches(records, amounts)
  {
    var ok, existing := ReadTable(rows, records);
    if !ok {
      return false;
    }
    MatchesTable(existing, records, amounts);
    if amounts.Keys != existing.Keys {
      return false;
    }
    same := AllPresentAndClose(amounts, existing);
  }

  method ReportedAmountsMatchExisting(amounts: Amounts, rows: seq<Row>, ghost records: Records) returns (same: bool)
    requires Lists(rows, records)
    ensures same <==> MatchesPart(records, amounts)
  {
    if amounts == map[] {
      return true;
    }
    var ok, existing := ReadTable(rows, records);
    if !ok {
      return false;
    }
    MatchesTable(existing, records, amounts);
    same := AllPresentAndClose(amounts, existing);
  }

  ghost predicate OddRows(rows: seq<Row>, t: Kind, amount: int) {
    || (exists i, j :: 0 <= i < j < |rows| && rows[i].kind == t && rows[j].kind == t)
    || (exists i :: 0 <= i < |rows| && rows[i].kind == t && amount < rows[i].cents)
  }

  /** Two records of the component, or one above the amount, for a backend whose usage only grows. */
  method CheckUsageAnomaly(t: Kind, amount: int, rows: seq<Row>, decreasing: bool) returns (odd: bool)
    ensures odd <==> (!decreasing && OddRows(rows, t, amount))
  {
    if decreasing || rows == [] {
      return false;
    }
    var found: seq<int> := [];
    for n := 0 to |rows|
      invariant forall k :: 0 <= k < |found| ==> 0 <= found[k] < n && rows[found[k]].kind == t
      invariant forall k, l :: 0 <= k < l < |found| ==> found[k] < found[l]
      invariant forall i :: 0 <= i < n && rows[i].kind == t ==> i in found
    {
      if rows[n].kind == t {
        found := found + [n];
      }
    }
    if found == [] {
      return false;
    }
    if |found| > 1 {
      assert found[0] < found[1];
      return true;
    }
    return amount < rows[found[0]].cents;
  }

  /** The rows without per-user records below them. */
  method AggregateRows(rows: seq<Row>, parents: set<nat>) returns (kept: seq<Row>)
    ensures forall r :: r in kept <==> r in rows && r.uuid !in parents
    ensures (forall i, j :: 0 <= i < j < |rows| ==> rows[i].uuid != rows[j].uuid) ==>
      (forall i, j :: 0 <= i < j < |kept| ==> kept[i].uuid != kept[j].uuid)
  {
    kept := [];
    for n := 0 to |rows|
      invariant forall r :: r in kept <==> r in rows[..n] && r.uuid !in parents
      invariant (forall i, j :: 0 <= i < j < |rows| ==> rows[i].uuid != rows[j].uuid) ==>
        (forall i, j :: 0 <= i < j < |kept| ==> kept[i].uuid != kept[j].uuid)
    {
      assert rows[..n + 1] == rows[..n] + [rows[n]];
      if rows[n].uuid !in parents {
        assert forall k :: 0 <= k < |kept| ==> kept[k] in rows[..n];
        kept := kept + [rows[n]];
      }
    }
    assert rows[..|rows|] == rows;
  }

  lemma AnomalyListed(rows: seq<Row>, kept: seq<Row>, s: Store, t: Kind, amount: int)
    requires Lists(rows, s.records)
    requires forall r :: r in kept <==> r in rows && r.uuid !in s.parents
    requires forall i, j :: 0 <= i < j < |kept| ==> kept[i].uuid != kept[j].uuid
    ensures Anomalous(s, t, amount) <==> OddRows(kept, t, amount)
  {
    forall u | u in s.records && u !in s.parents
      ensures exists i :: 0 <= i < |kept| && kept[i] == Row(u, s.records[u].kind, s.records[u].cents)
    {
      var i :| 0 <= i < |rows| && rows[i].uuid == u;
      assert rows[i] in kept;
    }
    forall i | 0 <= i < |kept|
      ensures kept[i].uuid in s.records && kept[i].uuid !in s.parents
      ensures s.records[kept[i].uuid] == Record(kept[i].kind, kept[i].cents)
    {
      assert kept[i] in kept;
    }
    forall u, v | u in s.records && v in s.records && u != v && u !in s.parents && v !in s.parents
                  && s.records[u].kind == t && s.records[v].kind == t
      ensures OddRows(kept, t, amount)
    {
      var i :| 0 <= i < |kept| && kept[i] == Row(u, s.records[u].kind, s.records[u].cents);
      var j :| 0 <= j < |kept| && kept[j] == Row(v, s.records[v].kind, s.records[v].cents);
      assert i < j || j < i;
    }
  }

  datatype Result = Returned(omitted: set<Kind>) | Anomaly | Raised

  /** How Waldur's calls go: whether each listing is read, and the write lands and is answered. */
  datatype Calls = Calls(recordsRead: bool, usersRead: bool, lands: bool, answered: bool)

  ghost predicate ListingFails(s: Store, amounts: Amounts, c: Config, calls: Calls) {
    !calls.recordsRead || (!c.decreasing && !calls.usersRead && !Matches(s.records, amounts))
  }

  class ReportProcessor {
    const config: Config
    var store: Store
    var nextUuid: nat

    ghost predicate Valid() reads this { forall u :: u in store.records ==> u < nextUuid }

    constructor (config: Config)
      ensures Valid() && this.config == config && store == Store(map[], {})
    {
      this.config := config;
      store, nextUuid := Store(map[], {}), 0;
    }

    /** Waldur's listing. */
    method ListUsages() returns (rows: seq<Row>)
      ensures Lists(rows, store.records)
    {
      rows := [];
      var left := store.records.Keys;
      while left != {}
        invariant left <= store.records.Keys
        invariant forall i, j :: 0 <= i < j < |rows| ==> rows[i].uuid != rows[j].uuid
        invariant forall i :: 0 <= i < |rows| ==> rows[i].uuid in store.records && rows[i].uuid !in left
        invariant forall i :: 0 <= i < |rows| ==> store.records[rows[i].uuid] == Record(rows[i].kind, rows[i].cents)
        invariant forall u :: u in store.records && u !in left ==> exists i :: 0 <= i < |rows| && rows[i].uuid == u
        decreases left
      {
        var u :| u in left;
        ghost var was := rows;
        rows := rows + [Row(u, store.records[u].kind, store.records[u].cents)];
        left := left - {u};
        assert rows[|was|].uuid == u;
        assert forall i :: 0 <= i < |was| ==> rows[i] == was[i];
      }
    }

    /** Waldur's `set_usage` for one component: a record of its, or a new one. */
    method SetOne(records: Records, t: Kind, a: int) returns (after: Records, ghost u: nat)
      requires forall v :: v in records ==> v < nextUuid
      modifies this`nextUuid
      ensures forall v :: v in after ==> v < nextUuid
      ensures if Has(records, t) then u in records && records[u].kind == t else u !in records
      ensures after == records[u := Record(t, a)]
    {
      var id: nat := nextUuid;
      if Has(records, t) {
        id :| id in records && records[id].kind == t;
      } else {
        nextUuid := nextUuid + 1;
      }
      return records[id := Record(t, a)], id;
    }

    /** Waldur's `set_usage`: each named component gets its amount in one record of its. */
    method SetUsage(amounts: Amounts)
      requires Valid()
      modifies this
      ensures Valid() && store.parents == old(store.parents)
      ensures Applied(old(store.records), store.records, amounts)
    {
      var records: Records := store.records;
      ghost var done: Amounts := map[];
      var left := amounts.Keys;
      while left != {}
        invariant left <= amounts.Keys && done.Keys == amounts.Keys - left
        invariant forall t :: t in done ==> done[t] == amounts[t]
        invariant forall u :: u in records ==> u < nextUuid
        invariant Applied(store.records, records, done)
        invariant store == old(store)
        decreases left
      {
        var t :| t in left;
        var after, u := SetOne(records, t, amounts[t]);
        AppliedStep(store.records, records, done, t, amounts[t], u);
        records, left, done := after, left - {t}, done[t := amounts[t]];
      }
      assert done == amounts;
      store := store.(records := records);
    }

    /** Which of the amounts are anomalous. */
    method FindAnomalies(amounts: Amounts, rows: seq<Row>) returns (odd: set<Kind>)
      requires !config.decreasing && Lists(rows, store.records)
      ensures odd == Anomalies(store, amounts, config)
    {
      var kept := AggregateRows(rows, store.parents);
      odd := {};
      var left := amounts.Keys;
      while left != {}
        invariant left <= amounts.Keys
        invariant forall t :: t in odd <==> t in amounts && t !in left && Anomalous(store, t, amounts[t])
        decreases left
      {
        var t :| t in left;
        var anomalous := CheckUsageAnomaly(t, amounts[t], kept, config.decreasing);
        AnomalyListed(rows, kept, store, t, amounts[t]);
        if anomalous {
          odd := odd + {t};
        }
        left := left - {t};
      }
    }

    /** Everything before the write; None where a listing raised. */
    method Prepare(amounts: Amounts, calls: Calls) returns (d: Option<Decision>)
      ensures d == if ListingFails(store, amounts, config, calls) then None else Some(Decide(store, amounts, config))
    {
      if !calls.recordsRead {
        return None;
      }
      var rows := ListUsages();
      var same := UsageMatchesExisting(amounts, rows, store.records);
      if same {
        return Some(Skip({}));
      }
      if config.decreasing {
        return Some(Send({}, amounts));
      }
      if !calls.usersRead {
        return None;
      }
      var odd := FindAnomalies(amounts, rows);
      if odd == {} {
        return Some(Send({}, amounts));
      }
      if !config.omit {
        return Some(Refuse);
      }
      var rest := amounts - odd;
      if rest == map[] {
        return Some(Refuse);
      }
      same := ReportedAmountsMatchExisting(rest, rows, store.records);
      return Some(if same then Skip(odd) else Send(odd, rest));
    }

    /** A report: exactly what was decided, in every mode and for every way the calls go. */
    method SubmitTotalUsage(total: map<Kind, real>, types: set<Kind>, calls: Calls) returns (r: Result)
      requires Valid()
      modifies this
      ensures Valid() && store.parents == old(store.parents)
      ensures Moves(old(store), store, config)
      ensures var amounts := Submittable(total, types);
        if ListingFails(old(store), amounts, config, calls) then r == Raised && store == old(store)
        else match Decide(old(store), amounts, config)
          case Skip(omitted) => r == Returned(omitted) && store == old(store)
          case Refuse => r == Anomaly && store == old(store)
          case Send(omitted, sent) =>
            && (if calls.lands then Applied(old(store.records), store.records, sent) else store == old(store))
            && r == (if calls.lands && calls.answered then Returned(omitted) else Raised)
    {
      var amounts := Submittable(total, types);
      var d := Prepare(amounts, calls);
      match d
      case None => r := Raised;
      case Some(Skip(omitted)) => r := Returned(omitted);
      case Some(Refuse) => r := Anomaly;
      case Some(Send(omitted, sent)) =>
        if calls.lands {
          SetUsage(sent);
          SendingMoves(old(store), store, amounts, config);
        }
        r := if calls.lands && calls.answered then Returned(omitted) else Raised;
    }

    /** Waldur gains per-user records below one of the period's. */
    method AddUserRecords(parent: nat)
      requires Valid()
      modifies this
      ensures Valid() && store == old(store).(parents := old(store.parents) + {parent})
      ensures Moves(old(store), store, config)
    {
      store := store.(parents := store.parents + {parent});
    }
  }

  lemma AppliedHas(before: Records, was: Records, done: Amounts, t: Kind)
    requires OthersKept(before, was, done) && OnlyMissingAdded(before, was, done) && t !in done
    ensures Has(was, t) <==> Has(before, t)
  {
    if Has(was, t) {
      var v :| v in was && was[v].kind == t;
      assert v in before;
    }
    if Has(before, t) {
      var v :| v in before && before[v].kind == t;
      assert v in was && was[v].kind == t;
    }
  }

  lemma AppliedStands(was: Records, done: Amounts, t: Kind, a: int, u: nat, e: Kind)
    requires e in done && e != t && Stands(was, e, done[e])
    requires u in was ==> was[u].kind == t
    ensures Stands(was[u := Record(t, a)], e, done[e])
  {
    var v :| v in was && was[v] == Record(e, done[e]);
    assert was[u := Record(t, a)][v] == was[v];
  }

  lemma AppliedAlone(was: Records, t: Kind, a: int, u: nat, e: Kind)
    requires Alone(was, e)
    requires if Has(was, t) then u in was && was[u].kind == t else u !in was
    ensures Alone(was[u := Record(t, a)], e)
  {
  }

  lemma AppliedOthers(before: Records, was: Records, done: Amounts, t: Kind, a: int, u: nat)
    requires OthersKept(before, was, done) && OnlyMissingAdded(before, was, done) && t !in done
    requires if Has(was, t) then u in was && was[u].kind == t else u !in was
    requires Has(was, t) <==> Has(before, t)
    ensures OthersKept(before, was[u := Record(t, a)], done[t := a])
    ensures OnlyMissingAdded(before, was[u := Record(t, a)], done[t := a])
  {
  }

  /** Naming one more component. */
  lemma AppliedStep(before: Records, was: Records, done: Amounts, t: Kind, a: int, u: nat)
    requires Applied(before, was, done) && t !in done
    requires if Has(was, t) then u in was && was[u].kind == t else u !in was
    ensures Applied(before, was[u := Record(t, a)], done[t := a])
  {
    var after, more := was[u := Record(t, a)], done[t := a];
    AppliedHas(before, was, done, t);
    AppliedOthers(before, was, done, t, a, u);
    forall e | e in more ensures Stands(after, e, more[e]) {
      if e == t {
        assert after[u] == Record(t, a);
      } else {
        AppliedStands(was, done, t, a, u, e);
      }
    }
    forall e | Alone(before, e) ensures Alone(after, e) {
      AppliedAlone(was, t, a, u, e);
    }
  }
}
