/**
Account teardown and role revocation: the deletion states of an offering user
(waldur_site_agent/common/utils.py), the strict pull (waldur_site_agent/backend/backends.py),
the teardown, the sweep and the revocation (waldur_site_agent/common/processors.py).

The outcome of every call is an argument. While the agent works, Waldur may restore a
person whose deletion is requested or has failed, and may request deletions; it never
touches a row that is being deleted or is deleted.
 */
module Teardown {
  import opened Wrappers

  type Uuid = nat
  type Username = string
  type Resource = string

  datatype RowState = Live | RequestedDeletion | Deleting | ErrorDeleting | Deleted

  predicate Departed(r: RowState) { r.RequestedDeletion? || r.Deleting? || r.ErrorDeleting? }

  /** The agent's copy of an offering user, as listed: the state may be out of date. */
  datatype OfferingUser = OfferingUser(uuid: Uuid, username: Username, state: RowState)

  datatype Pulled = Pulled(resource: Resource, users: set<Username>)

  /** A backend call: it returned, or it raised when looking the person up, before taking
      effect, or after. Looking up can fail where there is nothing to find, too. */
  datatype Call = Done | RaisedLookup | RaisedBefore | RaisedAfter
  {
    predicate TakesEffect() { Done? || RaisedAfter? }
  }

  datatype Sent = Delivered | ReplyLost | RequestLost

  /** How the calls of one teardown go; `restored` and `later` are what users do to Waldur's
      rows before the claim and before the completion. */
  datatype Outcome = Outcome(
    restored: map<Uuid, RowState>,
    claim: Sent,
    removals: map<Resource, Call>,
    release: Call,
    mark: Sent,
    later: map<Uuid, RowState>,
    complete: Sent)

  function CallOn(calls: map<Resource, Call>, r: Resource): Call {
    if r in calls then calls[r] else Done
  }

  // ---- Waldur ------------------------------------------------------------------------

  /** What users can do to the rows meanwhile. */
  function Meanwhile(rows: map<Uuid, RowState>, change: map<Uuid, RowState>)
    : (r: map<Uuid, RowState>)
    ensures r.Keys == rows.Keys && (change == map[] ==> r == rows)
    ensures forall u :: u in rows && (rows[u].Deleting? || rows[u].Deleted?) ==> r[u] == rows[u]
    ensures forall u :: u in rows && (r[u].Deleting? || r[u].Deleted?) ==> r[u] == rows[u]
  {
    map u | u in rows ::
      if u in change && (change[u].Live? || change[u].RequestedDeletion?)
         && !rows[u].Deleting? && !rows[u].Deleted?
      then change[u] else rows[u]
  }

  predicate MayClaim(r: RowState) { r.RequestedDeletion? || r.ErrorDeleting? }

  predicate MayFail(r: RowState) { r.RequestedDeletion? || r.Deleting? }

  // ---- the strict pull ---------------------------------------------------------------

  type Associations = map<Resource, set<Username>>

  /** The report of a pull in which the resources in `failing` could not be read: those the
      backend has, in order, the failing ones left out. */
  function Report(resources: seq<Resource>, assoc: Associations, failing: set<Resource>): seq<Pulled> {
    if resources == [] then []
    else if resources[0] in failing || resources[0] !in assoc
    then Report(resources[1..], assoc, failing)
    else [Pulled(resources[0], assoc[resources[0]])] + Report(resources[1..], assoc, failing)
  }

  lemma {:induction false} ReportSplit(xs: seq<Resource>, ys: seq<Resource>, assoc: Associations,
                                       failing: set<Resource>)
    ensures Report(xs + ys, assoc, failing) == Report(xs, assoc, failing) + Report(ys, assoc, failing)
  {
    if xs == [] {
      assert xs + ys == ys;
    } else {
      assert (xs + ys)[1..] == xs[1..] + ys;
      ReportSplit(xs[1..], ys, assoc, failing);
    }
  }

  /** A report tells of a resource exactly when it was asked for, read, and exists. */
  lemma {:induction false} ReportExact(resources: seq<Resource>, assoc: Associations,
                                       failing: set<Resource>, p: Pulled)
    ensures p in Report(resources, assoc, failing) <==>
      && p.resource in resources && p.resource !in failing
      && p.resource in assoc && p.users == assoc[p.resource]
  {
    if resources != [] {
      ReportExact(resources[1..], assoc, failing, p);
    }
  }

  // ---- the associations a teardown leaves ---------------------------------------------

  predicate GoneFrom(assoc: Associations, name: Username, rs: seq<Pulled>) {
    forall p :: p in rs && name in p.users && p.resource in assoc ==> name !in assoc[p.resource]
  }

  predicate Reports(report: seq<Pulled>, r: Resource) {
    exists i :: 0 <= i < |report| && report[i].resource == r
  }

  /** No association is left on any of the resources. */
  predicate GoneOn(assoc: Associations, name: Username, resources: seq<Resource>) {
    forall r :: r in resources && r in assoc ==> name !in assoc[r]
  }

  /** Only this person's associations were touched, and only removed. */
  predicate OnlyTouches(before: Associations, after: Associations, name: Username) {
    && after.Keys == before.Keys
    && forall r :: r in before ==> before[r] - {name} <= after[r] <= before[r]
  }

  function ResourcesOf(report: seq<Pulled>): seq<Resource> {
    if report == [] then [] else [report[0].resource] + ResourcesOf(report[1..])
  }

  /** A full report names the resources asked for that the backend has. */
  lemma {:induction false} PulledCover(resources: seq<Resource>, assoc: Associations,
                                       failing: set<Resource>)
    requires forall r :: r in resources ==> r !in failing
    ensures forall r :: r in ResourcesOf(Report(resources, assoc, failing)) <==>
      r in resources && r in assoc
  {
    if resources != [] {
      PulledCover(resources[1..], assoc, failing);
    }
  }

  predicate FailsOn(r: Resource, assoc: Associations, name: Username, calls: map<Resource, Call>) {
    CallOn(calls, r).RaisedLookup? || (r in assoc && name in assoc[r] && !CallOn(calls, r).Done?)
  }

  predicate RemovalFails(rs: seq<Resource>, assoc: Associations, name: Username,
                         calls: map<Resource, Call>)
  {
    exists r :: r in rs && FailsOn(r, assoc, name, calls)
  }

  class Provider {
    // Waldur's rows
    var rows: map<Uuid, RowState>
    // the backend's associations per resource, and the accounts released
    var assoc: Associations
    var released: set<Username>
    // the thread-local flag of the pull that is running
    var strictPull: bool

    /** `claim_offering_user_deletion` behind the teardown's guard against exceptions. */
    method Claim(ou: OfferingUser, sent: Sent) returns (held: bool)
      requires ou.uuid in rows
      modifies this`rows
      ensures var r := old(rows)[ou.uuid];
        if ou.state.Deleting? then held && rows == old(rows)
        else if !Departed(ou.state) || sent.RequestLost? || !MayClaim(r) then !held && rows == old(rows)
        else rows == old(rows)[ou.uuid := Deleting] && held == sent.Delivered?
    {
      if ou.state.Deleting? {
        return true;
      }
      if !Departed(ou.state) {
        return false;
      }
      var accepted := MayClaim(rows[ou.uuid]);
      if accepted && !sent.RequestLost? {
        rows := rows[ou.uuid := Deleting];
      }
      held := accepted && sent.Delivered?;
    }

    method Complete(ou: OfferingUser, sent: Sent) returns (done: bool)
      requires ou.uuid in rows
      modifies this`rows
      ensures done == (old(rows)[ou.uuid].Deleting? && sent.Delivered?)
      ensures rows == if old(rows)[ou.uuid].Deleting? && !sent.RequestLost?
        then old(rows)[ou.uuid := Deleted] else old(rows)
    {
      var accepted := rows[ou.uuid].Deleting?;
      if accepted && !sent.RequestLost? {
        rows := rows[ou.uuid := Deleted];
      }
      done := accepted && sent.Delivered?;
    }

    /** Looks at the listed state, which is out of date once the claim went through. */
    method MarkErrorDeleting(ou: OfferingUser, sent: Sent)
      requires ou.uuid in rows
      modifies this`rows
      ensures rows == if MayFail(ou.state) && !sent.RequestLost? && MayFail(old(rows)[ou.uuid])
        then old(rows)[ou.uuid := ErrorDeleting] else old(rows)
    {
      if !MayFail(ou.state) {
        return;
      }
      if !sent.RequestLost? && MayFail(rows[ou.uuid]) {
        rows := rows[ou.uuid := ErrorDeleting];
      }
    }

    /** `remove_user`: nothing to do without an association, else the association goes or
        the call raises; the lookup itself can raise either way. */
    method RemoveUser(r: Resource, name: Username, call: Call) returns (raised: bool)
      modifies this`assoc
      ensures r !in old(assoc) || name !in old(assoc)[r] ==>
        raised == call.RaisedLookup? && assoc == old(assoc)
      ensures r in old(assoc) && name in old(assoc)[r] ==>
        && raised == !call.Done?
        && assoc == (if call.TakesEffect() then old(assoc)[r := old(assoc)[r] - {name}] else old(assoc))
    {
      if call.RaisedLookup? {
        return true;
      }
      if r !in assoc || name !in assoc[r] {
        return false;
      }
      if call.TakesEffect() {
        assoc := assoc[r := assoc[r] - {name}];
      }
      raised := !call.Done?;
    }

    /** `pull_resource`: an error travels only while a strict pull runs. */
    method PullResource(r: Resource, failing: set<Resource>) returns (info: Option<Pulled>, raised: bool)
      ensures raised == (strictPull && r in failing)
      ensures info == if r in failing || r !in assoc then None else Some(Pulled(r, assoc[r]))
    {
      info, raised := None, false;
      if r in failing {
        raised := strictPull;
      } else if r in assoc {
        info := Some(Pulled(r, assoc[r]));
      }
    }

    /** `pull_resources`; None when a strict pull raises. The flag is put back either way. */
    method PullResources(resources: seq<Resource>, strict: bool, failing: set<Resource>)
      returns (report: Option<seq<Pulled>>)
      modifies this`strictPull
      ensures strictPull == old(strictPull)
      ensures report.None? <==> strict && exists r :: r in resources && r in failing
      ensures report.Some? ==> report.value == Report(resources, assoc, failing)
    {
      var previous := strictPull;
      strictPull := strict;
      var pulled := [];
      var failed := false;
      var i := 0;
      while i < |resources| && !failed
        invariant 0 <= i <= |resources| && strictPull == strict
        invariant failed ==> strict && i < |resources| && resources[i] in failing
        invariant strict ==> forall j :: 0 <= j < i ==> resources[j] !in failing
        invariant pulled == Report(resources[..i], assoc, failing)
        decreases |resources| - i, !failed
      {
        var info, raised := PullResource(resources[i], failing);
        if raised {
          failed := true;
        } else {
          assert resources[..i + 1] == resources[..i] + [resources[i]];
          ReportSplit(resources[..i], [resources[i]], assoc, failing);
          assert [resources[i]][1..] == [];
          if info.Some? {
            pulled := pulled + [info.value];
          }
          i := i + 1;
        }
      }
      strictPull := previous;
      if failed {
        return None;
      }
      assert resources[..i] == resources;
      return Some(pulled);
    }

    /** `_remove_user_from_reported_resources`: the first removal that raises ends it. */
    method RemoveFromReported(report: seq<Pulled>, name: Username, calls: map<Resource, Call>)
      returns (failed: bool)
      modifies this`assoc
      ensures OnlyTouches(old(assoc), assoc, name)
      ensures !failed ==> GoneFrom(assoc, name, report)
      ensures forall r :: r in assoc && !Reports(report, r) ==> assoc[r] == old(assoc)[r]
      ensures failed ==>
        exists p :: p in report && name in p.users && !CallOn(calls, p.resource).Done?
    {
      var i := 0;
      while i < |report|
        invariant 0 <= i <= |report|
        invariant OnlyTouches(old(assoc), assoc, name)
        invariant GoneFrom(assoc, name, report[..i])
        invariant forall r :: r in assoc && !Reports(report, r) ==> assoc[r] == old(assoc)[r]
      {
        assert Reports(report, report[i].resource);
        if name in report[i].users {
          var raised := RemoveUser(report[i].resource, name, CallOn(calls, report[i].resource));
          if raised {
            assert report[i] in report;
            return true;
          }
        }
        i := i + 1;
      }
      assert report[..i] == report;
      return false;
    }

    /** The teardown once the claim holds: associations, account, acknowledgement. */
    method TearDownClaimed(ou: OfferingUser, report: seq<Pulled>, hasUsernameBackend: bool, o: Outcome)
      returns (done: bool)
      requires ou.uuid in rows && rows[ou.uuid].Deleting?
      modifies this`rows, this`assoc, this`released
      ensures OnlyOthersByUsers(old(rows), rows, ou.uuid)
      ensures o.later == map[] ==> rows == old(rows)[ou.uuid := rows[ou.uuid]]
      ensures OnlyTouches(old(assoc), assoc, ou.username)
      ensures old(released) <= released <= old(released) + {ou.username}
      ensures rows[ou.uuid].Deleted? && ou.username != "" ==>
        && GoneFrom(assoc, ou.username, report)
        && (hasUsernameBackend ==> ou.username in released)
      ensures Departed(rows[ou.uuid]) || rows[ou.uuid].Deleted?
      ensures done ==> rows[ou.uuid].Deleted?
      ensures Smooth(o) ==> done
    {
      if ou.username != "" {
        var failed := RemoveFromReported(report, ou.username, o.removals);
        if !failed && hasUsernameBackend {
          if o.release.TakesEffect() {
            released := released + {ou.username};
          }
          failed := !o.release.Done?;
        }
        if failed {
          MarkErrorDeleting(ou, o.mark);
          return false;
        }
      }
      rows := Meanwhile(rows, o.later);
      done := Complete(ou, o.complete);
    }

    /** `teardown_offering_user`: nothing is touched before the claim holds. */
    method TeardownUser(ou: OfferingUser, report: seq<Pulled>, hasUsernameBackend: bool, o: Outcome)
      returns (done: bool)
      requires ou.uuid in rows
      // Waldur never restores a row being deleted, and one teardown of a row runs at a time.
      requires ou.state.Deleting? ==> rows[ou.uuid].Deleting?
      modifies this`rows, this`assoc, this`released
      ensures OnlyOthersByUsers(old(rows), rows, ou.uuid)
      ensures o.restored == map[] && o.later == map[] ==> rows == old(rows)[ou.uuid := rows[ou.uuid]]
      ensures OnlyTouches(old(assoc), assoc, ou.username)
      ensures old(released) <= released <= old(released) + {ou.username}
      // Deleted only once the person is nowhere the report lists them and the release returned.
      ensures rows[ou.uuid].Deleted? && !old(rows)[ou.uuid].Deleted? && ou.username != "" ==>
        && GoneFrom(assoc, ou.username, report)
        && (hasUsernameBackend ==> ou.username in released)
      // Restored before the claim: nothing is touched.
      ensures !Claimable(ou, old(rows), o) ==>
        && !done && assoc == old(assoc) && released == old(released)
        && rows == Meanwhile(old(rows), o.restored)
      // Whatever fails, a row that could be claimed ends deleted or where the sweep finds it.
      ensures Claimable(ou, old(rows), o) ==> Departed(rows[ou.uuid]) || rows[ou.uuid].Deleted?
      ensures done ==> rows[ou.uuid].Deleted?
      ensures Smooth(o) && Claimable(ou, old(rows), o) ==> done
    {
      rows := Meanwhile(rows, o.restored);
      var held := Claim(ou, o.claim);
      if !held {
        return false;
      }
      done := TearDownClaimed(ou, report, hasUsernameBackend, o);
    }

    /** The revocation's removals: every resource is tried, whatever fails. */
    method RemoveEverywhere(targets: seq<Resource>, name: Username, calls: map<Resource, Call>)
      returns (failed: bool)
      modifies this`assoc
      ensures OnlyTouches(old(assoc), assoc, name)
      ensures failed <==> RemovalFails(targets, old(assoc), name, calls)
      ensures forall r :: r in targets && r in assoc && CallOn(calls, r).TakesEffect() ==>
        name !in assoc[r]
    {
      failed := false;
      var i := 0;
      while i < |targets|
        invariant 0 <= i <= |targets|
        invariant OnlyTouches(old(assoc), assoc, name)
        invariant forall r :: r in assoc && r !in targets[..i] ==> assoc[r] == old(assoc)[r]
        invariant forall r :: r in targets[..i] && r in assoc ==>
          if CallOn(calls, r).TakesEffect() then name !in assoc[r] else assoc[r] == old(assoc)[r]
        invariant failed <==> RemovalFails(targets[..i], old(assoc), name, calls)
      {
        var r := targets[i];
        assert targets[..i + 1] == targets[..i] + [r];
        var raised := RemoveUser(r, name, CallOn(calls, r));
        assert raised ==> FailsOn(r, old(assoc), name, calls);
        assert FailsOn(r, old(assoc), name, calls) ==> raised || r in targets[..i];
        failed := failed || raised;
        i := i + 1;
      }
      assert targets[..i] == targets;
    }

    /** `process_user_role_changed`, the revocation: the account is released only if the
        strict pull and every removal went through, but the removals run regardless. */
    method RoleRevoked(name: Username, resources: seq<Resource>, failing: set<Resource>,
                       calls: map<Resource, Call>, canRelease: bool)
      returns (asked: bool)
      modifies this
      ensures rows == old(rows) && strictPull == old(strictPull)
      ensures OnlyTouches(old(assoc), assoc, name)
      ensures asked <==>
        && (forall r :: r in resources ==> r !in failing)
        && (forall r :: r in resources && r in old(assoc) ==> !FailsOn(r, old(assoc), name, calls))
      ensures asked ==> forall r :: r in resources && r in assoc ==> name !in assoc[r]
      ensures forall r :: r in resources && r in assoc && CallOn(calls, r).TakesEffect() ==>
        name !in assoc[r]
      ensures released == if asked && canRelease then old(released) + {name} else old(released)
    {
      var pulled := PullResources(resources, true, failing);
      var targets := resources;
      if pulled.Some? {
        targets := ResourcesOf(pulled.value);
        PulledCover(resources, assoc, failing);
      }
      var failed := RemoveEverywhere(targets, name, calls);
      asked := pulled.Some? && !failed;
      if asked && canRelease {
        released := released + {name};
      }
    }

    /** `_process_requested_deletions` once the rows are listed: a strict pull of every
        resource, then one teardown after another. */
    method Sweep(departed: seq<OfferingUser>, names: map<Uuid, Username>, resources: seq<Resource>,
                 failing: set<Resource>, hasUsernameBackend: bool, outcomes: seq<Outcome>)
      requires |outcomes| == |departed| && Listing(departed, rows, names)
      requires Acknowledged(rows, assoc, released, names, resources, hasUsernameBackend)
      modifies this
      ensures strictPull == old(strictPull) && rows.Keys == old(rows).Keys
      ensures Acknowledged(rows, assoc, released, names, resources, hasUsernameBackend)
      ensures (exists r :: r in resources && r in failing) ==>
        rows == old(rows) && assoc == old(assoc) && released == old(released)
      ensures (forall r :: r in resources ==> r !in failing) && AllSmooth(outcomes) ==>
        forall i :: 0 <= i < |departed| ==> rows[departed[i].uuid].Deleted?
    {
      var pulled := PullResources(resources, true, failing);
      if pulled.None? {
        return;
      }
      var report := pulled.value;
      ghost var before := assoc;
      var i := 0;
      while i < |departed|
        invariant 0 <= i <= |departed| && rows.Keys == old(rows).Keys
        invariant strictPull == old(strictPull)
        invariant Acknowledged(rows, assoc, released, names, resources, hasUsernameBackend)
        invariant Shrunk(before, assoc)
        invariant forall j :: i <= j < |departed| && departed[j].state.Deleting? ==>
          rows[departed[j].uuid].Deleting?
        invariant AllSmooth(outcomes) ==> forall j :: i <= j < |departed| ==>
          rows[departed[j].uuid] == departed[j].state
        invariant AllSmooth(outcomes) ==> forall j :: 0 <= j < i ==> rows[departed[j].uuid].Deleted?
      {
        var ou := departed[i];
        ghost var rows0, assoc0, released0 := rows, assoc, released;
        var _ := TeardownUser(ou, report, hasUsernameBackend, outcomes[i]);
        ShrinksOn(before, assoc0, assoc, ou.username);
        ShrinksOn(assoc0, assoc0, assoc, ou.username);
        if rows[ou.uuid].Deleted? && !rows0[ou.uuid].Deleted? && ou.username != "" {
          PulledThenGone(resources, before, failing, assoc, ou.username);
        }
        StaysAcknowledged(rows0, rows, assoc0, assoc, released0, released, names, resources,
                          ou.uuid, hasUsernameBackend);
        i := i + 1;
      }
    }
  }

  /** Rows other than the one torn down change only as users change them. */
  predicate OnlyOthersByUsers(before: map<Uuid, RowState>, after: map<Uuid, RowState>, u: Uuid) {
    && after.Keys == before.Keys
    && forall v :: v in before && v != u ==>
      && (before[v].Deleting? || before[v].Deleted? ==> after[v] == before[v])
      && (after[v].Deleting? || after[v].Deleted? ==> after[v] == before[v])
  }

  lemma ShrinksOn(before: Associations, middle: Associations, after: Associations, name: Username)
    requires Shrunk(before, middle) && OnlyTouches(middle, after, name)
    ensures Shrunk(before, after)
  {
  }

  lemma StaysAcknowledged(rows0: map<Uuid, RowState>, rows: map<Uuid, RowState>, assoc0: Associations,
                          assoc: Associations, released0: set<Username>, released: set<Username>,
                          names: map<Uuid, Username>, resources: seq<Resource>, u: Uuid, hasUsernameBackend: bool)
    requires Acknowledged(rows0, assoc0, released0, names, resources, hasUsernameBackend)
    requires u in rows0 && OnlyOthersByUsers(rows0, rows, u)
    requires Shrunk(assoc0, assoc) && released0 <= released
    requires rows[u].Deleted? && !rows0[u].Deleted? && u in names && names[u] != "" ==>
      GoneOn(assoc, names[u], resources) && (hasUsernameBackend ==> names[u] in released)
    ensures Acknowledged(rows, assoc, released, names, resources, hasUsernameBackend)
  {
    forall v | v in rows && rows[v].Deleted? && v in names && names[v] != ""
      ensures GoneOn(assoc, names[v], resources) && (hasUsernameBackend ==> names[v] in released)
    {
      if rows0[v].Deleted? {
        assert GoneOn(assoc0, names[v], resources);
      }
    }
  }

  /** A person gone from every resource a full report lists them on is gone from all that were
      asked for. */
  lemma PulledThenGone(resources: seq<Resource>, before: Associations, failing: set<Resource>,
                       after: Associations, name: Username)
    requires forall r :: r in resources ==> r !in failing
    requires Shrunk(before, after) && GoneFrom(after, name, Report(resources, before, failing))
    ensures GoneOn(after, name, resources)
  {
    forall r | r in resources && r in after ensures name !in after[r] {
      ReportExact(resources, before, failing, Pulled(r, before[r]));
    }
  }

  lemma {:induction false} FailingUnreported(resources: seq<Resource>, assoc: Associations,
                                             failing: set<Resource>, r: Resource)
    requires r in failing
    ensures !Reports(Report(resources, assoc, failing), r)
  {
    if resources != [] {
      FailingUnreported(resources[1..], assoc, failing, r);
    }
  }

  /** Why the pull has to be strict: torn down on a report that quietly leaves out the
      resources it could not read, a person is gone from all resources exactly when none of
      those lists them. */
  lemma LenientPullExactly(resources: seq<Resource>, before: Associations, failing: set<Resource>,
                           after: Associations, name: Username)
    requires var report := Report(resources, before, failing);
      && OnlyTouches(before, after, name) && GoneFrom(after, name, report)
      && forall r :: r in before && !Reports(report, r) ==> after[r] == before[r]
    ensures GoneOn(after, name, resources)
      <==> forall r :: r in resources && r in before && r in failing ==> name !in before[r]
  {
    var report := Report(resources, before, failing);
    forall r | r in resources && r in before
      ensures name in after[r] <==> r in failing && name in before[r]
    {
      if r in failing {
        FailingUnreported(resources, before, failing, r);
      } else {
        ReportExact(resources, before, failing, Pulled(r, before[r]));
      }
    }
  }

  /** The row is ours already, or Waldur would still give it to us at the claim. */
  predicate Claimable(ou: OfferingUser, rows: map<Uuid, RowState>, o: Outcome)
    requires ou.uuid in rows
  {
    ou.state.Deleting? || (Departed(ou.state) && MayClaim(Meanwhile(rows, o.restored)[ou.uuid]))
  }

  predicate Smooth(o: Outcome) {
    && o.claim.Delivered? && o.complete.Delivered? && o.release.Done?
    && forall r :: r in o.removals ==> o.removals[r].Done?
  }

  /** No call fails and no user interferes. */
  predicate AllSmooth(os: seq<Outcome>) {
    forall i :: 0 <= i < |os| ==> Smooth(os[i]) && os[i].restored == map[] && os[i].later == map[]
  }

  /** Every offering user listed once, in a departed state that was current at the listing. */
  predicate Listing(departed: seq<OfferingUser>, rows: map<Uuid, RowState>, names: map<Uuid, Username>) {
    && (forall i :: 0 <= i < |departed| ==>
          && departed[i].uuid in rows && rows[departed[i].uuid] == departed[i].state
          && Departed(departed[i].state)
          && departed[i].uuid in names && names[departed[i].uuid] == departed[i].username)
    && (forall i, j :: 0 <= i < j < |departed| ==> departed[i].uuid != departed[j].uuid)
  }

  /** No listed resource refers to a person Waldur shows as deleted, and their account was
      released. */
  predicate Acknowledged(rows: map<Uuid, RowState>, assoc: Associations, released: set<Username>,
                         names: map<Uuid, Username>, resources: seq<Resource>, hasUsernameBackend: bool)
  {
    forall u :: u in rows && rows[u].Deleted? && u in names && names[u] != "" ==>
      GoneOn(assoc, names[u], resources) && (hasUsernameBackend ==> names[u] in released)
  }

  predicate Shrunk(before: Associations, after: Associations) {
    after.Keys == before.Keys && forall r :: r in before ==> after[r] <= before[r]
  }
}
