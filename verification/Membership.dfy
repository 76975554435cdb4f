/**
One membership pass over one resource: grouping, additions, removals and the release of
accounts (`_group_resource_usernames`, `_sync_resource_users`, `_confirmed_removals` in
waldur_site_agent/common/processors.py; `add_users_to_resource`, `remove_users_from_resource`
in waldur_site_agent/backend/backends.py).
 */
module Membership {
  type Username = string

  /** How the call for one user goes: `Aborts` is an error the loop does not catch. */
  datatype UserCall = Done | NotProvisioned | RaisedBefore | RaisedAfter | Aborts

  function CallFor(calls: map<Username, UserCall>, u: Username): UserCall {
    if u in calls then calls[u] else Done
  }

  /** What Waldur holds about the resource and the offering at the time of the pass.
      `accounts` are the project's service and course accounts that are not closed, `known`
      the usernames of the offering's users in any state, `active` those of the users the
      pass works with. */
  datatype Waldur = Waldur(
    team: set<Username>,
    accounts: set<Username>,
    known: set<Username>,
    active: set<Username>)

  datatype Settings = Settings(preserveUnmanaged: bool, identityBridge: bool)
  {
    predicate Preserves() { preserveUnmanaged && !identityBridge }
  }

  /** Backend users a pass must leave alone although they are not in the team. */
  predicate Protected(w: Waldur, c: Settings, u: Username) {
    u in w.accounts || (c.Preserves() && u !in w.known)
  }

  /** The users a pass without faults leaves on the backend. */
  function Synced(w: Waldur, c: Settings, users: set<Username>): set<Username> {
    w.team + set u | u in users && Protected(w, c, u)
  }

  /** A second pass has nothing to do. */
  lemma SecondPassIsIdle(w: Waldur, c: Settings, users: set<Username>)
    ensures Synced(w, c, Synced(w, c, users)) == Synced(w, c, users)
    ensures w.team - Synced(w, c, users) == {}
    ensures forall u :: u in Synced(w, c, users) - w.team ==> Protected(w, c, u)
  {
  }

  /** What the backend hands back from a removal: names, or something that cannot be read
      as a collection of names. */
  datatype Returned = Names(names: seq<Username>) | Unreadable

  function Confirmed(requested: set<Username>, returned: Returned): (r: set<Username>)
    ensures r <= requested
    ensures returned.Names? ==> forall u :: u in r <==> u in requested && u in returned.names
    ensures returned.Unreadable? ==> r == requested
  {
    match returned
    case Names(names) => requested * set u | u in names
    case Unreadable => requested
  }

  class Sync {
    const settings: Settings
    // the resource's users on the backend, and the accounts released
    var users: set<Username>
    var released: set<Username>
    // `_known_offering_usernames_fetch_failed`, kept for the rest of the cycle
    var knownFetchFailed: bool

    constructor (settings: Settings, users: set<Username>)
      ensures this.settings == settings && this.users == users && released == {} && !knownFetchFailed
    {
      this.settings, this.users, released, knownFetchFailed := settings, users, {}, false;
    }

    /** Waldur's lists that decide about removals could be read. */
    predicate Read(accountsUp: bool, knownUp: bool, failedBefore: bool) {
      accountsUp && (settings.Preserves() ==> knownUp && !failedBefore)
    }

    /** The backend users that go. Without the account list nobody does; without the list
        of known users only those who are active in the offering. */
    method Stale(w: Waldur, accountsUp: bool, knownUp: bool) returns (stale: set<Username>)
      modifies this`knownFetchFailed
      ensures stale <= users - w.team
      ensures w.active <= w.known ==> forall u :: u in stale ==> !Protected(w, settings, u)
      ensures !accountsUp ==> stale == {}
      ensures Read(accountsUp, knownUp, old(knownFetchFailed)) ==>
        stale == set u | u in users - w.team && !Protected(w, settings, u)
      ensures knownFetchFailed ==> old(knownFetchFailed) || !knownUp
    {
      stale := users - w.team;
      if stale != {} {
        stale := if accountsUp then stale - w.accounts else {};
      }
      if stale != {} && settings.Preserves() {
        if knownFetchFailed {
          stale := stale * w.active;
        } else if !knownUp {
          knownFetchFailed := true;
          stale := stale * w.active;
        } else {
          stale := stale * w.known;
        }
      }
    }

    /** `add_users_to_resource`. */
    method AddUsers(names: set<Username>, calls: map<Username, UserCall>)
      returns (added: set<Username>, aborted: bool)
      modifies this`users
      ensures old(users) <= users <= old(users) + names
      ensures added <= names * users
      ensures (forall u :: u in names ==> CallFor(calls, u).Done?) ==>
        !aborted && added == names && users == old(users) + names
      ensures !aborted ==> forall u :: u in names && CallFor(calls, u).Done? ==> u in added
    {
      added, aborted := {}, false;
      var rest := names;
      while rest != {}
        invariant rest <= names && added <= names - rest
        invariant old(users) <= users <= old(users) + (names - rest)
        invariant added <= users
        invariant forall u :: u in names - rest && CallFor(calls, u).Done? ==> u in added
        decreases rest
      {
        var u :| u in rest;
        rest := rest - {u};
        match CallFor(calls, u) {
          case Done =>
            users := users + {u};
            added := added + {u};
          case NotProvisioned =>
          case RaisedBefore =>
          case RaisedAfter =>
            users := users + {u};
          case Aborts =>
            aborted := true;
            return;
        }
      }
      assert names - rest == names;
    }

    /** `remove_users_from_resource`: what it returns is gone. */
    method RemoveUsers(names: set<Username>, calls: map<Username, UserCall>)
      returns (removed: seq<Username>, aborted: bool)
      modifies this`users
      ensures old(users) - names <= users <= old(users)
      ensures forall u :: u in removed ==> u in names && u !in users
      ensures (forall u :: u in names ==> CallFor(calls, u).Done?) ==>
        !aborted && users == old(users) - names
      ensures !aborted ==> forall u :: u in names * old(users) && CallFor(calls, u).Done? ==> u in removed
    {
      removed, aborted := [], false;
      var rest := names;
      while rest != {}
        invariant rest <= names
        invariant old(users) - (names - rest) <= users <= old(users)
        invariant forall u :: u in removed ==> u in names - rest && u !in users
        invariant forall u :: u in names - rest && CallFor(calls, u).Done? ==> u !in users
        invariant forall u :: u in names - rest && u in old(users) && CallFor(calls, u).Done? ==> u in removed
        decreases rest
      {
        var u :| u in rest;
        rest := rest - {u};
        if u in users {
          match CallFor(calls, u) {
            case Done =>
              users := users - {u};
              removed := removed + [u];
            case RaisedAfter =>
              users := users - {u};
            case Aborts =>
              aborted := true;
              return;
            case _ =>
          }
        }
      }
    }

    /** `_release_departed_users`: only names of the offering's users are passed on. */
    method Release(names: set<Username>, w: Waldur, works: bool)
      modifies this`released
      ensures released == old(released) + (if works then names * w.known else {})
    {
      if works {
        released := released + names * w.known;
      }
    }

    /** `_sync_resource_users`; the users it reports as the resource's. */
    method SyncUsers(w: Waldur, restricted: bool, accountsUp: bool, knownUp: bool,
                     adds: map<Username, UserCall>, removes: map<Username, UserCall>,
                     releaseWorks: bool)
      returns (actual: set<Username>, aborted: bool)
      requires w.active <= w.known
      modifies this
      // Whatever fails, nobody in the team and nobody protected loses access ...
      ensures !restricted ==> forall u :: u in old(users) && (u in w.team || Protected(w, settings, u)) ==>
        u in users
      ensures users <= old(users) + w.team
      // ... and no account is released whose association is still there.
      ensures forall u :: u in released - old(released) ==> u in old(users) && u !in users && u !in w.team
      // Without faults the backend has the team and the protected users it had.
      ensures !restricted && AllDone(adds) && AllDone(removes) && Read(accountsUp, knownUp, old(knownFetchFailed)) ==>
        !aborted && users == Synced(w, settings, old(users)) && actual == w.team
      // A pass with faults leaves what a pass without them would reach unchanged, so any
      // number of them converges with the first that has none.
      ensures !restricted ==> Synced(w, settings, users) == Synced(w, settings, old(users))
      // A restricted resource loses its members and nobody else.
      ensures restricted ==> released == old(released) && old(users) - w.team <= users <= old(users)
      ensures restricted && AllDone(removes) ==> users == old(users) - w.team
    {
      actual, aborted := {}, false;
      var existing := w.team * users;
      var missing := w.team - users;
      var stale := Stale(w, accountsUp, knownUp);
      if restricted {
        var _, failed := RemoveUsers(existing, removes);
        return {}, failed;
      }
      var added;
      added, aborted := AddUsers(missing, adds);
      if aborted {
        return;
      }
      var removed;
      removed, aborted := RemoveUsers(stale, removes);
      if aborted {
        return;
      }
      Release(Confirmed(stale, Names(removed)), w, releaseWorks);
      actual := existing + added;
    }

    /** Passes of consecutive cycles while Waldur holds the same: whatever fails on the way,
        a pass without faults ends where a single pass without faults would have. */
    method Cycles(w: Waldur, faults: seq<Faults>)
      requires w.active <= w.known
      modifies this
      ensures forall u :: u in old(users) && (u in w.team || Protected(w, settings, u)) ==> u in users
      ensures Synced(w, settings, users) == Synced(w, settings, old(users))
      ensures faults != [] && faults[|faults| - 1].None() ==> users == Synced(w, settings, old(users))
    {
      var i := 0;
      while i < |faults|
        invariant 0 <= i <= |faults|
        invariant forall u :: u in old(users) && (u in w.team || Protected(w, settings, u)) ==> u in users
        invariant Synced(w, settings, users) == Synced(w, settings, old(users))
        invariant i > 0 && faults[i - 1].None() ==> users == Synced(w, settings, old(users))
      {
        var f := faults[i];
        knownFetchFailed := false;
        var _, _ := SyncUsers(w, false, f.accountsUp, f.knownUp, f.adds, f.removes, f.releaseWorks);
        i := i + 1;
      }
    }
  }

  datatype Faults = Faults(
    accountsUp: bool,
    knownUp: bool,
    adds: map<Username, UserCall>,
    removes: map<Username, UserCall>,
    releaseWorks: bool)
  {
    predicate None() { accountsUp && knownUp && AllDone(adds) && AllDone(removes) }
  }

  predicate AllDone(calls: map<Username, UserCall>) {
    forall u :: u in calls ==> calls[u].Done?
  }
}
