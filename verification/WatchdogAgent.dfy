/** The watchdog object: a tick updates its dictionaries and keeps them true to the history. */
module WatchdogAgent {
  import opened Wrappers
  import opened Watchdog
  import opened WatchdogProof

  /** An offering as configured: whether it observes anything itself and whether it has
      federation targets. */
  datatype Offering = Offering(uuid: nat, stompEnabled: bool, observes: bool, expectsTargets: bool)

  function Sources(offerings: seq<Offering>): set<nat> {
    set o | o in offerings && o.stompEnabled :: o.uuid
  }

  predicate HasMain(consumers: seq<Consumer>, uuid: nat) {
    exists i :: 0 <= i < |consumers| && consumers[i].offering == uuid && consumers[i].uuid == uuid
  }

  predicate HasTarget(consumers: seq<Consumer>, uuid: nat) {
    exists i :: 0 <= i < |consumers| && consumers[i].offering == uuid && consumers[i].uuid != uuid
  }

  /** One setup item of a tick: when its consumer is missing, it is visited. */
  function ItemPass(t: Tables, h: History, k: Item, missing: bool, now: real, a: Attempt): (Tables, History)
    requires k.Setup?
  {
    if missing then (Retried(t, k, now, a), HistoryAfter(t, h, k, now, a)) else (t, h)
  }

  /** `_check_offering_setup`: an offering's own consumer, then its targets'. */
  function OfferingPass(t: Tables, h: History, o: Offering, now: real, tries: Item -> Attempt)
    : (Tables, History)
  {
    if !o.stompEnabled then (t, h)
    else
      var main, target := Setup(o.uuid, Main), Setup(o.uuid, Target);
      var (t1, h1) := ItemPass(t, h, main, o.observes && !HasMain(t.consumers, o.uuid), now, tries(main));
      ItemPass(t1, h1, target, o.expectsTargets && !HasTarget(t1.consumers, o.uuid), now, tries(target))
  }

  function SetupPass(t: Tables, h: History, os: seq<Offering>, now: real, tries: Item -> Attempt)
    : (Tables, History)
  {
    if os == [] then (t, h)
    else
      var (t1, h1) := SetupPass(t, h, os[..|os| - 1], now, tries);
      OfferingPass(t1, h1, os[|os| - 1], now, tries)
  }

  /** New consumers start with an empty history; the others keep theirs. */
  predicate Grows(t: Tables, h: History, t': Tables, h': History) {
    && |t.consumers| == |h.ticks| && |t'.consumers| == |h'.ticks|
    && t.consumers <= t'.consumers && h.ticks <= h'.ticks
    && forall c :: |t.consumers| <= c < |t'.consumers| ==> h'.ticks[c] == []
  }

  lemma ItemPassGrows(t: Tables, h: History, k: Item, missing: bool, now: real, a: Attempt)
    requires k.Setup? && |t.consumers| == |h.ticks|
    ensures var (t', h') := ItemPass(t, h, k, missing, now, a); Grows(t, h, t', h')
  {
    RetryFrame(t, k, now, a);
  }

  class StompWatchdog {
    const offerings: seq<Offering>
    const unhealthyAfter: real
    const stuckAfter: real
    var consumers: seq<Consumer>
    var downSince: map<Item, real>
    var reportedDownSince: map<Item, real>
    var reported: set<Item>
    var connectedTicks: map<nat, nat>
    var nextSetupRetry: map<Item, real>
    var setupRetryDelay: map<Item, real>
    ghost var history: History

    ghost function View(): Tables
      reads this
    {
      Tables(consumers, downSince, reportedDownSince, reported, connectedTicks, nextSetupRetry,
             setupRetryDelay)
    }

    ghost predicate Valid()
      reads this
    {
      Refines(View(), history, Sources(offerings), stuckAfter)
    }

    constructor (offerings: seq<Offering>, consumers: seq<Consumer>, unhealthyAfter: real, stuckAfter: real)
      ensures Valid() && this.consumers == consumers && history.ticks == Blank(|consumers|)
      ensures history.visits == map[]
    {
      this.offerings, this.consumers := offerings, consumers;
      this.unhealthyAfter, this.stuckAfter := unhealthyAfter, stuckAfter;
      downSince, reportedDownSince, reported := map[], map[], {};
      connectedTicks, nextSetupRetry, setupRetryDelay := map[], map[], map[];
      history := History(Blank(|consumers|), map[]);
    }

    method CheckHandler(c: nat, seen: Tick, critical: bool)
      requires seen.hasListener
      modifies this`downSince, this`reportedDownSince
      ensures View() == HandlerChecked(old(View()), c, seen, critical, stuckAfter)
    {
      var table := if critical then downSince else reportedDownSince;
      if !seen.Stuck(stuckAfter) {
        table := table - {Handler(c)};
      } else if Handler(c) !in table {
        table := table[Handler(c) := seen.handlerStarted.value + stuckAfter];
      }
      if critical {
        downSince := table;
      } else {
        reportedDownSince := table;
      }
    }

    method CheckConnection(c: nat, seen: Tick, critical: bool)
      modifies this`downSince, this`reportedDownSince, this`connectedTicks, this`reported
      ensures View() == ConnectionChecked(old(View()), c, seen, critical)
    {
      var table := if critical then downSince else reportedDownSince;
      if seen.connected {
        var ticks := (if c in connectedTicks then connectedTicks[c] else 0) + 1;
        connectedTicks := connectedTicks[c := ticks];
        if ticks >= STABLE_TICKS && Connection(c) in table {
          table := table - {Connection(c)};
          reported := reported - {Connection(c)};
        }
      } else {
        if Connection(c) !in table {
          table := table[Connection(c) := seen.now];
        }
        var reconnected := seen.hasListener && !seen.reconnecting && seen.reconnects;
        connectedTicks := connectedTicks[c := if reconnected then 1 else 0];
      }
      if critical {
        downSince := table;
      } else {
        reportedDownSince := table;
      }
    }

    method CheckConsumer(c: nat, seen: Tick, critical: bool)
      modifies this`downSince, this`reportedDownSince, this`connectedTicks, this`reported
      ensures View() == ConsumerChecked(old(View()), c, seen, critical, stuckAfter)
    {
      if seen.hasListener {
        CheckHandler(c, seen, critical);
      }
      CheckConnection(c, seen, critical);
    }

    method ScheduleSetupRetry(k: Item, now: real, fixed: Option<real>)
      modifies this`nextSetupRetry, this`setupRetryDelay
      ensures View() == Scheduled(old(View()), k, now, fixed)
    {
      var delay;
      if fixed.Some? {
        delay := fixed.value;
      } else {
        var before := if k in setupRetryDelay then setupRetryDelay[k] else SETUP_RETRY_INITIAL / 2.0;
        delay := Min(before * 2.0, SETUP_RETRY_MAX);
      }
      setupRetryDelay := setupRetryDelay[k := delay];
      nextSetupRetry := nextSetupRetry[k := now + delay];
    }

    method Notice(k: Item, now: real)
      requires k.Setup?
      modifies this`downSince, this`reportedDownSince
      ensures View() == Noticed(old(View()), k, now)
    {
      if k.role.Main? && k !in reported {
        if k !in downSince {
          downSince := downSince[k := now];
        }
      } else if k !in reportedDownSince {
        reportedDownSince := reportedDownSince[k := now];
      }
    }

    method TrySetup(k: Item, now: real, a: Attempt)
      requires k.Setup?
      modifies this
      ensures View() == Attempted(old(View()), k, now, a) && history == old(history)
    {
      match a {
        case Refusal =>
          var since := if k in downSince then downSince[k] else now;
          reported := reported + {k};
          if k !in reportedDownSince {
            reportedDownSince := reportedDownSince[k := since];
          }
          downSince := downSince - {k};
          ScheduleSetupRetry(k, now, Some(SETUP_RETRY_MAX));
        case Error =>
          ScheduleSetupRetry(k, now, None);
        case Opened(uuids) =>
          if uuids == [] {
            ScheduleSetupRetry(k, now, None);
          } else {
            consumers := consumers + Consumers(k.offering, uuids);
            nextSetupRetry, setupRetryDelay := nextSetupRetry - {k}, setupRetryDelay - {k};
            reported, reportedDownSince := reported - {k}, reportedDownSince - {k};
            downSince := downSince - {k};
          }
      }
    }

    method RetrySetup(k: Item, now: real, a: Attempt)
      requires k.Setup? && Valid()
      modifies this
      ensures Valid()
      ensures View() == Retried(old(View()), k, now, a)
      ensures history == HistoryAfter(old(View()), old(history), k, now, a)
    {
      RetryRefines(View(), history, Sources(offerings), stuckAfter, k, now, a);
      Notice(k, now);
      if k !in nextSetupRetry || now >= nextSetupRetry[k] {
        TrySetup(k, now, a);
      }
      history := HistoryAfter(old(View()), history, k, now, a);
    }

    method CheckOfferingSetup(o: Offering, now: real, tries: Item -> Attempt)
      requires Valid() && o.stompEnabled
      modifies this
      ensures Valid()
      ensures (View(), history) == OfferingPass(old(View()), old(history), o, now, tries)
      ensures Grows(old(View()), old(history), View(), history)
    {
      var main, target := Setup(o.uuid, Main), Setup(o.uuid, Target);
      var missing := o.observes && !HasMain(consumers, o.uuid);
      ItemPassGrows(View(), history, main, missing, now, tries(main));
      if missing {
        RetrySetup(main, now, tries(main));
      }
      missing := o.expectsTargets && !HasTarget(consumers, o.uuid);
      ItemPassGrows(View(), history, target, missing, now, tries(target));
      if missing {
        RetrySetup(target, now, tries(target));
      }
    }

    method CheckSetups(now: real, tries: Item -> Attempt)
      requires Valid()
      modifies this
      ensures Valid()
      ensures (View(), history) == SetupPass(old(View()), old(history), offerings, now, tries)
      ensures Grows(old(View()), old(history), View(), history)
    {
      var i := 0;
      while i < |offerings|
        invariant 0 <= i <= |offerings| && Valid()
        invariant (View(), history) == SetupPass(old(View()), old(history), offerings[..i], now, tries)
        invariant Grows(old(View()), old(history), View(), history)
      {
        assert offerings[..i + 1][..i] == offerings[..i];
        if offerings[i].stompEnabled {
          CheckOfferingSetup(offerings[i], now, tries);
        }
        i := i + 1;
      }
      assert offerings[..i] == offerings;
    }

    method ReportPersistentOutages(now: real)
      modifies this`reported
      ensures View() == Reported(old(View()), now, unhealthyAfter)
    {
      var rest := reportedDownSince.Keys;
      ghost var all := set k | k in reportedDownSince && now - reportedDownSince[k] >= unhealthyAfter;
      while rest != {}
        invariant rest <= reportedDownSince.Keys
        invariant reported == old(reported) + (all - rest)
        decreases rest
      {
        var k :| k in rest;
        if k !in reported && now - reportedDownSince[k] >= unhealthyAfter {
          reported := reported + {k};
        }
        rest := rest - {k};
      }
    }

    /** False exactly when some time in the liveness table is too old. */
    method Healthy(now: real) returns (healthy: bool)
      ensures healthy <==> !exists k :: k in downSince && now - downSince[k] >= unhealthyAfter
    {
      var rest := downSince.Keys;
      healthy := true;
      while rest != {}
        invariant rest <= downSince.Keys
        invariant healthy <==>
          forall k :: k in downSince && k !in rest ==> now - downSince[k] < unhealthyAfter
        decreases rest
      {
        var k :| k in rest;
        if now - downSince[k] >= unhealthyAfter {
          healthy := false;
        }
        rest := rest - {k};
      }
    }

    /** One tick: setups first, then every consumer, those just set up included. */
    method Check(now: real, seen: nat -> Tick, tries: Item -> Attempt) returns (healthy: bool)
      requires Valid()
      modifies this
      ensures Valid()
      ensures healthy <==>
        !Withholds(history, consumers, Sources(offerings), stuckAfter, now, unhealthyAfter)
      // The history is the one the tick makes: each item visited as it was found missing ...
      ensures var (t, h) := SetupPass(old(View()), old(history), offerings, now, tries);
        consumers == t.consumers && history.visits == h.visits && old(consumers) <= consumers
      // ... and one more tick for every consumer, those just set up included.
      ensures forall c :: 0 <= c < |old(consumers)| ==>
        history.ticks[c] == old(history.ticks)[c] + [seen(c).(now := now)]
      ensures forall c :: |old(consumers)| <= c < |consumers| ==>
        history.ticks[c] == [seen(c).(now := now)]
    {
      ghost var sources := Sources(offerings);
      CheckSetups(now, tries);
      ghost var visits := history.visits;
      var all := Sources(offerings);
      ghost var before := history.ticks;
      ghost var known := consumers;
      var c := 0;
      while c < |consumers|
        invariant 0 <= c <= |consumers| == |before| && Valid() && consumers == known
        invariant history.visits == visits
        invariant forall d :: 0 <= d < c ==> history.ticks[d] == before[d] + [seen(d).(now := now)]
        invariant forall d :: c <= d < |consumers| ==> history.ticks[d] == before[d]
      {
        var tick := seen(c).(now := now);
        var critical := consumers[c].uuid in all;
        ConsumerRefines(View(), history, sources, stuckAfter, c, tick);
        history := history.(ticks := history.ticks[c := history.ticks[c] + [tick]]);
        ConsumerFrame(View(), c, tick, critical, stuckAfter);
        CheckConsumer(c, tick, critical);
        c := c + 1;
      }
      ReportRefines(View(), history, sources, stuckAfter, now, unhealthyAfter);
      ReportPersistentOutages(now);
      HealthMeans(View(), history, sources, stuckAfter, now, unhealthyAfter);
      healthy := Healthy(now);
    }
  }
}
