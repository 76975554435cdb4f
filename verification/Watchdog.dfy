/**
The watchdog over the event-mode consumers
(waldur_site_agent/event_processing/watchdog.py). Every tick it retries what is down and
decides whether to withhold liveness. Its tables are proved to say what a plain history of
the ticks says.

Consumers are numbered in the order they were added to the map; the number stands for the
identity of the connection.
 */
module Watchdog {
  import opened Wrappers

  datatype Role = Main | Target

  datatype Item = Setup(offering: nat, role: Role) | Connection(id: nat) | Handler(id: nat)

  const STABLE_TICKS := 2
  const SETUP_RETRY_INITIAL := 60.0
  const SETUP_RETRY_MAX := 900.0

  function Min(x: real, y: real): real { if x < y then x else y }

  // ---- what a tick sees -------------------------------------------------------------

  /** One consumer during one tick. `reconnects` is what a reconnect would return. */
  datatype Tick = Tick(
    now: real,
    hasListener: bool,
    handlerStarted: Option<real>,
    connected: bool,
    reconnecting: bool,
    reconnects: bool)
  {
    predicate Reconnected() { !connected && hasListener && !reconnecting && reconnects }

    predicate Stuck(after: real) {
      handlerStarted.Some? && now - handlerStarted.value >= after
    }
  }

  /** A setup attempt: new consumers by their offering uuid, none of them, a persistent 4xx
      refusal, or any other error. */
  datatype Attempt = Opened(uuids: seq<nat>) | Refusal | Error

  /** A tick on which an item's consumer was missing, and the attempt made then, if any. */
  datatype Visit = Visit(now: real, tried: Option<Attempt>)

  // ---- the tables -------------------------------------------------------------------

  datatype Consumer = Consumer(offering: nat, uuid: nat)

  datatype Tables = Tables(
    consumers: seq<Consumer>,
    down: map<Item, real>,
    rep: map<Item, real>,
    reported: set<Item>,
    streak: map<nat, nat>,
    next: map<Item, real>,
    delay: map<Item, real>)

  function Get<K, V>(m: map<K, V>, k: K): Option<V> { if k in m then Some(m[k]) else None }

  function SetDefault(m: map<Item, real>, k: Item, v: real): map<Item, real> {
    if k in m then m else m[k := v]
  }

  /** The table that holds an item of a consumer. */
  function Table(t: Tables, critical: bool): map<Item, real> { if critical then t.down else t.rep }

  function WithTable(t: Tables, critical: bool, m: map<Item, real>): Tables {
    if critical then t.(down := m) else t.(rep := m)
  }

  /** `_check_handler`. */
  function HandlerChecked(t: Tables, c: nat, seen: Tick, critical: bool, stuckAfter: real): Tables {
    if !seen.hasListener then t
    else
      var m := Table(t, critical);
      WithTable(t, critical,
        if seen.Stuck(stuckAfter)
        then SetDefault(m, Handler(c), seen.handlerStarted.value + stuckAfter)
        else m - {Handler(c)})
  }

  /** `_check_consumer` after the handler: recovery, or down and perhaps reconnected. */
  function ConnectionChecked(t: Tables, c: nat, seen: Tick, critical: bool): Tables {
    var m := Table(t, critical);
    if seen.connected then
      var ticks := (if c in t.streak then t.streak[c] else 0) + 1;
      var t' := t.(streak := t.streak[c := ticks]);
      if ticks >= STABLE_TICKS && Connection(c) in m
      then WithTable(t', critical, m - {Connection(c)}).(reported := t.reported - {Connection(c)})
      else t'
    else
      WithTable(t, critical, SetDefault(m, Connection(c), seen.now))
        .(streak := t.streak[c := if seen.Reconnected() then 1 else 0])
  }

  function ConsumerChecked(t: Tables, c: nat, seen: Tick, critical: bool, stuckAfter: real): Tables {
    ConnectionChecked(HandlerChecked(t, c, seen, critical, stuckAfter), c, seen, critical)
  }

  /** `_schedule_setup_retry`. */
  function Scheduled(t: Tables, k: Item, now: real, fixed: Option<real>): Tables {
    var d := match fixed
      case Some(d) => d
      case None =>
        Min((if k in t.delay then t.delay[k] else SETUP_RETRY_INITIAL / 2.0) * 2.0, SETUP_RETRY_MAX);
    t.(delay := t.delay[k := d], next := t.next[k := now + d])
  }

  /** The time an item is first seen missing goes into the table it belongs to. */
  function Noticed(t: Tables, k: Item, now: real): Tables
    requires k.Setup?
  {
    if k.role.Main? && k !in t.reported
    then t.(down := SetDefault(t.down, k, now))
    else t.(rep := SetDefault(t.rep, k, now))
  }

  predicate Due(t: Tables, k: Item, now: real) { k in t.next ==> now >= t.next[k] }

  function Consumers(offering: nat, uuids: seq<nat>): (r: seq<Consumer>)
    ensures |r| == |uuids|
  {
    if uuids == [] then [] else [Consumer(offering, uuids[0])] + Consumers(offering, uuids[1..])
  }

  /** A refused item moves to the table that never withholds liveness. */
  function MarkedRefused(t: Tables, k: Item, now: real): Tables {
    t.(reported := t.reported + {k},
       rep := SetDefault(t.rep, k, if k in t.down then t.down[k] else now),
       down := t.down - {k})
  }

  function SetUp(t: Tables, k: Item, uuids: seq<nat>): Tables
    requires k.Setup?
  {
    t.(consumers := t.consumers + Consumers(k.offering, uuids),
       next := t.next - {k}, delay := t.delay - {k}, reported := t.reported - {k},
       rep := t.rep - {k}, down := t.down - {k})
  }

  /** What an attempt does to the tables of its item. */
  function Attempted(t: Tables, k: Item, now: real, a: Attempt): Tables
    requires k.Setup?
  {
    match a
    case Refusal => Scheduled(MarkedRefused(t, k, now), k, now, Some(SETUP_RETRY_MAX))
    case Error => Scheduled(t, k, now, None)
    case Opened(uuids) => if uuids == [] then Scheduled(t, k, now, None) else SetUp(t, k, uuids)
  }

  /** `_retry_setup`. */
  function Retried(t: Tables, k: Item, now: real, a: Attempt): Tables
    requires k.Setup?
  {
    var t' := Noticed(t, k, now);
    if Due(t', k, now) then Attempted(t', k, now, a) else t'
  }

  /** `_report_persistent_outages`. */
  function Reported(t: Tables, now: real, unhealthyAfter: real): Tables {
    t.(reported := t.reported + set k | k in t.rep && now - t.rep[k] >= unhealthyAfter)
  }

  // ---- the history ------------------------------------------------------------------

  /** The ticks each consumer was checked on, and for each setup item the ticks it was
      missing on since a setup last succeeded. */
  datatype History = History(ticks: seq<seq<Tick>>, visits: map<Item, seq<Visit>>)

  function VisitsOf(h: History, k: Item): seq<Visit> { if k in h.visits then h.visits[k] else [] }

  /** Consecutive connected ticks, a successful reconnect counting as the first. */
  function Streak(h: seq<Tick>): nat {
    if h == [] then 0
    else
      var t := h[|h| - 1];
      if t.connected then Streak(h[..|h| - 1]) + 1 else if t.Reconnected() then 1 else 0
  }

  function DownSince(h: seq<Tick>): Option<real> {
    if h == [] then None
    else
      var t, before := h[|h| - 1], DownSince(h[..|h| - 1]);
      if t.connected then (if Streak(h) >= STABLE_TICKS then None else before)
      else if before.Some? then before else Some(t.now)
  }

  function StuckSince(h: seq<Tick>, after: real): Option<real> {
    if h == [] then None
    else
      var t, before := h[|h| - 1], StuckSince(h[..|h| - 1], after);
      if !t.hasListener then before
      else if !t.Stuck(after) then None
      else if before.Some? then before else Some(t.handlerStarted.value + after)
  }

  predicate WasRefused(vs: seq<Visit>) {
    exists i :: 0 <= i < |vs| && vs[i].tried == Some(Refusal)
  }

  /** The delay scheduled by the last attempt, zero before the first. */
  function RetryDelay(vs: seq<Visit>): real {
    if vs == [] then 0.0
    else
      var before := RetryDelay(vs[..|vs| - 1]);
      match vs[|vs| - 1].tried
      case None => before
      case Some(Refusal) => SETUP_RETRY_MAX
      case Some(_) =>
        Min((if before == 0.0 then SETUP_RETRY_INITIAL / 2.0 else before) * 2.0, SETUP_RETRY_MAX)
  }

  function Attempts(vs: seq<Visit>): nat {
    if vs == [] then 0
    else Attempts(vs[..|vs| - 1]) + (if vs[|vs| - 1].tried.Some? then 1 else 0)
  }

  /** When the last attempt was made. */
  function LastAttempt(vs: seq<Visit>): real {
    if vs == [] then 0.0
    else if vs[|vs| - 1].tried.Some? then vs[|vs| - 1].now
    else LastAttempt(vs[..|vs| - 1])
  }

  function VisitsAfter(vs: seq<Visit>, now: real, due: bool, a: Attempt): seq<Visit> {
    if due && a.Opened? && a.uuids != [] then []
    else vs + [Visit(now, if due then Some(a) else None)]
  }

  // ---- the tables say what the history says -------------------------------------------

  predicate Critical(t: Tables, sources: set<nat>, c: nat)
    requires c < |t.consumers|
  {
    t.consumers[c].uuid in sources
  }

  predicate ConsumerTrue(t: Tables, h: History, sources: set<nat>, stuckAfter: real, c: nat)
    requires c < |t.consumers| == |h.ticks|
  {
    var crit := Critical(t, sources, c);
    && (if c in t.streak then t.streak[c] else 0) == Streak(h.ticks[c])
    && Get(Table(t, crit), Connection(c)) == DownSince(h.ticks[c])
    && Get(Table(t, crit), Handler(c)) == StuckSince(h.ticks[c], stuckAfter)
    && Connection(c) !in Table(t, !crit) && Handler(c) !in Table(t, !crit)
  }

  predicate SetupTrue(t: Tables, h: History, k: Item)
    requires k.Setup?
  {
    var vs := VisitsOf(h, k);
    var counts := k.role.Main? && !WasRefused(vs);
    && (k.role.Main? ==> (k in t.reported <==> WasRefused(vs)))
    && Get(Table(t, counts), k) == (if vs == [] then None else Some(vs[0].now))
    && k !in Table(t, !counts)
    && (vs != [] ==> vs[0].tried.Some?)
    && Get(t.delay, k) == (if vs == [] then None else Some(RetryDelay(vs)))
    && Get(t.next, k) == (if vs == [] then None else Some(LastAttempt(vs) + RetryDelay(vs)))
  }

  predicate Known(t: Tables, k: Item) { k.Setup? || k.id < |t.consumers| }

  ghost predicate Refines(t: Tables, h: History, sources: set<nat>, stuckAfter: real) {
    && |h.ticks| == |t.consumers|
    && (forall c :: 0 <= c < |t.consumers| ==> ConsumerTrue(t, h, sources, stuckAfter, c))
    && (forall k: Item :: k.Setup? ==> SetupTrue(t, h, k))
    && (forall k :: k in t.down || k in t.rep ==> Known(t, k))
    && (forall c :: c in t.streak ==> c < |t.consumers|)
  }
}
