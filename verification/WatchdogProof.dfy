/** Each step of the watchdog keeps its tables true to the history, and what they mean. */
module WatchdogProof {
  import opened Wrappers
  import opened Watchdog

  // ---- what the recorded times mean ---------------------------------------------------

  /** The second of two consecutive connected ticks. */
  predicate RecoversAt(h: seq<Tick>, i: nat)
    requires i < |h|
  {
    i > 0 && h[i].connected && (h[i - 1].connected || h[i - 1].Reconnected())
  }

  predicate RecoveredAfter(h: seq<Tick>, k: nat) {
    exists i :: k < i < |h| && RecoversAt(h, i)
  }

  /** The first tick the connection was seen down since its last recovery. */
  predicate FirstDown(h: seq<Tick>, j: nat) {
    && j < |h| && !h[j].connected && !RecoveredAfter(h, j)
    && forall k :: 0 <= k < j && !h[k].connected ==> RecoveredAfter(h[..j], k)
  }

  lemma StreakShows(h: seq<Tick>)
    requires h != []
    ensures Streak(h) >= 1 <==> h[|h| - 1].connected || h[|h| - 1].Reconnected()
    ensures Streak(h) >= STABLE_TICKS <==> RecoversAt(h, |h| - 1)
  {
    if h[|h| - 1].connected && |h| > 1 {
      StreakShows(h[..|h| - 1]);
    }
  }

  lemma RecoveredGrows(h: seq<Tick>, x: Tick, k: nat)
    requires k < |h|
    ensures RecoveredAfter(h + [x], k) <==> RecoveredAfter(h, k) || RecoversAt(h + [x], |h|)
  {
    var g := h + [x];
    assert forall i :: 0 <= i < |h| ==> (RecoversAt(g, i) <==> RecoversAt(h, i));
  }

  /** A recorded time is the first tick down since the last recovery; nothing is recorded
      exactly when every tick down was recovered from. */
  lemma {:induction false} DownSinceMeans(h: seq<Tick>)
    ensures match DownSince(h)
      case Some(t) => exists j: nat :: FirstDown(h, j) && h[j].now == t
      case None => forall k :: 0 <= k < |h| && !h[k].connected ==> RecoveredAfter(h, k)
  {
    if h != [] {
      var g, x := h[..|h| - 1], h[|h| - 1];
      assert h == g + [x];
      DownSinceMeans(g);
      StreakShows(h);
      forall k: nat | k < |g|
        ensures RecoveredAfter(h, k) <==> RecoveredAfter(g, k) || RecoversAt(h, |g|)
      {
        RecoveredGrows(g, x, k);
      }
      if DownSince(g).Some? {
        var j: nat :| FirstDown(g, j) && g[j].now == DownSince(g).value;
        assert g[..j] == h[..j];
        if DownSince(h).Some? {
          assert FirstDown(h, j);
        }
      } else if DownSince(h).Some? {
        assert h[..|g|] == g;
        assert FirstDown(h, |g|);
      }
    }
  }

  /** The first tick down is one tick, so the recorded time is determined. */
  lemma FirstDownUnique(h: seq<Tick>, i: nat, j: nat)
    requires FirstDown(h, i) && FirstDown(h, j)
    ensures i == j
  {
    if i < j {
      EarlierRecovered(h, i, j);
    } else if j < i {
      EarlierRecovered(h, j, i);
    }
  }

  lemma EarlierRecovered(h: seq<Tick>, i: nat, j: nat)
    requires i < j < |h| && RecoveredAfter(h[..j], i)
    ensures RecoveredAfter(h, i)
  {
    var k :| i < k < |h[..j]| && RecoversAt(h[..j], k);
    assert RecoversAt(h, k);
  }

  /** A connection down at the start of every tick keeps its first time even if every
      reconnect succeeds. */
  lemma {:induction false} FlappingKeepsItsTime(h: seq<Tick>)
    requires h != [] && forall i :: 0 <= i < |h| ==> !h[i].connected
    ensures DownSince(h) == Some(h[0].now)
  {
    if |h| > 1 {
      FlappingKeepsItsTime(h[..|h| - 1]);
    }
  }

  /** A tick on which the handler was looked at and not found stuck. */
  predicate Cleared(h: seq<Tick>, after: real, i: nat)
    requires i < |h|
  {
    h[i].hasListener && !h[i].Stuck(after)
  }

  predicate SeenStuck(h: seq<Tick>, after: real, i: nat)
    requires i < |h|
  {
    h[i].hasListener && h[i].Stuck(after)
  }

  predicate ClearedBetween(h: seq<Tick>, after: real, i: nat, j: nat)
    requires j <= |h|
  {
    exists k :: i < k < j && Cleared(h, after, k)
  }

  /** The first tick a handler was seen stuck since one was last seen not to be. */
  predicate FirstStuck(h: seq<Tick>, after: real, j: nat) {
    && j < |h| && SeenStuck(h, after, j) && !ClearedBetween(h, after, j, |h|)
    && forall i :: 0 <= i < j && SeenStuck(h, after, i) ==> ClearedBetween(h, after, i, j)
  }

  /** A recorded time is when the handler seen on that first tick ran out of time, whatever ran
      since; nothing is recorded exactly when every stuck handler was later seen not to be. */
  lemma {:induction false} StuckSinceMeans(h: seq<Tick>, after: real)
    ensures match StuckSince(h, after)
      case Some(t) => exists j: nat :: FirstStuck(h, after, j) && t == h[j].handlerStarted.value + after
      case None => forall i: nat :: i < |h| && SeenStuck(h, after, i) ==> ClearedBetween(h, after, i, |h|)
  {
    if h != [] {
      var n := |h| - 1;
      var g := h[..n];
      StuckSinceMeans(g, after);
      forall i: nat, j: nat | j <= n ensures ClearedBetween(g, after, i, j) <==> ClearedBetween(h, after, i, j) {
        ClearedSame(h, after, i, j);
      }
      forall i: nat | i < n
        ensures ClearedBetween(h, after, i, |h|) <==> ClearedBetween(g, after, i, n) || Cleared(h, after, n)
      {
        ClearedGrows(h, after, i);
      }
      if StuckSince(g, after).Some? && StuckSince(h, after).Some? {
        var j: nat :| FirstStuck(g, after, j) && StuckSince(g, after).value == g[j].handlerStarted.value + after;
        assert FirstStuck(h, after, j);
      } else if StuckSince(h, after).Some? {
        assert FirstStuck(h, after, n);
      }
    }
  }

  lemma ClearedSame(h: seq<Tick>, after: real, i: nat, j: nat)
    requires h != [] && j <= |h| - 1
    ensures ClearedBetween(h[..|h| - 1], after, i, j) <==> ClearedBetween(h, after, i, j)
  {
    var g := h[..|h| - 1];
    assert forall k :: 0 <= k < |g| ==> (Cleared(g, after, k) <==> Cleared(h, after, k));
  }

  lemma ClearedGrows(h: seq<Tick>, after: real, i: nat)
    requires i < |h| - 1
    ensures ClearedBetween(h, after, i, |h|)
      <==> ClearedBetween(h[..|h| - 1], after, i, |h| - 1) || Cleared(h, after, |h| - 1)
  {
    ClearedSame(h, after, i, |h| - 1);
  }

  lemma FirstStuckUnique(h: seq<Tick>, after: real, i: nat, j: nat)
    requires FirstStuck(h, after, i) && FirstStuck(h, after, j)
    ensures i == j
  {
    assert forall a: nat, b: nat :: a < b <= |h| && ClearedBetween(h, after, a, b) ==> ClearedBetween(h, after, a, |h|);
  }

  function Pow2(n: nat): real { if n == 0 then 1.0 else 2.0 * Pow2(n - 1) }

  lemma RefusedGrows(vs: seq<Visit>, v: Visit)
    ensures WasRefused(vs + [v]) <==> WasRefused(vs) || v.tried == Some(Refusal)
  {
    var us := vs + [v];
    if WasRefused(vs) {
      var i :| 0 <= i < |vs| && vs[i].tried == Some(Refusal);
      assert us[i].tried == Some(Refusal);
    }
    assert us[|vs|] == v;
  }

  /** The k-th failed attempt in a row is followed by min(60 * 2^(k-1), 900) seconds, and a
      refusal pins the delay to the maximum. */
  lemma {:induction false} RetryDelayLaw(vs: seq<Visit>)
    ensures Attempts(vs) == 0 <==> RetryDelay(vs) == 0.0
    ensures Attempts(vs) > 0 ==> SETUP_RETRY_INITIAL <= RetryDelay(vs) <= SETUP_RETRY_MAX
    ensures Attempts(vs) > 0 && !WasRefused(vs) ==>
      RetryDelay(vs) == Min(SETUP_RETRY_INITIAL * Pow2(Attempts(vs) - 1), SETUP_RETRY_MAX)
    ensures WasRefused(vs) ==> RetryDelay(vs) == SETUP_RETRY_MAX
  {
    if vs != [] {
      var us, v := vs[..|vs| - 1], vs[|vs| - 1];
      RetryDelayLaw(us);
      assert vs == us + [v];
      RefusedGrows(us, v);
      if v.tried.Some? && Attempts(us) > 0 {
        var k := Attempts(us);
        assert Pow2(k) == 2.0 * Pow2(k - 1);
      }
    }
  }

  // ---- the steps --------------------------------------------------------------------

  lemma Extended<T>(xs: seq<T>, x: T)
    ensures (xs + [x])[..|xs + [x]| - 1] == xs && (xs + [x])[|xs|] == x
  {
  }

  /** The two tables agree on everything but the items in `except`. */
  ghost predicate SameBut(t: Tables, t': Tables, except: set<Item>) {
    forall k :: k !in except ==>
      && Get(t'.down, k) == Get(t.down, k)
      && Get(t'.rep, k) == Get(t.rep, k)
      && (k in t'.reported <==> k in t.reported)
      && Get(t'.delay, k) == Get(t.delay, k)
      && Get(t'.next, k) == Get(t.next, k)
  }

  lemma SameButThen(t: Tables, t1: Tables, t2: Tables, e1: set<Item>, e2: set<Item>)
    requires SameBut(t, t1, e1) && SameBut(t1, t2, e2)
    ensures SameBut(t, t2, e1 + e2)
  {
  }

  lemma HandlerStep(t: Tables, c: nat, seen: Tick, critical: bool, stuckAfter: real)
    ensures var t' := HandlerChecked(t, c, seen, critical, stuckAfter);
      && SameBut(t, t', {Handler(c)})
      && t'.consumers == t.consumers && t'.streak == t.streak
      && Table(t', !critical) == Table(t, !critical)
      && Get(Table(t', critical), Handler(c)) ==
           (if !seen.hasListener then Get(Table(t, critical), Handler(c))
            else if !seen.Stuck(stuckAfter) then None
            else if Handler(c) in Table(t, critical) then Get(Table(t, critical), Handler(c))
            else Some(seen.handlerStarted.value + stuckAfter))
  {
  }

  lemma ConnectionStep(t: Tables, c: nat, seen: Tick, critical: bool)
    ensures var t' := ConnectionChecked(t, c, seen, critical);
      && SameBut(t, t', {Connection(c)})
      && t'.consumers == t.consumers
      && (forall d :: d != c ==> Get(t'.streak, d) == Get(t.streak, d))
      && Table(t', !critical) == Table(t, !critical)
      && var before := if c in t.streak then t.streak[c] else 0;
      && Get(t'.streak, c) ==
           Some(if seen.connected then before + 1 else if seen.Reconnected() then 1 else 0)
      && Get(Table(t', critical), Connection(c)) ==
           (if seen.connected
            then (if before + 1 >= STABLE_TICKS then None else Get(Table(t, critical), Connection(c)))
            else if Connection(c) in Table(t, critical) then Get(Table(t, critical), Connection(c))
            else Some(seen.now))
  {
  }

  lemma ConsumerFrame(t: Tables, c: nat, seen: Tick, critical: bool, stuckAfter: real)
    ensures var t' := ConsumerChecked(t, c, seen, critical, stuckAfter);
      && SameBut(t, t', {Connection(c), Handler(c)})
      && t'.consumers == t.consumers
      && (forall d :: d != c ==> Get(t'.streak, d) == Get(t.streak, d))
  {
    var t1 := HandlerChecked(t, c, seen, critical, stuckAfter);
    HandlerStep(t, c, seen, critical, stuckAfter);
    ConnectionStep(t1, c, seen, critical);
    SameButThen(t, t1, ConnectionChecked(t1, c, seen, critical), {Handler(c)}, {Connection(c)});
    assert {Handler(c)} + {Connection(c)} == {Connection(c), Handler(c)};
  }

  lemma TicksGrow(h: seq<Tick>, x: Tick, after: real)
    ensures var g := h + [x];
      && Streak(g) == (if x.connected then Streak(h) + 1 else if x.Reconnected() then 1 else 0)
      && DownSince(g) ==
           (if x.connected then (if Streak(h) + 1 >= STABLE_TICKS then None else DownSince(h))
            else if DownSince(h).Some? then DownSince(h) else Some(x.now))
      && StuckSince(g, after) ==
           (if !x.hasListener then StuckSince(h, after)
            else if !x.Stuck(after) then None
            else if StuckSince(h, after).Some? then StuckSince(h, after)
            else Some(x.handlerStarted.value + after))
  {
    Extended(h, x);
  }

  lemma ConsumerOwn(t: Tables, h: History, sources: set<nat>, stuckAfter: real, c: nat, seen: Tick)
    requires c < |t.consumers| == |h.ticks| && ConsumerTrue(t, h, sources, stuckAfter, c)
    ensures ConsumerTrue(ConsumerChecked(t, c, seen, Critical(t, sources, c), stuckAfter),
                         h.(ticks := h.ticks[c := h.ticks[c] + [seen]]), sources, stuckAfter, c)
  {
    var crit := Critical(t, sources, c);
    var t1 := HandlerChecked(t, c, seen, crit, stuckAfter);
    var t2 := ConnectionChecked(t1, c, seen, crit);
    HandlerStep(t, c, seen, crit, stuckAfter);
    ConnectionStep(t1, c, seen, crit);
    TicksGrow(h.ticks[c], seen, stuckAfter);
    assert Get(Table(t1, crit), Connection(c)) == Get(Table(t, crit), Connection(c));
    assert Get(Table(t2, crit), Handler(c)) == Get(Table(t1, crit), Handler(c));
  }

  /** A setup item nothing was done about stays true. */
  lemma SetupUntouched(t: Tables, t': Tables, h: History, h': History, except: set<Item>, k: Item)
    requires k.Setup? && SetupTrue(t, h, k) && SameBut(t, t', except) && k !in except
    requires VisitsOf(h', k) == VisitsOf(h, k)
    ensures SetupTrue(t', h', k)
  {
  }

  /** A consumer nothing was done about stays true. */
  lemma ConsumerUntouched(t: Tables, t': Tables, h: History, h': History, sources: set<nat>,
                          stuckAfter: real, except: set<Item>, c: nat)
    requires c < |t.consumers| == |h.ticks| && ConsumerTrue(t, h, sources, stuckAfter, c)
    requires c < |t'.consumers| == |h'.ticks| && t'.consumers[c] == t.consumers[c]
    requires SameBut(t, t', except) && Connection(c) !in except && Handler(c) !in except
    requires Get(t'.streak, c) == Get(t.streak, c) && h'.ticks[c] == h.ticks[c]
    ensures ConsumerTrue(t', h', sources, stuckAfter, c)
  {
    assert Get(t'.down, Connection(c)) == Get(t.down, Connection(c));
    assert Get(t'.rep, Connection(c)) == Get(t.rep, Connection(c));
    assert Get(t'.down, Handler(c)) == Get(t.down, Handler(c));
    assert Get(t'.rep, Handler(c)) == Get(t.rep, Handler(c));
  }

  lemma KnownStays(t: Tables, t': Tables, except: set<Item>)
    requires SameBut(t, t', except) && |t.consumers| <= |t'.consumers|
    requires forall k :: k in t.down || k in t.rep ==> Known(t, k)
    requires forall k :: k in except ==> Known(t', k)
    ensures forall k :: k in t'.down || k in t'.rep ==> Known(t', k)
  {
    forall k | k in t'.down || k in t'.rep ensures Known(t', k) {
      if k !in except {
        assert Get(t'.down, k) == Get(t.down, k) && Get(t'.rep, k) == Get(t.rep, k);
      }
    }
  }

  lemma ConsumerRefines(t: Tables, h: History, sources: set<nat>, stuckAfter: real, c: nat, seen: Tick)
    requires Refines(t, h, sources, stuckAfter) && c < |t.consumers|
    ensures var crit := Critical(t, sources, c);
      Refines(ConsumerChecked(t, c, seen, crit, stuckAfter),
              h.(ticks := h.ticks[c := h.ticks[c] + [seen]]), sources, stuckAfter)
  {
    var crit := Critical(t, sources, c);
    var t' := ConsumerChecked(t, c, seen, crit, stuckAfter);
    var h' := h.(ticks := h.ticks[c := h.ticks[c] + [seen]]);
    var except := {Connection(c), Handler(c)};
    ConsumerFrame(t, c, seen, crit, stuckAfter);
    KnownStays(t, t', except);
    forall d | 0 <= d < |t.consumers| ensures ConsumerTrue(t', h', sources, stuckAfter, d) {
      assert ConsumerTrue(t, h, sources, stuckAfter, d);
      if d == c {
        ConsumerOwn(t, h, sources, stuckAfter, c, seen);
      } else {
        ConsumerUntouched(t, t', h, h', sources, stuckAfter, except, d);
      }
    }
    forall k: Item | k.Setup? ensures SetupTrue(t', h', k) {
      SetupUntouched(t, t', h, h', except, k);
    }
    forall d | d in t'.streak ensures d < |t'.consumers| {
      assert d != c ==> Get(t'.streak, d) == Get(t.streak, d);
    }
  }

  lemma ReportRefines(t: Tables, h: History, sources: set<nat>, stuckAfter: real, now: real, after: real)
    requires Refines(t, h, sources, stuckAfter)
    ensures Refines(Reported(t, now, after), h, sources, stuckAfter)
  {
    var t' := Reported(t, now, after);
    forall c | 0 <= c < |t.consumers| ensures ConsumerTrue(t', h, sources, stuckAfter, c) {
      assert ConsumerTrue(t, h, sources, stuckAfter, c);
    }
    forall k: Item | k.Setup? ensures SetupTrue(t', h, k) {
      assert SetupTrue(t, h, k);
    }
  }

  function Blank(n: nat): (r: seq<seq<Tick>>)
    ensures |r| == n && forall i :: 0 <= i < n ==> r[i] == []
  {
    if n == 0 then [] else [[]] + Blank(n - 1)
  }

  function HistoryAfter(t: Tables, h: History, k: Item, now: real, a: Attempt): History
    requires k.Setup?
  {
    var due := Due(t, k, now);
    History(h.ticks + Blank(if due && a.Opened? then |a.uuids| else 0),
            h.visits[k := VisitsAfter(VisitsOf(h, k), now, due, a)])
  }

  lemma VisitsGrow(vs: seq<Visit>, v: Visit)
    ensures var us := vs + [v];
      && us[0] == (if vs == [] then v else vs[0])
      && (WasRefused(us) <==> WasRefused(vs) || v.tried == Some(Refusal))
      && LastAttempt(us) == (if v.tried.Some? then v.now else LastAttempt(vs))
      && RetryDelay(us) == match v.tried
        case None => RetryDelay(vs)
        case Some(Refusal) => SETUP_RETRY_MAX
        case Some(_) =>
          Min((if RetryDelay(vs) == 0.0 then SETUP_RETRY_INITIAL / 2.0 else RetryDelay(vs)) * 2.0,
              SETUP_RETRY_MAX)
  {
    Extended(vs, v);
    RefusedGrows(vs, v);
  }

  lemma NoticedStep(t: Tables, k: Item, now: real)
    requires k.Setup?
    ensures var t' := Noticed(t, k, now);
      var counts := k.role.Main? && k !in t.reported;
      && SameBut(t, t', {k})
      && t' == t.(down := t'.down, rep := t'.rep)
      && Get(Table(t', counts), k) ==
           (if k in Table(t, counts) then Get(Table(t, counts), k) else Some(now))
      && Get(Table(t', !counts), k) == Get(Table(t, !counts), k)
  {
  }

  lemma ScheduledStep(t: Tables, k: Item, now: real, fixed: Option<real>)
    ensures var t' := Scheduled(t, k, now, fixed);
      && SameBut(t, t', {k})
      && t' == t.(delay := t'.delay, next := t'.next)
      && var before := if k in t.delay then t.delay[k] else SETUP_RETRY_INITIAL / 2.0;
      var d := if fixed.Some? then fixed.value else Min(before * 2.0, SETUP_RETRY_MAX);
      && Get(t'.delay, k) == Some(d) && Get(t'.next, k) == Some(now + d)
  {
  }

  lemma MarkedFrame(t: Tables, k: Item, now: real)
    ensures SameBut(t, MarkedRefused(t, k, now), {k})
  {
  }

  lemma SetUpFrame(t: Tables, k: Item, uuids: seq<nat>)
    requires k.Setup?
    ensures SameBut(t, SetUp(t, k, uuids), {k})
  {
  }

  lemma AttemptedFrame(t: Tables, k: Item, now: real, a: Attempt)
    requires k.Setup?
    ensures var t' := Attempted(t, k, now, a);
      && SameBut(t, t', {k})
      && t'.streak == t.streak
      && |t'.consumers| == |t.consumers| + (if a.Opened? then |a.uuids| else 0)
      && t.consumers <= t'.consumers
  {
    match a
    case Refusal =>
      var t1 := MarkedRefused(t, k, now);
      ScheduledStep(t1, k, now, Some(SETUP_RETRY_MAX));
      MarkedFrame(t, k, now);
      SameButThen(t, t1, Attempted(t, k, now, a), {k}, {k});
      assert {k} + {k} == {k};
    case Error =>
      ScheduledStep(t, k, now, None);
    case Opened(uuids) =>
      if uuids == [] {
        ScheduledStep(t, k, now, None);
      } else {
        SetUpFrame(t, k, uuids);
      }
  }

  /** A visit that comes too early for an attempt. */
  lemma EarlyVisit(t: Tables, h: History, k: Item, now: real, a: Attempt)
    requires k.Setup? && SetupTrue(t, h, k) && !Due(t, k, now)
    ensures SetupTrue(Retried(t, k, now, a), HistoryAfter(t, h, k, now, a), k)
  {
    var vs := VisitsOf(h, k);
    assert vs != [];
    VisitsGrow(vs, Visit(now, None));
    NoticedStep(t, k, now);
    assert VisitsOf(HistoryAfter(t, h, k, now, a), k) == vs + [Visit(now, None)];
  }

  lemma SuccessfulVisit(t: Tables, h: History, k: Item, now: real, a: Attempt)
    requires k.Setup? && SetupTrue(t, h, k) && Due(t, k, now) && a.Opened? && a.uuids != []
    ensures SetupTrue(Retried(t, k, now, a), HistoryAfter(t, h, k, now, a), k)
  {
    assert VisitsOf(HistoryAfter(t, h, k, now, a), k) == [];
    NoticedStep(t, k, now);
  }

  lemma RefusedVisit(t: Tables, h: History, k: Item, now: real)
    requires k.Setup? && SetupTrue(t, h, k) && Due(t, k, now)
    ensures SetupTrue(Retried(t, k, now, Refusal), HistoryAfter(t, h, k, now, Refusal), k)
  {
    var vs := VisitsOf(h, k);
    VisitsGrow(vs, Visit(now, Some(Refusal)));
    NoticedStep(t, k, now);
    assert VisitsOf(HistoryAfter(t, h, k, now, Refusal), k) == vs + [Visit(now, Some(Refusal))];
  }

  lemma FailedVisit(t: Tables, h: History, k: Item, now: real, a: Attempt)
    requires k.Setup? && SetupTrue(t, h, k) && Due(t, k, now)
    requires a.Error? || (a.Opened? && a.uuids == [])
    ensures SetupTrue(Retried(t, k, now, a), HistoryAfter(t, h, k, now, a), k)
  {
    var vs := VisitsOf(h, k);
    VisitsGrow(vs, Visit(now, Some(a)));
    DelayPositive(vs);
    NoticedStep(t, k, now);
    var t1, t' := Noticed(t, k, now), Retried(t, k, now, a);
    ScheduledStep(t1, k, now, None);
    assert t' == Scheduled(t1, k, now, None);
    assert VisitsOf(HistoryAfter(t, h, k, now, a), k) == vs + [Visit(now, Some(a))];
    assert Get(t1.delay, k) == Get(t.delay, k);
  }

  lemma DelayPositive(vs: seq<Visit>)
    requires vs != [] ==> vs[0].tried.Some?
    ensures RetryDelay(vs) == 0.0 <==> vs == []
  {
    RetryDelayLaw(vs);
    if vs != [] {
      FirstAttempts(vs);
    }
  }

  /** The tables of an item after one more visit. */
  lemma SetupOwn(t: Tables, h: History, k: Item, now: real, a: Attempt)
    requires k.Setup? && SetupTrue(t, h, k)
    ensures SetupTrue(Retried(t, k, now, a), HistoryAfter(t, h, k, now, a), k)
  {
    if !Due(t, k, now) {
      EarlyVisit(t, h, k, now, a);
    } else if a.Refusal? {
      RefusedVisit(t, h, k, now);
    } else if a.Opened? && a.uuids != [] {
      SuccessfulVisit(t, h, k, now, a);
    } else {
      FailedVisit(t, h, k, now, a);
    }
  }

  lemma RetryFrame(t: Tables, k: Item, now: real, a: Attempt)
    requires k.Setup?
    ensures var t' := Retried(t, k, now, a);
      && SameBut(t, t', {k})
      && t'.streak == t.streak
      && |t'.consumers| == |t.consumers| + (if Due(t, k, now) && a.Opened? then |a.uuids| else 0)
      && t.consumers <= t'.consumers
  {
    var t1 := Noticed(t, k, now);
    NoticedStep(t, k, now);
    AttemptedFrame(t1, k, now, a);
    SameButThen(t, t1, Attempted(t1, k, now, a), {k}, {k});
    assert {k} + {k} == {k};
  }

  lemma {:induction false} FirstAttempts(vs: seq<Visit>)
    requires vs != [] && vs[0].tried.Some?
    ensures Attempts(vs) > 0
  {
    if |vs| > 1 {
      FirstAttempts(vs[..|vs| - 1]);
    }
  }

  lemma RetryRefines(t: Tables, h: History, sources: set<nat>, stuckAfter: real, k: Item,
                     now: real, a: Attempt)
    requires Refines(t, h, sources, stuckAfter) && k.Setup?
    ensures Refines(Retried(t, k, now, a), HistoryAfter(t, h, k, now, a), sources, stuckAfter)
  {
    var t', h' := Retried(t, k, now, a), HistoryAfter(t, h, k, now, a);
    RetryFrame(t, k, now, a);
    KnownStays(t, t', {k});
    forall c | 0 <= c < |t'.consumers| ensures ConsumerTrue(t', h', sources, stuckAfter, c) {
      if c < |t.consumers| {
        assert ConsumerTrue(t, h, sources, stuckAfter, c);
        ConsumerUntouched(t, t', h, h', sources, stuckAfter, {k}, c);
      } else {
        NewConsumer(t, t', c, {k});
      }
    }
    forall j: Item | j.Setup? ensures SetupTrue(t', h', j) {
      assert SetupTrue(t, h, j);
      if j == k {
        SetupOwn(t, h, k, now, a);
      } else {
        SetupUntouched(t, t', h, h', {k}, j);
      }
    }
  }

  lemma NewConsumer(t: Tables, t': Tables, c: nat, except: set<Item>)
    requires SameBut(t, t', except) && |t.consumers| <= c
    requires Connection(c) !in except && Handler(c) !in except
    requires forall k :: k in t.down || k in t.rep ==> Known(t, k)
    ensures Connection(c) !in t'.down && Connection(c) !in t'.rep
    ensures Handler(c) !in t'.down && Handler(c) !in t'.rep
  {
    assert !Known(t, Connection(c)) && !Known(t, Handler(c));
    assert Get(t'.down, Connection(c)) == Get(t.down, Connection(c));
    assert Get(t'.rep, Connection(c)) == Get(t.rep, Connection(c));
    assert Get(t'.down, Handler(c)) == Get(t.down, Handler(c));
    assert Get(t'.rep, Handler(c)) == Get(t.rep, Handler(c));
  }

  // ---- liveness ---------------------------------------------------------------------

  /** A time at least `after` old. */
  predicate Overdue(since: Option<real>, now: real, after: real) {
    since.Some? && now - since.value >= after
  }

  /** What withholds liveness, in terms of the history alone: a source connection down or its
      handler stuck for too long, or an offering's own setup missing for too long without
      having been refused. */
  ghost predicate Withholds(h: History, consumers: seq<Consumer>, sources: set<nat>, stuckAfter: real,
                            now: real, after: real)
    requires |consumers| == |h.ticks|
  {
    || (exists c :: 0 <= c < |consumers| && consumers[c].uuid in sources
          && (Overdue(DownSince(h.ticks[c]), now, after)
              || Overdue(StuckSince(h.ticks[c], stuckAfter), now, after)))
    || (exists o :: var vs := VisitsOf(h, Setup(o, Main));
          vs != [] && !WasRefused(vs) && now - vs[0].now >= after)
  }

  lemma HealthMeans(t: Tables, h: History, sources: set<nat>, stuckAfter: real, now: real, after: real)
    requires Refines(t, h, sources, stuckAfter)
    ensures (exists k :: k in t.down && now - t.down[k] >= after)
      <==> Withholds(h, t.consumers, sources, stuckAfter, now, after)
  {
    if k :| k in t.down && now - t.down[k] >= after {
      assert Known(t, k);
      match k
      case Setup(o, role) =>
        assert SetupTrue(t, h, k);
        var vs := VisitsOf(h, Setup(o, Main));
        assert role == Main && vs != [] && !WasRefused(vs) && now - vs[0].now >= after;
      case Connection(c) =>
        assert ConsumerTrue(t, h, sources, stuckAfter, c);
        assert Get(t.down, k) == DownSince(h.ticks[c]);
      case Handler(c) =>
        assert ConsumerTrue(t, h, sources, stuckAfter, c);
        assert Get(t.down, k) == StuckSince(h.ticks[c], stuckAfter);
    }
    if Withholds(h, t.consumers, sources, stuckAfter, now, after) {
      WithheldBySome(t, h, sources, stuckAfter, now, after);
    }
  }

  lemma WithheldBySome(t: Tables, h: History, sources: set<nat>, stuckAfter: real, now: real, after: real)
    requires Refines(t, h, sources, stuckAfter)
    requires Withholds(h, t.consumers, sources, stuckAfter, now, after)
    ensures exists k :: k in t.down && now - t.down[k] >= after
  {
    if c :| 0 <= c < |t.consumers| && t.consumers[c].uuid in sources
            && (Overdue(DownSince(h.ticks[c]), now, after)
                || Overdue(StuckSince(h.ticks[c], stuckAfter), now, after))
    {
      assert ConsumerTrue(t, h, sources, stuckAfter, c);
      assert Get(t.down, Connection(c)) == DownSince(h.ticks[c]);
      assert Get(t.down, Handler(c)) == StuckSince(h.ticks[c], stuckAfter);
      if Overdue(DownSince(h.ticks[c]), now, after) {
        assert Connection(c) in t.down && now - t.down[Connection(c)] >= after;
      } else {
        assert Handler(c) in t.down && now - t.down[Handler(c)] >= after;
      }
    } else {
      var o :| var vs := VisitsOf(h, Setup(o, Main));
          vs != [] && !WasRefused(vs) && now - vs[0].now >= after;
      assert SetupTrue(t, h, Setup(o, Main));
      assert Setup(o, Main) in t.down && now - t.down[Setup(o, Main)] >= after;
    }
  }

  /** No item is in both tables. */
  lemma NeverInBoth(t: Tables, h: History, sources: set<nat>, stuckAfter: real, k: Item)
    requires Refines(t, h, sources, stuckAfter)
    ensures k !in t.down || k !in t.rep
  {
    match k
    case Setup(_, _) => assert SetupTrue(t, h, k);
    case Connection(c) => assert c < |t.consumers| ==> ConsumerTrue(t, h, sources, stuckAfter, c);
      assert c >= |t.consumers| ==> !Known(t, k);
    case Handler(c) => assert c < |t.consumers| ==> ConsumerTrue(t, h, sources, stuckAfter, c);
      assert c >= |t.consumers| ==> !Known(t, k);
  }
}
