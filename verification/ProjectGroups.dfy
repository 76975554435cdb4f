/**
Coalescing of project-group events for one offering
(waldur_site_agent/event_processing/handlers.py). A label is one step of a thread that no
other thread can cut in two: what is done under the lock, the start or the cancelling of a
timer, a timer going off, the beginning of a pass.
 */
module ProjectGroups {
  import opened Wrappers

  /** A handler: before the lock, with a timer of its own still to start, or through. */
  datatype Phase = Arrived | Starting(timer: nat) | Settled

  /** An event, and how many passes had begun when it arrived. */
  datatype Event = Event(phase: Phase, before: nat)

  datatype Timer = Created | Armed | Fired | Cancelled

  datatype Stage = Entering | Popped(pending: Option<nat>) | Ready | Over

  /** A call of `run_project_group_reconcile`, by a timer's thread or directly. */
  datatype Run = Run(owner: Option<nat>, stage: Stage)

  /** `marker` is the offering's entry in the timer table; `begun` says of each pass whether it could read. */
  datatype State = State(events: seq<Event>, timers: seq<Timer>, marker: Option<nat>, runs: seq<Run>, begun: seq<bool>)

  const Start0 := State([], [], None, [], [])

  datatype Label =
    | Arrive
    | Schedule(e: nat)
    | StartTimer(e: nat)
    | Fire(t: nat)
    | Direct
    | Pop(r: nat)
    | Cancel(r: nat)
    | Begin(r: nat, ok: bool)

  predicate Enabled(s: State, l: Label) {
    match l
    case Arrive => true
    case Schedule(e) => e < |s.events| && s.events[e].phase == Arrived
    case StartTimer(e) => e < |s.events| && s.events[e].phase.Starting? && s.events[e].phase.timer < |s.timers|
    case Fire(t) => t < |s.timers| && s.timers[t] == Armed
    case Direct => true
    case Pop(r) => r < |s.runs| && s.runs[r].stage == Entering
    case Cancel(r) => r < |s.runs| && s.runs[r].stage.Popped?
    case Begin(r, _) => r < |s.runs| && s.runs[r].stage == Ready
  }

  /** A cancelled timer that is started does not go off, and one gone off is not stopped. */
  function Cancelling(timers: seq<Timer>, run: Run): (r: seq<Timer>)
    requires run.stage.Popped?
    ensures |r| == |timers|
  {
    match run.stage.pending
    case Some(t) =>
      if run.owner != Some(t) && t < |timers| && timers[t] != Fired then timers[t := Cancelled] else timers
    case None => timers
  }

  function Step(s: State, l: Label): State
    requires Enabled(s, l)
  {
    match l
    case Arrive => s.(events := s.events + [Event(Arrived, |s.begun|)])
    case Schedule(e) =>
      if s.marker.Some? then s.(events := s.events[e := s.events[e].(phase := Settled)])
      else
        var t := |s.timers|;
        s.(events := s.events[e := s.events[e].(phase := Starting(t))],
           timers := s.timers + [Created],
           marker := Some(t))
    case StartTimer(e) =>
      var t := s.events[e].phase.timer;
      s.(events := s.events[e := s.events[e].(phase := Settled)],
         timers := if s.timers[t] == Created then s.timers[t := Armed] else s.timers)
    case Fire(t) => s.(timers := s.timers[t := Fired], runs := s.runs + [Run(Some(t), Entering)])
    case Direct => s.(runs := s.runs + [Run(None, Entering)])
    case Pop(r) => s.(runs := s.runs[r := s.runs[r].(stage := Popped(s.marker))], marker := None)
    case Cancel(r) =>
      s.(timers := Cancelling(s.timers, s.runs[r]), runs := s.runs[r := s.runs[r].(stage := Ready)])
    case Begin(r, ok) => s.(runs := s.runs[r := s.runs[r].(stage := Over)], begun := s.begun + [ok])
  }

  predicate Possible(s: State, ls: seq<Label>)
    decreases |ls|
  {
    ls == [] || (Enabled(s, ls[0]) && Possible(Step(s, ls[0]), ls[1..]))
  }

  function Exec(s: State, ls: seq<Label>): State
    requires Possible(s, ls)
    decreases |ls|
  {
    if ls == [] then s else Exec(Step(s, ls[0]), ls[1..])
  }

  /** A pass began after the event arrived, whether or not it could read. */
  predicate Covered(s: State, e: nat)
    requires e < |s.events|
  {
    s.events[e].before < |s.begun|
  }

  /** A pass that could read began after the event arrived. */
  predicate Read(s: State, e: nat)
    requires e < |s.events|
  {
    exists i :: s.events[e].before <= i < |s.begun| && s.begun[i]
  }

  predicate AllRead(s: State) { forall e :: 0 <= e < |s.events| ==> Read(s, e) }

  // ---- what every step keeps --------------------------------------------------------

  /** Later events arrived after no fewer passes. */
  predicate InOrder(s: State) {
    forall d, e :: 0 <= d <= e < |s.events| ==> s.events[d].before <= s.events[e].before <= |s.begun|
  }

  predicate Busy(s: State) { exists r :: 0 <= r < |s.runs| && s.runs[r].stage != Over }

  /** An event no pass has begun for is still to be looked at, marked for, or about to be read. */
  predicate Owed(s: State) {
    forall e :: 0 <= e < |s.events| ==>
      s.events[e].before <= |s.begun| && (Covered(s, e) || s.events[e].phase == Arrived || s.marker.Some? || Busy(s))
  }

  /** The marked timer is about to be started, waiting, or running its pass and about to unmark itself. */
  predicate MarkerLive(s: State) {
    s.marker.Some? ==>
      var t := s.marker.value;
      && t < |s.timers|
      && (match s.timers[t]
          case Created => true
          case Armed => true
          case Fired => exists r :: 0 <= r < |s.runs| && s.runs[r] == Run(Some(t), Entering)
          case Cancelled => false)
  }

  predicate Popper(s: State, r: nat, t: nat) {
    r < |s.runs| && s.runs[r].stage == Popped(Some(t)) && s.runs[r].owner != Some(t)
  }

  /** A timer that can still go off is the marked one, or about to be cancelled. */
  ghost predicate OneLive(s: State) {
    forall t :: 0 <= t < |s.timers| && (s.timers[t] == Created || s.timers[t] == Armed) ==>
      s.marker == Some(t) || exists r :: Popper(s, r, t)
  }

  predicate Links(s: State) {
    && (s.marker.Some? ==> s.marker.value < |s.timers|)
    && (forall e :: 0 <= e < |s.events| && s.events[e].phase.Starting? ==> s.events[e].phase.timer < |s.timers|)
    && (forall r :: 0 <= r < |s.runs| && s.runs[r].owner.Some? ==>
      s.runs[r].owner.value < |s.timers| && s.timers[s.runs[r].owner.value] == Fired)
    && (forall r :: 0 <= r < |s.runs| && s.runs[r].stage.Popped? && s.runs[r].stage.pending.Some? ==>
      s.runs[r].stage.pending.value < |s.timers| && s.marker != s.runs[r].stage.pending)
  }

  /** A timer not started yet has a handler about to start it. */
  predicate Starters(s: State) {
    forall t :: 0 <= t < |s.timers| && s.timers[t] == Created ==>
      exists e :: 0 <= e < |s.events| && s.events[e].phase == Starting(t)
  }

  ghost predicate Inv(s: State) {
    InOrder(s) && Owed(s) && MarkerLive(s) && OneLive(s) && Links(s) && Starters(s)
  }

  lemma KeepsInOrder(s: State, l: Label)
    requires InOrder(s) && Enabled(s, l)
    ensures InOrder(Step(s, l))
  {
  }

  lemma KeepsOwed(s: State, l: Label)
    requires Owed(s) && Enabled(s, l)
    ensures Owed(Step(s, l))
  {
    var s' := Step(s, l);
    if Busy(s) && !l.Begin? {
      var r :| 0 <= r < |s.runs| && s.runs[r].stage != Over;
      assert s'.runs[r].stage != Over;
    }
    if l.Fire? || l.Direct? {
      assert s'.runs[|s.runs|].stage != Over;
    }
    if l.Pop? {
      assert s'.runs[l.r].stage != Over;
    }
  }

  lemma KeepsMarkerLive(s: State, l: Label)
    requires MarkerLive(s) && Links(s) && Enabled(s, l)
    ensures MarkerLive(Step(s, l))
  {
    var s' := Step(s, l);
    if s.marker.Some? && s.timers[s.marker.value] == Fired && s'.marker == s.marker {
      var t := s.marker.value;
      var r :| 0 <= r < |s.runs| && s.runs[r] == Run(Some(t), Entering);
      assert s'.runs[r] == Run(Some(t), Entering);
    }
    if l.Fire? {
      assert s'.runs[|s.runs|] == Run(Some(l.t), Entering);
    }
  }

  lemma KeepsLinks(s: State, l: Label)
    requires Links(s) && Enabled(s, l)
    ensures Links(Step(s, l))
  {
  }

  lemma KeepsStarters(s: State, l: Label)
    requires Starters(s) && Enabled(s, l)
    ensures Starters(Step(s, l))
  {
    var s' := Step(s, l);
    forall t | 0 <= t < |s'.timers| && s'.timers[t] == Created
      ensures exists e :: 0 <= e < |s'.events| && s'.events[e].phase == Starting(t)
    {
      if t == |s.timers| {
        assert s'.events[l.e].phase == Starting(t);
      } else {
        var e :| 0 <= e < |s.events| && s.events[e].phase == Starting(t);
        assert s'.events[e].phase == Starting(t);
      }
    }
  }

  lemma KeepsOneLive(s: State, l: Label)
    requires OneLive(s) && Links(s) && Enabled(s, l)
    ensures OneLive(Step(s, l))
  {
    var s' := Step(s, l);
    forall t | 0 <= t < |s'.timers| && (s'.timers[t] == Created || s'.timers[t] == Armed)
      ensures s'.marker == Some(t) || exists r :: Popper(s', r, t)
    {
      if t < |s.timers| {
        if s.marker == Some(t) {
          assert l.Pop? ==> Popper(s', l.r, t);
        } else {
          var r :| Popper(s, r, t);
          assert Popper(s', r, t);
        }
      }
    }
  }

  lemma KeepsInv(s: State, l: Label)
    requires Inv(s) && Enabled(s, l)
    ensures Inv(Step(s, l))
  {
    KeepsInOrder(s, l);
    KeepsOwed(s, l);
    KeepsMarkerLive(s, l);
    KeepsLinks(s, l);
    KeepsStarters(s, l);
    KeepsOneLive(s, l);
  }

  lemma {:induction false} ExecKeepsInv(s: State, ls: seq<Label>)
    requires Inv(s) && Possible(s, ls)
    ensures Inv(Exec(s, ls))
    decreases |ls|
  {
    if ls != [] {
      KeepsInv(s, ls[0]);
      ExecKeepsInv(Step(s, ls[0]), ls[1..]);
    }
  }

  // ---- every event is followed by a pass --------------------------------------------

  /** A step of the agent itself: anything but a new event or a new direct call. */
  predicate Internal(l: Label) { !l.Arrive? && !l.Direct? }

  ghost predicate Quiescent(s: State) { forall l :: Internal(l) ==> !Enabled(s, l) }

  lemma QuietMeansCovered(s: State)
    requires Inv(s) && Quiescent(s)
    ensures s.marker == None
    ensures forall e :: 0 <= e < |s.events| ==> Covered(s, e)
    ensures forall t :: 0 <= t < |s.timers| ==> s.timers[t] == Fired || s.timers[t] == Cancelled
  {
    forall e | 0 <= e < |s.events| ensures s.events[e].phase == Settled {
      assert !Enabled(s, Schedule(e)) && !Enabled(s, StartTimer(e));
    }
    forall t | 0 <= t < |s.timers| ensures s.timers[t] == Fired || s.timers[t] == Cancelled {
      assert !Enabled(s, Fire(t));
    }
    forall r | 0 <= r < |s.runs| ensures s.runs[r].stage == Over {
      assert !Enabled(s, Pop(r)) && !Enabled(s, Cancel(r)) && !Enabled(s, Begin(r, true));
    }
  }

  function EventWork(e: Event): nat {
    match e.phase case Arrived => 7 case Starting(_) => 1 case Settled => 0
  }

  function TimerWork(t: Timer): nat {
    match t case Created => 5 case Armed => 4 case Fired => 0 case Cancelled => 0
  }

  function RunWork(r: Run): nat {
    match r.stage case Entering => 3 case Popped(_) => 2 case Ready => 1 case Over => 0
  }

  function Total<T>(xs: seq<T>, work: T -> nat): nat {
    if xs == [] then 0 else Total(xs[..|xs| - 1], work) + work(xs[|xs| - 1])
  }

  lemma {:induction false} TotalSet<T>(xs: seq<T>, work: T -> nat, i: nat, x: T)
    requires i < |xs|
    ensures Total(xs[i := x], work) == Total(xs, work) - work(xs[i]) + work(x)
  {
    var n := |xs| - 1;
    if i < n {
      TotalSet(xs[..n], work, i, x);
      assert xs[i := x][..n] == xs[..n][i := x];
    } else {
      assert xs[i := x][..n] == xs[..n];
    }
  }

  lemma TotalPush<T>(xs: seq<T>, work: T -> nat, x: T)
    ensures Total(xs + [x], work) == Total(xs, work) + work(x)
  {
    assert (xs + [x])[..|xs|] == xs;
  }

  /** What is left for the agent to do. */
  function Work(s: State): nat {
    Total(s.events, EventWork) + Total(s.timers, TimerWork) + Total(s.runs, RunWork)
  }

  lemma CancellingWork(timers: seq<Timer>, run: Run)
    requires run.stage.Popped?
    ensures Total(Cancelling(timers, run), TimerWork) <= Total(timers, TimerWork)
  {
    match run.stage.pending
    case Some(t) =>
      if t < |timers| {
        TotalSet(timers, TimerWork, t, Cancelled);
      }
    case None =>
  }

  lemma WorkShrinks(s: State, l: Label)
    requires Enabled(s, l) && Internal(l)
    ensures Work(Step(s, l)) < Work(s)
  {
    match l
    case Schedule(e) =>
      TotalSet(s.events, EventWork, e, Step(s, l).events[e]);
      TotalPush(s.timers, TimerWork, Created);
    case StartTimer(e) =>
      TotalSet(s.events, EventWork, e, Step(s, l).events[e]);
      TotalSet(s.timers, TimerWork, s.events[e].phase.timer, Armed);
    case Fire(t) =>
      TotalSet(s.timers, TimerWork, t, Fired);
      TotalPush(s.runs, RunWork, Run(Some(t), Entering));
    case Pop(r) => TotalSet(s.runs, RunWork, r, Step(s, l).runs[r]);
    case Cancel(r) =>
      TotalSet(s.runs, RunWork, r, Step(s, l).runs[r]);
      CancellingWork(s.timers, s.runs[r]);
    case Begin(r, _) => TotalSet(s.runs, RunWork, r, Step(s, l).runs[r]);
  }

  lemma {:induction false} AgentSettles(s: State, ls: seq<Label>)
    requires Possible(s, ls) && forall i :: 0 <= i < |ls| ==> Internal(ls[i])
    ensures |ls| + Work(Exec(s, ls)) <= Work(s)
    decreases |ls|
  {
    if ls != [] {
      WorkShrinks(s, ls[0]);
      AgentSettles(Step(s, ls[0]), ls[1..]);
    }
  }

  /**
  From every reachable state, the agent's own steps come to an end in any order they are
  taken, within `Work` of them, and once none is left a pass began after every event.
   */
  lemma EveryEventIsFollowed(before: seq<Label>, ls: seq<Label>)
    requires Possible(Start0, before) && Possible(Exec(Start0, before), ls)
    requires forall i :: 0 <= i < |ls| ==> Internal(ls[i])
    ensures |ls| <= Work(Exec(Start0, before))
    ensures var last := Exec(Exec(Start0, before), ls);
      Quiescent(last) ==> last.marker == None && forall e :: 0 <= e < |last.events| ==> Covered(last, e)
  {
    var s := Exec(Start0, before);
    ExecKeepsInv(Start0, before);
    AgentSettles(s, ls);
    ExecKeepsInv(s, ls);
    if Quiescent(Exec(s, ls)) {
      QuietMeansCovered(Exec(s, ls));
    }
  }

  /** Whether every event was read is decided by the newest one. */
  lemma NewestDecides(s: State)
    requires InOrder(s)
    ensures AllRead(s) <==> s.events == [] || Read(s, |s.events| - 1)
  {
    if s.events != [] && Read(s, |s.events| - 1) {
      var i :| s.events[|s.events| - 1].before <= i < |s.begun| && s.begun[i];
      forall e | 0 <= e < |s.events| ensures Read(s, e) {
        assert s.events[e].before <= i;
      }
    }
  }

  /**
  When the agent has come to rest, every event was read if and only if some pass begun since
  the newest one could read; in particular whenever the last pass could. Nothing is left then
  that would read for the others.
   */
  lemma ReadExactly(ls: seq<Label>)
    requires Possible(Start0, ls) && Quiescent(Exec(Start0, ls))
    ensures var s := Exec(Start0, ls);
      AllRead(s) <==> s.events == [] || exists i :: s.events[|s.events| - 1].before <= i < |s.begun| && s.begun[i]
    ensures var s := Exec(Start0, ls);
      s.events != [] ==> s.begun != [] && (s.begun[|s.begun| - 1] ==> AllRead(s))
  {
    var s := Exec(Start0, ls);
    ExecKeepsInv(Start0, ls);
    QuietMeansCovered(s);
    NewestDecides(s);
    if s.events != [] {
      assert Covered(s, |s.events| - 1);
      var last := |s.begun| - 1;
      assert s.events[|s.events| - 1].before <= last;
    }
  }

  const FailedPass: seq<Label> :=
    [Arrive, Schedule(0), StartTimer(0), Fire(0), Pop(0), Cancel(0), Begin(0, false)]

  const Unread := State([Event(Settled, 0)], [Fired], None, [Run(Some(0), Over)], [false])

  const TimerRuns := State([Event(Settled, 0)], [Fired], Some(0), [Run(Some(0), Entering)], [])

  lemma TimerRunsThenFails()
    ensures Possible(TimerRuns, FailedPass[4..]) && Exec(TimerRuns, FailedPass[4..]) == Unread
  {
    var popped := TimerRuns.(marker := None, runs := [Run(Some(0), Popped(Some(0)))]);
    var ready := popped.(runs := [Run(Some(0), Ready)]);
    Then(ready, FailedPass[6], FailedPass[7..], Unread);
    Then(popped, FailedPass[5], FailedPass[6..], ready);
    Then(TimerRuns, FailedPass[4], FailedPass[5..], popped);
  }

  lemma EventReachesTimer()
    ensures Possible(TimerRuns, FailedPass[4..]) ==>
      Possible(Start0, FailedPass) && Exec(Start0, FailedPass) == Exec(TimerRuns, FailedPass[4..])
  {
    if Possible(TimerRuns, FailedPass[4..]) {
      var arrived := Start0.(events := [Event(Arrived, 0)]);
      var starting := State([Event(Starting(0), 0)], [Created], Some(0), [], []);
      var armed := State([Event(Settled, 0)], [Armed], Some(0), [], []);
      Then(armed, FailedPass[3], FailedPass[4..], TimerRuns);
      Then(starting, FailedPass[2], FailedPass[3..], armed);
      Then(arrived, FailedPass[1], FailedPass[2..], starting);
      Then(Start0, FailedPass[0], FailedPass[1..], arrived);
      assert FailedPass[0..] == FailedPass;
    }
  }

  /** The marker is cleared before the pass, and a pass that fails to read schedules no other:
      the agent rests with the event unread. */
  lemma FailedPassLeavesUnread()
    ensures Possible(Start0, FailedPass) && Exec(Start0, FailedPass) == Unread
    ensures Quiescent(Unread) && Unread.marker == None && !AllRead(Unread)
  {
    TimerRunsThenFails();
    EventReachesTimer();
    assert !Read(Unread, 0);
  }

  /** One label in front of a run. */
  lemma Then(s: State, l: Label, ls: seq<Label>, s': State)
    requires Enabled(s, l) && Step(s, l) == s' && Possible(s', ls)
    ensures Possible(s, [l] + ls) && Exec(s, [l] + ls) == Exec(s', ls)
  {
    assert ([l] + ls)[1..] == ls;
  }

  /** In every reachable state, timers that may go off and are not about to be cancelled are one at most. */
  lemma OnePending(ls: seq<Label>, t: nat, u: nat)
    requires Possible(Start0, ls)
    requires var s := Exec(Start0, ls);
      && t < |s.timers| && (s.timers[t] == Created || s.timers[t] == Armed) && (forall r :: !Popper(s, r, t))
      && u < |s.timers| && (s.timers[u] == Created || s.timers[u] == Armed) && (forall r :: !Popper(s, r, u))
    ensures t == u && Exec(Start0, ls).marker == Some(t)
  {
    ExecKeepsInv(Start0, ls);
  }

  // ---- the two functions of the handler ---------------------------------------------

  lemma ExecTwo(s: State, a: Label, b: Label)
    requires Enabled(s, a) && Enabled(Step(s, a), b)
    ensures Possible(s, [a, b]) && Exec(s, [a, b]) == Step(Step(s, a), b)
  {
    var s1 := Step(s, a);
    assert [a, b][1..] == [b] && [b][1..] == [];
    var s2 := Step(s1, b);
    assert Possible(s2, []) && Exec(s2, []) == s2;
    assert Possible(s1, [b]) && Exec(s1, [b]) == s2;
  }

  lemma ExecThree(s: State, a: Label, b: Label, c: Label)
    requires Enabled(s, a) && Enabled(Step(s, a), b) && Enabled(Step(Step(s, a), b), c)
    ensures Possible(s, [a, b, c]) && Exec(s, [a, b, c]) == Step(Step(Step(s, a), b), c)
  {
    assert [a, b, c][1..] == [b, c];
    ExecTwo(Step(s, a), b, c);
  }

  /** A run left to itself covers every event so far and leaves no timer marked. */
  lemma WholeRun(s: State, r: nat, ok: bool)
    requires Inv(s) && Enabled(s, Pop(r))
    ensures var ls := [Pop(r), Cancel(r), Begin(r, ok)];
      && Possible(s, ls)
      && Exec(s, ls) == Step(Step(Step(s, Pop(r)), Cancel(r)), Begin(r, ok))
      && Inv(Exec(s, ls))
      && (forall e :: 0 <= e < |s.events| ==> Covered(Exec(s, ls), e))
      && (ok ==> AllRead(Exec(s, ls)))
  {
    KeepsInv(s, Pop(r));
    KeepsInv(Step(s, Pop(r)), Cancel(r));
    KeepsInv(Step(Step(s, Pop(r)), Cancel(r)), Begin(r, ok));
    ExecThree(s, Pop(r), Cancel(r), Begin(r, ok));
    var t := Exec(s, [Pop(r), Cancel(r), Begin(r, ok)]);
    assert t.begun == s.begun + [ok] && t.events == s.events;
    if ok {
      forall e | 0 <= e < |t.events| ensures Read(t, e) {
        assert t.events[e].before <= |s.begun| && t.begun[|s.begun|];
      }
    }
  }

  /** The timer table of one offering and the threads around it. */
  class ReconcileTimers {
    var events: seq<Event>
    var timers: seq<Timer>
    var marker: Option<nat>
    var runs: seq<Run>
    var begun: seq<bool>

    function Abs(): State reads this { State(events, timers, marker, runs, begun) }

    constructor ()
      ensures Abs() == Start0 && Inv(Abs())
    {
      events, timers, marker, runs, begun := [], [], None, [], [];
    }

    /** A handler that has arrived, from the lock to its return. */
    method ScheduleReconcile(e: nat) returns (scheduled: bool)
      requires Inv(Abs()) && Enabled(Abs(), Schedule(e))
      modifies this
      ensures Inv(Abs())
      ensures scheduled <==> old(marker) == None
      ensures var ls := if scheduled then [Schedule(e), StartTimer(e)] else [Schedule(e)];
        Possible(old(Abs()), ls) && Abs() == Exec(old(Abs()), ls)
    {
      ghost var was := Abs();
      KeepsInv(was, Schedule(e));
      if marker.Some? {
        events := events[e := events[e].(phase := Settled)];
        assert Abs() == Step(was, Schedule(e)) == Exec(was, [Schedule(e)]);
        return false;
      }
      var timer := |timers|;
      timers := timers + [Created];
      marker := Some(timer);
      events := events[e := events[e].(phase := Starting(timer))];
      ghost var mid := Abs();
      assert mid == Step(was, Schedule(e));
      timers := timers[timer := Armed];
      events := events[e := events[e].(phase := Settled)];
      KeepsInv(mid, StartTimer(e));
      ExecTwo(was, Schedule(e), StartTimer(e));
      assert Abs() == Step(mid, StartTimer(e));
      return true;
    }

    /** A call of `run_project_group_reconcile` up to the beginning of its pass. */
    method RunReconcile(r: nat, ok: bool)
      requires Inv(Abs()) && Enabled(Abs(), Pop(r))
      modifies this
      ensures Inv(Abs()) && marker == None
      ensures forall e :: 0 <= e < |events| ==> Covered(Abs(), e)
      ensures ok ==> AllRead(Abs())
      ensures forall t :: 0 <= t < |timers| && old(marker) == Some(t) ==> timers[t] == Fired || timers[t] == Cancelled
      ensures var ls := [Pop(r), Cancel(r), Begin(r, ok)];
        Possible(old(Abs()), ls) && Abs() == Exec(old(Abs()), ls)
    {
      ghost var was := Abs();
      var pending := marker;
      marker := None;
      runs := runs[r := runs[r].(stage := Popped(pending))];
      ghost var mid := Abs();
      assert mid == Step(was, Pop(r));
      if pending.Some? && pending != runs[r].owner && timers[pending.value] != Fired {
        timers := timers[pending.value := Cancelled];
      }
      runs := runs[r := runs[r].(stage := Ready)];
      ghost var ready := Abs();
      assert ready == Step(mid, Cancel(r));
      begun := begun + [ok];
      runs := runs[r := runs[r].(stage := Over)];
      assert Abs() == Step(ready, Begin(r, ok));
      WholeRun(was, r, ok);
    }
  }
}
