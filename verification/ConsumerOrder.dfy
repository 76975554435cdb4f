/**
Per-queue order. With one unacknowledged frame per session, a broker that closes a replaced
session before it serves the new one and no receiver left holding a frame of a replaced socket,
the handled messages, consecutive repeats collapsed, are a prefix of the published ones.
 */
module ConsumerOrder {
  import opened Wrappers
  import opened Consumer
  import opened ConsumerSafety

  predicate Current(l: Listener, it: Item) { it.Tagged? && it.generation == l.generation }

  predicate CurrentPhase(l: Listener, p: Phase) { p.Holds() && p.generation == l.generation }

  predicate WorkerCurrent(l: Listener) {
    |l.workers| > 0 && CurrentPhase(l, l.workers[|l.workers| - 1])
  }

  function CountCurrent(ms: seq<Item>, g: nat): nat {
    if ms == [] then 0
    else (if ms[0].Tagged? && ms[0].generation == g then 1 else 0) + CountCurrent(ms[1..], g)
  }

  /** An acknowledgement is on its way to a session that is being served. */
  predicate AckOnWire(b: Broker) {
    exists w :: w in b.wire && w.0 in b.sessions && b.sessions[w.0].subscribed
  }

  /** Frames of the current generation on their way to the worker or at it, and
      acknowledgements of the served session on their way to the broker. */
  function Tokens(s: State): nat {
    |s.inbox|
    + (if s.l.staged.Some? && Current(s.l, s.l.staged.value) then 1 else 0)
    + CountCurrent(s.l.messages, s.l.generation)
    + (if WorkerCurrent(s.l) then 1 else 0)
    + (if AckOnWire(s.b) then 1 else 0)
  }

  predicate OnlyServed(b: Broker, sid: nat) {
    forall other :: other in b.sessions && b.sessions[other].subscribed ==> other == sid
  }

  /** A current frame carries the oldest message not acknowledged. */
  predicate FrameFresh(b: Broker, f: Frame) {
    var a := |b.acked|;
    && a < b.published
    && f.msg == a
    && (f.session in b.sessions ==> b.sessions[f.session].open == [Entry(f.id, a)])
    && OnlyServed(b, f.session)
  }

  predicate FramesFresh(s: State) {
    && (forall i :: 0 <= i < |s.inbox| ==> FrameFresh(s.b, s.inbox[i]))
    && (s.l.staged.Some? && Current(s.l, s.l.staged.value) ==>
          FrameFresh(s.b, s.l.staged.value.frame))
    && (forall i :: 0 <= i < |s.l.messages| && Current(s.l, s.l.messages[i]) ==>
          FrameFresh(s.b, s.l.messages[i].frame))
    && (WorkerCurrent(s.l) ==> FrameFresh(s.b, s.l.workers[|s.l.workers| - 1].frame))
  }

  predicate OpenShape(b: Broker, sid: nat)
    requires sid in b.sessions
  {
    var q := b.sessions[sid];
    q.open != [] ==> q.subscribed && q.sent > 0 && q.open == [Entry(q.sent - 1, |b.acked|)]
  }

  predicate OpenAt(b: Broker, sid: nat) { sid in b.sessions && b.sessions[sid].open != [] }

  ghost predicate Busy(b: Broker) { exists sid :: OpenAt(b, sid) }

  ghost predicate QueueShape(b: Broker) {
    var base := |b.acked| + (if Busy(b) then 1 else 0);
    && base + |b.ready| == b.published
    && (forall i :: 0 <= i < |b.ready| ==> b.ready[i] == base + i)
    && (forall i :: 0 <= i < |b.acked| ==> b.acked[i] == i)
  }

  predicate OneServed(b: Broker) {
    forall sid :: sid in b.sessions && b.sessions[sid].subscribed ==> OnlyServed(b, sid)
  }

  ghost predicate BrokerOrdered(b: Broker) {
    && OneServed(b)
    && QueueShape(b)
    && (forall sid :: sid in b.sessions ==> OpenShape(b, sid))
  }

  predicate WireFresh(b: Broker, h: seq<nat>) {
    forall w :: w in b.wire && w.0 in b.sessions && b.sessions[w.0].subscribed ==>
      && b.sessions[w.0].open == [Entry(w.1, |b.acked|)]
      && LastIs(h, |b.acked|)
  }

  predicate LastIs(h: seq<nat>, m: nat) { h != [] && h[|h| - 1] == m }

  /** Starts at 0 and each handled message repeats the one before or is the next one. */
  predicate Climbs(h: seq<nat>) {
    && (h != [] ==> h[0] == 0)
    && (forall i :: 0 <= i < |h| - 1 ==> h[i] <= h[i + 1] <= h[i] + 1)
  }

  predicate HandledShape(s: State) {
    var a, h := |s.b.acked|, s.l.handled;
    && Climbs(h)
    && (h == [] ==> a == 0)
    && (h != [] ==> a - 1 <= h[|h| - 1] <= a && h[|h| - 1] < s.b.published)
    && (WorkerCurrent(s.l) && !s.l.workers[|s.l.workers| - 1].Took? ==> LastIs(h, a))
  }

  ghost predicate Ordered(s: State) {
    && BrokerOrdered(s.b)
    && WireFresh(s.b, s.l.handled)
    && FramesFresh(s)
    && HandledShape(s)
    && Tokens(s) <= 1
  }

  // ---- counting ------------------------------------------------------------------

  lemma {:induction false} CountAppend(ms: seq<Item>, it: Item, g: nat)
    ensures CountCurrent(ms + [it], g)
      == CountCurrent(ms, g) + (if it.Tagged? && it.generation == g then 1 else 0)
  {
    if ms == [] {
      assert ms + [it] == [it];
    } else {
      assert (ms + [it])[1..] == ms[1..] + [it];
      CountAppend(ms[1..], it, g);
    }
  }

  lemma {:induction false} CountNone(ms: seq<Item>, g: nat)
    requires forall i :: 0 <= i < |ms| && ms[i].Tagged? ==> ms[i].generation != g
    ensures CountCurrent(ms, g) == 0
  {
    if ms != [] {
      CountNone(ms[1..], g);
    }
  }

  lemma {:induction false} CountSome(ms: seq<Item>, g: nat, i: nat)
    requires i < |ms| && ms[i].Tagged? && ms[i].generation == g
    ensures CountCurrent(ms, g) >= 1
  {
    if i > 0 {
      CountSome(ms[1..], g, i - 1);
    }
  }

  // ---- consequences of the invariant ---------------------------------------------

  lemma BusySame(b: Broker, b': Broker)
    requires forall sid :: OpenAt(b, sid) <==> OpenAt(b', sid)
    ensures Busy(b) <==> Busy(b')
  {
  }

  /** Only the served session has a frame open. */
  lemma OpenIsServed(b: Broker, sid: nat)
    requires BrokerOrdered(b) && sid in b.sessions && b.sessions[sid].subscribed
    ensures forall other :: OpenAt(b, other) ==> other == sid
  {
    assert OnlyServed(b, sid);
    forall other | other in b.sessions ensures OpenShape(b, other) {
    }
  }

  /** No frame of the current generation is anywhere in the agent. */
  predicate Clear(s: State) {
    && s.inbox == []
    && (s.l.staged.Some? ==> !Current(s.l, s.l.staged.value))
    && CountCurrent(s.l.messages, s.l.generation) == 0
    && (forall i :: 0 <= i < |s.l.messages| ==> !Current(s.l, s.l.messages[i]))
    && !WorkerCurrent(s.l)
  }

  lemma FirstFresh(s: State)
    requires FramesFresh(s)
    ensures s.inbox == [] || FrameFresh(s.b, s.inbox[0])
  {
  }

  lemma FirstOnSocket(s: State)
    requires FramesOk(s)
    ensures s.inbox == [] || SocketFrameOk(s, s.inbox[0])
  {
  }

  lemma ClearWhenNoFresh(s: State)
    requires FramesFresh(s) && forall f :: !FrameFresh(s.b, f)
    ensures Clear(s)
  {
    FirstFresh(s);
    CountNone(s.l.messages, s.l.generation);
  }

  /** A session not subscribed yet has sent no frame. */
  lemma ClearWhenNotServed(s: State, sid: nat)
    requires FramesOk(s) && BrokerOrdered(s.b) && FramesFresh(s)
    requires s.linked && s.conn == Some(sid) && sid in s.b.sessions && !s.b.sessions[sid].subscribed
    ensures Clear(s)
  {
    assert OpenShape(s.b, sid);
    assert forall f: Frame :: f.session == sid ==> !FrameFresh(s.b, f);
    forall i | 0 <= i < |s.l.messages| ensures !Current(s.l, s.l.messages[i]) {
      assert ItemOk(s, s.l.messages[i]);
    }
    CountNone(s.l.messages, s.l.generation);
    if |s.l.workers| > 0 {
      assert PhaseOk(s, s.l.workers[|s.l.workers| - 1]);
    }
    FirstFresh(s);
    FirstOnSocket(s);
  }

  /** While the served session has nothing open, nothing of it is under way. */
  lemma ClearWhenIdle(s: State, sid: nat)
    requires Ordered(s) && sid in s.b.sessions && s.b.sessions[sid].subscribed
    requires s.b.sessions[sid].open == []
    ensures Clear(s) && !Busy(s.b)
    ensures !AckOnWire(s.b)
  {
    ClearWhenNoFresh(s);
    OpenIsServed(s.b, sid);
    assert forall w :: w in s.b.wire && w.0 in s.b.sessions && s.b.sessions[w.0].subscribed ==> OpenAt(s.b, w.0);
  }

  /** While an acknowledgement is on the wire, no current frame is left in the agent. */
  lemma ClearWhenOnWire(s: State)
    requires Tokens(s) <= 1 && AckOnWire(s.b)
    ensures Clear(s)
  {
    forall i | 0 <= i < |s.l.messages| ensures !Current(s.l, s.l.messages[i]) {
      if Current(s.l, s.l.messages[i]) {
        CountSome(s.l.messages, s.l.generation, i);
      }
    }
  }

  /** A new generation leaves no current frame behind. */
  lemma BumpLeavesNone(s: State)
    requires FramesOk(s)
    ensures var l := s.l.Bump();
      && !WorkerCurrent(l)
      && CountCurrent(l.messages, l.generation) == 0
      && (forall i :: 0 <= i < |l.messages| ==> !Current(l, l.messages[i]))
  {
    var l := s.l.Bump();
    forall i | 0 <= i < |l.messages| ensures !Current(l, l.messages[i]) {
      assert ItemOk(s, s.l.messages[i]);
    }
    CountNone(l.messages, l.generation);
    if |l.workers| > 0 {
      assert PhaseOk(s, s.l.workers[|l.workers| - 1]);
    }
  }

  // ---- the steps -----------------------------------------------------------------

  ghost predicate Good(c: Config, s: State, x: Label) {
    c.prefetch <= 1 && c.prompt && !c.replaced.Anytime? && Ordered(s) && Enabled(c, s, x)
  }

  lemma PublishOrdered(c: Config, s: State, x: Label)
    requires Good(c, s, x) && x.Publish?
    ensures Ordered(Step(c, s, x))
  {
    BusySame(s.b, Step(c, s, x).b);
  }

  lemma SubscribeOrdered(c: Config, s: State, x: Label)
    requires FramesOk(s) && Good(c, s, x) && x.Subscribe?
    ensures Ordered(Step(c, s, x))
  {
    var s' := Step(c, s, x);
    assert OpenShape(s.b, x.session);
    ClearWhenNotServed(s, x.session);
    BusySame(s.b, s'.b);
    assert AckOnWire(s'.b) ==> AckOnWire(s.b);
  }

  lemma DeliverBroker(c: Config, s: State, x: Label)
    requires Good(c, s, x) && x.Deliver?
    ensures BrokerOrdered(Step(c, s, x).b)
  {
    var b, b' := s.b, Step(c, s, x).b;
    ClearWhenIdle(s, x.session);
    assert OpenAt(b', x.session);
    forall sid | sid in b'.sessions ensures OpenShape(b', sid) {
      assert OpenShape(b, sid);
      assert sid != x.session ==> !OpenAt(b, sid);
    }
    assert OnlyServed(b, x.session);
  }

  lemma DeliverOrdered(c: Config, s: State, x: Label)
    requires Good(c, s, x) && x.Deliver?
    ensures Ordered(Step(c, s, x))
  {
    DeliverBroker(c, s, x);
    ClearWhenIdle(s, x.session);
    var s' := Step(c, s, x);
    assert s.b.ready[0] == |s.b.acked|;
    assert OnlyServed(s.b, x.session);
    assert WireFresh(s'.b, s'.l.handled);
    assert FramesFresh(s');
  }

  lemma DropBroker(c: Config, s: State, x: Label)
    requires Good(c, s, x) && x.Drop?
    ensures BrokerOrdered(Step(c, s, x).b)
  {
    var b, b' := s.b, Step(c, s, x).b;
    assert OpenShape(b, x.session);
    assert forall other: nat :: OpenAt(b', other) ==> OpenAt(b, other);
    if OpenAt(b, x.session) {
      OpenIsServed(b, x.session);
      assert !Busy(b');
    } else {
      BusySame(b, b');
      assert b'.ready == b.ready;
    }
    forall sid | sid in b'.sessions ensures OpenShape(b', sid) {
      assert OpenShape(b, sid);
    }
  }

  lemma DropOrdered(c: Config, s: State, x: Label)
    requires Good(c, s, x) && x.Drop?
    ensures Ordered(Step(c, s, x))
  {
    DropBroker(c, s, x);
    var s' := Step(c, s, x);
    assert AckOnWire(s'.b) ==> AckOnWire(s.b);
    forall f | FrameFresh(s.b, f) ensures FrameFresh(s'.b, f) {
    }
  }

  /** An acknowledgement that came before the subscription takes nothing. */
  lemma EarlyAckOrdered(c: Config, s: State, x: Label)
    requires Good(c, s, x) && x.ProcessAck? && !s.b.sessions[x.session].subscribed
    ensures Ordered(Step(c, s, x))
  {
    var s' := Step(c, s, x);
    assert OpenShape(s.b, x.session);
    assert s.b.sessions[x.session].open == [];
    assert s'.b.sessions == s.b.sessions && s'.b.acked == s.b.acked;
    BusySame(s.b, s'.b);
    forall f | FrameFresh(s.b, f) ensures FrameFresh(s'.b, f) {
    }
    forall sid | sid in s'.b.sessions ensures OpenShape(s'.b, sid) {
      assert OpenShape(s.b, sid);
    }
  }

  lemma AckOrdered(c: Config, s: State, x: Label)
    requires FramesOk(s) && Good(c, s, x) && x.ProcessAck? && s.b.sessions[x.session].subscribed
    ensures Ordered(Step(c, s, x))
  {
    var s' := Step(c, s, x);
    var open := s.b.sessions[x.session].open;
    assert OpenShape(s.b, x.session);
    assert (x.session, x.id) in s.b.wire;
    ClearWhenOnWire(s);
    assert open[1..] == [];
    assert Without(open, x.id) == [] && Matching(open, x.id) == open;
    OpenIsServed(s.b, x.session);
    assert OpenAt(s.b, x.session);
    assert forall other: nat :: OpenAt(s'.b, other) ==> OpenAt(s.b, other);
    assert !Busy(s'.b);
    forall w | w in s'.b.wire && w.0 in s'.b.sessions && s'.b.sessions[w.0].subscribed ensures OpenAt(s.b, w.0) {
      assert w in s.b.wire;
    }
  }

  lemma OpenKeepsFresh(s: State, s': State)
    requires FramesOk(s) && FramesFresh(s)
    requires s'.l == s.l && s'.inbox == []
    requires s'.b == s.b.(nextSession := s.b.nextSession + 1,
                          sessions := s.b.sessions[s.b.nextSession := Session(false, 0, [])])
    ensures FramesFresh(s')
  {
    forall f | FrameFresh(s.b, f) && f.session != s.b.nextSession ensures FrameFresh(s'.b, f) {
    }
    forall i | 0 <= i < |s'.l.messages| && Current(s'.l, s'.l.messages[i])
      ensures FrameFresh(s'.b, s'.l.messages[i].frame)
    {
      assert ItemOk(s, s.l.messages[i]);
    }
    if |s.l.workers| > 0 {
      assert PhaseOk(s, s.l.workers[|s.l.workers| - 1]);
    }
  }

  lemma OpenKeepsBroker(c: Config, s: State, x: Label)
    requires BrokerOk(s) && Good(c, s, x) && x.Open?
    ensures var s' := Step(c, s, x);
      BrokerOrdered(s'.b) && WireFresh(s'.b, s'.l.handled) && (AckOnWire(s'.b) ==> AckOnWire(s.b))
  {
    var s' := Step(c, s, x);
    forall sid ensures OpenAt(s.b, sid) <==> OpenAt(s'.b, sid) {
      assert OpenAt(s.b, sid) ==> SessionOk(s.b, sid);
    }
    BusySame(s.b, s'.b);
    forall sid | sid in s'.b.sessions ensures OpenShape(s'.b, sid) {
      assert sid in s.b.sessions ==> OpenShape(s.b, sid);
    }
    forall w | w in s.b.wire ensures w.0 != s.b.nextSession {
      assert WireOk(s, w);
    }
  }

  lemma TransportOrdered(c: Config, s: State, x: Label)
    requires FramesOk(s) && BrokerOk(s) && Good(c, s, x) && TransportMove(x)
    ensures Ordered(Step(c, s, x))
  {
    if x.Open? {
      OpenKeepsBroker(c, s, x);
      OpenKeepsFresh(s, Step(c, s, x));
    } else {
      BumpLeavesNone(s);
      FirstOnSocket(s);
    }
  }

  lemma ReceiveOrdered(c: Config, s: State, x: Label)
    requires Good(c, s, x) && x.Receive?
    ensures Ordered(Step(c, s, x))
  {
    FirstFresh(s);
    var s' := Step(c, s, x);
    assert s'.inbox == [];
  }

  lemma QueueOrdered(c: Config, s: State, x: Label)
    requires Good(c, s, x) && (x.Queue? || x.QueueStop?)
    ensures Ordered(Step(c, s, x))
  {
    var it := if x.Queue? then s.l.staged.value else Stop;
    CountAppend(s.l.messages, it, s.l.generation);
    var s' := Step(c, s, x);
    forall i | 0 <= i < |s'.l.messages| && Current(s'.l, s'.l.messages[i])
      ensures FrameFresh(s'.b, s'.l.messages[i].frame)
    {
      if i < |s.l.messages| {
        assert Current(s.l, s.l.messages[i]);
      }
    }
  }

  lemma StartOrdered(c: Config, s: State, x: Label)
    requires Good(c, s, x) && (x.StartWorker? || x.Close?)
    ensures Ordered(Step(c, s, x))
  {
    var s' := Step(c, s, x);
    assert WorkerCurrent(s'.l) ==> s'.l.workers == s.l.workers;
  }

  /** A worker that moves is the last one started. */
  lemma MoverIsLast(c: Config, s: State, x: Label)
    requires OneWorker(s.l) && Enabled(c, s, x) && WorkerMove(x)
    ensures x.worker == |s.l.workers| - 1
  {
  }

  lemma TakeOrdered(c: Config, s: State, x: Label)
    requires OneWorker(s.l) && Good(c, s, x) && x.TakeNext?
    ensures Ordered(Step(c, s, x))
  {
    MoverIsLast(c, s, x);
    var s' := Step(c, s, x);
    assert s'.l.workers[|s.l.workers| - 1] != Polling;
    assert FramesFresh(s');
  }

  lemma CheckHandled(c: Config, s: State, x: Label)
    requires OneWorker(s.l) && Good(c, s, x) && x.CheckCurrent?
    ensures var s' := Step(c, s, x);
      HandledShape(s') && WireFresh(s'.b, s'.l.handled)
  {
    MoverIsLast(c, s, x);
    var s' := Step(c, s, x);
    if s.l.workers[x.worker].generation == s.l.generation {
      assert WorkerCurrent(s.l);
      assert s'.l.handled == s.l.handled + [|s.b.acked|];
    } else {
      assert !WorkerCurrent(s'.l);
    }
  }

  lemma CheckOrdered(c: Config, s: State, x: Label)
    requires OneWorker(s.l) && Good(c, s, x) && x.CheckCurrent?
    ensures Ordered(Step(c, s, x))
  {
    MoverIsLast(c, s, x);
    CheckHandled(c, s, x);
    var s' := Step(c, s, x);
    assert s'.l.messages == s.l.messages && s'.b == s.b;
    assert WorkerCurrent(s'.l) ==> WorkerCurrent(s.l);
  }

  lemma FinishOrdered(c: Config, s: State, x: Label)
    requires OneWorker(s.l) && Good(c, s, x) && x.FinishHandler?
    ensures Ordered(Step(c, s, x))
  {
    MoverIsLast(c, s, x);
    assert FramesFresh(Step(c, s, x));
  }

  /** An acknowledgement to a served session is of the one frame that session has open. */
  lemma AckWireFresh(c: Config, s: State, x: Label)
    requires OneWorker(s.l) && FramesOk(s) && TransportOk(s) && Good(c, s, x) && x.Acknowledge?
    ensures WireFresh(Step(c, s, x).b, Step(c, s, x).l.handled)
    ensures AckOnWire(Step(c, s, x).b) && !AckOnWire(s.b) ==> WorkerCurrent(s.l)
  {
    MoverIsLast(c, s, x);
    assert PhaseOk(s, s.l.workers[x.worker]);
    var s' := Step(c, s, x);
    forall w | w in s'.b.wire && w.0 in s'.b.sessions && s'.b.sessions[w.0].subscribed
      ensures s'.b.sessions[w.0].open == [Entry(w.1, |s'.b.acked|)] && LastIs(s'.l.handled, |s'.b.acked|)
    {
      if w !in s.b.wire {
        assert WorkerCurrent(s.l) && s.linked;
      }
    }
  }

  lemma AckLeavesBroker(c: Config, s: State, x: Label)
    requires Good(c, s, x) && x.Acknowledge?
    ensures BrokerOrdered(Step(c, s, x).b)
  {
    var s' := Step(c, s, x);
    BusySame(s.b, s'.b);
    forall sid | sid in s'.b.sessions ensures OpenShape(s'.b, sid) {
      assert OpenShape(s.b, sid);
    }
  }

  lemma AckLeavesFrames(c: Config, s: State, x: Label)
    requires OneWorker(s.l) && Good(c, s, x) && x.Acknowledge?
    ensures FramesFresh(Step(c, s, x)) && HandledShape(Step(c, s, x)) && !WorkerCurrent(Step(c, s, x).l)
  {
    MoverIsLast(c, s, x);
    var s' := Step(c, s, x);
    assert !WorkerCurrent(s'.l);
    forall f | FrameFresh(s.b, f) ensures FrameFresh(s'.b, f) {
    }
  }

  lemma AcknowledgeOrdered(c: Config, s: State, x: Label)
    requires OneWorker(s.l) && FramesOk(s) && TransportOk(s) && Good(c, s, x) && x.Acknowledge?
    ensures Ordered(Step(c, s, x))
  {
    AckWireFresh(c, s, x);
    AckLeavesBroker(c, s, x);
    AckLeavesFrames(c, s, x);
    var s' := Step(c, s, x);
    assert s'.inbox == s.inbox && s'.l.staged == s.l.staged && s'.l.messages == s.l.messages;
    assert s'.l.generation == s.l.generation;
  }

  lemma StopOrdered(c: Config, s: State, x: Label)
    requires OneWorker(s.l) && Good(c, s, x) && (x.SeeClosed? || x.Slip? || x.Die?)
    ensures Ordered(Step(c, s, x))
  {
    MoverIsLast(c, s, x);
    assert !WorkerCurrent(Step(c, s, x).l);
  }

  lemma BrokerKeepsOrdered(c: Config, s: State, x: Label)
    requires FramesOk(s) && Good(c, s, x) && BrokerMove(x)
    ensures Ordered(Step(c, s, x))
  {
    match x
    case Publish => PublishOrdered(c, s, x);
    case Subscribe(_) => SubscribeOrdered(c, s, x);
    case Deliver(_, _) => DeliverOrdered(c, s, x);
    case Drop(_) => DropOrdered(c, s, x);
    case ProcessAck(sid, _) =>
      if s.b.sessions[sid].subscribed {
        AckOrdered(c, s, x);
      } else {
        EarlyAckOrdered(c, s, x);
      }
  }

  lemma WorkerKeepsOrdered(c: Config, s: State, x: Label)
    requires OneWorker(s.l) && FramesOk(s) && TransportOk(s) && Good(c, s, x) && WorkerMove(x)
    ensures Ordered(Step(c, s, x))
  {
    match x
    case TakeNext(_) => TakeOrdered(c, s, x);
    case CheckCurrent(_) => CheckOrdered(c, s, x);
    case FinishHandler(_) => FinishOrdered(c, s, x);
    case Acknowledge(_, _) => AcknowledgeOrdered(c, s, x);
    case _ => StopOrdered(c, s, x);
  }

  lemma KeepsOrdered(c: Config, s: State, x: Label)
    requires Inv(s) && Good(c, s, x)
    ensures Ordered(Step(c, s, x))
  {
    if BrokerMove(x) {
      BrokerKeepsOrdered(c, s, x);
    } else if TransportMove(x) {
      TransportOrdered(c, s, x);
    } else if WorkerMove(x) {
      WorkerKeepsOrdered(c, s, x);
    } else if x.Receive? {
      ReceiveOrdered(c, s, x);
    } else if x.Queue? || x.QueueStop? {
      QueueOrdered(c, s, x);
    } else {
      StartOrdered(c, s, x);
    }
  }

  // ---- the theorem ---------------------------------------------------------------

  /** The sequence with each stretch of equal neighbours reduced to one element. */
  function Collapse(h: seq<nat>): seq<nat> {
    if |h| <= 1 then h
    else if h[|h| - 2] == h[|h| - 1] then Collapse(h[..|h| - 1])
    else Collapse(h[..|h| - 1]) + [h[|h| - 1]]
  }

  /** The published sequence is 0, 1, 2, ...; `p` is a prefix of it. */
  predicate PrefixOfPublished(p: seq<nat>, published: nat) {
    |p| <= published && forall i :: 0 <= i < |p| ==> p[i] == i
  }

  lemma {:induction false} ClimbingCollapses(h: seq<nat>)
    requires Climbs(h) && h != []
    ensures var p := Collapse(h);
      |p| == h[|h| - 1] + 1 && forall i :: 0 <= i < |p| ==> p[i] == i
  {
    if |h| > 1 {
      var g := h[..|h| - 1];
      assert h[|h| - 2] <= h[|h| - 2 + 1] <= h[|h| - 2] + 1;
      ClimbingCollapses(g);
    }
  }

  lemma {:induction false} ExecKeepsOrdered(c: Config, s: State, labels: seq<Label>)
    requires c.prefetch <= 1 && c.prompt && !c.replaced.Anytime? && Inv(s) && Ordered(s) && Exec(c, s, labels).Some?
    ensures Ordered(Exec(c, s, labels).value)
    decreases |labels|
  {
    if labels != [] {
      KeepsInv(c, s, labels[0]);
      KeepsOrdered(c, s, labels[0]);
      ExecKeepsOrdered(c, Step(c, s, labels[0]), labels[1..]);
    }
  }

  lemma OrderedMeansPrefix(s: State)
    requires Ordered(s)
    ensures PrefixOfPublished(Collapse(s.l.handled), s.b.published)
  {
    var h := s.l.handled;
    if h != [] {
      ClimbingCollapses(h);
    }
  }

  /** Every run of the consumer keeps the queue's order. */
  ghost predicate KeepsOrder(c: Config) {
    forall labels :: Exec(c, Init, labels).Some? ==>
      var s := Exec(c, Init, labels).value;
      PrefixOfPublished(Collapse(s.l.handled), s.b.published)
  }
}
