/**
The conditions under which the consumer keeps its promises are exact: each of them, dropped,
lets some run break the promise.
 */
module ConsumerExact {
  import opened Wrappers
  import opened Consumer
  import opened ConsumerSafety
  import opened ConsumerOrder

  // ---- building runs -------------------------------------------------------------

  ghost predicate Reachable(c: Config, s: State) {
    exists labels :: Exec(c, Init, labels) == Some(s)
  }

  /** Some run makes exactly these handler calls. */
  ghost predicate Handles(c: Config, h: seq<nat>) {
    exists s :: Reachable(c, s) && s.l.handled == h
  }

  lemma Reach(c: Config, s: State, x: Label, s': State)
    requires Reachable(c, s) && Enabled(c, s, x) && s' == Step(c, s, x)
    ensures Reachable(c, s')
  {
    var labels :| Exec(c, Init, labels) == Some(s);
    ExecThen(c, Init, labels, [x]);
    assert [x][1..] == [];
    assert Exec(c, Init, labels + [x]) == Some(s');
  }

  /** The listener with one worker in the given phase, on the socket of `sid`. */
  function With(generation: nat, messages: seq<Item>, p: Phase, handled: seq<nat>,
                finished: set<nat>, sid: nat, inbox: seq<Frame>, b: Broker,
                held: Option<Frame> := None): State
  {
    State(Listener(generation, None, messages, false, [p], handled, finished),
          Some(sid), true, inbox, held, b)
  }

  lemma TakeFrame(c: Config, g: nat, h: seq<nat>, fin: set<nat>, sid: nat, f: Frame,
                  inbox: seq<Frame>, b: Broker, held: Option<Frame> := None)
    requires Reachable(c, With(g, [], Polling, h, fin, sid, [f] + inbox, b, held))
    ensures Reachable(c, With(g, [], Took(g, f), h, fin, sid, inbox, b, held))
  {
    var s := With(g, [], Polling, h, fin, sid, [f] + inbox, b, held);
    assert s.inbox[1..] == inbox;
    var s1 := With(g, [], Polling, h, fin, sid, inbox, b, held).(l := s.l.Tag(f));
    Reach(c, s, Receive, s1);
    var s2 := With(g, [Tagged(g, f)], Polling, h, fin, sid, inbox, b, held);
    Reach(c, s1, Queue, s2);
    var s3 := With(g, [], Took(g, f), h, fin, sid, inbox, b, held);
    assert s2.l.workers[0 := Took(g, f)] == s3.l.workers;
    Reach(c, s2, TakeNext(0), s3);
  }

  /** The next frame on the socket is handled; its acknowledgement leaves or does not. */
  lemma HandleFrame(c: Config, g: nat, h: seq<nat>, fin: set<nat>, sid: nat, f: Frame,
                    inbox: seq<Frame>, b: Broker, sent: bool,
                    held: Option<Frame> := None)
    requires f.hasAck && Reachable(c, With(g, [], Polling, h, fin, sid, [f] + inbox, b, held))
    ensures var b' := if sent then b.(wire := b.wire + {(sid, f.id)}) else b;
      Reachable(c, With(g, [], Polling, h + [f.msg], fin + {f.msg}, sid, inbox, b', held))
  {
    TakeFrame(c, g, h, fin, sid, f, inbox, b, held);
    var s3 := With(g, [], Took(g, f), h, fin, sid, inbox, b, held);
    var s4 := With(g, [], Handling(g, f), h + [f.msg], fin, sid, inbox, b, held);
    assert s3.l.workers[0 := Handling(g, f)] == s4.l.workers;
    Reach(c, s3, CheckCurrent(0), s4);
    var s5 := With(g, [], Handled(g, f), h + [f.msg], fin + {f.msg}, sid, inbox, b, held);
    assert s4.l.workers[0 := Handled(g, f)] == s5.l.workers;
    Reach(c, s4, FinishHandler(0), s5);
    var b' := if sent then b.(wire := b.wire + {(sid, f.id)}) else b;
    var s6 := With(g, [], Polling, h + [f.msg], fin + {f.msg}, sid, inbox, b', held);
    assert s5.l.workers[0 := Polling] == s6.l.workers;
    Reach(c, s5, Acknowledge(0, sent), s6);
  }

  /** The socket is replaced: the listener sees the disconnect and connects again. */
  lemma Reconnect(c: Config, g: nat, h: seq<nat>, fin: set<nat>, sid: nat, b: Broker)
    requires Reachable(c, With(g, [], Polling, h, fin, sid, [], b))
    ensures var b' := b.(nextSession := b.nextSession + 1,
                         sessions := b.sessions[b.nextSession := Session(false, 0, [])]);
      Reachable(c, With(g + 2, [], Polling, h, fin, b.nextSession, [], b'))
  {
    var s := With(g, [], Polling, h, fin, sid, [], b);
    var s1 := Step(c, s, OnDisconnected);
    Reach(c, s, OnDisconnected, s1);
    var s2 := Step(c, s1, Open(false));
    Reach(c, s1, Open(false), s2);
    Reach(c, s2, OnConnected, Step(c, s2, OnConnected));
  }

  /** The new session is subscribed and the head of the queue goes out on it. */
  lemma SubscribeAndDeliver(c: Config, g: nat, h: seq<nat>, fin: set<nat>, sid: nat, b: Broker,
                            held: Option<Frame> := None)
    requires c.prefetch >= 1 && b.ready != []
    requires sid in b.sessions && b.sessions[sid] == Session(false, 0, [])
    requires c.prompt ==> forall other :: other in b.sessions ==> other == sid
    requires forall w :: w in b.wire ==> w.0 != sid
    requires Reachable(c, With(g, [], Polling, h, fin, sid, [], b, held))
    ensures var b' := b.(ready := b.ready[1..],
                         sessions := b.sessions[sid := Session(true, 1, [Entry(0, b.ready[0])])]);
      Reachable(c, With(g, [], Polling, h, fin, sid, [Frame(b.ready[0], sid, 0, true)], b', held))
  {
    var b1 := b.(sessions := b.sessions[sid := Session(true, 0, [])]);
    var s1 := With(g, [], Polling, h, fin, sid, [], b1, held);
    Reach(c, With(g, [], Polling, h, fin, sid, [], b, held), Subscribe(sid), s1);
    DeliverNext(c, g, h, fin, sid, [], b1, held);
    assert [] + [Entry(0, b.ready[0])] == [Entry(0, b.ready[0])];
    assert b1.sessions[sid := Session(true, 1, [Entry(0, b.ready[0])])]
        == b.sessions[sid := Session(true, 1, [Entry(0, b.ready[0])])];
    assert [] + [Frame(b.ready[0], sid, 0, true)] == [Frame(b.ready[0], sid, 0, true)];
  }

  lemma DeliverNext(c: Config, g: nat, h: seq<nat>, fin: set<nat>, sid: nat,
                    inbox: seq<Frame>, b: Broker, held: Option<Frame> := None)
    requires sid in b.sessions && b.sessions[sid].subscribed && b.ready != []
    requires |b.sessions[sid].open| < c.prefetch
    requires Reachable(c, With(g, [], Polling, h, fin, sid, inbox, b, held))
    ensures var q := b.sessions[sid];
      var b' := b.(ready := b.ready[1..],
                   sessions := b.sessions[sid := Session(true, q.sent + 1,
                                            q.open + [Entry(q.sent, b.ready[0])])]);
      Reachable(c, With(g, [], Polling, h, fin, sid,
                        inbox + [Frame(b.ready[0], sid, q.sent, true)], b', held))
  {
    var s := With(g, [], Polling, h, fin, sid, inbox, b, held);
    Reach(c, s, Deliver(sid, true), Step(c, s, Deliver(sid, true)));
  }

  /** Two messages are published and the first session is up. */
  lemma FirstConnection(c: Config)
    ensures Reachable(c, With(1, [], Polling, [], {}, 0, [],
      Broker(2, [0, 1], map[0 := Session(false, 0, [])], 1, [], {})))
  {
    assert Exec(c, Init, []) == Some(Init);
    var s1 := Init.(b := Broker(1, [0], map[], 0, [], {}));
    Reach(c, Init, Publish, s1);
    var s2 := Init.(b := Broker(2, [0, 1], map[], 0, [], {}));
    Reach(c, s1, Publish, s2);
    var s3 := s2.(l := s2.l.EnsureWorker());
    Reach(c, s2, StartWorker, s3);
    var s4 := Step(c, s3, Open(false));
    Reach(c, s3, Open(false), s4);
    var s5 := With(1, [], Polling, [], {}, 0, [],
                   Broker(2, [0, 1], map[0 := Session(false, 0, [])], 1, [], {}));
    Reach(c, s4, OnConnected, s5);
  }

  lemma OutOfOrder(c: Config, s: State)
    requires Reachable(c, s) && s.l.handled == [0, 1, 0]
    ensures Handles(c, [0, 1, 0]) && !KeepsOrder(c)
  {
    var h := s.l.handled;
    assert h[..2] == [0, 1] && [0, 1][..1] == [0];
    assert Collapse([0, 1]) == [0, 1];
    assert Collapse(h) == [0, 1, 0];
    assert Collapse(h)[2] != 2;
    var labels :| Exec(c, Init, labels) == Some(s);
  }

  /** A second frame in flight: both are handled, both acknowledgements are lost. */
  lemma PrefetchMatters(c: Config)
    requires c.prefetch >= 2
    ensures Handles(c, [0, 1, 0]) && !KeepsOrder(c)
  {
    FirstConnection(c);
    var b0 := Broker(2, [0, 1], map[0 := Session(false, 0, [])], 1, [], {});
    SubscribeAndDeliver(c, 1, [], {}, 0, b0);
    var f0, f1 := Frame(0, 0, 0, true), Frame(1, 0, 1, true);
    var b1 := Broker(2, [1], map[0 := Session(true, 1, [Entry(0, 0)])], 1, [], {});
    assert b1.ready == b0.ready[1..];
    assert b1.sessions == b0.sessions[0 := Session(true, 1, [Entry(0, 0)])];
    DeliverNext(c, 1, [], {}, 0, [f0], b1);
    var b2 := Broker(2, [], map[0 := Session(true, 2, [Entry(0, 0), Entry(1, 1)])], 1, [], {});
    assert [Entry(0, 0)] + [Entry(1, 1)] == [Entry(0, 0), Entry(1, 1)];
    assert b2.sessions == b1.sessions[0 := Session(true, 2, [Entry(0, 0)] + [Entry(1, 1)])];
    assert b2 == b1.(ready := b1.ready[1..],
                     sessions := b1.sessions[0 := Session(true, 2, [Entry(0, 0)] + [Entry(1, 1)])]);
    assert [f0] + [f1] == [f0, f1];
    HandleFrame(c, 1, [], {}, 0, f0, [f1], b2, false);
    assert [f1] + [] == [f1];
    HandleFrame(c, 1, [] + [0], {} + {0}, 0, f1, [], b2, false);
    RedeliverAfterDrop(c, b2);
  }

  lemma RedeliverAfterDrop(c: Config, b2: Broker)
    requires c.prefetch >= 1
    requires b2 == Broker(2, [], map[0 := Session(true, 2, [Entry(0, 0), Entry(1, 1)])], 1, [], {})
    requires Reachable(c, With(1, [], Polling, [] + [0] + [1], {} + {0} + {1}, 0, [], b2))
    ensures Handles(c, [0, 1, 0]) && !KeepsOrder(c)
  {
    var h, fin := [] + [0] + [1], {} + {0} + {1};
    var b3 := Broker(2, [0, 1], map[], 1, [], {});
    var s := With(1, [], Polling, h, fin, 0, [], b2);
    assert Messages(b2.sessions[0].open) + [] == [0, 1];
    assert b2.sessions - {0} == map[];
    Reach(c, s, Drop(0), With(1, [], Polling, h, fin, 0, [], b3));
    Reconnect(c, 1, h, fin, 0, b3);
    var b4 := b3.(nextSession := 2, sessions := b3.sessions[1 := Session(false, 0, [])]);
    SubscribeAndDeliver(c, 3, h, fin, 1, b4);
    var f := Frame(0, 1, 0, true);
    var b5 := b4.(ready := b4.ready[1..],
                  sessions := b4.sessions[1 := Session(true, 1, [Entry(0, 0)])]);
    assert [f] + [] == [f];
    HandleFrame(c, 3, h, fin, 1, f, [], b5, false);
    OutOfOrder(c, With(3, [], Polling, h + [0], fin + {0}, 1, [], b5));
  }

  /** The replaced session lingers: its message is requeued behind the agent's back. */
  lemma PromptnessMatters(c: Config)
    requires c.prefetch >= 1 && !c.prompt
    ensures Handles(c, [0, 1, 0]) && !KeepsOrder(c)
  {
    FirstConnection(c);
    var b0 := Broker(2, [0, 1], map[0 := Session(false, 0, [])], 1, [], {});
    SubscribeAndDeliver(c, 1, [], {}, 0, b0);
    var f0 := Frame(0, 0, 0, true);
    var q0 := Session(true, 1, [Entry(0, 0)]);
    var b1 := Broker(2, [1], map[0 := q0], 1, [], {});
    assert b1.ready == b0.ready[1..] && b1.sessions == b0.sessions[0 := q0];
    assert [f0] + [] == [f0];
    HandleFrame(c, 1, [], {}, 0, f0, [], b1, false);
    Reconnect(c, 1, [] + [0], {} + {0}, 0, b1);
    var b2 := Broker(2, [1], map[0 := q0, 1 := Session(false, 0, [])], 2, [], {});
    assert b2.sessions == b1.sessions[1 := Session(false, 0, [])];
    SubscribeAndDeliver(c, 3, [] + [0], {} + {0}, 1, b2);
    var f1 := Frame(1, 1, 0, true);
    var b3 := Broker(2, [], map[0 := q0, 1 := Session(true, 1, [Entry(0, 1)])], 2, [], {});
    assert b3.ready == b2.ready[1..];
    assert b3.sessions == b2.sessions[1 := Session(true, 1, [Entry(0, 1)])];
    assert [f1] + [] == [f1];
    HandleFrame(c, 3, [] + [0], {} + {0}, 1, f1, [], b3, true);
    LateRequeue(c, b3.(wire := {} + {(1, 0)}));
  }

  lemma LateRequeue(c: Config, b4: Broker)
    requires c.prefetch >= 1
    requires b4 == Broker(2, [], map[0 := Session(true, 1, [Entry(0, 0)]),
                                     1 := Session(true, 1, [Entry(0, 1)])], 2, [], {(1, 0)})
    requires Reachable(c, With(3, [], Polling, [] + [0] + [1], {} + {0} + {1}, 1, [], b4))
    ensures Handles(c, [0, 1, 0]) && !KeepsOrder(c)
  {
    var h, fin := [] + [0] + [1], {} + {0} + {1};
    var s4 := With(3, [], Polling, h, fin, 1, [], b4);
    var b5 := Broker(2, [], map[0 := Session(true, 1, [Entry(0, 0)]), 1 := Session(true, 1, [])],
                     2, [1], {});
    assert [Entry(0, 1)][1..] == [];
    assert Without([Entry(0, 1)], 0) == [] && Matching([Entry(0, 1)], 0) == [Entry(0, 1)];
    assert [] + Messages([Entry(0, 1)]) == [1];
    var s5 := With(3, [], Polling, h, fin, 1, [], b5);
    assert b5.sessions == b4.sessions[1 := Session(true, 1, [])];
    assert {(1, 0)} - {(1, 0)} == {};
    Reach(c, s4, ProcessAck(1, 0), s5);
    var b6 := Broker(2, [0], map[1 := Session(true, 1, [])], 2, [1], {});
    assert Messages([Entry(0, 0)]) + [] == [0];
    assert b5.sessions - {0} == b6.sessions;
    Reach(c, s5, Drop(0), With(3, [], Polling, h, fin, 1, [], b6));
    DeliverNext(c, 3, h, fin, 1, [], b6);
    var f := Frame(0, 1, 1, true);
    var b7 := b6.(ready := b6.ready[1..],
                  sessions := b6.sessions[1 := Session(true, 2, [] + [Entry(1, 0)])]);
    assert [] + [f] == [f] + [];
    HandleFrame(c, 3, h, fin, 1, f, [], b7, false);
    OutOfOrder(c, With(3, [], Polling, h + [0], fin + {0}, 1, [], b7));
  }

  // ---- a socket replaced before the disconnect was seen --------------------------

  /** Message 0 is handled and acknowledged, message 1 goes out as the second frame. */
  lemma SecondFrameOut(c: Config)
    requires c.prefetch >= 1
    ensures Reachable(c, With(1, [], Polling, [0], {0}, 0, [SecondFrame], FirstSession))
  {
    FirstConnection(c);
    var b0 := Broker(2, [0, 1], map[0 := Session(false, 0, [])], 1, [], {});
    SubscribeAndDeliver(c, 1, [], {}, 0, b0);
    var f0 := Frame(0, 0, 0, true);
    var b1 := Broker(2, [1], map[0 := Session(true, 1, [Entry(0, 0)])], 1, [], {});
    assert b1.ready == b0.ready[1..];
    assert b1.sessions == b0.sessions[0 := Session(true, 1, [Entry(0, 0)])];
    assert [f0] + [] == [f0];
    HandleFrame(c, 1, [], {}, 0, f0, [], b1, true);
    assert [] + [0] == [0] && {} + {0} == {0} && {} + {(0, 0)} == {(0, 0)};
    var s1 := With(1, [], Polling, [0], {0}, 0, [], b1.(wire := {(0, 0)}));
    var b2 := Broker(2, [1], map[0 := Session(true, 1, [])], 1, [0], {});
    AckOnlyEntry(c, s1, 0, 0, 0);
    assert Step(c, s1, ProcessAck(0, 0)) == With(1, [], Polling, [0], {0}, 0, [], b2);
    Reach(c, s1, ProcessAck(0, 0), With(1, [], Polling, [0], {0}, 0, [], b2));
    DeliverNext(c, 1, [0], {0}, 0, [], b2);
    assert [] + [Entry(1, 1)] == [Entry(1, 1)];
    assert [] + [SecondFrame] == [SecondFrame];
    assert b2.ready[1..] == FirstSession.ready;
    assert b2.sessions[0 := Session(true, 2, [Entry(1, 1)])] == FirstSession.sessions;
  }

  /** The acknowledgement of the one entry a session has open. */
  lemma AckOnlyEntry(c: Config, s: State, sid: nat, id: nat, m: nat)
    requires sid in s.b.sessions && s.b.sessions[sid].open == [Entry(id, m)] && (sid, id) in s.b.wire
    ensures Enabled(c, s, ProcessAck(sid, id))
    ensures Step(c, s, ProcessAck(sid, id))
      == s.(b := s.b.(wire := s.b.wire - {(sid, id)},
                      sessions := s.b.sessions[sid := s.b.sessions[sid].(open := [])],
                      acked := s.b.acked + [m]))
  {
    var es := [Entry(id, m)];
    assert es[1..] == [];
    assert Without(es, id) == [] && Matching(es, id) == es + [] == es;
    assert Messages(es) == [m];
  }

  const SecondFrame := Frame(1, 0, 1, true)

  const FirstSession := Broker(2, [], map[0 := Session(true, 2, [Entry(1, 1)])], 1, [0], {})

  /** The broker after the first session is gone and the second one is open. */
  const SecondSession := Broker(2, [1], map[1 := Session(false, 0, [])], 2, [0], {})

  /** The handler of message 1 is done, its acknowledgement not sent yet. */
  lemma SecondFrameHandled(c: Config)
    requires c.prefetch >= 1
    ensures Reachable(c, With(1, [], Handled(1, SecondFrame), [0, 1], {0, 1}, 0, [], FirstSession))
  {
    SecondFrameOut(c);
    var f := SecondFrame;
    assert [f] + [] == [f];
    TakeFrame(c, 1, [0], {0}, 0, f, [], FirstSession);
    FinishTaken(c, 1, f, [0], {0}, 0, [], FirstSession);
    assert [0] + [1] == [0, 1] && {0} + {1} == {0, 1};
  }

  lemma FinishTaken(c: Config, g: nat, f: Frame, h: seq<nat>, fin: set<nat>, sid: nat,
                    inbox: seq<Frame>, b: Broker, held: Option<Frame> := None)
    requires Reachable(c, With(g, [], Took(g, f), h, fin, sid, inbox, b, held))
    ensures Reachable(c, With(g, [], Handled(g, f), h + [f.msg], fin + {f.msg}, sid, inbox, b, held))
  {
    var s1 := With(g, [], Took(g, f), h, fin, sid, inbox, b, held);
    var s2 := With(g, [], Handling(g, f), h + [f.msg], fin, sid, inbox, b, held);
    assert s1.l.workers[0 := Handling(g, f)] == s2.l.workers;
    Reach(c, s1, CheckCurrent(0), s2);
    var s3 := With(g, [], Handled(g, f), h + [f.msg], fin + {f.msg}, sid, inbox, b, held);
    assert s2.l.workers[0 := Handled(g, f)] == s3.l.workers;
    Reach(c, s2, FinishHandler(0), s3);
  }

  /** Its socket is replaced first: the id it had on the first session goes out on the second,
      which has sent nothing. */
  lemma OldIdOnNewSocket(c: Config)
    requires c.prefetch >= 1 && !c.replaced.Seen?
    ensures exists s :: Reachable(c, s) && (1, 1) in s.b.wire && s.b.sessions == SecondSession.sessions
  {
    SecondFrameHandled(c);
    var p := Handled(1, SecondFrame);
    var s3 := With(1, [], p, [0, 1], {0, 1}, 0, [], FirstSession);
    var b1 := Broker(2, [1], map[], 1, [0], {});
    assert Messages([Entry(1, 1)]) + [] == [1] && FirstSession.sessions - {0} == map[];
    var s4 := With(1, [], p, [0, 1], {0, 1}, 0, [], b1);
    Reach(c, s3, Drop(0), s4);
    var s5 := With(1, [], p, [0, 1], {0, 1}, 1, [], SecondSession).(linked := false);
    assert b1.sessions[1 := Session(false, 0, [])] == SecondSession.sessions;
    Reach(c, s4, Open(false), s5);
    Reach(c, s5, Acknowledge(0, true), Step(c, s5, Acknowledge(0, true)));
  }

  /** Every acknowledgement on its way to a session names a frame that session sent. */
  predicate AcksNameFrames(s: State) {
    forall w :: w in s.b.wire && w.0 in s.b.sessions ==> w.1 < s.b.sessions[w.0].sent
  }

  /** Where the disconnect is always seen first: what is tagged with the current generation came
      on a connected socket, and no acknowledgement comes before its subscription. */
  predicate SeenFirst(s: State) { TagsSeen(s) && NoEarlyAck(s.b) }

  predicate NoEarlyAck(b: Broker) {
    forall w :: w in b.wire && w.0 in b.sessions ==> b.sessions[w.0].subscribed
  }

  predicate TagsSeen(s: State) {
    && (!s.linked && s.l.staged.Some? && s.l.staged.value.Tagged? ==> s.l.staged.value.generation < s.l.generation)
    && (forall i :: 0 <= i < |s.l.messages| && s.l.messages[i].Tagged? && !s.linked ==>
      s.l.messages[i].generation < s.l.generation)
    && (forall i :: 0 <= i < |s.l.workers| && s.l.workers[i].Holds() && !s.linked ==>
      s.l.workers[i].generation < s.l.generation)
  }

  /** No tag is ahead of the listener's generation. */
  lemma TagsBehind(s: State)
    requires FramesOk(s)
    ensures s.l.staged.Some? && s.l.staged.value.Tagged? ==> s.l.staged.value.generation <= s.l.generation
    ensures forall i :: 0 <= i < |s.l.messages| && s.l.messages[i].Tagged? ==>
      s.l.messages[i].generation <= s.l.generation
    ensures forall i :: 0 <= i < |s.l.workers| && s.l.workers[i].Holds() ==>
      s.l.workers[i].generation <= s.l.generation
  {
    forall i | 0 <= i < |s.l.messages| && s.l.messages[i].Tagged?
      ensures s.l.messages[i].generation <= s.l.generation
    {
      assert ItemOk(s, s.l.messages[i]);
    }
    forall i | 0 <= i < |s.l.workers| && s.l.workers[i].Holds()
      ensures s.l.workers[i].generation <= s.l.generation
    {
      assert PhaseOk(s, s.l.workers[i]);
    }
  }

  /** An acknowledgement that goes out goes to a session being served. */
  lemma AckIsServed(c: Config, s: State, x: Label)
    requires Inv(s) && SeenFirst(s) && Enabled(c, s, x) && x.Acknowledge?
    ensures NoEarlyAck(Step(c, s, x).b)
  {
    assert PhaseOk(s, s.l.workers[x.worker]);
    if s.conn.Some? && s.conn.value in s.b.sessions {
      assert SessionOk(s.b, s.conn.value);
    }
  }

  lemma KeepsNoEarlyAck(c: Config, s: State, x: Label)
    requires Inv(s) && SeenFirst(s) && Enabled(c, s, x)
    ensures NoEarlyAck(Step(c, s, x).b)
  {
    if x.Acknowledge? {
      AckIsServed(c, s, x);
    } else if x.Open? {
      forall w | w in s.b.wire ensures w.0 != s.b.nextSession {
        assert WireOk(s, w);
      }
    }
  }

  lemma WorkerKeepsTagsSeen(c: Config, s: State, x: Label)
    requires TagsSeen(s) && Enabled(c, s, x) && WorkerMove(x)
    ensures TagsSeen(Step(c, s, x))
  {
  }

  lemma TransportKeepsTagsSeen(c: Config, s: State, x: Label)
    requires c.replaced.Seen? && FramesOk(s) && TagsSeen(s) && Enabled(c, s, x) && TransportMove(x)
    ensures TagsSeen(Step(c, s, x))
  {
    TagsBehind(s);
  }

  lemma QueueKeepsTagsSeen(c: Config, s: State, x: Label)
    requires FramesOk(s) && TransportOk(s) && TagsSeen(s) && Enabled(c, s, x) && QueueMove(x)
    ensures TagsSeen(Step(c, s, x))
  {
    if x.Receive? {
      assert SocketFrameOk(s, s.inbox[0]);
    }
  }

  lemma KeepsTagsSeen(c: Config, s: State, x: Label)
    requires c.replaced.Seen? && Inv(s) && TagsSeen(s) && Enabled(c, s, x)
    ensures TagsSeen(Step(c, s, x))
  {
    if WorkerMove(x) {
      WorkerKeepsTagsSeen(c, s, x);
    } else if TransportMove(x) {
      TransportKeepsTagsSeen(c, s, x);
    } else if QueueMove(x) {
      QueueKeepsTagsSeen(c, s, x);
    }
  }

  lemma KeepsSeenFirst(c: Config, s: State, x: Label)
    requires c.replaced.Seen? && Inv(s) && SeenFirst(s) && Enabled(c, s, x)
    ensures SeenFirst(Step(c, s, x))
  {
    KeepsTagsSeen(c, s, x);
    KeepsNoEarlyAck(c, s, x);
  }

  lemma {:induction false} ExecKeepsSeenFirst(c: Config, s: State, labels: seq<Label>)
    requires c.replaced.Seen? && Inv(s) && SeenFirst(s) && Exec(c, s, labels).Some?
    ensures Inv(Exec(c, s, labels).value) && SeenFirst(Exec(c, s, labels).value)
    decreases |labels|
  {
    if labels != [] {
      KeepsInv(c, s, labels[0]);
      KeepsSeenFirst(c, s, labels[0]);
      ExecKeepsSeenFirst(c, Step(c, s, labels[0]), labels[1..]);
    }
  }

  ghost predicate KeepsAcksNamed(c: Config) {
    forall labels :: Exec(c, Init, labels).Some? ==> AcksNameFrames(Exec(c, Init, labels).value)
  }

  /** In every run acknowledgements name frames of the session they go to if and only if a
      socket is replaced only after `on_disconnected` ran for it. */
  lemma AcksExactly(c: Config)
    requires c.prefetch >= 1
    ensures KeepsAcksNamed(c) <==> c.replaced.Seen?
  {
    if c.replaced.Seen? {
      forall labels | Exec(c, Init, labels).Some? ensures AcksNameFrames(Exec(c, Init, labels).value) {
        ExecKeepsSeenFirst(c, Init, labels);
        var s := Exec(c, Init, labels).value;
        forall w | w in s.b.wire && w.0 in s.b.sessions ensures w.1 < s.b.sessions[w.0].sent {
          assert WireOk(s, w);
        }
      }
    } else {
      OldIdOnNewSocket(c);
      var s :| Reachable(c, s) && (1, 1) in s.b.wire && s.b.sessions == SecondSession.sessions;
      var labels :| Exec(c, Init, labels) == Some(s);
      assert s.b.sessions[1].sent == 0;
    }
  }

  // ---- a receiver left holding a frame -------------------------------------------

  /** The receiver of the first socket has read message 1 when the socket is replaced. */
  lemma HeldByOldReceiver(c: Config)
    requires c.prefetch >= 1 && c.replaced.Anytime?
    ensures Reachable(c, With(2, [], Polling, [0], {0}, 1, [], SecondSession, Some(SecondFrame)))
  {
    SecondFrameOut(c);
    var s0 := With(1, [], Polling, [0], {0}, 0, [SecondFrame], FirstSession);
    var b1 := Broker(2, [1], map[], 1, [0], {});
    assert Messages([Entry(1, 1)]) + [] == [1] && FirstSession.sessions - {0} == map[];
    var s1 := With(1, [], Polling, [0], {0}, 0, [SecondFrame], b1);
    Reach(c, s0, Drop(0), s1);
    var s2 := With(1, [], Polling, [0], {0}, 1, [], SecondSession, Some(SecondFrame)).(linked := false);
    assert b1.sessions[1 := Session(false, 0, [])] == SecondSession.sessions;
    Reach(c, s1, Open(true), s2);
    Reach(c, s2, OnConnected, With(2, [], Polling, [0], {0}, 1, [], SecondSession, Some(SecondFrame)));
  }

  /** Message 1 is delivered again on the second session, handled and acknowledged, and message
      2 goes out there as the second frame. */
  lemma ThirdMessageOut(c: Config)
    requires c.prefetch >= 1 && c.replaced.Anytime?
    ensures Reachable(c, With(2, [], Polling, [0, 1], {0, 1}, 1, [Frame(2, 1, 1, true)],
      Broker(3, [], map[1 := Session(true, 2, [Entry(1, 2)])], 2, [0, 1], {}), Some(SecondFrame)))
  {
    var k := Some(SecondFrame);
    HeldByOldReceiver(c);
    SubscribeAndDeliver(c, 2, [0], {0}, 1, SecondSession, k);
    var b1 := Broker(2, [], map[1 := Session(true, 1, [Entry(0, 1)])], 2, [0], {});
    assert b1.ready == SecondSession.ready[1..];
    assert b1.sessions == SecondSession.sessions[1 := Session(true, 1, [Entry(0, 1)])];
    var f1 := Frame(1, 1, 0, true);
    assert [f1] + [] == [f1];
    HandleFrame(c, 2, [0], {0}, 1, f1, [], b1, true, k);
    assert [0] + [1] == [0, 1] && {0} + {1} == {0, 1} && {} + {(1, 0)} == {(1, 0)};
    NextAfterAck(c, b1.(wire := {(1, 0)}), k);
  }

  lemma NextAfterAck(c: Config, b2: Broker, k: Option<Frame>)
    requires c.prefetch >= 1
    requires b2 == Broker(2, [], map[1 := Session(true, 1, [Entry(0, 1)])], 2, [0], {(1, 0)})
    requires Reachable(c, With(2, [], Polling, [0, 1], {0, 1}, 1, [], b2, k))
    ensures Reachable(c, With(2, [], Polling, [0, 1], {0, 1}, 1, [Frame(2, 1, 1, true)],
      Broker(3, [], map[1 := Session(true, 2, [Entry(1, 2)])], 2, [0, 1], {}), k))
  {
    var s2 := With(2, [], Polling, [0, 1], {0, 1}, 1, [], b2, k);
    AckOnlyEntry(c, s2, 1, 0, 1);
    var b3 := Broker(2, [], map[1 := Session(true, 1, [])], 2, [0, 1], {});
    assert {(1, 0)} - {(1, 0)} == {} && [0] + [1] == [0, 1];
    assert b2.sessions[1 := Session(true, 1, [])] == b3.sessions;
    var s3 := With(2, [], Polling, [0, 1], {0, 1}, 1, [], b3, k);
    Reach(c, s2, ProcessAck(1, 0), s3);
    var b4 := b3.(published := 3, ready := [2]);
    assert [] + [2] == [2];
    Reach(c, s3, Publish, With(2, [], Polling, [0, 1], {0, 1}, 1, [], b4, k));
    DeliverNext(c, 2, [0, 1], {0, 1}, 1, [], b4, k);
    var b5 := Broker(3, [], map[1 := Session(true, 2, [Entry(1, 2)])], 2, [0, 1], {});
    assert [] + [Entry(1, 2)] == [Entry(1, 2)];
    assert [] + [Frame(2, 1, 1, true)] == [Frame(2, 1, 1, true)];
    assert b4.ready[1..] == b5.ready;
    assert b4.sessions[1 := Session(true, 2, [Entry(1, 2)])] == b5.sessions;
  }

  const ThirdMessage := Broker(3, [], map[1 := Session(true, 2, [Entry(1, 2)])], 2, [0, 1], {})

  /** The held frame is tagged with the new generation, handled and acknowledged: its old id is
      that of message 2 by now, which nobody has handled. */
  lemma LateFrameTakesMessage(c: Config)
    requires c.prefetch >= 1 && c.replaced.Anytime?
    ensures Reachable(c, With(2, [], Polling, [0, 1, 1], {0, 1}, 1, [Frame(2, 1, 1, true)],
      Broker(3, [], map[1 := Session(true, 2, [])], 2, [0, 1, 2], {})))
  {
    ThirdMessageOut(c);
    var inbox := [Frame(2, 1, 1, true)];
    var f := SecondFrame;
    var s0 := With(2, [], Polling, [0, 1], {0, 1}, 1, inbox, ThirdMessage, Some(f));
    var s1 := With(2, [Tagged(2, f)], Polling, [0, 1], {0, 1}, 1, inbox, ThirdMessage);
    assert [] + [Tagged(2, f)] == [Tagged(2, f)];
    Reach(c, s0, LateReceive, s1);
    var s2 := With(2, [], Took(2, f), [0, 1], {0, 1}, 1, inbox, ThirdMessage);
    assert s1.l.workers[0 := Took(2, f)] == s2.l.workers;
    Reach(c, s1, TakeNext(0), s2);
    FinishTaken(c, 2, f, [0, 1], {0, 1}, 1, inbox, ThirdMessage);
    assert [0, 1] + [1] == [0, 1, 1] && {0, 1} + {1} == {0, 1};
    var s3 := With(2, [], Handled(2, f), [0, 1, 1], {0, 1}, 1, inbox, ThirdMessage);
    var b4 := ThirdMessage.(wire := {(1, 1)});
    var s4 := With(2, [], Polling, [0, 1, 1], {0, 1}, 1, inbox, b4);
    assert s3.l.workers[0 := Polling] == s4.l.workers && {} + {(1, 1)} == {(1, 1)};
    Reach(c, s3, Acknowledge(0, true), s4);
    StrayAck(c, s4);
  }

  lemma StrayAck(c: Config, s4: State)
    requires Reachable(c, s4)
    requires s4 == With(2, [], Polling, [0, 1, 1], {0, 1}, 1, [Frame(2, 1, 1, true)],
                        ThirdMessage.(wire := {(1, 1)}))
    ensures Reachable(c, With(2, [], Polling, [0, 1, 1], {0, 1}, 1, [Frame(2, 1, 1, true)],
      Broker(3, [], map[1 := Session(true, 2, [])], 2, [0, 1, 2], {})))
  {
    AckOnlyEntry(c, s4, 1, 1, 2);
    var b5 := Broker(3, [], map[1 := Session(true, 2, [])], 2, [0, 1, 2], {});
    assert {(1, 1)} - {(1, 1)} == {} && [0, 1] + [2] == [0, 1, 2];
    assert ThirdMessage.sessions[1 := Session(true, 2, [])] == b5.sessions;
    Reach(c, s4, ProcessAck(1, 1),
          With(2, [], Polling, [0, 1, 1], {0, 1}, 1, [Frame(2, 1, 1, true)], b5));
  }

  ghost predicate KeepsAckedFinished(c: Config) {
    forall labels :: Exec(c, Init, labels).Some? ==>
      var s := Exec(c, Init, labels).value;
      forall m :: m in s.b.acked ==> m in s.l.finished
  }

  /** In every run only messages handled to the end are acknowledged, if and only if no receiver
      is left holding a frame of a replaced socket. */
  lemma SafeExactly(c: Config)
    requires c.prefetch >= 1
    ensures KeepsAckedFinished(c) <==> !c.replaced.Anytime?
  {
    if c.replaced.Anytime? {
      LateFrameTakesMessage(c);
      var s := With(2, [], Polling, [0, 1, 1], {0, 1}, 1, [Frame(2, 1, 1, true)],
                    Broker(3, [], map[1 := Session(true, 2, [])], 2, [0, 1, 2], {}));
      var labels :| Exec(c, Init, labels) == Some(s);
      assert s.b.acked[2] == 2;
      assert 2 in Exec(c, Init, labels).value.b.acked && 2 !in Exec(c, Init, labels).value.l.finished;
    } else {
      forall labels | Exec(c, Init, labels).Some?
        ensures var s := Exec(c, Init, labels).value; forall m :: m in s.b.acked ==> m in s.l.finished
      {
        EveryRunSafe(c, labels);
      }
    }
  }

  /** The worker drops the frame of message 2 on an unexpected error, which costs nothing while
      the broker keeps the message. Here it does not, and message 3 is handled next. */
  lemma HeldFramesMatter(c: Config)
    requires c.prefetch >= 1 && c.replaced.Anytime?
    ensures Handles(c, [0, 1, 1, 3]) && !KeepsOrder(c)
  {
    LateFrameTakesMessage(c);
    var b := Broker(3, [], map[1 := Session(true, 2, [])], 2, [0, 1, 2], {});
    var f2, f3 := Frame(2, 1, 1, true), Frame(3, 1, 2, true);
    assert [f2] + [] == [f2];
    TakeFrame(c, 2, [0, 1, 1], {0, 1}, 1, f2, [], b);
    var s1 := With(2, [], Took(2, f2), [0, 1, 1], {0, 1}, 1, [], b);
    var s2 := With(2, [], Polling, [0, 1, 1], {0, 1}, 1, [], b);
    assert s1.l.workers[0 := Polling] == s2.l.workers;
    Reach(c, s1, Slip(0), s2);
    var b1 := b.(published := 4, ready := [3]);
    assert [] + [3] == [3];
    Reach(c, s2, Publish, With(2, [], Polling, [0, 1, 1], {0, 1}, 1, [], b1));
    DeliverNext(c, 2, [0, 1, 1], {0, 1}, 1, [], b1);
    var b2 := b1.(ready := b1.ready[1..], sessions := b1.sessions[1 := Session(true, 3, [] + [Entry(2, 3)])]);
    assert [] + [f3] == [f3] + [];
    HandleFrame(c, 2, [0, 1, 1], {0, 1}, 1, f3, [], b2, false);
    MessageSkipped(c, With(2, [], Polling, [0, 1, 1] + [3], {0, 1} + {3}, 1, [], b2));
  }

  lemma MessageSkipped(c: Config, s: State)
    requires Reachable(c, s) && s.l.handled == [0, 1, 1, 3]
    ensures Handles(c, [0, 1, 1, 3]) && !KeepsOrder(c)
  {
    var h := s.l.handled;
    assert h[..3] == [0, 1, 1] && [0, 1, 1][..2] == [0, 1] && [0, 1][..1] == [0];
    assert Collapse([0, 1]) == [0, 1];
    assert Collapse([0, 1, 1]) == [0, 1];
    assert Collapse(h) == [0, 1, 3];
    assert Collapse(h)[2] != 2;
    var labels :| Exec(c, Init, labels) == Some(s);
  }

  /** The condition is exact: every run keeps the order if and only if one frame is in flight
      at a time, a replaced session is closed before the new one is served, and no receiver is
      left holding a frame of a replaced socket. */
  lemma OrderExactly(c: Config)
    requires c.prefetch >= 1
    ensures KeepsOrder(c) <==> c.prefetch == 1 && c.prompt && !c.replaced.Anytime?
  {
    if c.prefetch >= 2 {
      PrefetchMatters(c);
    } else if !c.prompt {
      PromptnessMatters(c);
    } else if c.replaced.Anytime? {
      HeldFramesMatter(c);
    } else {
      forall labels | Exec(c, Init, labels).Some?
        ensures var s := Exec(c, Init, labels).value;
          PrefixOfPublished(Collapse(s.l.handled), s.b.published)
      {
        assert Ordered(Init);
        ExecKeepsOrdered(c, Init, labels);
        OrderedMeansPrefix(Exec(c, Init, labels).value);
      }
    }
  }
}
