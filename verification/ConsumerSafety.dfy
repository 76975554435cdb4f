/**
What every interleaving keeps, for any prefetch and any broker timing, unless a replaced socket's
receiver is left holding a frame: one live worker, acknowledgements that cannot take a message
nobody has handled, and no message lost. A socket may be replaced before its disconnect was
seen: an old id then goes out on the new socket, but ahead of its subscription.
 */
module ConsumerSafety {
  import opened Wrappers
  import opened Consumer

  /** The frame is one its session sent, and an open entry with its id is its message. */
  predicate FrameOk(b: Broker, f: Frame) {
    && f.session < b.nextSession
    && (f.session in b.sessions ==>
          && f.id < b.sessions[f.session].sent
          && forall e :: e in b.sessions[f.session].open && e.id == f.id ==> e.msg == f.msg)
  }

  /** A frame tagged with the current generation came on the socket now in use, once that is
      connected. */
  predicate TagOk(s: State, g: nat, f: Frame) {
    && FrameOk(s.b, f)
    && g <= s.l.generation
    && (g == s.l.generation && s.linked ==> s.conn == Some(f.session))
  }

  predicate SocketFrameOk(s: State, f: Frame) {
    FrameOk(s.b, f) && s.linked && s.conn == Some(f.session)
  }

  predicate ItemOk(s: State, it: Item) {
    it.Tagged? ==> TagOk(s, it.generation, it.frame)
  }

  predicate PhaseOk(s: State, p: Phase) {
    && (p.Holds() ==> TagOk(s, p.generation, p.frame))
    && (p.Handled? ==> p.frame.msg in s.l.finished)
    && (p.Handling? ==> p.frame.msg in s.l.handled)
  }

  predicate SessionOk(b: Broker, sid: nat)
    requires sid in b.sessions
  {
    var q := b.sessions[sid];
    && sid < b.nextSession
    && (forall e :: e in q.open ==> e.id < q.sent)
    && (!q.subscribed ==> q.sent == 0)
  }

  predicate WireOk(s: State, w: (nat, nat)) {
    && w.0 < s.b.nextSession
    && (w.0 in s.b.sessions && s.b.sessions[w.0].subscribed ==>
          && w.1 < s.b.sessions[w.0].sent
          && forall e :: e in s.b.sessions[w.0].open && e.id == w.1 ==> e.msg in s.l.finished)
  }

  /** At most one worker thread is alive, and it is the one the listener knows. */
  predicate OneWorker(l: Listener) {
    forall i :: 0 <= i < |l.workers| - 1 ==> l.workers[i].Dead?
  }

  predicate OpenOn(b: Broker, sid: nat, m: nat) {
    sid in b.sessions && exists e :: e in b.sessions[sid].open && e.msg == m
  }

  ghost predicate Outstanding(b: Broker, m: nat) { exists sid :: OpenOn(b, sid, m) }

  /** Every published message is queued, unacknowledged on a session, or acknowledged. */
  ghost predicate NothingLost(b: Broker) {
    forall m :: 0 <= m < b.published ==> m in b.ready || m in b.acked || Outstanding(b, m)
  }

  /** Every frame the listener or its socket holds. */
  predicate FramesOk(s: State) {
    && (forall i :: 0 <= i < |s.inbox| ==> SocketFrameOk(s, s.inbox[i]))
    && (s.l.staged.Some? ==> ItemOk(s, s.l.staged.value))
    && (forall i :: 0 <= i < |s.l.messages| ==> ItemOk(s, s.l.messages[i]))
    && (forall i :: 0 <= i < |s.l.workers| ==> PhaseOk(s, s.l.workers[i]))
  }

  predicate BrokerOk(s: State) {
    && (forall sid :: sid in s.b.sessions ==> SessionOk(s.b, sid))
    && (forall w :: w in s.b.wire ==> WireOk(s, w))
  }

  predicate TransportOk(s: State) {
    && (s.conn.Some? ==>
          && s.conn.value < s.b.nextSession
          && (s.conn.value in s.b.sessions && s.b.sessions[s.conn.value].subscribed ==> s.linked))
    && (s.linked ==> s.conn.Some?)
    && s.held.None?
  }

  predicate RecordsOk(s: State) {
    && (forall m :: m in s.b.acked ==> m in s.l.finished)
    && (forall m :: m in s.l.finished ==> m in s.l.handled)
  }

  ghost predicate Inv(s: State) {
    && OneWorker(s.l)
    && FramesOk(s)
    && BrokerOk(s)
    && TransportOk(s)
    && RecordsOk(s)
    && NothingLost(s.b)
  }

  predicate Numbered(b: Broker) { forall sid :: sid in b.sessions ==> sid < b.nextSession }

  lemma KeepsNothingLost(c: Config, s: State, x: Label)
    requires NothingLost(s.b) && Numbered(s.b) && Enabled(c, s, x)
    ensures NothingLost(Step(c, s, x).b)
  {
    var s' := Step(c, s, x);
    forall m | 0 <= m < s'.b.published
      ensures m in s'.b.ready || m in s'.b.acked || Outstanding(s'.b, m)
    {
      if m == s.b.published {
        assert s'.b.ready[|s.b.ready|] == m;
      } else if m in s.b.ready {
        var i :| 0 <= i < |s.b.ready| && s.b.ready[i] == m;
        ReadyMoves(c, s, x, i);
      } else if m in s.b.acked {
        AckedStays(c, s, x, m);
      } else {
        var sid :| OpenOn(s.b, sid, m);
        OpenMoves(c, s, x, sid, m);
      }
    }
  }

  lemma AckedStays(c: Config, s: State, x: Label, m: nat)
    requires Enabled(c, s, x) && m in s.b.acked
    ensures m in Step(c, s, x).b.acked
  {
  }

  lemma ReadyMoves(c: Config, s: State, x: Label, i: nat)
    requires Enabled(c, s, x) && i < |s.b.ready|
    ensures var b' := Step(c, s, x).b;
      s.b.ready[i] in b'.ready || Outstanding(b', s.b.ready[i])
  {
    var b' := Step(c, s, x).b;
    match x
    case Publish => assert b'.ready[i] == s.b.ready[i];
    case Deliver(sid, _) =>
      if i == 0 {
        var open := b'.sessions[sid].open;
        assert open[|open| - 1].msg == s.b.ready[0] && open[|open| - 1] in open;
        assert OpenOn(b', sid, s.b.ready[0]);
      } else {
        assert b'.ready[i - 1] == s.b.ready[i];
      }
    case Drop(sid) =>
      assert b'.ready[|s.b.sessions[sid].open| + i] == s.b.ready[i];
    case _ =>
  }

  lemma OpenMoves(c: Config, s: State, x: Label, sid: nat, m: nat)
    requires Enabled(c, s, x) && OpenOn(s.b, sid, m) && (x.Open? ==> sid < s.b.nextSession)
    ensures var b' := Step(c, s, x).b;
      m in b'.ready || m in b'.acked || Outstanding(b', m)
  {
    var b' := Step(c, s, x).b;
    var open := s.b.sessions[sid].open;
    var i :| 0 <= i < |open| && open[i].msg == m;
    if x.Drop? && x.session == sid {
      assert b'.ready[i] == m;
    } else if x.ProcessAck? && x.session == sid {
      if open[i].id == x.id {
        var gone := Matching(open, x.id);
        assert open[i] in gone;
        var j :| 0 <= j < |gone| && gone[j] == open[i];
        assert b'.acked[|s.b.acked| + j] == m;
      } else {
        assert open[i] in b'.sessions[sid].open;
        assert OpenOn(b', sid, m);
      }
    } else if x.Deliver? && x.session == sid {
      assert b'.sessions[sid].open[i] == open[i];
      assert OpenOn(b', sid, m);
    } else {
      assert open[i] in b'.sessions[sid].open;
      assert OpenOn(b', sid, m);
    }
  }

  /** No step starts a second worker while one is alive. */
  lemma KeepsOneWorker(c: Config, s: State, x: Label)
    requires OneWorker(s.l) && Enabled(c, s, x)
    ensures OneWorker(Step(c, s, x).l)
  {
  }

  /** An acknowledgement that goes out is of a frame tagged with the current generation whose
      handler finished. On a connected socket it names that frame of that very session and no
      other open message; on one not connected yet it comes before the subscription, and that
      session has sent nothing. */
  lemma AckNamesItsSession(c: Config, s: State, i: nat, sent: bool)
    requires Inv(s) && Enabled(c, s, Acknowledge(i, sent))
    ensures var f, b := s.l.workers[i].frame, s.b;
      var wire := Step(c, s, Acknowledge(i, sent)).b.wire;
      wire != b.wire ==>
        && s.l.workers[i].generation == s.l.generation && f.msg in s.l.finished
        && s.conn.Some? && wire == b.wire + {(s.conn.value, f.id)}
        && (s.linked ==> s.conn == Some(f.session))
        && (s.linked && f.session in b.sessions ==>
          && f.id < b.sessions[f.session].sent
          && forall e :: e in b.sessions[f.session].open && e.id == f.id ==> e.msg == f.msg)
        && (!s.linked && s.conn.value in b.sessions ==>
          !b.sessions[s.conn.value].subscribed && b.sessions[s.conn.value].sent == 0)
  {
    assert PhaseOk(s, s.l.workers[i]);
    if s.conn.Some? && s.conn.value in s.b.sessions {
      assert SessionOk(s.b, s.conn.value);
    }
  }

  /** A stop marker waits only in a closed listener. */
  predicate StopMeansClosed(l: Listener) { Stop in l.messages ==> l.closed }

  /** Once closed: no worker is started and a dead one stays dead, in every continuation. */
  lemma {:induction false} ClosedForGood(c: Config, s: State, labels: seq<Label>)
    requires s.l.closed && Exec(c, s, labels).Some?
    ensures var l := Exec(c, s, labels).value.l;
      && l.closed && |l.workers| == |s.l.workers|
      && forall i :: 0 <= i < |l.workers| && s.l.workers[i].Dead? ==> l.workers[i].Dead?
    decreases |labels|
  {
    if labels != [] {
      ClosedForGood(c, Step(c, s, labels[0]), labels[1..]);
    }
  }

  lemma {:induction false} EveryRunStopsClosed(c: Config, s: State, labels: seq<Label>)
    requires StopMeansClosed(s.l) && (s.l.staged.Some? ==> s.l.staged.value.Tagged?)
    requires Exec(c, s, labels).Some?
    ensures StopMeansClosed(Exec(c, s, labels).value.l)
    decreases |labels|
  {
    if labels != [] {
      EveryRunStopsClosed(c, Step(c, s, labels[0]), labels[1..]);
    }
  }

  predicate BrokerMove(x: Label) {
    x.Publish? || x.Subscribe? || x.Deliver? || x.Drop? || x.ProcessAck?
  }

  predicate TransportMove(x: Label) {
    x.Open? || x.OnConnected? || x.OnDisconnected?
  }

  predicate QueueMove(x: Label) {
    x.Receive? || x.Queue? || x.LateReceive? || x.StartWorker? || x.Close? || x.QueueStop?
  }

  lemma BrokerKeepsFrames(c: Config, s: State, x: Label)
    requires FramesOk(s) && BrokerOk(s) && TransportOk(s) && Enabled(c, s, x) && BrokerMove(x)
    ensures FramesOk(Step(c, s, x))
  {
    var s' := Step(c, s, x);
    forall f | FrameOk(s.b, f) ensures FrameOk(s'.b, f) {
      FrameStays(c, s, x, f);
    }
    forall i | 0 <= i < |s'.inbox| ensures SocketFrameOk(s', s'.inbox[i]) {
      if i < |s.inbox| {
        assert SocketFrameOk(s, s.inbox[i]);
      } else {
        assert SessionOk(s.b, x.session);
      }
    }
    forall i | 0 <= i < |s'.l.messages| ensures ItemOk(s', s'.l.messages[i]) {
      assert ItemOk(s, s.l.messages[i]);
    }
    forall i | 0 <= i < |s'.l.workers| ensures PhaseOk(s', s'.l.workers[i]) {
      assert PhaseOk(s, s.l.workers[i]);
    }
  }

  lemma BrokerKeepsBroker(c: Config, s: State, x: Label)
    requires BrokerOk(s) && Enabled(c, s, x) && BrokerMove(x)
    ensures BrokerOk(Step(c, s, x))
  {
    var s' := Step(c, s, x);
    forall sid | sid in s'.b.sessions ensures SessionOk(s'.b, sid) {
      assert SessionOk(s.b, sid);
    }
    forall w | w in s'.b.wire ensures WireOk(s', w) {
      assert WireOk(s, w);
    }
  }

  lemma AckedWereFinished(c: Config, s: State, x: Label)
    requires Inv(s) && Enabled(c, s, x)
    ensures forall m :: m in Step(c, s, x).b.acked ==> m in s.l.finished
  {
    if x.ProcessAck? {
      var gone := Matching(s.b.sessions[x.session].open, x.id);
      assert WireOk(s, (x.session, x.id)) && SessionOk(s.b, x.session);
      forall m | m in Messages(gone) ensures m in s.l.finished {
        var i :| 0 <= i < |gone| && gone[i].msg == m;
        assert gone[i] in s.b.sessions[x.session].open;
      }
    }
  }

  lemma FrameStays(c: Config, s: State, x: Label, f: Frame)
    requires Enabled(c, s, x) && BrokerMove(x) && FrameOk(s.b, f)
    ensures FrameOk(Step(c, s, x).b, f)
  {
  }

  lemma TransportKeepsFrames(c: Config, s: State, x: Label)
    requires FramesOk(s) && BrokerOk(s) && TransportOk(s) && Enabled(c, s, x) && TransportMove(x)
    ensures FramesOk(Step(c, s, x)) && BrokerOk(Step(c, s, x))
  {
    var s' := Step(c, s, x);
    forall i | 0 <= i < |s'.l.messages| ensures ItemOk(s', s'.l.messages[i]) {
      assert ItemOk(s, s.l.messages[i]);
    }
    forall i | 0 <= i < |s'.l.workers| ensures PhaseOk(s', s'.l.workers[i]) {
      assert PhaseOk(s, s.l.workers[i]);
    }
    forall sid | sid in s'.b.sessions ensures SessionOk(s'.b, sid) {
      assert sid in s.b.sessions ==> SessionOk(s.b, sid);
    }
    forall w | w in s'.b.wire ensures WireOk(s', w) {
      assert WireOk(s, w);
    }
  }

  lemma QueueKeepsFrames(c: Config, s: State, x: Label)
    requires FramesOk(s) && TransportOk(s) && Enabled(c, s, x) && QueueMove(x)
    ensures FramesOk(Step(c, s, x))
  {
    var s' := Step(c, s, x);
    forall i | 0 <= i < |s'.l.messages| ensures ItemOk(s', s'.l.messages[i]) {
      if i < |s.l.messages| {
        assert ItemOk(s, s.l.messages[i]);
      }
    }
    forall i | 0 <= i < |s'.l.workers| ensures PhaseOk(s', s'.l.workers[i]) {
      if i < |s.l.workers| {
        assert PhaseOk(s, s.l.workers[i]);
      }
    }
    forall i | 0 <= i < |s'.inbox| ensures SocketFrameOk(s', s'.inbox[i]) {
      assert SocketFrameOk(s, s.inbox[if x.Receive? then i + 1 else i]);
    }
    if x.Receive? {
      assert SocketFrameOk(s, s.inbox[0]);
    }
  }

  predicate WorkerMove(x: Label) {
    !BrokerMove(x) && !TransportMove(x) && !QueueMove(x)
  }

  lemma WorkerKeepsTag(c: Config, s: State, x: Label, g: nat, f: Frame)
    requires Enabled(c, s, x) && WorkerMove(x) && TagOk(s, g, f)
    ensures TagOk(Step(c, s, x), g, f)
  {
  }

  lemma WorkerKeepsPhase(c: Config, s: State, x: Label, i: nat)
    requires FramesOk(s) && Enabled(c, s, x) && WorkerMove(x) && i < |s.l.workers|
    ensures PhaseOk(Step(c, s, x), Step(c, s, x).l.workers[i])
  {
    var p, p' := s.l.workers[i], Step(c, s, x).l.workers[i];
    assert PhaseOk(s, p);
    if p'.Holds() {
      if x.TakeNext? && x.worker == i {
        assert ItemOk(s, s.l.messages[0]);
      }
      WorkerKeepsTag(c, s, x, p'.generation, p'.frame);
    }
  }

  lemma WorkerKeepsFrames(c: Config, s: State, x: Label)
    requires FramesOk(s) && Enabled(c, s, x) && WorkerMove(x)
    ensures FramesOk(Step(c, s, x))
  {
    var s' := Step(c, s, x);
    forall i | 0 <= i < |s'.l.messages| ensures ItemOk(s', s'.l.messages[i]) {
      var it := s.l.messages[if x.TakeNext? then i + 1 else i];
      assert ItemOk(s, it);
      if it.Tagged? {
        WorkerKeepsTag(c, s, x, it.generation, it.frame);
      }
    }
    forall i | 0 <= i < |s'.l.workers| ensures PhaseOk(s', s'.l.workers[i]) {
      WorkerKeepsPhase(c, s, x, i);
    }
    forall i | 0 <= i < |s'.inbox| ensures SocketFrameOk(s', s'.inbox[i]) {
      assert SocketFrameOk(s, s.inbox[i]);
    }
  }

  lemma WorkerKeepsBroker(c: Config, s: State, x: Label)
    requires FramesOk(s) && BrokerOk(s) && TransportOk(s) && Enabled(c, s, x)
    requires !BrokerMove(x) && !TransportMove(x)
    ensures BrokerOk(Step(c, s, x))
  {
    var s' := Step(c, s, x);
    forall sid | sid in s'.b.sessions ensures SessionOk(s'.b, sid) {
      assert SessionOk(s.b, sid);
    }
    forall w | w in s'.b.wire ensures WireOk(s', w) {
      if w in s.b.wire {
        assert WireOk(s, w);
      } else {
        assert PhaseOk(s, s.l.workers[x.worker]);
      }
    }
  }

  lemma KeepsRecords(c: Config, s: State, x: Label)
    requires Inv(s) && Enabled(c, s, x)
    ensures RecordsOk(Step(c, s, x))
  {
    AckedWereFinished(c, s, x);
    if x.FinishHandler? {
      assert PhaseOk(s, s.l.workers[x.worker]);
    }
  }

  lemma KeepsInv(c: Config, s: State, x: Label)
    requires !c.replaced.Anytime? && Inv(s) && Enabled(c, s, x)
    ensures Inv(Step(c, s, x))
  {
    forall sid | sid in s.b.sessions ensures sid < s.b.nextSession {
      assert SessionOk(s.b, sid);
    }
    KeepsNothingLost(c, s, x);
    KeepsOneWorker(c, s, x);
    KeepsRecords(c, s, x);
    if BrokerMove(x) {
      BrokerKeepsFrames(c, s, x);
      BrokerKeepsBroker(c, s, x);
    } else if TransportMove(x) {
      TransportKeepsFrames(c, s, x);
    } else {
      WorkerKeepsBroker(c, s, x);
      if QueueMove(x) {
        QueueKeepsFrames(c, s, x);
      } else {
        WorkerKeepsFrames(c, s, x);
      }
    }
  }

  lemma {:induction false} ExecKeepsInv(c: Config, s: State, labels: seq<Label>)
    requires !c.replaced.Anytime? && Inv(s) && Exec(c, s, labels).Some?
    ensures Inv(Exec(c, s, labels).value)
    decreases |labels|
  {
    if labels != [] {
      KeepsInv(c, s, labels[0]);
      ExecKeepsInv(c, Step(c, s, labels[0]), labels[1..]);
    }
  }

  /** Whatever the broker and the transport do, no message leaves the broker unacknowledged and
      one worker runs at most. */
  lemma {:induction false} AnyRunKeeps(c: Config, s: State, labels: seq<Label>)
    requires NothingLost(s.b) && Numbered(s.b) && OneWorker(s.l) && Exec(c, s, labels).Some?
    ensures var t := Exec(c, s, labels).value;
      NothingLost(t.b) && Numbered(t.b) && OneWorker(t.l)
    decreases |labels|
  {
    if labels != [] {
      KeepsNothingLost(c, s, labels[0]);
      KeepsOneWorker(c, s, labels[0]);
      AnyRunKeeps(c, Step(c, s, labels[0]), labels[1..]);
    }
  }

  /** In every run, at every moment: nothing is lost, what is acknowledged was handled to
      the end, and one worker runs at most. */
  lemma EveryRunSafe(c: Config, labels: seq<Label>)
    requires !c.replaced.Anytime? && Exec(c, Init, labels).Some?
    ensures var s := Exec(c, Init, labels).value;
      && NothingLost(s.b)
      && (forall m :: m in s.b.acked ==> m in s.l.finished)
      && OneWorker(s.l)
  {
    ExecKeepsInv(c, Init, labels);
  }
}
