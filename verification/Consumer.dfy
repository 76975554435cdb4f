/**
The STOMP consumer of one queue (waldur_site_agent/event_processing/listener.py).

A receiver thread tags every frame with the connection generation and queues it, one
worker thread handles the frames and acknowledges them one by one, and the broker
requeues what a dropped connection left unacknowledged. The threads, the transport and
the broker interleave freely: a run is any sequence of labels, each naming one atomic
region of the listener or one move of the broker or of the transport.

Messages are named by their position in the published sequence, so the published
sequence is 0, 1, 2, ... . Acknowledgement ids are per session and start again at 0 in
every session, so an id from an old connection names another message on a new one.
 */
module Consumer {
  import opened Wrappers

  // ---- the listener ---------------------------------------------------------------

  datatype Frame = Frame(msg: nat, session: nat, id: nat, hasAck: bool)

  datatype Item = Stop | Tagged(generation: nat, frame: Frame)

  datatype Phase =
    | Dead
    | Polling
    | Took(generation: nat, frame: Frame)
    | Handling(generation: nat, frame: Frame)
    | Handled(generation: nat, frame: Frame)
  {
    predicate Holds() { Took? || Handling? || Handled? }
  }

  /** The listener's fields. `workers` are the threads in the order they were started, so
      the field `_worker` is the last one. `handled` and `finished` record the handler
      calls made and the messages whose handler returned or raised. */
  datatype Listener = Listener(
    generation: nat,
    staged: Option<Item>,
    messages: seq<Item>,
    closed: bool,
    workers: seq<Phase>,
    handled: seq<nat>,
    finished: set<nat>)
  {
    predicate Live(i: nat) { i < |workers| && !workers[i].Dead? }

    predicate WorkerAlive() { |workers| > 0 && !workers[|workers| - 1].Dead? }

    function Bump(): Listener { this.(generation := generation + 1) }

    function Tag(f: Frame): Listener { this.(staged := Some(Tagged(generation, f))) }

    function Put(): Listener
      requires staged.Some?
    {
      this.(staged := None, messages := messages + [staged.value])
    }

    function EnsureWorker(): Listener {
      if closed || WorkerAlive() then this else this.(workers := workers + [Polling])
    }

    function SetPhase(i: nat, p: Phase): Listener
      requires i < |workers|
    {
      this.(workers := workers[i := p])
    }

    function Take(i: nat): Listener
      requires i < |workers| && messages != []
    {
      var next := match messages[0] case Stop => Dead case Tagged(g, f) => Took(g, f);
      SetPhase(i, next).(messages := messages[1..])
    }

    /** `_is_current`, and the start of the handler when it holds. */
    function Check(i: nat): Listener
      requires i < |workers| && workers[i].Took?
    {
      var Took(g, f) := workers[i];
      if g == generation
      then SetPhase(i, Handling(g, f)).(handled := handled + [f.msg])
      else SetPhase(i, Polling)
    }

    function Finish(i: nat): Listener
      requires i < |workers| && workers[i].Handling?
    {
      var Handling(g, f) := workers[i];
      SetPhase(i, Handled(g, f)).(finished := finished + {f.msg})
    }

    /** Whether `_ack` gets as far as `conn.ack`. */
    predicate Acks(i: nat)
      requires i < |workers| && workers[i].Handled?
    {
      workers[i].frame.hasAck && workers[i].generation == generation
    }
  }

  // ---- the broker and the transport ----------------------------------------------

  datatype Entry = Entry(id: nat, msg: nat)

  /** One broker session: the number of frames sent on it and those not acknowledged,
      oldest first. */
  datatype Session = Session(subscribed: bool, sent: nat, open: seq<Entry>)

  /** `ready` is the durable queue; `wire` holds acknowledgements sent and not yet
      processed, as pairs of session and id. */
  datatype Broker = Broker(
    published: nat,
    ready: seq<nat>,
    sessions: map<nat, Session>,
    nextSession: nat,
    acked: seq<nat>,
    wire: set<(nat, nat)>)

  /** `conn` is the session the transport's socket belongs to, `linked` says whether
      `on_connected` ran for it, `inbox` holds frames on that socket not yet read. `held` is a
      frame the receiver of a replaced socket has read and not yet tagged. */
  datatype State = State(
    l: Listener,
    conn: Option<nat>,
    linked: bool,
    inbox: seq<Frame>,
    held: Option<Frame>,
    b: Broker)

  /** When a socket may be replaced by a new one: only after `on_disconnected` ran for it; also
      before, as the watchdog does from a thread of its own, but not while its receiver is
      busy with a frame; or at any time, so that the old receiver may still hold a frame. */
  datatype Replacement = Seen | Drained | Anytime

  /** `prefetch` bounds the unacknowledged frames of one session. `prompt` says that the
      broker has closed a replaced session, requeueing what it held, before it serves the
      subscription on the new one. */
  datatype Config = Config(prefetch: nat, prompt: bool, replaced: Replacement)

  datatype Label =
    | Publish
    | Subscribe(session: nat)
    | Deliver(session: nat, hasAck: bool)
    | Drop(session: nat)
    | ProcessAck(session: nat, id: nat)
    | Open(keeps: bool)
    | OnConnected
    | OnDisconnected
    | Receive
    | Queue
    | LateReceive
    | StartWorker
    | Close
    | QueueStop
    | TakeNext(worker: nat)
    | SeeClosed(worker: nat)
    | CheckCurrent(worker: nat)
    | FinishHandler(worker: nat)
    | Acknowledge(worker: nat, sent: bool)
    | Slip(worker: nat)
    | Die(worker: nat)

  function Messages(es: seq<Entry>): (r: seq<nat>)
    ensures |r| == |es| && forall i :: 0 <= i < |es| ==> r[i] == es[i].msg
  {
    if es == [] then [] else [es[0].msg] + Messages(es[1..])
  }

  /** The entries left once `id` is acknowledged. */
  function Without(es: seq<Entry>, id: nat): (r: seq<Entry>)
    ensures forall e :: e in r <==> e in es && e.id != id
    ensures |r| <= |es|
  {
    if es == [] then []
    else if es[0].id == id then Without(es[1..], id)
    else [es[0]] + Without(es[1..], id)
  }

  predicate Enabled(c: Config, s: State, x: Label) {
    var l, b := s.l, s.b;
    match x
    case Publish => true
    case Subscribe(sid) =>
      && s.linked && s.conn == Some(sid) && sid in b.sessions && !b.sessions[sid].subscribed
      && (c.prompt ==> forall other :: other in b.sessions ==> other == sid)
      // A socket is one stream: what was acknowledged on it before is processed before.
      && (forall w :: w in b.wire ==> w.0 != sid)
    case Deliver(sid, _) =>
      && sid in b.sessions && b.sessions[sid].subscribed
      && |b.sessions[sid].open| < c.prefetch && b.ready != []
    case Drop(sid) => sid in b.sessions
    case ProcessAck(sid, id) => (sid, id) in b.wire && sid in b.sessions
    case Open(keeps) =>
      && l.staged.None? && (c.replaced.Seen? ==> !s.linked)
      && (keeps ==> c.replaced.Anytime? && s.inbox != [] && s.held.None?)
    // Callbacks of one connection run one at a time on its receiver thread.
    case OnConnected => s.conn.Some? && !s.linked && l.staged.None?
    case OnDisconnected => l.staged.None?
    case Receive => s.inbox != [] && l.staged.None?
    case Queue => l.staged.Some?
    case LateReceive => s.held.Some?
    case StartWorker => true
    case Close => true
    case QueueStop => l.closed
    case TakeNext(i) => l.Live(i) && l.workers[i].Polling? && l.messages != []
    case SeeClosed(i) => l.Live(i) && l.workers[i].Polling? && l.closed
    case CheckCurrent(i) => l.Live(i) && l.workers[i].Took?
    case FinishHandler(i) => l.Live(i) && l.workers[i].Handling?
    case Acknowledge(i, _) => l.Live(i) && l.workers[i].Handled?
    // An unexpected error outside the handler is logged and the loop goes on.
    case Slip(i) => l.Live(i) && (l.workers[i].Took? || l.workers[i].Handled?)
    case Die(i) => l.Live(i)
  }

  function Step(c: Config, s: State, x: Label): State
    requires Enabled(c, s, x)
  {
    var l, b := s.l, s.b;
    match x
    case Publish =>
      s.(b := b.(published := b.published + 1, ready := b.ready + [b.published]))
    case Subscribe(sid) =>
      s.(b := b.(sessions := b.sessions[sid := b.sessions[sid].(subscribed := true)]))
    case Deliver(sid, hasAck) =>
      var q := b.sessions[sid];
      var e := Entry(q.sent, b.ready[0]);
      var b' := b.(ready := b.ready[1..],
                   sessions := b.sessions[sid := q.(sent := q.sent + 1, open := q.open + [e])]);
      // A frame for a socket the agent no longer reads never arrives.
      if s.conn == Some(sid)
      then s.(b := b', inbox := s.inbox + [Frame(e.msg, sid, e.id, hasAck)])
      else s.(b := b')
    case Drop(sid) =>
      s.(b := b.(ready := Messages(b.sessions[sid].open) + b.ready,
                 sessions := b.sessions - {sid}))
    case ProcessAck(sid, id) =>
      var q := b.sessions[sid];
      s.(b := b.(wire := b.wire - {(sid, id)},
                 sessions := b.sessions[sid := q.(open := Without(q.open, id))],
                 acked := b.acked + Messages(Matching(q.open, id))))
    case Open(keeps) =>
      s.(conn := Some(b.nextSession), linked := false, inbox := [],
         held := if keeps then Some(s.inbox[0]) else s.held,
         b := b.(nextSession := b.nextSession + 1,
                 sessions := b.sessions[b.nextSession := Session(false, 0, [])]))
    case OnConnected => s.(l := l.Bump(), linked := true)
    case OnDisconnected => s.(l := l.Bump(), linked := false, conn := None, inbox := [])
    case Receive => s.(l := l.Tag(s.inbox[0]), inbox := s.inbox[1..])
    case Queue => s.(l := l.Put())
    // The generation is read when `on_message` runs, not when the frame arrived.
    case LateReceive =>
      s.(l := l.(messages := l.messages + [Tagged(l.generation, s.held.value)]), held := None)
    case StartWorker => s.(l := l.EnsureWorker())
    case Close => s.(l := l.(closed := true))
    case QueueStop => s.(l := l.(messages := l.messages + [Stop]))
    case TakeNext(i) => s.(l := l.Take(i))
    case SeeClosed(i) => s.(l := l.SetPhase(i, Dead))
    case CheckCurrent(i) => s.(l := l.Check(i))
    case FinishHandler(i) => s.(l := l.Finish(i))
    case Acknowledge(i, sent) =>
      var s' := s.(l := l.SetPhase(i, Polling));
      // The id goes out on whatever socket the transport has now.
      if l.Acks(i) && sent && s.conn.Some?
      then s'.(b := b.(wire := b.wire + {(s.conn.value, l.workers[i].frame.id)}))
      else s'
    case Slip(i) => s.(l := l.SetPhase(i, Polling))
    case Die(i) => s.(l := l.SetPhase(i, Dead))
  }

  /** The entries an acknowledgement of `id` removes. */
  function Matching(es: seq<Entry>, id: nat): (r: seq<Entry>)
    ensures forall e :: e in r <==> e in es && e.id == id
  {
    if es == [] then []
    else if es[0].id == id then [es[0]] + Matching(es[1..], id)
    else Matching(es[1..], id)
  }

  const Init: State :=
    State(Listener(0, None, [], false, [], [], {}), None, false, [], None,
          Broker(0, [], map[], 0, [], {}))

  /** The state a run reaches; None when some label is not enabled. A run's prefixes are
      runs, so what holds of every run holds at every moment of it. */
  function Exec(c: Config, s: State, labels: seq<Label>): Option<State>
    decreases |labels|
  {
    if labels == [] then Some(s)
    else if Enabled(c, s, labels[0]) then Exec(c, Step(c, s, labels[0]), labels[1..])
    else None
  }

  lemma {:induction false} ExecThen(c: Config, s: State, xs: seq<Label>, ys: seq<Label>)
    requires Exec(c, s, xs).Some?
    ensures Exec(c, s, xs + ys) == Exec(c, Exec(c, s, xs).value, ys)
    decreases |xs|
  {
    if xs == [] {
      assert xs + ys == ys;
    } else {
      assert (xs + ys)[1..] == xs[1..] + ys;
      ExecThen(c, Step(c, s, xs[0]), xs[1..], ys);
    }
  }
}
