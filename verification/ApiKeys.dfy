/**
Commands about the API keys of one resource (waldur_site_agent/common/resource_api_keys.py).

The agent applies a command to the backend first and acknowledges it to Waldur second.
Users keep changing Waldur meanwhile, any call can fail or lose its answer, and the agent
can be killed anywhere: a run is any sequence of labels. `List` starts a sweep over the
keys in a transitional state; `Message` is a command that comes by event instead, which may
be a redelivery of one answered long ago; `unsettled` records the keys the agent gave up on.
 */
module ApiKeys {
  import opened Wrappers

  type Uuid = nat
  type ClientId = nat

  datatype Action = Create | Pause | Resume | Update | Delete

  datatype KeyState = Creating | Updating | Deleting | Ok | Paused | Erred | Deleted

  /** What Waldur holds for a key. `settings` stands for its limits and model list. */
  datatype Row = Row(state: KeyState, pending: Option<Action>, client: Option<ClientId>, settings: nat)
  {
    predicate InFlight() { (state.Creating? || state.Updating? || state.Deleting?) && pending.Some? }
  }

  /** A key on the backend. */
  datatype Key = Key(paused: bool, settings: nat)

  datatype Command = Command(action: Action, uuid: Uuid, client: Option<ClientId>, settings: nat)

  /** Where `execute_api_key_command` stands. */
  datatype Pc =
    | Idle
    | Start(cmd: Command)
    | Listed(cmd: Command, reserved: set<ClientId>)
    | Minted(cmd: Command, client: ClientId)
    | Unanswered(cmd: Command, client: ClientId)
    | Withdrawing(cmd: Command, client: ClientId, report: bool)
    | Applied(cmd: Command)
    | Failed(cmd: Command)

  datatype State = State(
    rows: map<Uuid, Row>,
    keys: map<ClientId, Key>,
    todo: seq<Command>,
    pc: Pc,
    unsettled: set<ClientId>)

  /** A read of Waldur: answered, refused (4xx), or without an answer (5xx, transport). */
  datatype Read = Answered | Refused | NoAnswer

  /** A backend call: it returned, or it raised before or after taking effect. */
  datatype Call = Done | RaisedBefore | RaisedAfter

  /** A request to Waldur: taken if the row is in a state for it, refused whatever the row's
      state, or its answer or the request itself was lost. */
  datatype Sent = Delivered | Declined | ReplyLost | RequestLost
  {
    predicate Reaches() { Delivered? || ReplyLost? }
  }

  datatype Label =
    | RequestCreate(u: Uuid, settings: nat)
    | Request(u: Uuid, action: Action, settings: nat)
    | RequestDelete(u: Uuid)
    | List(us: seq<Uuid>)
    | Skip
    | Next
    | Message(cmd: Command)
    | Kill
    | ReadReserved(read: Read)
    | Mint(client: ClientId, call: Call)
    | SetKey(sent: Sent)
    | Reread(answered: bool)
    | Withdraw(call: Call)
    | Apply(read: Read, call: Call)
    | Acknowledge(sent: Sent)
    | SetErred(sent: Sent)

  // ---- Waldur's side ---------------------------------------------------------------

  predicate AcceptsKey(r: Row) { r.state.Creating? && r.pending == Some(Create) }

  /** Whether the endpoint that answers `a` takes the acknowledgement. */
  predicate Accepts(r: Row, a: Action) {
    match a
    case Pause => r.state.Updating? && r.pending == Some(Pause)
    case Resume => r.state.Updating? && (r.pending == Some(Resume) || r.pending == Some(Update))
    case Update => r.state.Updating? && (r.pending == Some(Resume) || r.pending == Some(Update))
    case Delete => r.state.Deleting?
    case Create => false
  }

  function Settled(r: Row, a: Action): Row {
    r.(pending := None,
       state := match a case Pause => Paused case Delete => Deleted case _ => Ok)
  }

  function Acked(rows: map<Uuid, Row>, cmd: Command): map<Uuid, Row> {
    if cmd.uuid in rows && Accepts(rows[cmd.uuid], cmd.action)
    then rows[cmd.uuid := Settled(rows[cmd.uuid], cmd.action)]
    else rows
  }

  /** Whether `set_key` is taken: the row waits for a key, and no row of the resource, deleted
      ones included, has that client_id already. */
  predicate TakesKey(rows: map<Uuid, Row>, cmd: Command, c: ClientId) {
    cmd.uuid in rows && AcceptsKey(rows[cmd.uuid]) && c !in Reserved(rows)
  }

  function Keyed(rows: map<Uuid, Row>, cmd: Command, c: ClientId): map<Uuid, Row> {
    if TakesKey(rows, cmd, c)
    then rows[cmd.uuid := rows[cmd.uuid].(state := Ok, pending := None, client := Some(c))]
    else rows
  }

  function ErredRow(rows: map<Uuid, Row>, u: Uuid): map<Uuid, Row> {
    if u in rows && rows[u].InFlight()
    then rows[u := rows[u].(state := Erred, pending := None)]
    else rows
  }

  /** Every client_id Waldur holds, deleted rows included. */
  function Reserved(rows: map<Uuid, Row>): set<ClientId> {
    set u | u in rows && rows[u].client.Some? :: rows[u].client.value
  }

  function CommandOf(rows: map<Uuid, Row>, u: Uuid): Command
    requires u in rows && rows[u].InFlight()
  {
    Command(rows[u].pending.value, u, rows[u].client, rows[u].settings)
  }

  function CommandsOf(rows: map<Uuid, Row>, us: seq<Uuid>): (r: seq<Command>)
    requires forall u :: u in us ==> u in rows && rows[u].InFlight()
    ensures |r| == |us| && forall i :: 0 <= i < |us| ==> r[i] == CommandOf(rows, us[i])
  {
    if us == [] then [] else [CommandOf(rows, us[0])] + CommandsOf(rows, us[1..])
  }

  // ---- the backend's side ----------------------------------------------------------

  /** The state a command asks for. */
  function Effect(cmd: Command, keys: map<ClientId, Key>): map<ClientId, Key>
    requires cmd.client.Some? && !cmd.action.Create?
  {
    var c := cmd.client.value;
    match cmd.action
    case Pause => keys[c := Key(true, if c in keys then keys[c].settings else cmd.settings)]
    case Delete => keys - {c}
    case _ => keys[c := Key(false, cmd.settings)]
  }

  // ---- the steps -------------------------------------------------------------------

  predicate Distinct(us: seq<Uuid>) { forall i, j :: 0 <= i < j < |us| ==> us[i] != us[j] }

  predicate Enabled(s: State, x: Label) {
    match x
    case RequestCreate(u, _) => u !in s.rows
    // Only a settled key with a client_id takes a new command; deletion is always possible.
    case Request(u, a, _) =>
      && u in s.rows && s.rows[u].client.Some?
      && (s.rows[u].state.Ok? || s.rows[u].state.Paused? || s.rows[u].state.Erred?)
      && (a.Pause? || a.Resume? || a.Update?)
    case RequestDelete(u) => u in s.rows && !s.rows[u].state.Deleted? && !s.rows[u].state.Deleting?
    case List(us) =>
      && s.pc.Idle? && s.todo == [] && Distinct(us)
      && forall u :: u in us ==> u in s.rows && s.rows[u].InFlight()
    case Skip => s.pc.Idle? && s.todo != []
    case Next => s.pc.Idle? && s.todo != []
    // Whatever the row's state by now; a client_id in it was read off the row.
    case Message(cmd) =>
      s.pc.Idle? && (cmd.client.Some? ==> Holds(s, cmd.uuid, cmd.client.value))
    case Kill => true
    case ReadReserved(_) => s.pc.Start? && s.pc.cmd.action.Create?
    case Mint(c, call) =>
      s.pc.Listed? && (!call.RaisedBefore? ==> c !in s.pc.reserved && c !in s.keys)
    case SetKey(_) => s.pc.Minted?
    // A row Waldur does not know is answered with an error.
    case Reread(answered) => s.pc.Unanswered? && (answered ==> s.pc.cmd.uuid in s.rows)
    case Withdraw(_) => s.pc.Withdrawing?
    case Apply(_, _) => s.pc.Start? && !s.pc.cmd.action.Create?
    case Acknowledge(_) => s.pc.Applied?
    case SetErred(_) => s.pc.Failed?
  }

  /** `_run` for everything but a create: the read it needs, then the backend call. */
  function Applying(s: State, read: Read, call: Call): State
    requires s.pc.Start? && !s.pc.cmd.action.Create?
  {
    var cmd := s.pc.cmd;
    if cmd.client.None? then
      // A requested key that never got a client_id never reached the backend.
      s.(pc := if cmd.action.Delete? then Applied(cmd) else Failed(cmd))
    else if (cmd.action.Resume? || cmd.action.Update?) && read.NoAnswer? then
      s.(pc := Idle)
    else if (cmd.action.Resume? || cmd.action.Update?) && read.Refused? then
      s.(pc := Failed(cmd))
    else
      match call
      case Done => s.(keys := Effect(cmd, s.keys), pc := Applied(cmd))
      case RaisedBefore => s.(pc := Failed(cmd))
      case RaisedAfter => s.(keys := Effect(cmd, s.keys), pc := Failed(cmd))
  }

  function Step(s: State, x: Label): State
    requires Enabled(s, x)
  {
    match x
    case RequestCreate(u, settings) =>
      s.(rows := s.rows[u := Row(Creating, Some(Create), None, settings)])
    case Request(u, a, settings) =>
      var r := s.rows[u];
      s.(rows := s.rows[u := r.(state := Updating, pending := Some(a),
                                settings := if a.Update? then settings else r.settings)])
    case RequestDelete(u) =>
      s.(rows := s.rows[u := s.rows[u].(state := Deleting, pending := Some(Delete))])
    case List(us) => s.(todo := CommandsOf(s.rows, us))
    case Skip => s.(todo := s.todo[1..])
    case Next => s.(todo := s.todo[1..], pc := Start(s.todo[0]))
    case Message(cmd) => s.(pc := Start(cmd))
    case Kill =>
      s.(todo := [], pc := Idle,
         unsettled := s.unsettled
           + (if s.pc.Minted? || s.pc.Unanswered? || s.pc.Withdrawing? then {s.pc.client} else {}))
    case ReadReserved(read) =>
      (match read
       case Answered => s.(pc := Listed(s.pc.cmd, Reserved(s.rows)))
       case Refused => s.(pc := Failed(s.pc.cmd))
       case NoAnswer => s.(pc := Idle))
    case Mint(c, call) =>
      (match call
       case Done => s.(keys := s.keys[c := Key(false, s.pc.cmd.settings)], pc := Minted(s.pc.cmd, c))
       case RaisedBefore => s.(pc := Failed(s.pc.cmd))
       case RaisedAfter =>
         s.(keys := s.keys[c := Key(false, s.pc.cmd.settings)], pc := Failed(s.pc.cmd),
            unsettled := s.unsettled + {c}))
    case SetKey(sent) =>
      var cmd, c := s.pc.cmd, s.pc.client;
      (match sent
       case Delivered =>
         if TakesKey(s.rows, cmd, c)
         then s.(rows := Keyed(s.rows, cmd, c), pc := Idle)
         else s.(pc := Withdrawing(cmd, c, false))
       case Declined => s.(pc := Withdrawing(cmd, c, false))
       case ReplyLost => s.(rows := Keyed(s.rows, cmd, c), pc := Unanswered(cmd, c))
       case RequestLost => s.(pc := Unanswered(cmd, c)))
    case Reread(answered) =>
      var cmd, c := s.pc.cmd, s.pc.client;
      if !answered then s.(pc := Failed(cmd), unsettled := s.unsettled + {c})
      else if s.rows[cmd.uuid].client == Some(c) then s.(pc := Failed(cmd))
      else s.(pc := Withdrawing(cmd, c, true))
    case Withdraw(call) =>
      var next := if s.pc.report then Failed(s.pc.cmd) else Idle;
      (match call
       case Done => s.(keys := s.keys - {s.pc.client}, pc := next)
       case RaisedBefore => s.(pc := next, unsettled := s.unsettled + {s.pc.client})
       case RaisedAfter =>
         s.(keys := s.keys - {s.pc.client}, pc := next, unsettled := s.unsettled + {s.pc.client}))
    case Apply(read, call) => Applying(s, read, call)
    case Acknowledge(sent) =>
      var cmd := s.pc.cmd;
      var accepted := cmd.uuid in s.rows && Accepts(s.rows[cmd.uuid], cmd.action);
      (match sent
       case Delivered => s.(rows := Acked(s.rows, cmd), pc := if accepted then Idle else Failed(cmd))
       case Declined => s.(pc := Failed(cmd))
       case ReplyLost => s.(rows := Acked(s.rows, cmd), pc := Failed(cmd))
       case RequestLost => s.(pc := Failed(cmd)))
    case SetErred(sent) =>
      s.(pc := Idle, rows := if sent.Reaches() then ErredRow(s.rows, s.pc.cmd.uuid) else s.rows)
  }

  const Init: State := State(map[], map[], [], Idle, {})

  /** The state a run reaches; None when some label is not enabled. */
  function Exec(s: State, labels: seq<Label>): Option<State>
    decreases |labels|
  {
    if labels == [] then Some(s)
    else if Enabled(s, labels[0]) then Exec(Step(s, labels[0]), labels[1..])
    else None
  }

  lemma {:induction false} ExecThen(s: State, xs: seq<Label>, ys: seq<Label>)
    requires Exec(s, xs).Some?
    ensures Exec(s, xs + ys) == Exec(Exec(s, xs).value, ys)
    decreases |xs|
  {
    if xs == [] {
      assert xs + ys == ys;
    } else {
      assert (xs + ys)[1..] == xs[1..] + ys;
      ExecThen(Step(s, xs[0]), xs[1..], ys);
    }
  }

  lemma Extend(s: State, labels: seq<Label>, t: State, x: Label)
    requires Exec(s, labels) == Some(t) && Enabled(t, x)
    ensures Exec(s, labels + [x]) == Some(Step(t, x))
  {
    ExecThen(s, labels, [x]);
    assert [x][1..] == [];
  }

  // ---- what every run keeps, whatever the messages ---------------------------------

  predicate Holds(s: State, u: Uuid, c: ClientId) { u in s.rows && s.rows[u].client == Some(c) }

  ghost predicate HeldBySome(s: State, c: ClientId) { exists u :: Holds(s, u, c) }

  /** No client_id is held by two rows, deleted rows included. */
  ghost predicate ClientsUnique(s: State) {
    forall u, v, c :: Holds(s, u, c) && Holds(s, v, c) ==> u == v
  }

  predicate CreatingBare(s: State) {
    forall u :: u in s.rows && s.rows[u].state.Creating? ==> s.rows[u].client.None?
  }

  predicate InHand(s: State, c: ClientId) {
    (s.pc.Minted? || s.pc.Unanswered? || s.pc.Withdrawing?) && s.pc.client == c
  }

  /** No key is live on the backend without a row, a create under way or a recorded fault. */
  ghost predicate NoStray(s: State) {
    forall c :: c in s.keys ==> HeldBySome(s, c) || InHand(s, c) || c in s.unsettled
  }

  ghost predicate PcSafe(s: State) {
    match s.pc
    case Start(cmd) => cmd.client.Some? ==> Holds(s, cmd.uuid, cmd.client.value)
    case Listed(_, reserved) => forall u, c :: Holds(s, u, c) ==> c in reserved
    case Minted(_, c) => !HeldBySome(s, c)
    case Unanswered(cmd, c) => forall u :: Holds(s, u, c) ==> u == cmd.uuid
    case Withdrawing(_, c, _) => !HeldBySome(s, c)
    case _ => true
  }

  ghost predicate Safe(s: State) {
    ClientsUnique(s) && CreatingBare(s) && NoStray(s) && PcSafe(s) && TodoHeld(s)
  }

  /** What a command still to come names as its client_id, its row holds. */
  predicate TodoHeld(s: State) {
    forall i :: 0 <= i < |s.todo| && s.todo[i].client.Some? ==>
      Holds(s, s.todo[i].uuid, s.todo[i].client.value)
  }

  // ---- what runs keep in which every command taken up is awaited -------------------

  /** A settled row is what the backend has. */
  predicate RowTrue(s: State, r: Row) {
    match r.state
    case Ok => r.client.Some? && r.client.value in s.keys
               && s.keys[r.client.value] == Key(false, r.settings)
    case Paused => r.client.Some? && r.client.value in s.keys && s.keys[r.client.value].paused
    case Deleted => r.client.Some? ==> r.client.value !in s.keys
    case _ => true
  }

  /** A row in a settled state awaits nothing and one in a transitional state does. */
  predicate RowShape(r: Row) {
    && (r.InFlight() <==> r.state.Creating? || r.state.Updating? || r.state.Deleting?)
    && (r.state.Creating? ==> r.pending == Some(Create) && r.client.None?)
    && (r.state.Updating? ==>
          r.client.Some? && r.pending.value != Create && r.pending.value != Delete)
    && (r.state.Deleting? ==> r.pending == Some(Delete))
  }

  predicate RowsOk(s: State) {
    forall u :: u in s.rows ==> RowShape(s.rows[u]) && RowTrue(s, s.rows[u])
  }

  /** A command not answered yet: its row still awaits it, or awaits deletion instead. */
  predicate Awaited(s: State, cmd: Command) {
    && cmd.uuid in s.rows
    && var r := s.rows[cmd.uuid];
    && r.InFlight() && r.client == cmd.client
    && (r.pending == Some(Delete) || (r.pending == Some(cmd.action) && r.settings == cmd.settings))
    && (cmd.action.Create? ==> cmd.client.None?)
  }

  predicate TodoOk(s: State) {
    && (forall i :: 0 <= i < |s.todo| ==> Awaited(s, s.todo[i]))
    && (forall i, j :: 0 <= i < j < |s.todo| ==> s.todo[i].uuid != s.todo[j].uuid)
    && (!s.pc.Idle? ==> forall i :: 0 <= i < |s.todo| ==> s.todo[i].uuid != s.pc.cmd.uuid)
  }

  /** What the backend has once a command is applied. */
  predicate Took(s: State, cmd: Command) {
    cmd.client.Some? ==>
      var c := cmd.client.value;
      match cmd.action
      case Pause => c in s.keys && s.keys[c].paused
      case Delete => c !in s.keys
      case _ => c in s.keys && s.keys[c] == Key(false, cmd.settings)
  }

  predicate PcOk(s: State) {
    match s.pc
    case Idle => true
    case Failed(cmd) => cmd.uuid in s.rows
    case Start(cmd) => Awaited(s, cmd)
    case Applied(cmd) =>
      Awaited(s, cmd) && Took(s, cmd) && !cmd.action.Create? && (cmd.client.None? ==> cmd.action.Delete?)
    case Listed(cmd, _) => Awaited(s, cmd) && cmd.action.Create?
    case Minted(cmd, c) =>
      Awaited(s, cmd) && cmd.action.Create? && c in s.keys && s.keys[c] == Key(false, cmd.settings)
    case Unanswered(cmd, c) => cmd.uuid in s.rows && c in s.keys
    case Withdrawing(cmd, _, _) => cmd.uuid in s.rows
  }

  /** No command is taken up that its row does not wait on. */
  predicate Timely(s: State, x: Label) {
    && (x.Message? ==> Awaited(s, x.cmd))
    && (x.Next? && s.todo != [] ==> Awaited(s, s.todo[0]))
  }

  predicate TimelyRun(s: State, labels: seq<Label>)
    decreases |labels|
  {
    labels == []
    || (Enabled(s, labels[0]) && Timely(s, labels[0]) && TimelyRun(Step(s, labels[0]), labels[1..]))
  }

  ghost predicate Inv(s: State) { Safe(s) && RowsOk(s) && PcOk(s) }
}
