/**
Replay: commands tried again and again by later sweeps, and commands nobody waits on.
 */
module ApiKeysReplay {
  import opened Wrappers
  import opened ApiKeys
  import opened ApiKeysSafe
  import opened ApiKeysProof

  // ---- replay ----------------------------------------------------------------------

  /** What the backend has under a client_id. */
  function KeyAt(keys: map<ClientId, Key>, c: ClientId): Option<Key> {
    if c in keys then Some(keys[c]) else None
  }

  /** A row that waits on a command. */
  predicate Waits(s: State, u: Uuid) { u in s.rows && RowShape(s.rows[u]) && s.rows[u].InFlight() }

  /** What carrying out the command of a waiting row makes of its key, given the keys there are. */
  function Target(s: State, u: Uuid, keys: map<ClientId, Key>): Option<Key>
    requires Waits(s, u) && s.rows[u].client.Some?
  {
    KeyAt(Effect(CommandOf(s.rows, u), keys), s.rows[u].client.value)
  }

  /** The row still waits, and its command would still take its key to the same place. */
  predicate Untouched(s: State, t: State, u: Uuid)
    requires Waits(s, u) && u in t.rows
  {
    var r := s.rows[u];
    t.rows[u] == r && (r.client.Some? ==> Target(s, u, t.keys) == Target(s, u, s.keys))
  }

  /** The row is settled as its command asks, and its key is where the command takes it: a
      requested key is there under some client_id, as it was asked for. */
  predicate Fulfilled(s: State, t: State, u: Uuid)
    requires Waits(s, u) && u in t.rows
  {
    var r, r' := s.rows[u], t.rows[u];
    if r.state.Creating? then
      && r'.client.Some? && r' == r.(state := Ok, pending := None, client := r'.client)
      && KeyAt(t.keys, r'.client.value) == Some(Key(false, r.settings))
    else
      && r' == Settled(r, r.pending.value)
      && (r.client.Some? ==> KeyAt(t.keys, r.client.value) == Target(s, u, s.keys))
  }

  predicate Erring(r: Row, r': Row) { r' == r.(state := Erred, pending := None) }

  predicate Replayed(s: State, t: State, u: Uuid)
    requires Waits(s, u)
  {
    u in t.rows && (Untouched(s, t, u) || Fulfilled(s, t, u) || Erring(s.rows[u], t.rows[u]))
  }

  /** A key is touched only by its own row's command. */
  lemma KeyKept(t: State, x: Label, u: Uuid, c: ClientId)
    requires Safe(t) && Enabled(t, x) && Holds(t, u, c)
    requires x.Apply? ==> t.pc.cmd.uuid != u
    ensures KeyAt(Step(t, x).keys, c) == KeyAt(t.keys, c)
  {
  }

  /** A row is touched only by the answers to its own command. */
  lemma RowKept(t: State, x: Label, u: Uuid)
    requires Enabled(t, x) && !UserMove(x) && u in t.rows
    requires x.Acknowledge? || x.SetErred? || x.SetKey? ==> t.pc.cmd.uuid != u
    ensures u in Step(t, x).rows && Step(t, x).rows[u] == t.rows[u]
  {
  }

  /** What a command makes of a key depends on that key alone. */
  lemma EffectLocal(cmd: Command, keys: map<ClientId, Key>, keys': map<ClientId, Key>)
    requires cmd.client.Some? && !cmd.action.Create?
    requires KeyAt(keys, cmd.client.value) == KeyAt(keys', cmd.client.value)
    ensures KeyAt(Effect(cmd, keys), cmd.client.value) == KeyAt(Effect(cmd, keys'), cmd.client.value)
  {
  }

  predicate Own(t: State, x: Label, u: Uuid) {
    (x.Apply? || x.Acknowledge? || x.SetErred? || x.SetKey?) && !t.pc.Idle? && t.pc.cmd.uuid == u
  }

  /** A step that leaves both the row and its key alone. */
  lemma ElsewhereKeeps(s: State, t: State, x: Label, u: Uuid)
    requires Waits(s, u) && Replayed(s, t, u) && Inv(t) && Enabled(t, x) && !UserMove(x) && !Own(t, x, u)
    ensures Replayed(s, Step(t, x), u)
  {
    RowKept(t, x, u);
    if t.rows[u].client.Some? {
      var c := t.rows[u].client.value;
      assert Holds(t, u, c);
      KeyKept(t, x, u, c);
      if s.rows[u].client.Some? {
        EffectLocal(CommandOf(s.rows, u), t.keys, Step(t, x).keys);
      }
    }
  }

  /** The command of the row itself, or one a deletion has overtaken. */
  lemma AwaitedIsPending(s: State, t: State, u: Uuid, cmd: Command)
    requires Waits(s, u) && Replayed(s, t, u) && Awaited(t, cmd) && cmd.uuid == u
    ensures t.rows[u] == s.rows[u] && Untouched(s, t, u) && cmd.client == s.rows[u].client
    ensures cmd == CommandOf(s.rows, u) || s.rows[u].pending == Some(Delete)
  {
  }

  lemma OwnApplyKeeps(s: State, t: State, x: Label, u: Uuid)
    requires Waits(s, u) && Replayed(s, t, u) && Inv(t) && Enabled(t, x) && x.Apply? && Own(t, x, u)
    ensures Replayed(s, Step(t, x), u)
  {
    AwaitedIsPending(s, t, u, t.pc.cmd);
    if s.rows[u].client.Some? {
      var cmd := CommandOf(s.rows, u);
      var c := cmd.client.value;
      assert KeyAt(Effect(cmd, Effect(t.pc.cmd, t.keys)), c) == KeyAt(Effect(cmd, t.keys), c);
    }
  }

  lemma OwnAnswerKeeps(s: State, t: State, x: Label, u: Uuid)
    requires Waits(s, u) && Replayed(s, t, u) && Inv(t) && Enabled(t, x) && x.Acknowledge? && Own(t, x, u)
    ensures Replayed(s, Step(t, x), u)
  {
    AwaitedIsPending(s, t, u, t.pc.cmd);
    if s.rows[u].client.Some? {
      var cmd := CommandOf(s.rows, u);
      assert t.pc.cmd == cmd ==> KeyAt(Effect(cmd, t.keys), cmd.client.value) == KeyAt(t.keys, cmd.client.value);
    }
  }

  lemma OwnReportKeeps(s: State, t: State, x: Label, u: Uuid)
    requires Waits(s, u) && Replayed(s, t, u) && Inv(t) && Enabled(t, x) && x.SetKey? && Own(t, x, u)
    ensures Replayed(s, Step(t, x), u)
  {
    AwaitedIsPending(s, t, u, t.pc.cmd);
  }

  lemma OwnErredKeeps(s: State, t: State, x: Label, u: Uuid)
    requires Waits(s, u) && Replayed(s, t, u) && Enabled(t, x) && x.SetErred?
    ensures Replayed(s, Step(t, x), u)
  {
  }

  lemma StepReplays(s: State, t: State, x: Label, u: Uuid)
    requires Waits(s, u) && Replayed(s, t, u) && Inv(t) && Enabled(t, x) && !UserMove(x)
    ensures Replayed(s, Step(t, x), u)
  {
    if !Own(t, x, u) {
      ElsewhereKeeps(s, t, x, u);
    } else if x.Apply? {
      OwnApplyKeeps(s, t, x, u);
    } else if x.Acknowledge? {
      OwnAnswerKeeps(s, t, x, u);
    } else if x.SetKey? {
      OwnReportKeeps(s, t, x, u);
    } else {
      OwnErredKeeps(s, t, x, u);
    }
  }

  /** Whatever the agent does until users move again, with kills, lost answers, unanswered
      reads and other keys' commands in between: a waiting row, of whatever command, is still
      waiting with its outcome unchanged, or fulfilled, or erred. */
  lemma {:induction false} AnyRunReplays(s: State, t: State, labels: seq<Label>, u: Uuid)
    requires Waits(s, u) && Replayed(s, t, u) && Inv(t) && TimelyRun(t, labels)
    requires forall i :: 0 <= i < |labels| ==> !UserMove(labels[i])
    ensures Exec(t, labels).Some? && Inv(Exec(t, labels).value)
    ensures Replayed(s, Exec(t, labels).value, u)
    decreases |labels|
  {
    if labels != [] {
      KeepsInv(t, labels[0]);
      StepReplays(s, t, labels[0], u);
      AnyRunReplays(s, Step(t, labels[0]), labels[1..], u);
    }
  }

  /** A sweep of one key in which everything goes through; a create mints the given id. */
  function FullAttempt(r: Row, u: Uuid, c: ClientId): seq<Label> {
    [List([u]), Next]
    + (if r.state.Creating? then [ReadReserved(Answered), Mint(c, Done), SetKey(Delivered)]
       else [Apply(Answered, Done), Acknowledge(Delivered)])
  }

  lemma TakenUp(t: State, u: Uuid)
    requires t.pc.Idle? && t.todo == [] && Waits(t, u)
    ensures Exec(t, [List([u]), Next]) == Some(t.(pc := Start(CommandOf(t.rows, u))))
  {
    var cmd := CommandOf(t.rows, u);
    Extend(t, [], t, List([u]));
    var t1 := t.(todo := [cmd]);
    assert Step(t, List([u])) == t1;
    Extend(t, [] + [List([u])], t1, Next);
    assert [] + [List([u])] + [Next] == [List([u]), Next];
  }

  lemma FullCommandRuns(t: State, u: Uuid, c: ClientId)
    requires t.pc.Idle? && t.todo == [] && Waits(t, u) && !t.rows[u].state.Creating?
    ensures var cmd := CommandOf(t.rows, u);
      Exec(t, FullAttempt(t.rows[u], u, c))
        == Some(t.(rows := t.rows[u := Settled(t.rows[u], cmd.action)],
                   keys := if cmd.client.Some? then Effect(cmd, t.keys) else t.keys))
  {
    var cmd := CommandOf(t.rows, u);
    TakenUp(t, u);
    var ls := [List([u]), Next];
    Extend(t, ls, t.(pc := Start(cmd)), Apply(Answered, Done));
    ls := ls + [Apply(Answered, Done)];
    var keys := if cmd.client.Some? then Effect(cmd, t.keys) else t.keys;
    Extend(t, ls, t.(keys := keys, pc := Applied(cmd)), Acknowledge(Delivered));
    assert ls + [Acknowledge(Delivered)] == FullAttempt(t.rows[u], u, c);
  }

  lemma FullCreateRuns(t: State, u: Uuid, c: ClientId)
    requires t.pc.Idle? && t.todo == [] && Waits(t, u) && t.rows[u].state.Creating?
    requires c !in Reserved(t.rows) && c !in t.keys
    ensures var r := t.rows[u];
      Exec(t, FullAttempt(r, u, c))
        == Some(t.(rows := t.rows[u := r.(state := Ok, pending := None, client := Some(c))],
                   keys := t.keys[c := Key(false, r.settings)]))
  {
    var cmd := CommandOf(t.rows, u);
    TakenUp(t, u);
    var ls := [List([u]), Next];
    Extend(t, ls, t.(pc := Start(cmd)), ReadReserved(Answered));
    ls := ls + [ReadReserved(Answered)];
    Extend(t, ls, t.(pc := Listed(cmd, Reserved(t.rows))), Mint(c, Done));
    ls := ls + [Mint(c, Done)];
    var keys := t.keys[c := Key(false, cmd.settings)];
    Extend(t, ls, t.(keys := keys, pc := Minted(cmd, c)), SetKey(Delivered));
    assert ls + [SetKey(Delivered)] == FullAttempt(t.rows[u], u, c);
  }

  /**
  Replaying converges. From any state with a row that waits, on a create, a command or the
  deletion of a key that never got a client_id: after any run of the agent without user moves
  that leaves it still waiting, one attempt that goes through fulfils it, with the key exactly
  where one attempt at the start would have taken it. A row that no longer waits was fulfilled
  already, or set erred.
   */
  lemma ReplayConverges(s: State, labels: seq<Label>, u: Uuid, c: ClientId)
    requires Inv(s) && Waits(s, u) && TimelyRun(s, labels)
    requires forall i :: 0 <= i < |labels| ==> !UserMove(labels[i])
    ensures Exec(s, labels).Some? && Replayed(s, Exec(s, labels).value, u)
    ensures var t := Exec(s, labels).value;
      t.pc.Idle? && t.todo == [] && t.rows[u].InFlight() && c !in Reserved(t.rows) && c !in t.keys ==>
        && Exec(t, FullAttempt(s.rows[u], u, c)).Some?
        && var e := Exec(t, FullAttempt(s.rows[u], u, c)).value;
        u in e.rows && Fulfilled(s, e, u)
  {
    AnyRunReplays(s, s, labels, u);
    var t := Exec(s, labels).value;
    if t.pc.Idle? && t.todo == [] && t.rows[u].InFlight() && c !in Reserved(t.rows) && c !in t.keys {
      assert t.rows[u] == s.rows[u] && Untouched(s, t, u);
      if s.rows[u].state.Creating? {
        FullCreateRuns(t, u, c);
      } else {
        FullCommandRuns(t, u, c);
      }
    }
  }

  // ---- commands nobody waits on ----------------------------------------------------

  /** Whether a command asks for what a settled row already shows. */
  predicate Agrees(r: Row, cmd: Command) {
    match r.state
    case Ok => (cmd.action.Resume? || cmd.action.Update?) && cmd.settings == r.settings
    case Paused => cmd.action.Pause?
    case Deleted => cmd.action.Delete?
    case _ => true
  }

  /** A command carried out for a row that no longer waits on it, as a redelivered message
      can ask for, leaves the row true exactly when it asks for what the row shows already. */
  lemma LateCommandExactly(s: State, cmd: Command)
    requires s.pc == Start(cmd) && !cmd.action.Create? && cmd.client.Some?
    requires cmd.uuid in s.rows && s.rows[cmd.uuid].client == cmd.client
    requires RowTrue(s, s.rows[cmd.uuid])
    ensures RowTrue(Step(s, Apply(Answered, Done)), s.rows[cmd.uuid])
      <==> Agrees(s.rows[cmd.uuid], cmd)
  {
  }

  const LatePause := Command(Pause, 0, Some(7), 0)

  const Working := State(map[0 := Row(Ok, None, Some(7), 0)], map[7 := Key(false, 0)], [], Idle, {})

  /** A pause redelivered after the key was resumed: Waldur shows it working, the backend
      holds it, and neither the acknowledgement nor `set_erred` is taken. */
  lemma LatePauseGoesUnnoticed()
    ensures Inv(Working)
    ensures Exec(Working, [Message(LatePause), Apply(Answered, Done), Acknowledge(Delivered), SetErred(Delivered)])
      == Some(Working.(keys := map[7 := Key(true, 0)]))
  {
    var paused := Working.(keys := map[7 := Key(true, 0)]);
    assert Working.rows[0].client == Some(7);
    assert Holds(Working, 0, 7);
    Extend(Working, [], Working, Message(LatePause));
    var ls := [] + [Message(LatePause)];
    Extend(Working, ls, Working.(pc := Start(LatePause)), Apply(Answered, Done));
    ls := ls + [Apply(Answered, Done)];
    assert Effect(LatePause, Working.keys) == paused.keys;
    Extend(Working, ls, paused.(pc := Applied(LatePause)), Acknowledge(Delivered));
    ls := ls + [Acknowledge(Delivered)];
    Extend(Working, ls, paused.(pc := Failed(LatePause)), SetErred(Delivered));
    assert ls + [SetErred(Delivered)]
        == [Message(LatePause), Apply(Answered, Done), Acknowledge(Delivered), SetErred(Delivered)];
  }
}
