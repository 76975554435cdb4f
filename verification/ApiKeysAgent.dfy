/**
The command processor as the program it is. Each call's outcome is an argument; the
methods are proved to be runs of the protocol, so what every run keeps holds of them.
 */
module ApiKeysAgent {
  import opened Wrappers
  import opened ApiKeys
  import opened ApiKeysSafe
  import opened ApiKeysProof

  /** How each call of one command goes. */
  datatype Outcome = Outcome(
    read: Read,
    mint: Call,
    report: Sent,
    reread: bool,
    withdraw: Call,
    call: Call,
    ack: Sent,
    erred: Sent)

  /** What a backend promises of a minted client_id, and nothing else about it. */
  method FreshClient(taken: set<ClientId>) returns (c: ClientId)
    ensures c !in taken
  {
    c := 0;
    var rest := taken;
    while rest != {}
      invariant rest <= taken
      invariant forall x :: x in taken && x !in rest ==> x < c
      decreases rest
    {
      var x :| x in rest;
      if x >= c {
        c := x + 1;
      }
      rest := rest - {x};
    }
  }

  /** The steps of a command once it is taken up lead from one state to another. */
  ghost predicate Carries(s: State, labels: seq<Label>, t: State) {
    Exec(s, labels) == Some(t) && forall i :: 0 <= i < |labels| ==> AgentMove(labels[i])
  }

  lemma OneMore(s: State, labels: seq<Label>, t: State, x: Label)
    requires Carries(s, labels, t) && Enabled(t, x) && AgentMove(x)
    ensures Carries(s, labels + [x], Step(t, x))
  {
    Extend(s, labels, t, x);
  }

  lemma CarriedTodo(s: State, labels: seq<Label>, t: State)
    requires Carries(s, labels, t) && Inv(s) && TodoOk(s)
    ensures TodoOk(t)
  {
    SweepsAreTimely(s, labels);
  }

  class KeyAgent {
    var rows: map<Uuid, Row>
    var keys: map<ClientId, Key>
    ghost var unsettled: set<ClientId>

    constructor (rows: map<Uuid, Row>, keys: map<ClientId, Key>)
      ensures this.rows == rows && this.keys == keys && unsettled == {}
    {
      this.rows, this.keys, unsettled := rows, keys, {};
    }

    ghost function At(todo: seq<Command>, pc: Pc): State
      reads this
    {
      State(rows, keys, todo, pc, unsettled)
    }

    /** `_withdraw`. */
    method Withdraw(cmd: Command, client: ClientId, report: bool, o: Outcome,
                    ghost todo: seq<Command>, ghost start: State, ghost before: seq<Label>)
      returns (ghost labels: seq<Label>)
      requires Carries(start, before, At(todo, Withdrawing(cmd, client, report)))
      modifies this`keys, this`unsettled
      ensures Carries(start, labels, At(todo, if report then Failed(cmd) else Idle))
    {
      labels := before + [Label.Withdraw(o.withdraw)];
      OneMore(start, before, At(todo, Withdrawing(cmd, client, report)), Label.Withdraw(o.withdraw));
      if !o.withdraw.RaisedBefore? {
        keys := keys - {client};
      }
      if !o.withdraw.Done? {
        unsettled := unsettled + {client};
      }
    }

    /** The end of `_create`: the minted key is reported, and withdrawn if Waldur refused it
        or does not hold it. */
    method Report(cmd: Command, client: ClientId, o: Outcome,
                  ghost todo: seq<Command>, ghost start: State, ghost before: seq<Label>)
      returns (failed: bool, ghost labels: seq<Label>)
      requires Carries(start, before, At(todo, Minted(cmd, client)))
      modifies this
      ensures Carries(start, labels, At(todo, if failed then Failed(cmd) else Idle))
    {
      OneMore(start, before, At(todo, Minted(cmd, client)), SetKey(o.report));
      labels := before + [SetKey(o.report)];
      var accepted := TakesKey(rows, cmd, client);
      if o.report.Reaches() {
        rows := Keyed(rows, cmd, client);
      }
      if o.report.Delivered? || o.report.Declined? {
        failed := false;
        if o.report.Declined? || !accepted {
          labels := Withdraw(cmd, client, false, o, todo, start, labels);
        }
        return;
      }
      var answered := o.reread && cmd.uuid in rows;
      OneMore(start, labels, At(todo, Unanswered(cmd, client)), Reread(answered));
      labels := labels + [Reread(answered)];
      failed := true;
      if !answered {
        unsettled := unsettled + {client};
      } else if rows[cmd.uuid].client != Some(client) {
        labels := Withdraw(cmd, client, true, o, todo, start, labels);
      }
    }

    /** `_create`; whether an error is left to report. */
    method Create(cmd: Command, o: Outcome, ghost todo: seq<Command>)
      returns (failed: bool, ghost labels: seq<Label>)
      requires cmd.action.Create?
      modifies this
      ensures Carries(old(At(todo, Start(cmd))), labels, At(todo, if failed then Failed(cmd) else Idle))
    {
      ghost var start := At(todo, Start(cmd));
      OneMore(start, [], start, ReadReserved(o.read));
      labels := [] + [ReadReserved(o.read)];
      if !o.read.Answered? {
        failed := o.read.Refused?;
        return;
      }
      var client := FreshClient(Reserved(rows) + keys.Keys);
      OneMore(start, labels, At(todo, Listed(cmd, Reserved(rows))), Mint(client, o.mint));
      labels := labels + [Mint(client, o.mint)];
      if !o.mint.RaisedBefore? {
        keys := keys[client := Key(false, cmd.settings)];
      }
      if o.mint.RaisedAfter? {
        unsettled := unsettled + {client};
      }
      if !o.mint.Done? {
        failed := true;
        return;
      }
      failed, labels := Report(cmd, client, o, todo, start, labels);
    }

    /** `_run` for a key that has a client_id, or the deletion of one that has none. */
    method Run(cmd: Command, o: Outcome, ghost todo: seq<Command>)
      returns (failed: bool, ghost labels: seq<Label>)
      requires !cmd.action.Create?
      modifies this`rows, this`keys
      ensures Carries(old(At(todo, Start(cmd))), labels, At(todo, if failed then Failed(cmd) else Idle))
    {
      ghost var start := At(todo, Start(cmd));
      OneMore(start, [], start, Apply(o.read, o.call));
      labels := [] + [Apply(o.read, o.call)];
      if cmd.client.None? {
        if !cmd.action.Delete? {
          failed := true;
          return;
        }
      } else {
        if cmd.action.Resume? || cmd.action.Update? {
          if !o.read.Answered? {
            failed := o.read.Refused?;
            return;
          }
        }
        if !o.call.RaisedBefore? {
          keys := Effect(cmd, keys);
        }
        if !o.call.Done? {
          failed := true;
          return;
        }
      }
      OneMore(start, labels, At(todo, Applied(cmd)), Acknowledge(o.ack));
      labels := labels + [Acknowledge(o.ack)];
      var accepted := cmd.uuid in rows && Accepts(rows[cmd.uuid], cmd.action);
      if o.ack.Reaches() {
        rows := Acked(rows, cmd);
      }
      failed := !(o.ack.Delivered? && accepted);
    }

    /** `execute_api_key_command`: the command, then `set_erred` if it failed. Whatever
        command it is given and whatever its row waits on, client_ids stay unique and no key
        goes astray; if the row waits on it, what Waldur shows stays true as well. */
    method Execute(cmd: Command, o: Outcome, ghost todo: seq<Command>)
      returns (ghost labels: seq<Label>)
      requires Safe(At(todo, Start(cmd)))
      modifies this
      ensures Carries(old(At(todo, Start(cmd))), labels, At(todo, Idle))
      ensures Safe(At(todo, Idle))
      ensures old(Inv(At(todo, Start(cmd)))) ==> Inv(At(todo, Idle))
    {
      ghost var start := At(todo, Start(cmd));
      var failed;
      if cmd.action.Create? {
        failed, labels := Create(cmd, o, todo);
      } else {
        failed, labels := Run(cmd, o, todo);
      }
      if failed {
        OneMore(start, labels, At(todo, Failed(cmd)), SetErred(o.erred));
        labels := labels + [SetErred(o.erred)];
        if o.erred.Reaches() {
          rows := ErredRow(rows, cmd.uuid);
        }
      }
      ExecKeepsSafe(start, labels);
      if Inv(start) {
        AgentIsTimely(start, labels);
        ExecKeepsInv(start, labels);
      }
    }

    /** `on_resource_api_key_command_stomp`: a command by message, perhaps redelivered. */
    method OnMessage(cmd: Command, o: Outcome, ghost todo: seq<Command>)
      returns (ghost labels: seq<Label>)
      requires Safe(At(todo, Idle)) && Enabled(At(todo, Idle), Message(cmd))
      modifies this
      ensures Exec(old(At(todo, Idle)), labels) == Some(At(todo, Idle))
      ensures Safe(At(todo, Idle))
      ensures old(Inv(At(todo, Idle)) && Awaited(At(todo, Idle), cmd)) ==> Inv(At(todo, Idle))
    {
      ghost var start := At(todo, Idle);
      KeepsSafe(start, Message(cmd));
      if Inv(start) && Awaited(start, cmd) {
        KeepsInv(start, Message(cmd));
      }
      Extend(start, [], start, Message(cmd));
      ghost var mine := Execute(cmd, o, todo);
      ExecThen(start, [] + [Message(cmd)], mine);
      labels := [] + [Message(cmd)] + mine;
    }

    /** `process_pending_api_key_commands`: list what is pending, then one command after
        another. A command without a resource backend id is skipped. */
    method ProcessPending(us: seq<Uuid>, skipped: set<Uuid>, outcomes: seq<Outcome>)
      returns (ghost labels: seq<Label>)
      requires Inv(At([], Idle)) && Enabled(At([], Idle), List(us)) && |outcomes| == |us|
      modifies this
      ensures Exec(old(At([], Idle)), labels) == Some(At([], Idle))
      ensures Inv(At([], Idle))
    {
      ghost var start := At([], Idle);
      var commands := CommandsOf(rows, us);
      SweepStep(start, [], start, List(us));
      labels := [] + [List(us)];
      var i := 0;
      while i < |commands|
        invariant i <= |commands| == |us|
        invariant Exec(start, labels) == Some(At(commands[i..], Idle))
        invariant Ready(At(commands[i..], Idle))
      {
        HeadAndRest(commands, i);
        labels := SweepOne(commands[i], commands[i].uuid in skipped, outcomes[i], commands[i + 1..], start, labels);
        i := i + 1;
      }
      assert commands[i..] == [];
    }

    /** One round of the sweep's loop. */
    method SweepOne(cmd: Command, skip: bool, o: Outcome, ghost rest: seq<Command>,
                    ghost start: State, ghost before: seq<Label>)
      returns (ghost labels: seq<Label>)
      requires Exec(start, before) == Some(At([cmd] + rest, Idle)) && Ready(At([cmd] + rest, Idle))
      modifies this
      ensures Exec(start, labels) == Some(At(rest, Idle)) && Ready(At(rest, Idle))
    {
      ghost var s := At([cmd] + rest, Idle);
      assert s.todo[1..] == rest;
      if skip {
        SweepStep(start, before, s, Skip);
        labels := before + [Skip];
      } else {
        SweepStep(start, before, s, Next);
        ghost var begun := Step(s, Next);
        ghost var mine := Execute(cmd, o, rest);
        CarriedTodo(begun, mine, At(rest, Idle));
        ExecThen(start, before + [Next], mine);
        labels := before + [Next] + mine;
      }
    }
  }

  lemma HeadAndRest<T>(xs: seq<T>, i: nat)
    requires i < |xs|
    ensures xs[i..] == [xs[i]] + xs[i + 1..]
  {
  }

  /** A sweep's commands are all awaited. */
  ghost predicate Ready(s: State) { Inv(s) && TodoOk(s) }

  lemma SweepStep(start: State, labels: seq<Label>, s: State, x: Label)
    requires Exec(start, labels) == Some(s) && Ready(s) && Enabled(s, x) && (x.List? || x.Skip? || x.Next?)
    ensures Exec(start, labels + [x]) == Some(Step(s, x)) && Ready(Step(s, x))
  {
    Extend(start, labels, s, x);
    KeepsInv(s, x);
    KeepsTodo(s, x);
  }

  /** Once a command is taken up, its own steps take up no other. */
  lemma {:induction false} AgentIsTimely(s: State, labels: seq<Label>)
    requires Exec(s, labels).Some? && forall i :: 0 <= i < |labels| ==> AgentMove(labels[i])
    ensures TimelyRun(s, labels)
    decreases |labels|
  {
    if labels != [] {
      AgentIsTimely(Step(s, labels[0]), labels[1..]);
    }
  }
}
