/**
What holds in every run in which each command, when it is taken up, is one its row waits
on: what Waldur shows as settled, the backend has.
 */
module ApiKeysProof {
  import opened Wrappers
  import opened ApiKeys
  import opened ApiKeysSafe

  predicate UserMove(x: Label) { x.RequestCreate? || x.Request? || x.RequestDelete? }

  predicate SweepMove(x: Label) { x.List? || x.Skip? || x.Next? || x.Message? || x.Kill? }

  predicate AgentMove(x: Label) { !UserMove(x) && !SweepMove(x) }

  /** A row stays true when nothing happens to the key it holds. */
  lemma RowStaysTrue(s: State, s': State, u: Uuid)
    requires u in s.rows && RowTrue(s, s.rows[u])
    requires forall c :: Holds(s, u, c) ==>
      (c in s.keys <==> c in s'.keys) && (c in s.keys ==> s'.keys[c] == s.keys[c])
    ensures RowTrue(s', s.rows[u])
  {
    if s.rows[u].client.Some? {
      assert Holds(s, u, s.rows[u].client.value);
    }
  }

  lemma UserKeeps(s: State, x: Label)
    requires RowsOk(s) && PcOk(s) && Enabled(s, x) && UserMove(x)
    ensures RowsOk(Step(s, x)) && PcOk(Step(s, x))
  {
  }

  lemma SweepKeeps(s: State, x: Label)
    requires RowsOk(s) && PcOk(s) && Enabled(s, x) && Timely(s, x) && SweepMove(x)
    ensures RowsOk(Step(s, x)) && PcOk(Step(s, x))
  {
  }

  lemma MintRows(s: State, x: Label)
    requires RowsOk(s) && PcSafe(s) && Enabled(s, x) && x.Mint?
    ensures RowsOk(Step(s, x))
  {
    var s' := Step(s, x);
    forall u | u in s'.rows ensures RowShape(s'.rows[u]) && RowTrue(s', s'.rows[u]) {
      RowStaysTrue(s, s', u);
    }
  }

  lemma WithdrawRows(s: State, x: Label)
    requires RowsOk(s) && PcSafe(s) && Enabled(s, x) && x.Withdraw?
    ensures RowsOk(Step(s, x))
  {
    var s' := Step(s, x);
    forall u | u in s'.rows ensures RowShape(s'.rows[u]) && RowTrue(s', s'.rows[u]) {
      assert !Holds(s, u, s.pc.client);
      RowStaysTrue(s, s', u);
    }
  }

  lemma ApplyRows(s: State, x: Label)
    requires ClientsUnique(s) && RowsOk(s) && PcOk(s) && Enabled(s, x) && x.Apply?
    ensures RowsOk(Step(s, x))
  {
    var s' := Step(s, x);
    var cmd := s.pc.cmd;
    assert cmd.client.Some? ==> Holds(s, cmd.uuid, cmd.client.value);
    forall u | u in s'.rows ensures RowShape(s'.rows[u]) && RowTrue(s', s'.rows[u]) {
      if u != cmd.uuid {
        RowStaysTrue(s, s', u);
      }
    }
  }

  /** A report or an acknowledgement settles its own row alone, and settles it true. */
  lemma ReportRows(s: State, x: Label)
    requires RowsOk(s) && PcOk(s) && Enabled(s, x) && (x.SetKey? || x.Acknowledge?)
    ensures RowsOk(Step(s, x))
  {
    var s' := Step(s, x);
    forall u | u in s'.rows ensures RowShape(s'.rows[u]) && RowTrue(s', s'.rows[u]) {
      assert RowShape(s.rows[u]) && RowTrue(s, s.rows[u]);
    }
  }

  lemma AgentKeepsRows(s: State, x: Label)
    requires ClientsUnique(s) && PcSafe(s) && RowsOk(s) && PcOk(s) && Enabled(s, x) && AgentMove(x)
    ensures RowsOk(Step(s, x))
  {
    match x
    case ReadReserved(_) =>
    case Mint(_, _) => MintRows(s, x);
    case SetKey(_) => ReportRows(s, x);
    case Reread(_) =>
    case Withdraw(_) => WithdrawRows(s, x);
    case Apply(_, _) => ApplyRows(s, x);
    case Acknowledge(_) => ReportRows(s, x);
    case SetErred(_) =>
  }

  lemma AgentKeepsPc(s: State, x: Label)
    requires PcOk(s) && Enabled(s, x) && AgentMove(x)
    ensures PcOk(Step(s, x))
  {
  }

  lemma KeepsInv(s: State, x: Label)
    requires Inv(s) && Enabled(s, x) && Timely(s, x)
    ensures Inv(Step(s, x))
  {
    KeepsSafe(s, x);
    if UserMove(x) {
      UserKeeps(s, x);
    } else if SweepMove(x) {
      SweepKeeps(s, x);
    } else {
      AgentKeepsRows(s, x);
      AgentKeepsPc(s, x);
    }
  }

  lemma {:induction false} ExecKeepsInv(s: State, labels: seq<Label>)
    requires Inv(s) && TimelyRun(s, labels)
    ensures Exec(s, labels).Some? && Inv(Exec(s, labels).value)
    decreases |labels|
  {
    if labels != [] {
      KeepsInv(s, labels[0]);
      ExecKeepsInv(Step(s, labels[0]), labels[1..]);
    }
  }

  /** Only the row of the command at hand changes. */
  lemma OthersKept(s: State, x: Label, u: Uuid)
    requires Enabled(s, x) && AgentMove(x) && u in s.rows && u != s.pc.cmd.uuid
    ensures u in Step(s, x).rows && Step(s, x).rows[u] == s.rows[u]
  {
  }

  lemma AgentKeepsTodo(s: State, x: Label)
    requires TodoOk(s) && Enabled(s, x) && AgentMove(x)
    ensures TodoOk(Step(s, x))
  {
    var s' := Step(s, x);
    forall i | 0 <= i < |s'.todo| ensures Awaited(s', s'.todo[i]) {
      OthersKept(s, x, s.todo[i].uuid);
    }
  }

  lemma UserKeepsTodo(s: State, x: Label)
    requires TodoOk(s) && Enabled(s, x) && UserMove(x)
    ensures TodoOk(Step(s, x))
  {
    var s' := Step(s, x);
    forall i | 0 <= i < |s'.todo| ensures Awaited(s', s'.todo[i]) {
      assert Awaited(s, s.todo[i]);
    }
  }

  lemma SweepKeepsTodo(s: State, x: Label)
    requires RowsOk(s) && TodoOk(s) && Enabled(s, x) && SweepMove(x) && !x.Message?
    ensures TodoOk(Step(s, x))
  {
  }

  lemma KeepsTodo(s: State, x: Label)
    requires RowsOk(s) && TodoOk(s) && Enabled(s, x) && !x.Message?
    ensures TodoOk(Step(s, x))
  {
    if UserMove(x) {
      UserKeepsTodo(s, x);
    } else if SweepMove(x) {
      SweepKeepsTodo(s, x);
    } else {
      AgentKeepsTodo(s, x);
    }
  }

  // ---- the results -----------------------------------------------------------------

  /** Runs without messages take up only commands that are awaited: a sweep is never late. */
  lemma {:induction false} SweepsAreTimely(s: State, labels: seq<Label>)
    requires Inv(s) && TodoOk(s) && Exec(s, labels).Some?
    requires forall i :: 0 <= i < |labels| ==> !labels[i].Message?
    ensures TimelyRun(s, labels) && TodoOk(Exec(s, labels).value)
    decreases |labels|
  {
    if labels != [] {
      KeepsInv(s, labels[0]);
      KeepsTodo(s, labels[0]);
      SweepsAreTimely(Step(s, labels[0]), labels[1..]);
    }
  }

  /** In every run that takes up only awaited commands, from sweeps or messages, whatever
      Waldur shows settled the backend already has. */
  lemma EveryRunTrue(labels: seq<Label>)
    requires TimelyRun(Init, labels)
    ensures Exec(Init, labels).Some?
    ensures var s := Exec(Init, labels).value;
      forall u :: u in s.rows ==> RowTrue(s, s.rows[u])
  {
    ExecKeepsInv(Init, labels);
  }

  /** Deleted is final: the row stays deleted and its key never comes back. */
  lemma {:induction false} DeletedForGood(s: State, labels: seq<Label>, u: Uuid)
    requires Inv(s) && TimelyRun(s, labels) && u in s.rows && s.rows[u].state.Deleted?
    ensures Exec(s, labels).Some?
    ensures var t := Exec(s, labels).value;
      && u in t.rows && t.rows[u] == s.rows[u]
      && (s.rows[u].client.Some? ==> s.rows[u].client.value !in t.keys)
    decreases |labels|
  {
    if labels != [] {
      KeepsInv(s, labels[0]);
      assert Step(s, labels[0]).rows[u] == s.rows[u];
      DeletedForGood(Step(s, labels[0]), labels[1..], u);
    }
  }
}
