/**
What holds in every run of the key command protocol, with commands from sweeps and from
messages, stale and redelivered ones included.
 */
module ApiKeysSafe {
  import opened Wrappers
  import opened ApiKeys

  lemma SameHolders(s: State, s': State)
    requires forall u, c :: Holds(s', u, c) <==> Holds(s, u, c)
    ensures forall c :: HeldBySome(s', c) <==> HeldBySome(s, c)
    ensures ClientsUnique(s) ==> ClientsUnique(s')
    ensures s'.todo == s.todo && TodoHeld(s) ==> TodoHeld(s')
  {
  }

  /** Only a report of a minted key changes what rows hold. */
  lemma HoldersKept(s: State, x: Label)
    requires Enabled(s, x) && !x.SetKey?
    ensures forall u, c :: Holds(Step(s, x), u, c) <==> Holds(s, u, c)
  {
  }

  /** The row of the command gets the key, if it is waiting for one; nothing else changes. */
  lemma SetKeyHolders(s: State, x: Label)
    requires CreatingBare(s) && PcSafe(s) && Enabled(s, x) && x.SetKey?
    ensures var s' := Step(s, x);
      && (forall u, c :: Holds(s, u, c) ==> Holds(s', u, c))
      && (s'.rows == s.rows || Holds(s', s.pc.cmd.uuid, s.pc.client))
      && (forall u, c :: Holds(s', u, c) ==>
            if c == s.pc.client then u == s.pc.cmd.uuid && s'.rows != s.rows else Holds(s, u, c))
  {
    var s' := Step(s, x);
    forall u, c | Holds(s', u, c)
      ensures if c == s.pc.client then u == s.pc.cmd.uuid && s'.rows != s.rows else Holds(s, u, c)
    {
      assert c == s.pc.client ==> !Holds(s, u, c);
    }
  }

  lemma KeepsCreatingBare(s: State, x: Label)
    requires CreatingBare(s) && Enabled(s, x)
    ensures CreatingBare(Step(s, x))
  {
  }

  lemma KeepsTodoHeld(s: State, x: Label)
    requires TodoHeld(s) && Enabled(s, x) && !x.SetKey?
    ensures TodoHeld(Step(s, x))
  {
    HoldersKept(s, x);
  }

  lemma KeepsPcSafe(s: State, x: Label)
    requires PcSafe(s) && TodoHeld(s) && Enabled(s, x) && !x.SetKey?
    ensures PcSafe(Step(s, x))
  {
    HoldersKept(s, x);
    SameHolders(s, Step(s, x));
    if x.ReadReserved? && x.read.Answered? {
      assert forall u, c :: Holds(s, u, c) ==> c in Reserved(s.rows);
    }
    if x.Reread? && Step(s, x).pc.Withdrawing? {
      assert forall u :: !Holds(s, u, s.pc.client);
    }
  }

  lemma KeepsNoStray(s: State, x: Label)
    requires NoStray(s) && PcSafe(s) && Enabled(s, x) && !x.SetKey?
    ensures NoStray(Step(s, x))
  {
    var s' := Step(s, x);
    HoldersKept(s, x);
    SameHolders(s, s');
    forall c | c in s'.keys ensures HeldBySome(s', c) || InHand(s', c) || c in s'.unsettled {
      if x.Apply? && c !in s.keys {
        assert Holds(s, s.pc.cmd.uuid, c);
      } else if x.Reread? && InHand(s, c) && s'.pc.Failed? && x.answered {
        assert Holds(s, s.pc.cmd.uuid, c);
      }
    }
  }

  lemma SetKeyKeepsSafe(s: State, x: Label)
    requires Safe(s) && Enabled(s, x) && x.SetKey?
    ensures Safe(Step(s, x))
  {
    KeepsCreatingBare(s, x);
    SetKeyHolders(s, x);
  }

  lemma KeepsSafe(s: State, x: Label)
    requires Safe(s) && Enabled(s, x)
    ensures Safe(Step(s, x))
  {
    if x.SetKey? {
      SetKeyKeepsSafe(s, x);
    } else {
      HoldersKept(s, x);
      SameHolders(s, Step(s, x));
      KeepsCreatingBare(s, x);
      KeepsTodoHeld(s, x);
      KeepsPcSafe(s, x);
      KeepsNoStray(s, x);
    }
  }

  lemma {:induction false} ExecKeepsSafe(s: State, labels: seq<Label>)
    requires Safe(s) && Exec(s, labels).Some?
    ensures Safe(Exec(s, labels).value)
    decreases |labels|
  {
    if labels != [] {
      KeepsSafe(s, labels[0]);
      ExecKeepsSafe(Step(s, labels[0]), labels[1..]);
    }
  }

  // ---- the results -----------------------------------------------------------------

  /** In every run no two rows hold the same client_id, deleted rows included. */
  lemma EveryRunUnique(labels: seq<Label>)
    requires Exec(Init, labels).Some?
    ensures ClientsUnique(Exec(Init, labels).value)
  {
    ExecKeepsSafe(Init, labels);
  }

  predicate Fault(x: Label) {
    || x.Kill?
    || x == Reread(false)
    || (x.Withdraw? && !x.call.Done?)
    || (x.Mint? && x.call.RaisedAfter?)
  }

  /** A key is given up only by a failed re-read, a failed withdrawal, a mint that raised
      after minting, or a kill. */
  lemma {:induction false} GivenUpOnlyByFault(s: State, labels: seq<Label>)
    requires Exec(s, labels).Some?
    requires forall i :: 0 <= i < |labels| ==> !Fault(labels[i])
    ensures Exec(s, labels).value.unsettled == s.unsettled
    decreases |labels|
  {
    if labels != [] {
      GivenUpOnlyByFault(Step(s, labels[0]), labels[1..]);
    }
  }

  /** Without such a fault, a key live on the backend between commands is held by Waldur:
      whatever was minted, for a listed command or a redelivered one, is held or was removed. */
  lemma MintedIsHeldOrGone(labels: seq<Label>, c: ClientId)
    requires Exec(Init, labels).Some? && Exec(Init, labels).value.pc.Idle?
    requires forall i :: 0 <= i < |labels| ==> !Fault(labels[i])
    requires c in Exec(Init, labels).value.keys
    ensures HeldBySome(Exec(Init, labels).value, c)
  {
    ExecKeepsSafe(Init, labels);
    GivenUpOnlyByFault(Init, labels);
  }

  /** The key a withdrawal removes is held by no row. */
  lemma HeldIsNeverWithdrawn(labels: seq<Label>)
    requires Exec(Init, labels).Some? && Exec(Init, labels).value.pc.Withdrawing?
    ensures var s := Exec(Init, labels).value;
      !HeldBySome(s, s.pc.client)
  {
    ExecKeepsSafe(Init, labels);
  }
}
