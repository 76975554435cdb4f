/**
Several commands carried out at once: the sweep and every message handler are executors over
the same rows and the same backend, and their steps interleave freely. Each executor moves by
the steps of the protocol.
 */
module ApiKeysConcurrent {
  import opened Wrappers
  import opened ApiKeys
  import opened ApiKeysSafe

  datatype Shared = Shared(
    rows: map<Uuid, Row>,
    keys: map<ClientId, Key>,
    pcs: map<nat, Pc>,
    unsettled: set<ClientId>)

  /** What one executor has before it. Listed commands are taken up as messages are. */
  function Focus(cs: Shared, i: nat): State
    requires i in cs.pcs
  {
    State(cs.rows, cs.keys, [], cs.pcs[i], cs.unsettled)
  }

  datatype Move = Move(executor: nat, step: Label)

  predicate CanMove(cs: Shared, m: Move) {
    m.executor in cs.pcs && Enabled(Focus(cs, m.executor), m.step)
  }

  function Moved(cs: Shared, m: Move): Shared
    requires CanMove(cs, m)
  {
    var s := Step(Focus(cs, m.executor), m.step);
    Shared(s.rows, s.keys, cs.pcs[m.executor := s.pc], s.unsettled)
  }

  /** The backend mints no client_id that a row holds. It is told the ids reserved when the
      create began, and knows the keys that are live. */
  ghost predicate NoReuse(cs: Shared, m: Move) {
    m.step.Mint? && !m.step.call.RaisedBefore? ==> !Held(cs, m.step.client)
  }

  predicate HeldBy(cs: Shared, u: Uuid, c: ClientId) { u in cs.rows && cs.rows[u].client == Some(c) }

  ghost predicate Held(cs: Shared, c: ClientId) { exists u :: HeldBy(cs, u, c) }

  // ---- what every interleaving keeps -----------------------------------------------

  predicate Carries(p: Pc) { p.Minted? || p.Unanswered? || p.Withdrawing? }

  predicate InSomeHand(cs: Shared, i: nat, c: ClientId) {
    i in cs.pcs && Carries(cs.pcs[i]) && cs.pcs[i].client == c
  }

  ghost predicate Unique(cs: Shared) {
    forall u, v, c :: HeldBy(cs, u, c) && HeldBy(cs, v, c) ==> u == v
  }

  predicate Bare(cs: Shared) {
    forall u :: u in cs.rows && cs.rows[u].state.Creating? ==> cs.rows[u].client.None?
  }

  ghost predicate HandOk(cs: Shared, p: Pc) {
    match p
    case Minted(_, c) => !Held(cs, c) && c in cs.keys
    case Unanswered(cmd, c) =>
      (forall u :: HeldBy(cs, u, c) ==> u == cmd.uuid) && (c in cs.keys || HeldBy(cs, cmd.uuid, c))
    case Withdrawing(_, c, _) => !Held(cs, c) && c in cs.keys
    case _ => true
  }

  ghost predicate HandsOk(cs: Shared) { forall i :: i in cs.pcs ==> HandOk(cs, cs.pcs[i]) }

  /** No two executors have the same key in hand. */
  ghost predicate HandsApart(cs: Shared) {
    forall i, j, c :: InSomeHand(cs, i, c) && InSomeHand(cs, j, c) ==> i == j
  }

  ghost predicate Accounted(cs: Shared) {
    forall c :: c in cs.keys ==> Held(cs, c) || (exists i :: InSomeHand(cs, i, c)) || c in cs.unsettled
  }

  /** What a command names as its client_id, its row holds. */
  predicate StartHeld(cs: Shared, p: Pc) {
    p.Start? && p.cmd.client.Some? ==> HeldBy(cs, p.cmd.uuid, p.cmd.client.value)
  }

  ghost predicate StartsHeld(cs: Shared) { forall i :: i in cs.pcs ==> StartHeld(cs, cs.pcs[i]) }

  /** What every interleaving keeps, whatever the backend mints. */
  ghost predicate Sound(cs: Shared) { Unique(cs) && Bare(cs) && StartsHeld(cs) && Accounted(cs) }

  /** And what it keeps where no id is minted that a row holds. */
  ghost predicate AllSafe(cs: Shared) { Sound(cs) && HandsOk(cs) && HandsApart(cs) }

  /** Rows keep what they hold, and gain at most the key the moving executor reports. */
  lemma HoldersGrow(cs: Shared, m: Move)
    requires Bare(cs) && CanMove(cs, m)
    ensures var cs' := Moved(cs, m);
      && (forall u, c :: HeldBy(cs, u, c) ==> HeldBy(cs', u, c))
      && (forall u, c :: HeldBy(cs', u, c) && !HeldBy(cs, u, c) ==>
        cs.pcs[m.executor].Minted? && m.step.SetKey?
        && u == cs.pcs[m.executor].cmd.uuid && c == cs.pcs[m.executor].client && !Held(cs, c))
  {
  }

  lemma KeepsBare(cs: Shared, m: Move)
    requires Bare(cs) && CanMove(cs, m)
    ensures Bare(Moved(cs, m))
  {
  }

  /** Waldur takes no client_id a row holds, so no interleaving and no mint doubles one. */
  lemma KeepsUnique(cs: Shared, m: Move)
    requires Unique(cs) && Bare(cs) && CanMove(cs, m)
    ensures Unique(Moved(cs, m))
  {
    HoldersGrow(cs, m);
  }

  lemma KeepsStartsHeld(cs: Shared, m: Move)
    requires Bare(cs) && StartsHeld(cs) && CanMove(cs, m)
    ensures StartsHeld(Moved(cs, m))
  {
    HoldersGrow(cs, m);
  }

  /** The keys another executor has in hand are not touched. */
  lemma OthersKept(cs: Shared, m: Move, j: nat)
    requires AllSafe(cs) && CanMove(cs, m) && j in cs.pcs && j != m.executor
    ensures HandOk(Moved(cs, m), cs.pcs[j])
  {
    var cs', i := Moved(cs, m), m.executor;
    HoldersGrow(cs, m);
    assert HandOk(cs, cs.pcs[i]) && HandOk(cs, cs.pcs[j]);
    if Carries(cs.pcs[j]) {
      var c := cs.pcs[j].client;
      assert InSomeHand(cs, j, c);
      assert !InSomeHand(cs, i, c);
      assert StartHeld(cs, cs.pcs[i]);
      KeyInHandKept(cs, m, c);
    }
  }

  lemma KeyInHandKept(cs: Shared, m: Move, c: ClientId)
    requires CanMove(cs, m) && StartHeld(cs, cs.pcs[m.executor]) && !InSomeHand(cs, m.executor, c)
    ensures c in cs.keys ==> c in Moved(cs, m).keys || Held(cs, c)
  {
  }

  /** A key about to be withdrawn is held by no row. */
  lemma WithdrawalSafe(cs: Shared, m: Move)
    requires CanMove(cs, m) && !UserStep(m.step) && HandOk(cs, cs.pcs[m.executor])
    requires Moved(cs, m).pcs[m.executor].Withdrawing?
    ensures HandOk(Moved(cs, m), Moved(cs, m).pcs[m.executor])
  {
    var cs', c := Moved(cs, m), Moved(cs, m).pcs[m.executor].client;
    assert cs'.rows == cs.rows && cs'.keys == cs.keys;
    assert forall u :: HeldBy(cs', u, c) <==> HeldBy(cs, u, c);
  }

  predicate UserStep(x: Label) { x.RequestCreate? || x.Request? || x.RequestDelete? }

  lemma UserKeepsHand(cs: Shared, m: Move)
    requires Bare(cs) && CanMove(cs, m) && UserStep(m.step) && HandOk(cs, cs.pcs[m.executor])
    ensures HandOk(Moved(cs, m), Moved(cs, m).pcs[m.executor])
  {
    HoldersGrow(cs, m);
  }

  /** A step by which an executor gets no key to withdraw. */
  lemma OtherwiseSafe(cs: Shared, m: Move)
    requires Bare(cs) && CanMove(cs, m) && NoReuse(cs, m) && HandOk(cs, cs.pcs[m.executor])
    requires !UserStep(m.step) && !Moved(cs, m).pcs[m.executor].Withdrawing?
    ensures HandOk(Moved(cs, m), Moved(cs, m).pcs[m.executor])
  {
    HoldersGrow(cs, m);
  }

  lemma OwnKept(cs: Shared, m: Move)
    requires AllSafe(cs) && CanMove(cs, m) && NoReuse(cs, m)
    ensures HandOk(Moved(cs, m), Moved(cs, m).pcs[m.executor])
  {
    assert HandOk(cs, cs.pcs[m.executor]);
    if UserStep(m.step) {
      UserKeepsHand(cs, m);
    } else if Moved(cs, m).pcs[m.executor].Withdrawing? {
      WithdrawalSafe(cs, m);
    } else {
      OtherwiseSafe(cs, m);
    }
  }

  lemma KeepsHandsOk(cs: Shared, m: Move)
    requires AllSafe(cs) && CanMove(cs, m) && NoReuse(cs, m)
    ensures HandsOk(Moved(cs, m))
  {
    var cs' := Moved(cs, m);
    forall j | j in cs'.pcs ensures HandOk(cs', cs'.pcs[j]) {
      if j == m.executor {
        OwnKept(cs, m);
      } else {
        OthersKept(cs, m, j);
      }
    }
  }

  /** A key newly in hand is one that was neither live nor held. */
  lemma HandNew(cs: Shared, m: Move, c: ClientId)
    requires CanMove(cs, m) && NoReuse(cs, m) && InSomeHand(Moved(cs, m), m.executor, c)
    ensures InSomeHand(cs, m.executor, c) || (c !in cs.keys && !Held(cs, c))
  {
  }

  lemma KeepsHandsApart(cs: Shared, m: Move)
    requires AllSafe(cs) && CanMove(cs, m) && NoReuse(cs, m)
    ensures HandsApart(Moved(cs, m))
  {
    var cs' := Moved(cs, m);
    forall j, c | j != m.executor && InSomeHand(cs', j, c) ensures !InSomeHand(cs', m.executor, c) {
      assert InSomeHand(cs, j, c) && HandOk(cs, cs.pcs[j]);
      if InSomeHand(cs', m.executor, c) {
        HandNew(cs, m, c);
      }
    }
    forall j, k, c | InSomeHand(cs', j, c) && InSomeHand(cs', k, c) ensures j == k {
      if j != m.executor && k != m.executor {
        assert InSomeHand(cs, j, c) && InSomeHand(cs, k, c);
      }
    }
  }

  lemma KeepsAccounted(cs: Shared, m: Move)
    requires Sound(cs) && CanMove(cs, m)
    ensures Accounted(Moved(cs, m))
  {
    var cs', i := Moved(cs, m), m.executor;
    HoldersGrow(cs, m);
    assert StartHeld(cs, cs.pcs[i]);
    forall c | c in cs'.keys
      ensures Held(cs', c) || (exists k :: InSomeHand(cs', k, c)) || c in cs'.unsettled
    {
      if c !in cs.keys {
        NewKey(cs, m, c);
      } else if Held(cs, c) {
        var u :| HeldBy(cs, u, c);
        assert HeldBy(cs', u, c);
      } else if k :| InSomeHand(cs, k, c) {
        if k == i {
          HandMoves(cs, m, c);
        } else {
          assert InSomeHand(cs', k, c);
        }
      }
    }
  }

  /** A key that appears is the one minted, or one its row holds. */
  lemma NewKey(cs: Shared, m: Move, c: ClientId)
    requires CanMove(cs, m) && StartHeld(cs, cs.pcs[m.executor]) && c !in cs.keys && c in Moved(cs, m).keys
    ensures var cs' := Moved(cs, m);
      Held(cs', c) || InSomeHand(cs', m.executor, c) || c in cs'.unsettled
  {
    var cs', p := Moved(cs, m), cs.pcs[m.executor];
    if m.step.Apply? {
      assert HeldBy(cs', p.cmd.uuid, c);
    }
  }

  /** A key in hand stays there, gets held, goes, or is given up. */
  lemma HandMoves(cs: Shared, m: Move, c: ClientId)
    requires CanMove(cs, m) && InSomeHand(cs, m.executor, c) && c in Moved(cs, m).keys
    ensures var cs' := Moved(cs, m);
      Held(cs', c) || InSomeHand(cs', m.executor, c) || c in cs'.unsettled
  {
    var cs', p := Moved(cs, m), cs.pcs[m.executor];
    if m.step.SetKey? || m.step.Reread? {
      assert cs'.pcs[m.executor].Failed? && c !in cs'.unsettled ==> HeldBy(cs', p.cmd.uuid, c);
      assert cs'.pcs[m.executor].Idle? ==> HeldBy(cs', p.cmd.uuid, c);
    }
  }

  lemma KeepsSound(cs: Shared, m: Move)
    requires Sound(cs) && CanMove(cs, m)
    ensures Sound(Moved(cs, m))
  {
    KeepsBare(cs, m);
    KeepsUnique(cs, m);
    KeepsStartsHeld(cs, m);
    KeepsAccounted(cs, m);
  }

  lemma KeepsAllSafe(cs: Shared, m: Move)
    requires AllSafe(cs) && CanMove(cs, m) && NoReuse(cs, m)
    ensures AllSafe(Moved(cs, m))
  {
    KeepsSound(cs, m);
    KeepsHandsOk(cs, m);
    KeepsHandsApart(cs, m);
  }

  // ---- runs ------------------------------------------------------------------------

  predicate Possible(cs: Shared, ms: seq<Move>)
    decreases |ms|
  {
    ms == [] || (CanMove(cs, ms[0]) && Possible(Moved(cs, ms[0]), ms[1..]))
  }

  function Outcome(cs: Shared, ms: seq<Move>): Shared
    requires Possible(cs, ms)
    decreases |ms|
  {
    if ms == [] then cs else Outcome(Moved(cs, ms[0]), ms[1..])
  }

  ghost predicate NeverReuses(cs: Shared, ms: seq<Move>)
    requires Possible(cs, ms)
    decreases |ms|
  {
    ms == [] || (NoReuse(cs, ms[0]) && NeverReuses(Moved(cs, ms[0]), ms[1..]))
  }

  lemma {:induction false} RunKeepsAllSafe(cs: Shared, ms: seq<Move>)
    requires AllSafe(cs) && Possible(cs, ms) && NeverReuses(cs, ms)
    ensures AllSafe(Outcome(cs, ms))
    decreases |ms|
  {
    if ms != [] {
      KeepsAllSafe(cs, ms[0]);
      RunKeepsAllSafe(Moved(cs, ms[0]), ms[1..]);
    }
  }

  lemma FaultlessMove(cs: Shared, m: Move)
    requires CanMove(cs, m) && !Fault(m.step)
    ensures Moved(cs, m).unsettled == cs.unsettled
  {
  }

  lemma {:induction false} OnlyFaultsGiveUp(cs: Shared, ms: seq<Move>)
    requires Possible(cs, ms) && forall k :: 0 <= k < |ms| ==> !Fault(ms[k].step)
    ensures Outcome(cs, ms).unsettled == cs.unsettled
    decreases |ms|
  {
    if ms != [] {
      FaultlessMove(cs, ms[0]);
      OnlyFaultsGiveUp(Moved(cs, ms[0]), ms[1..]);
    }
  }

  /** Any number of executors, all idle, over an empty resource. */
  function Begin(executors: set<nat>): Shared { Shared(map[], map[], map i | i in executors :: Idle, {}) }

  lemma {:induction false} RunKeepsSound(cs: Shared, ms: seq<Move>)
    requires Sound(cs) && Possible(cs, ms)
    ensures Sound(Outcome(cs, ms))
    decreases |ms|
  {
    if ms != [] {
      KeepsSound(cs, ms[0]);
      RunKeepsSound(Moved(cs, ms[0]), ms[1..]);
    }
  }

  /**
  However many executors interleave, and whatever the backend mints: no two rows hold the same
  client_id, and without faults every key on the backend is held by a row or in some executor's
  hand.
   */
  lemma EveryInterleavingSound(executors: set<nat>, ms: seq<Move>)
    requires Possible(Begin(executors), ms)
    ensures var cs := Outcome(Begin(executors), ms);
      && Unique(cs)
      && ((forall k :: 0 <= k < |ms| ==> !Fault(ms[k].step)) ==>
        forall c :: c in cs.keys ==> Held(cs, c) || exists i :: InSomeHand(cs, i, c))
  {
    RunKeepsSound(Begin(executors), ms);
    if forall k :: 0 <= k < |ms| ==> !Fault(ms[k].step) {
      OnlyFaultsGiveUp(Begin(executors), ms);
    }
  }

  // ---- withdrawing a held key ------------------------------------------------------

  /** Some executor is about to withdraw a key that a row holds. */
  ghost predicate WithdrawsHeld(cs: Shared) {
    exists i :: i in cs.pcs && cs.pcs[i].Withdrawing? && Held(cs, cs.pcs[i].client)
  }

  lemma SafeWithdrawsNone(cs: Shared)
    requires AllSafe(cs)
    ensures !WithdrawsHeld(cs)
  {
  }

  /** As long as no id a row holds is minted, no interleaving withdraws a held key. */
  lemma EveryInterleavingSafe(executors: set<nat>, ms: seq<Move>)
    requires Possible(Begin(executors), ms) && NeverReuses(Begin(executors), ms)
    ensures !WithdrawsHeld(Outcome(Begin(executors), ms))
  {
    RunKeepsAllSafe(Begin(executors), ms);
    SafeWithdrawsNone(Outcome(Begin(executors), ms));
  }

  /** The condition is exact, mint by mint: what follows a mint, itself free of reuse, can come
      to withdraw a held key if and only if the minted id was held. */
  lemma ReuseExactly(cs: Shared, m: Move)
    requires AllSafe(cs) && CanMove(cs, m) && m.step.Mint? && m.step.call.Done?
    ensures (exists ms :: Possible(Moved(cs, m), ms) && NeverReuses(Moved(cs, m), ms)
                          && WithdrawsHeld(Outcome(Moved(cs, m), ms)))
      <==> Held(cs, m.step.client)
  {
    var minted, c := Moved(cs, m), m.step.client;
    if Held(cs, c) {
      ReusedIsWithdrawn(cs, m);
    } else {
      KeepsAllSafe(cs, m);
      forall ms | Possible(minted, ms) && NeverReuses(minted, ms) ensures !WithdrawsHeld(Outcome(minted, ms)) {
        RunKeepsAllSafe(minted, ms);
        SafeWithdrawsNone(Outcome(minted, ms));
      }
    }
  }

  /** Waldur refuses the id, and the key goes to be withdrawn. */
  lemma ReusedIsWithdrawn(cs: Shared, m: Move)
    requires CanMove(cs, m) && m.step.Mint? && m.step.call.Done? && Held(cs, m.step.client)
    ensures exists ms :: Possible(Moved(cs, m), ms) && NeverReuses(Moved(cs, m), ms)
                         && WithdrawsHeld(Outcome(Moved(cs, m), ms))
  {
    var minted, c := Moved(cs, m), m.step.client;
    var report := Move(m.executor, SetKey(Delivered));
    var u :| HeldBy(cs, u, c);
    assert c in Reserved(minted.rows);
    var refused := Moved(minted, report);
    assert refused.pcs[m.executor].Withdrawing? && HeldBy(refused, u, c);
    var ms := [report];
    assert ms[1..] == [];
    assert Possible(refused, []) && Outcome(refused, []) == refused && NeverReuses(refused, []);
    assert Possible(minted, ms) && Outcome(minted, ms) == refused && NeverReuses(minted, ms);
  }

  // ---- a list of reserved ids that is out of date ----------------------------------

  ghost predicate Reachable(cs: Shared) {
    exists ms :: Possible(Begin({0, 1}), ms) && Outcome(Begin({0, 1}), ms) == cs
  }

  lemma {:induction false} OneMove(cs: Shared, ms: seq<Move>, m: Move)
    requires Possible(cs, ms) && CanMove(Outcome(cs, ms), m)
    ensures Possible(cs, ms + [m]) && Outcome(cs, ms + [m]) == Moved(Outcome(cs, ms), m)
    decreases |ms|
  {
    if ms == [] {
      assert ms + [m] == [m] && [m][1..] == [];
      assert Possible(Moved(cs, m), []) && Outcome(Moved(cs, m), []) == Moved(cs, m);
    } else {
      assert (ms + [m])[1..] == ms[1..] + [m];
      OneMove(Moved(cs, ms[0]), ms[1..], m);
    }
  }

  lemma Reach(cs: Shared, i: nat, x: Label)
    requires Reachable(cs) && CanMove(cs, Move(i, x))
    ensures Reachable(Moved(cs, Move(i, x)))
  {
    var ms :| Possible(Begin({0, 1}), ms) && Outcome(Begin({0, 1}), ms) == cs;
    OneMove(Begin({0, 1}), ms, Move(i, x));
  }

  const Requested := Row(Creating, Some(Create), None, 0)

  function CreateOf(u: Uuid): Command { Command(Create, u, None, 0) }

  /** Both rows as given, and both executors. */
  predicate Shows(cs: Shared, row0: Row, row1: Row, pc0: Pc, pc1: Pc) {
    && 0 in cs.rows && cs.rows[0] == row0 && 1 in cs.rows && cs.rows[1] == row1
    && 0 in cs.pcs && cs.pcs[0] == pc0 && 1 in cs.pcs && cs.pcs[1] == pc1
  }

  lemma BothRequested() returns (cs: Shared)
    ensures Reachable(cs) && Shows(cs, Requested, Requested, Idle, Idle)
    ensures cs.keys == map[] && cs.rows.Keys == {0, 1}
  {
    var cs0 := Begin({0, 1});
    assert Possible(cs0, []) && Outcome(cs0, []) == cs0;
    Reach(cs0, 0, RequestCreate(0, 0));
    var cs1 := Moved(cs0, Move(0, RequestCreate(0, 0)));
    Reach(cs1, 0, RequestCreate(1, 0));
    cs := Moved(cs1, Move(0, RequestCreate(1, 0)));
  }

  /** An executor takes up a create and reads the reserved ids. */
  lemma BeginsCreate(cs: Shared, i: nat) returns (cs': Shared)
    requires Reachable(cs) && i in cs.pcs && cs.pcs[i] == Idle
    ensures Reachable(cs') && cs' == cs.(pcs := cs.pcs[i := Listed(CreateOf(i), Reserved(cs.rows))])
  {
    Reach(cs, i, Message(CreateOf(i)));
    var cs1 := Moved(cs, Move(i, Message(CreateOf(i))));
    Reach(cs1, i, ReadReserved(Answered));
    cs' := Moved(cs1, Move(i, ReadReserved(Answered)));
    assert cs'.pcs == cs.pcs[i := Listed(CreateOf(i), Reserved(cs.rows))];
  }

  /** It mints a key and Waldur takes it. */
  lemma EndsCreate(cs: Shared, i: nat, c: ClientId) returns (cs': Shared)
    requires Reachable(cs) && i in cs.pcs && cs.pcs[i].Listed? && cs.pcs[i].cmd == CreateOf(i)
    requires i in cs.rows && cs.rows[i] == Requested && c !in cs.pcs[i].reserved && c !in cs.keys
    requires c !in Reserved(cs.rows)
    ensures Reachable(cs') && cs'.keys == cs.keys[c := Key(false, 0)]
    ensures cs'.rows == cs.rows[i := Row(Ok, None, Some(c), 0)] && cs'.pcs == cs.pcs[i := Idle]
  {
    Reach(cs, i, Mint(c, Done));
    var cs1 := Moved(cs, Move(i, Mint(c, Done)));
    assert cs1.pcs[i] == Minted(CreateOf(i), c);
    Reach(cs1, i, SetKey(Delivered));
    cs' := Moved(cs1, Move(i, SetKey(Delivered)));
    assert cs'.pcs == cs.pcs[i := Idle];
  }

  /** Users ask for a key to be deleted, and an executor deletes it on the backend. */
  lemma DeletesKey(cs: Shared, i: nat, u: Uuid, c: ClientId) returns (cs': Shared)
    requires Reachable(cs) && i in cs.pcs && cs.pcs[i] == Idle
    requires u in cs.rows && cs.rows[u] == Row(Ok, None, Some(c), 0)
    ensures Reachable(cs') && cs'.keys == cs.keys - {c}
    ensures cs'.rows == cs.rows[u := Row(Deleting, Some(Delete), Some(c), 0)]
    ensures forall k :: k != i && k in cs.pcs ==> k in cs'.pcs && cs'.pcs[k] == cs.pcs[k]
  {
    Reach(cs, i, RequestDelete(u));
    var cs1 := Moved(cs, Move(i, RequestDelete(u)));
    assert cs1.rows[u] == Row(Deleting, Some(Delete), Some(c), 0);
    cs' := CarriesOutDelete(cs1, i, u, c);
  }

  lemma TakesUp(cs: Shared, i: nat, cmd: Command) returns (cs': Shared)
    requires Reachable(cs) && CanMove(cs, Move(i, Message(cmd)))
    ensures Reachable(cs') && cs' == cs.(pcs := cs.pcs[i := Start(cmd)])
  {
    Reach(cs, i, Message(cmd));
    cs' := Moved(cs, Move(i, Message(cmd)));
  }

  lemma CarriesOutDelete(cs: Shared, i: nat, u: Uuid, c: ClientId) returns (cs': Shared)
    requires Reachable(cs) && i in cs.pcs && cs.pcs[i] == Idle && HeldBy(cs, u, c)
    ensures Reachable(cs') && cs'.keys == cs.keys - {c} && cs'.rows == cs.rows
    ensures forall k :: k != i && k in cs.pcs ==> k in cs'.pcs && cs'.pcs[k] == cs.pcs[k]
  {
    var cmd := Command(Delete, u, Some(c), 0);
    var cs1 := TakesUp(cs, i, cmd);
    assert Step(Focus(cs1, i), Apply(Answered, Done))
        == Focus(cs1, i).(keys := cs.keys - {c}, pc := Applied(cmd));
    Reach(cs1, i, Apply(Answered, Done));
    cs' := Moved(cs1, Move(i, Apply(Answered, Done)));
  }

  /** Executor 0 has read the reserved ids; then executor 1 creates the key of row 1 and deletes
      it again: its id is held, but neither live nor on executor 0's list. */
  lemma OtherCameAndWent() returns (cs: Shared)
    ensures Reachable(cs) && cs.keys == map[] && 0 in cs.rows && cs.rows[0] == Requested && HeldBy(cs, 1, 7)
    ensures 0 in cs.pcs && cs.pcs[0] == Listed(CreateOf(0), {})
  {
    var cs0 := BothRequested();
    assert Reserved(cs0.rows) == {};
    var cs1 := BeginsCreate(cs0, 0);
    var cs2 := BeginsCreate(cs1, 1);
    var cs3 := EndsCreate(cs2, 1, 7);
    cs := DeletesKey(cs3, 1, 1, 7);
  }

  /** The list of reserved ids can be out of date when the backend mints: the id it gives is
      one a row holds, Waldur refuses it, and the key is withdrawn from under that row. */
  lemma StaleListWithdraws()
    ensures exists cs :: Reachable(cs) && WithdrawsHeld(cs)
  {
    var cs := OtherCameAndWent();
    Reach(cs, 0, Mint(7, Done));
    var cs1 := Moved(cs, Move(0, Mint(7, Done)));
    assert cs1.pcs[0] == Minted(CreateOf(0), 7) && HeldBy(cs1, 1, 7);
    assert 7 in Reserved(cs1.rows);
    Reach(cs1, 0, SetKey(Delivered));
    var cs2 := Moved(cs1, Move(0, SetKey(Delivered)));
    assert cs2.pcs[0].Withdrawing? && HeldBy(cs2, 1, 7);
  }
}
