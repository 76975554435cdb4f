/**
The listener object itself. Each method is one or more atomic regions of the protocol and
is specified by the functions the protocol's steps are made of; `Work` is the worker loop
while no other thread moves.
 */
module ConsumerListener {
  import opened Wrappers
  import opened Consumer
  import opened ConsumerSafety

  /** The frames of generation `g` among those waiting, in arrival order. */
  function Current(ms: seq<Item>, g: nat): seq<Frame> {
    if ms == [] then []
    else (if ms[0].Tagged? && ms[0].generation == g then [ms[0].frame] else []) + Current(ms[1..], g)
  }

  lemma {:induction false} NoneCurrent(ms: seq<Item>, g: nat)
    requires forall i :: 0 <= i < |ms| && ms[i].Tagged? ==> ms[i].generation < g
    ensures Current(ms, g) == []
  {
    if ms != [] {
      assert ms[0].Tagged? ==> ms[0].generation < g;
      NoneCurrent(ms[1..], g);
    }
  }

  function MessagesOf(fs: seq<Frame>): seq<nat> {
    if fs == [] then [] else [fs[0].msg] + MessagesOf(fs[1..])
  }

  function AckIdsOf(fs: seq<Frame>): seq<nat> {
    if fs == [] then []
    else (if fs[0].hasAck then [fs[0].id] else []) + AckIdsOf(fs[1..])
  }

  /** What the item at the head of the queue adds. */
  function HandledFirst(ms: seq<Item>, g: nat): seq<nat>
    requires ms != []
  {
    if ms[0].Tagged? && ms[0].generation == g then [ms[0].frame.msg] else []
  }

  function AckedFirst(ms: seq<Item>, g: nat): seq<nat>
    requires ms != []
  {
    if ms[0].Tagged? && ms[0].generation == g && ms[0].frame.hasAck then [ms[0].frame.id] else []
  }

  lemma HeadFirst(ms: seq<Item>, g: nat)
    requires ms != []
    ensures MessagesOf(Current(ms, g)) == HandledFirst(ms, g) + MessagesOf(Current(ms[1..], g))
    ensures AckIdsOf(Current(ms, g)) == AckedFirst(ms, g) + AckIdsOf(Current(ms[1..], g))
  {
    var rest := Current(ms[1..], g);
    if ms[0].Tagged? && ms[0].generation == g {
      assert Current(ms, g) == [ms[0].frame] + rest;
      assert ([ms[0].frame] + rest)[1..] == rest;
    } else {
      assert Current(ms, g) == rest;
    }
  }

  lemma HeadAppended(ms: seq<Item>, g: nat, h: seq<nat>, acks: seq<nat>)
    requires ms != []
    ensures h + MessagesOf(Current(ms, g)) == h + HandledFirst(ms, g) + MessagesOf(Current(ms[1..], g))
    ensures acks + AckIdsOf(Current(ms, g)) == acks + AckedFirst(ms, g) + AckIdsOf(Current(ms[1..], g))
  {
    HeadFirst(ms, g);
    Associative(h, HandledFirst(ms, g), MessagesOf(Current(ms[1..], g)));
    Associative(acks, AckedFirst(ms, g), AckIdsOf(Current(ms[1..], g)));
  }

  lemma Associative<T>(x: seq<T>, y: seq<T>, z: seq<T>)
    ensures x + y + z == x + (y + z)
  {
  }

  class WaldurListener {
    var generation: nat
    var messages: seq<Item>
    var closed: bool
    var workers: seq<Phase>
    ghost var handled: seq<nat>
    ghost var finished: set<nat>

    ghost function View(): Listener
      reads this
    {
      Listener(generation, None, messages, closed, workers, handled, finished)
    }

    /** Nothing is tagged with a generation to come, and a stop marker waits only once closed. */
    ghost predicate Valid()
      reads this
    {
      && (forall i :: 0 <= i < |messages| && messages[i].Tagged? ==> messages[i].generation <= generation)
      && (forall i :: 0 <= i < |workers| && workers[i].Holds() ==> workers[i].generation <= generation)
      && StopMeansClosed(View())
    }

    constructor ()
      ensures Valid() && View() == Init.l
    {
      generation, messages, closed, workers := 0, [], false, [];
      handled, finished := [], {};
    }

    /** From here on every frame received so far is stale: none that waits would be handled,
        and none that a worker holds would be started or acknowledged. */
    method DropConnectionGeneration()
      requires Valid()
      modifies this`generation
      ensures Valid() && View() == old(View()).Bump()
      ensures Current(messages, generation) == []
      ensures forall i :: 0 <= i < |workers| && workers[i].Took? ==> View().Check(i) == View().SetPhase(i, Polling)
      ensures forall i :: 0 <= i < |workers| && workers[i].Handled? ==> !View().Acks(i)
    {
      generation := generation + 1;
      NoneCurrent(messages, generation);
    }

    method EnsureWorker()
      requires Valid()
      modifies this`workers
      ensures Valid() && View() == old(View()).EnsureWorker()
    {
      if closed || (|workers| > 0 && !workers[|workers| - 1].Dead?) {
        return;
      }
      workers := workers + [Polling];
    }

    method OnMessage(f: Frame)
      requires Valid()
      modifies this
      ensures Valid() && View() == old(View()).Tag(f).Put().EnsureWorker()
    {
      var tag := generation;
      messages := messages + [Tagged(tag, f)];
      EnsureWorker();
    }

    /** The frames that wait stay where they are, and no worker is started from here on. */
    method Close()
      requires Valid()
      modifies this`closed, this`messages
      ensures Valid() && closed && messages == old(messages) + [Stop]
      ensures View().EnsureWorker() == View()
    {
      closed := true;
      messages := messages + [Stop];
    }

    /** One pass of the worker loop over a queued item; the id it acknowledges, if any. */
    method WorkOne(i: nat) returns (ack: Option<nat>)
      requires Valid() && i < |workers| && workers[i].Polling? && messages != []
      modifies this
      ensures Valid()
      ensures var l := old(View()).Take(i);
        match old(messages)[0]
        case Stop => View() == l && ack == None
        case Tagged(g, f) =>
          var l' := l.Check(i);
          if g == old(generation)
          then View() == l'.Finish(i).SetPhase(i, Polling)
            && (ack == if l'.Finish(i).Acks(i) then Some(f.id) else None)
          else View() == l' && ack == None
      ensures messages == old(messages)[1..] && generation == old(generation) && closed == old(closed)
      ensures handled == old(handled) + HandledFirst(old(messages), generation)
      ensures (if ack.Some? then [ack.value] else []) == AckedFirst(old(messages), generation)
      ensures old(messages)[0].Tagged? ==> workers == old(workers)
    {
      ack := None;
      var item := messages[0];
      messages := messages[1..];
      match item {
        case Stop =>
          workers := workers[i := Dead];
        case Tagged(g, f) =>
          if g == generation {
            handled := handled + [f.msg];
            finished := finished + {f.msg};
            if f.hasAck {
              ack := Some(f.id);
            }
          }
      }
    }

    /** The worker loop until its queue is empty. In an open listener stale frames are skipped
        and the others handled and acknowledged in arrival order; in a closed one the worker
        ends at once, and what waits, the stop marker included, is left for the broker. */
    method Work(i: nat) returns (acks: seq<nat>)
      requires Valid() && i < |workers| && workers[i].Polling?
      modifies this
      ensures Valid() && generation == old(generation) && closed == old(closed)
      ensures closed ==>
        acks == [] && View() == old(View()).SetPhase(i, Dead)
      ensures !closed ==>
        && handled == old(handled) + MessagesOf(Current(old(messages), generation))
        && acks == AckIdsOf(Current(old(messages), generation))
        && messages == [] && workers == old(workers)
    {
      acks := [];
      if closed {
        workers := workers[i := Dead];
        return;
      }
      ghost var h0, all := handled, messages;
      while messages != []
        invariant Valid() && generation == old(generation) && !closed && workers == old(workers)
        invariant h0 + MessagesOf(Current(all, generation)) == handled + MessagesOf(Current(messages, generation))
        invariant AckIdsOf(Current(all, generation)) == acks + AckIdsOf(Current(messages, generation))
        decreases |messages|
      {
        assert messages[0] in messages;
        HeadAppended(messages, generation, handled, acks);
        var ack := WorkOne(i);
        acks := acks + (if ack.Some? then [ack.value] else []);
      }
    }
  }
}
