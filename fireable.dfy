/**
 * `Flatware::Fireable#until_fired`: a worker's receive loop. It takes the
 * messages of each ready batch in turn and hands them to the block until a
 * batch carries the `'seppuku'` sentinel, the sockets run dry, or the block
 * raises; `Flatware.close` runs on every one of these exits.
 */
module Fireable {
  import opened Wrappers

  const Sentinel: string := "seppuku"

  /** How `until_fired` ended: on the sentinel, with nothing more ready, or by the block raising on a message. */
  datatype Exit = Fired | Exhausted | Raised(message: string)

  /** What running the block over one batch did: the messages it received, and the one it raised on, if any. */
  datatype Delivery = Delivery(handled: seq<string>, raisedOn: Option<string>)

  /** `messages.each &block`, for a block that raises on the messages in `raising`. */
  function Deliver(batch: seq<string>, raising: set<string>): Delivery
  {
    if batch == [] then Delivery([], None)
    else if batch[0] in raising then Delivery([batch[0]], Some(batch[0]))
    else
      var rest := Deliver(batch[1..], raising);
      Delivery([batch[0]] + rest.handled, rest.raisedOn)
  }

  /**
   * The block gets the messages of the batch in order, up to and including
   * the first it raises on; without one it gets them all.
   */
  lemma {:induction false} DeliverSpec(batch: seq<string>, raising: set<string>)
    ensures var d := Deliver(batch, raising);
      && (d.raisedOn.None? ==> d.handled == batch)
      && (d.raisedOn.Some? ==> 0 < |d.handled| <= |batch| && d.handled == batch[..|d.handled|]
                               && d.raisedOn.value == d.handled[|d.handled| - 1] && d.raisedOn.value in raising)
      && (forall i :: 0 <= i < |d.handled| - 1 ==> d.handled[i] !in raising)
      && (d.raisedOn.None? <==> forall m :: m in batch ==> m !in raising)
  {
    DeliverRaisesIff(batch, raising);
    if batch != [] && batch[0] !in raising {
      DeliverSpec(batch[1..], raising);
      var rest := Deliver(batch[1..], raising);
      if rest.raisedOn.Some? {
        assert batch[..|rest.handled| + 1] == [batch[0]] + batch[1..][..|rest.handled|];
      } else {
        assert batch == [batch[0]] + batch[1..];
      }
    }
  }

  /** The block raises on a batch iff some message of the batch is one it raises on. */
  lemma {:induction false} DeliverRaisesIff(batch: seq<string>, raising: set<string>)
    ensures Deliver(batch, raising).raisedOn.None? <==> forall m :: m in batch ==> m !in raising
  {
    if batch != [] && batch[0] !in raising {
      DeliverRaisesIff(batch[1..], raising);
      assert forall m :: m in batch ==> m == batch[0] || m in batch[1..];
    }
  }

  lemma {:induction false} DeliverWithoutRaising(batch: seq<string>, raising: set<string>)
    requires forall j :: 0 <= j < |batch| ==> batch[j] !in raising
    ensures Deliver(batch, raising) == Delivery(batch, None)
  {
    if batch != [] {
      DeliverWithoutRaising(batch[1..], raising);
    }
  }

  /** One message further into a batch. */
  lemma DeliverStep(batch: seq<string>, i: nat, raising: set<string>)
    requires i < |batch|
    ensures Deliver(batch[i..], raising) ==
              if batch[i] in raising then Delivery([batch[i]], Some(batch[i]))
              else Delivery([batch[i]] + Deliver(batch[i + 1..], raising).handled, Deliver(batch[i + 1..], raising).raisedOn)
  {
    assert batch[i..][1..] == batch[i + 1..];
  }

  /** What the whole loop hands to the block, and how it ends. */
  datatype Run = Run(handled: seq<string>, exit: Exit)

  function UntilFiredRun(batches: seq<seq<string>>, raising: set<string>): Run
  {
    if batches == [] then Run([], Exhausted)
    else if Sentinel in batches[0] then Run([], Fired)
    else
      var d := Deliver(batches[0], raising);
      if d.raisedOn.Some? then Run(d.handled, Raised(d.raisedOn.value))
      else
        var rest := UntilFiredRun(batches[1..], raising);
        Run(d.handled + rest.handled, rest.exit)
  }

  /** The index of the first batch holding the sentinel, or the number of batches. */
  function FirstSentinel(batches: seq<seq<string>>): (k: nat)
    ensures k <= |batches|
    ensures k < |batches| ==> Sentinel in batches[k]
    ensures forall i :: 0 <= i < k ==> Sentinel !in batches[i]
  {
    if batches == [] then 0
    else if Sentinel in batches[0] then 0
    else 1 + FirstSentinel(batches[1..])
  }

  /** The messages of some batches, batch after batch. */
  function Flatten(batches: seq<seq<string>>): seq<string>
  {
    if batches == [] then [] else batches[0] + Flatten(batches[1..])
  }

  predicate NoneRaises(batches: seq<seq<string>>, raising: set<string>)
  {
    forall i, j :: 0 <= i < |batches| && 0 <= j < |batches[i]| ==> batches[i][j] !in raising
  }

  /**
   * When the block does not raise, every message of every batch before the
   * first sentinel batch reaches it, in order, and nothing else does (not
   * even the other messages of the sentinel's batch); the loop ends on the
   * sentinel if there is one and by running dry otherwise.
   */
  lemma {:induction false} UntilFiredStopsAtSentinel(batches: seq<seq<string>>, raising: set<string>)
    requires NoneRaises(batches[..FirstSentinel(batches)], raising)
    ensures UntilFiredRun(batches, raising).handled == Flatten(batches[..FirstSentinel(batches)])
    ensures UntilFiredRun(batches, raising).exit == if FirstSentinel(batches) < |batches| then Fired else Exhausted
  {
    var k := FirstSentinel(batches);
    if batches != [] && Sentinel !in batches[0] {
      assert batches[..k][0] == batches[0];
      DeliverWithoutRaising(batches[0], raising);
      assert batches[1..][..k - 1] == batches[..k][1..];
      UntilFiredStopsAtSentinel(batches[1..], raising);
    }
  }

  /** Whatever the block does, the sentinel itself never reaches it. */
  lemma {:induction false} SentinelNeverHandled(batches: seq<seq<string>>, raising: set<string>)
    ensures Sentinel !in UntilFiredRun(batches, raising).handled
  {
    if batches != [] && Sentinel !in batches[0] {
      var d := Deliver(batches[0], raising);
      DeliverSpec(batches[0], raising);
      assert forall m :: m in d.handled ==> m in batches[0];
      SentinelNeverHandled(batches[1..], raising);
    }
  }

  /** A worker's `Fireable`: what its block has received so far, and whether it closed. */
  class Fireable {
    /** Every message passed to the block, in order. */
    var handled: seq<string>
    /** Whether `Flatware.close` has run. */
    var closed: bool

    constructor ()
      ensures handled == [] && !closed
    {
      handled := [];
      closed := false;
    }

    /** `messages.each &block`. */
    method Each(messages: seq<string>, raising: set<string>) returns (raisedOn: Option<string>)
      modifies this`handled
      ensures handled == old(handled) + Deliver(messages, raising).handled
      ensures raisedOn == Deliver(messages, raising).raisedOn
    {
      var i := 0;
      raisedOn := None;
      while i < |messages|
        invariant 0 <= i <= |messages|
        invariant old(handled) + Deliver(messages, raising).handled == handled + Deliver(messages[i..], raising).handled
        invariant Deliver(messages, raising).raisedOn == Deliver(messages[i..], raising).raisedOn
      {
        DeliverStep(messages, i, raising);
        handled := handled + [messages[i]];
        if messages[i] in raising {
          raisedOn := Some(messages[i]);
          return;
        }
        i := i + 1;
      }
    }

    /** `until_fired(sockets, &block)`, the ready batches given in the order `ZMQ.select` yields them. */
    method UntilFired(batches: seq<seq<string>>, raising: set<string>) returns (exit: Exit)
      modifies this`handled, this`closed
      ensures handled == old(handled) + UntilFiredRun(batches, raising).handled
      ensures exit == UntilFiredRun(batches, raising).exit
      ensures closed
    {
      var i := 0;
      exit := Exhausted;
      while i < |batches|
        invariant 0 <= i <= |batches|
        invariant old(handled) + UntilFiredRun(batches, raising).handled
                  == handled + UntilFiredRun(batches[i..], raising).handled
        invariant UntilFiredRun(batches, raising).exit == UntilFiredRun(batches[i..], raising).exit
      {
        var messages := batches[i];
        assert batches[i..][1..] == batches[i + 1..];
        if Sentinel in messages {
          exit := Fired;
          break;
        }
        var raisedOn := Each(messages, raising);
        if raisedOn.Some? {
          exit := Raised(raisedOn.value);
          break;
        }
        i := i + 1;
      }
      closed := true;
    }
  }
}
