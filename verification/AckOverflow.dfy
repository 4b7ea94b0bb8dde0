/**
 What becomes of an acknowledgement pushed onto a full queue.  Push compares the length
 with the limit and makes room later, and the sender may empty the queue in between.
 */
module AckOverflow {

  import opened AckChannel
  import opened AckSchedules
  import opened Dispatch
  import opened FreeLockQueue

  /** In event i a Push finds the queue full. */
  ghost predicate FindsFull(es: seq<Event>, i: nat) {
    && i < |es| && es[i].ReceiverTurn?
    && Run(es[..i]).receiver.FullCheck? && |Run(es[..i]).items| >= QUEUE_MAX_SIZE
  }

  ghost predicate Overflowed(es: seq<Event>) {
    exists i :: FindsFull(es, i)
  }

  /** Push has found the queue full in event i, and is still about to make room. */
  ghost predicate FullSince(es: seq<Event>, i: nat) {
    && FindsFull(es, i)
    && (forall k :: i < k <= |es| ==> InEviction(Run(es[..k]).receiver))
  }

  /** A Push that found the queue full in event i comes to its queue_empty or queue_pop in
      event j, and in between the sender has removed every one of the queued messages. */
  ghost predicate DrainedPush(es: seq<Event>, i: nat, j: nat) {
    && i < j < |es| && es[j].ReceiverTurn? && FullSince(es[..j], i)
    && Run(es[..j]).popped - Run(es[..i]).popped == QUEUE_MAX_SIZE
  }

  lemma FindsFullStays(es: seq<Event>, n: nat, i: nat)
    requires n <= |es| && i < n
    ensures FindsFull(es, i) <==> FindsFull(es[..n], i)
  {
    assert es[..n][..i] == es[..i];
  }

  lemma HowPending(s: State, e: Event)
    requires InEviction(Next(s, e).receiver)
    ensures || InEviction(s.receiver)
            || (e.ReceiverTurn? && s.receiver.FullCheck? && |s.items| >= QUEUE_MAX_SIZE)
  {
  }

  /** Every eviction under way goes back to a moment at which its Push found the queue full. */
  lemma {:induction false} PendingSince(es: seq<Event>) returns (i: nat)
    requires InEviction(Run(es).receiver)
    ensures FullSince(es, i)
  {
    var n := |es| - 1;
    HowPending(Run(es[..n]), es[n]);
    if InEviction(Run(es[..n]).receiver) {
      i := PendingSince(es[..n]);
      FindsFullStays(es, n, i);
      forall k | i < k <= |es|
        ensures InEviction(Run(es[..k]).receiver)
      {
        assert if k <= n then es[..k] == es[..n][..k] else es[..k] == es;
      }
    } else {
      i := n;
      assert es[..|es|] == es;
    }
  }

  lemma RemovalsShorten(s: State, e: Event)
    requires InEviction(s.receiver) && InEviction(Next(s, e).receiver)
    ensures |Next(s, e).items| + Next(s, e).popped == |s.items| + s.popped
  {
  }

  lemma FullSinceEarlier(es: seq<Event>, n: nat, i: nat)
    requires i < n <= |es| && FullSince(es, i)
    ensures FullSince(es[..n], i) && InEviction(Run(es[..n]).receiver)
  {
    FindsFullStays(es, n, i);
    forall k | i < k <= n
      ensures InEviction(Run(es[..n][..k]).receiver)
    {
      assert es[..n][..k] == es[..k];
    }
  }

  /** While the eviction is pending, what the queue has lost the sender has removed. */
  lemma {:induction false} PendingCount(es: seq<Event>, i: nat)
    requires FullSince(es, i)
    ensures |Run(es).items| + Run(es).popped == QUEUE_MAX_SIZE + Run(es[..i]).popped
  {
    var n := |es| - 1;
    if i == n {
      RunInv(es[..n]);
    } else {
      FullSinceEarlier(es, n, i);
      PendingCount(es[..n], i);
      assert es[..n][..i] == es[..i];
      assert InEviction(Run(es[..|es|]).receiver) && es[..|es|] == es;
      RemovalsShorten(Run(es[..n]), es[n]);
    }
  }

  /** The pending eviction finds the queue empty exactly if the sender has removed all
      that the full check counted: the push is then refused at its queue_empty, or faults
      at its queue_pop. */
  lemma PushFailsIffDrained(es: seq<Event>, i: nat)
    requires FullSince(es, i)
    ensures var s, t := Run(es), Next(Run(es), ReceiverTurn);
            var drained := s.popped - Run(es[..i]).popped == QUEUE_MAX_SIZE;
            && InEviction(s.receiver)
            && (t.refused > s.refused <==> s.receiver.EvictCheck? && drained)
            && (t.receiver.Faulted? <==> s.receiver.EvictPop? && drained)
  {
    PendingCount(es, i);
    assert es[..|es|] == es;
  }

  /** A push has been refused, or the receive thread has called queue_pop on an empty queue. */
  predicate PushFailed(s: State) {
    s.refused > 0 || s.receiver.Faulted?
  }

  lemma HowPushFails(s: State, e: Event)
    requires PushFailed(Next(s, e)) && !PushFailed(s)
    ensures e.ReceiverTurn? && InEviction(s.receiver) && s.items == []
  {
  }

  lemma {:induction false} FailureWasDrained(es: seq<Event>) returns (i: nat, j: nat)
    requires PushFailed(Run(es))
    ensures DrainedPush(es, i, j)
  {
    var n := |es| - 1;
    if PushFailed(Run(es[..n])) {
      i, j := FailureWasDrained(es[..n]);
      assert es[..n][..j] == es[..j] && es[..n][..i] == es[..i];
    } else {
      HowPushFails(Run(es[..n]), es[n]);
      i := PendingSince(es[..n]);
      j := n;
      PendingCount(es[..n], i);
      assert es[..n][..i] == es[..i];
    }
  }

  lemma {:induction false} PushFailureIsFinal(s: State, es: seq<Event>)
    requires PushFailed(s)
    ensures PushFailed(Exec(s, es))
  {
    if es != [] {
      PushFailureIsFinal(s, es[..|es| - 1]);
    }
  }

  lemma DrainedFails(es: seq<Event>, i: nat, j: nat)
    requires DrainedPush(es, i, j)
    ensures PushFailed(Run(es))
  {
    assert es[..j][..i] == es[..i];
    PushFailsIffDrained(es[..j], i);
    RunNext(es, j);
    RunSplit(es, j + 1);
    PushFailureIsFinal(Run(es[..j + 1]), es[j + 1..]);
  }

  /** On every schedule: a push is refused, or faults, if and only if the sender removes
      every queued message between its full check and its queue_empty or queue_pop. */
  lemma PushFailsIffSomeDrained(es: seq<Event>)
    ensures PushFailed(Run(es)) <==> exists i, j :: DrainedPush(es, i, j)
  {
    if PushFailed(Run(es)) {
      var i, j := FailureWasDrained(es);
    }
    if i, j :| DrainedPush(es, i, j) {
      DrainedFails(es, i, j);
    }
  }

  // --------------------------------------------- what overflow costs, exactly

  /** An overflow has had, or is about to have, its effect. */
  predicate Spilt(s: State) {
    s.evicted > 0 || PushFailed(s) || InEviction(s.receiver)
  }

  lemma SpillStep(s: State, e: Event)
    ensures Spilt(Next(s, e))
            <==> || Spilt(s)
                 || (e.ReceiverTurn? && s.receiver.FullCheck? && |s.items| >= QUEUE_MAX_SIZE)
  {
  }

  /** A Push has found the queue full if and only if something was evicted, refused, or is
      being evicted now. */
  lemma {:induction false} OverflowSpills(es: seq<Event>)
    ensures Overflowed(es) <==> Spilt(Run(es))
  {
    if es != [] {
      var n := |es| - 1;
      OverflowSpills(es[..n]);
      SpillStep(Run(es[..n]), es[n]);
      if i: nat :| FindsFull(es, i) && i < n {
        FindsFullStays(es, n, i);
      }
      if i: nat :| FindsFull(es[..n], i) {
        FindsFullStays(es, n, i);
      }
      assert FindsFull(es, n) <==> es[n].ReceiverTurn? && Run(es[..n]).receiver.FullCheck?
                                   && |Run(es[..n]).items| >= QUEUE_MAX_SIZE;
    }
  }

  /** At every moment of a schedule on which no Push found the queue full, what msgsnd was
      given is a prefix of the acknowledgements the received requests are owed. */
  lemma DeliveredIsPrefixOfOwed(es: seq<Event>)
    requires !Overflowed(es)
    ensures Run(es).sent <= AcksOf(Run(es).requests)
  {
    OverflowSpills(es);
    SentArePrefixOfOwed(es);
  }

  /** Once the receive thread is idle and the waiting sender has been left alone, exactly
      the acknowledgements owed have been sent, once each and in order, if and only if no
      Push ever found the queue full. */
  lemma AllDeliveredIffNoOverflow(es: seq<Event>)
    requires Run(es).receiver.Idle? && Run(es).sender.Wait?
    ensures ByTurns(SenderTurn, Run(es), Drain(Run(es)))
    ensures Drain(Run(es)).sent == AcksOf(Run(es).requests) <==> !Overflowed(es)
  {
    OverflowSpills(es);
    LeftAlone(es);
  }

  // ------------------------------------------------------------- witnesses

  lemma OneMore(es: seq<Event>, e: Event)
    ensures Run(es + [e]) == Next(Run(es), e)
  {
    assert (es + [e])[..|es|] == es;
  }

  /** The sender can empty a full queue while the receive thread stands still. */
  lemma EmptyFull(before: seq<Event>) returns (es: seq<Event>)
    requires Run(before).sender.Wait? && |Run(before).items| == QUEUE_MAX_SIZE
    requires Run(before).tokens == QUEUE_MAX_SIZE
    ensures var s, t := Run(before), Run(es);
            t.items == [] && t.receiver == s.receiver
            && t.evicted == s.evicted && t.refused == s.refused
  {
    DrainBy(Run(before), QUEUE_MAX_SIZE);
    es := before + Repeated(Round(), QUEUE_MAX_SIZE);
    ExecConcat(Init(), before, Repeated(Round(), QUEUE_MAX_SIZE));
  }

  /** An owed acknowledgement can be lost without any eviction. */
  lemma RefusalCanHappen() returns (es: seq<Event>)
    ensures var s := Run(es);
            s.refused == 1 && s.evicted == 0 && s.receiver.Idle?
            && |s.pushed| < |AcksOf(s.requests)|
  {
    es := FoundFull();
    es := EmptyFull(es);
    OneMore(es, ReceiverTurn);
    es := es + [ReceiverTurn];
    RunInv(es);
  }

  /** The receive thread can call queue_pop on an empty queue, without any eviction. */
  lemma ReceiverCanFault() returns (es: seq<Event>)
    ensures Run(es).receiver.Faulted? && Run(es).evicted == 0
  {
    es := FoundFull();
    OneMore(es, ReceiverTurn);
    es := EmptyFull(es + [ReceiverTurn]);
    OneMore(es, ReceiverTurn);
    es := es + [ReceiverTurn];
  }
}
