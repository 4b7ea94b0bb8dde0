/**
 The acknowledgement sender copies the front message, sends it, and only then removes it,
 without a lock.  When can the removal that follows a successful Get fail?
 */
module AckRemoval {

  import opened AckChannel
  import opened AckSchedules
  import opened FreeLockQueue

  /** The Get of this round succeeded and its Pop is still to come. */
  predicate HoldsCopy(p: Sender) {
    p.Send? || (p.EmptyCheck? && p.copied) || (p.Remove? && p.copied)
  }

  /** The Pop that follows a successful Get failed. */
  predicate RemovalFailed(p: Sender) {
    (p.Exited? && p.copied) || (p.Crashed? && p.copied)
  }

  /** No sender turn falls between a Push finding the queue full and its queue_pop.  Any
      schedule in which the wrappers are atomic is of this kind. */
  ghost predicate Undisturbed(es: seq<Event>) {
    forall i :: 0 <= i < |es| && es[i].SenderTurn? ==> !InEviction(Run(es[..i]).receiver)
  }

  ghost predicate Safe(s: State) {
    && (InEviction(s.receiver) ==> |s.items| == QUEUE_MAX_SIZE)
    && (ExpectsMessage(s.sender) ==> s.items != [])
    && s.refused == 0 && !s.receiver.Faulted?
    && !s.sender.Crashed? && !RemovalFailed(s.sender)
  }

  lemma StepKeepsSafe(s: State, e: Event)
    requires |s.items| <= QUEUE_MAX_SIZE && Safe(s)
    requires e.SenderTurn? ==> !InEviction(s.receiver)
    ensures Safe(Next(s, e))
  {
  }

  /** Then evictions happen only at full length, every push succeeds, nothing is removed
      from an empty queue, and the Pop after a successful Get always succeeds. */
  lemma {:induction false} UndisturbedIsSafe(es: seq<Event>)
    requires Undisturbed(es)
    ensures Safe(Run(es))
  {
    if es != [] {
      var n := |es| - 1;
      forall i | 0 <= i < n && es[..n][i].SenderTurn?
        ensures !InEviction(Run(es[..n][..i]).receiver)
      {
        assert es[..n][..i] == es[..i] && es[..n][i] == es[i];
      }
      UndisturbedIsSafe(es[..n]);
      RunInv(es[..n]);
      StepKeepsSafe(Run(es[..n]), es[n]);
    }
  }

  /** The receiver takes away the only message while the sender holds its copy. */
  predicate TakesLast(s: State, e: Event) {
    e.ReceiverTurn? && s.receiver.EvictPop? && |s.items| == 1 && HoldsCopy(s.sender)
  }

  /** The only message is evicted in event i while the sender holds its copy, and the
      sender reaches its own queue_empty or queue_pop in event j, before the receiver has
      made its queue_push. */
  ghost predicate Overtaken(es: seq<Event>, i: nat, j: nat) {
    && i < j < |es|
    && TakesLast(Run(es[..i]), es[i])
    && (forall k :: i < k < j ==> !es[k].ReceiverTurn?)
    && es[j].SenderTurn?
    && (Run(es[..j]).sender == EmptyCheck(true) || Run(es[..j]).sender == Remove(true))
  }

  predicate EmptyUnderCopy(s: State) {
    HoldsCopy(s.sender) && s.items == []
  }

  lemma HowEmptied(s: State, e: Event)
    requires EmptiedOnlyByEviction(s) && EmptyUnderCopy(Next(s, e))
    ensures TakesLast(s, e) || (EmptyUnderCopy(s) && !e.ReceiverTurn?)
  {
  }

  /** A sender whose message is gone lost it to an eviction, and the receiver has not had
      a turn since. */
  lemma {:induction false} EmptiedByEviction(es: seq<Event>) returns (i: nat)
    requires EmptyUnderCopy(Run(es))
    ensures i < |es| && TakesLast(Run(es[..i]), es[i])
    ensures forall k :: i < k < |es| ==> !es[k].ReceiverTurn?
  {
    var n := |es| - 1;
    RunInv(es[..n]);
    HowEmptied(Run(es[..n]), es[n]);
    if TakesLast(Run(es[..n]), es[n]) {
      i := n;
    } else {
      i := EmptiedByEviction(es[..n]);
      assert es[..n][..i] == es[..i];
      forall k | i < k < |es|
        ensures !es[k].ReceiverTurn?
      {
        assert k < n ==> es[..n][k] == es[k];
      }
    }
  }

  lemma HowFailed(s: State, e: Event)
    requires RemovalFailed(Next(s, e).sender) && !RemovalFailed(s.sender)
    ensures e.SenderTurn? && EmptyUnderCopy(s)
    ensures s.sender == EmptyCheck(true) || s.sender == Remove(true)
  {
  }

  lemma {:induction false} FailureWasOvertaken(es: seq<Event>) returns (i: nat, j: nat)
    requires RemovalFailed(Run(es).sender)
    ensures Overtaken(es, i, j)
  {
    var n := |es| - 1;
    if RemovalFailed(Run(es[..n]).sender) {
      i, j := FailureWasOvertaken(es[..n]);
      OvertakenStays(es, n, i, j);
    } else {
      HowFailed(Run(es[..n]), es[n]);
      i := EmptiedByEviction(es[..n]);
      j := n;
      assert es[..n][..i] == es[..i];
      assert forall k :: 0 <= k < n ==> es[..n][k] == es[k];
    }
  }

  lemma OvertakenStays(es: seq<Event>, n: nat, i: nat, j: nat)
    requires n <= |es| && Overtaken(es[..n], i, j)
    ensures Overtaken(es, i, j)
  {
    assert es[..n][..i] == es[..i] && es[..n][..j] == es[..j];
    assert forall k :: 0 <= k < n ==> es[..n][k] == es[k];
  }

  /** Until the receiver's next turn the queue stays empty. */
  lemma {:induction false} StaysEmpty(s: State, es: seq<Event>)
    requires s.items == [] && s.receiver.Enqueue?
    requires forall k :: 0 <= k < |es| ==> !es[k].ReceiverTurn?
    ensures Exec(s, es).items == []
    ensures Exec(s, es).receiver.Enqueue?
  {
    if es != [] {
      StaysEmpty(s, es[..|es| - 1]);
    }
  }

  lemma {:induction false} FailureIsFinal(s: State, es: seq<Event>)
    requires RemovalFailed(s.sender)
    ensures RemovalFailed(Exec(s, es).sender)
  {
    if es != [] {
      FailureIsFinal(s, es[..|es| - 1]);
    }
  }

  lemma EmptyWhenOvertaken(es: seq<Event>, i: nat, j: nat)
    requires Overtaken(es, i, j)
    ensures Run(es[..j]).items == []
  {
    RunNext(es, i);
    RunSplit(es[..j], i + 1);
    assert es[..j][..i + 1] == es[..i + 1];
    StaysEmpty(Run(es[..i + 1]), es[..j][i + 1..]);
  }

  lemma OvertakenFails(es: seq<Event>, i: nat, j: nat)
    requires Overtaken(es, i, j)
    ensures RemovalFailed(Run(es).sender)
  {
    EmptyWhenOvertaken(es, i, j);
    RunNext(es, j);
    RunSplit(es, j + 1);
    FailureIsFinal(Run(es[..j + 1]), es[j + 1..]);
  }

  /** On every schedule: the Pop after a successful Get fails if and only if an eviction of
      the only message falls between the two and the sender then outruns the push. */
  lemma RemovalFailsIffOvertaken(es: seq<Event>)
    ensures RemovalFailed(Run(es).sender) <==> exists i, j :: Overtaken(es, i, j)
  {
    if RemovalFailed(Run(es).sender) {
      var i, j := FailureWasOvertaken(es);
    }
    if i, j :| Overtaken(es, i, j) {
      OvertakenFails(es, i, j);
    }
  }

  // A schedule that fails: the queue is filled, one more Push sees it full, the sender
  // drains all but one message and copies that one, and then the Push makes room.

  /** Without the lock the Pop after a successful Get can fail. */
  lemma RemovalCanFail() returns (es: seq<Event>)
    ensures RemovalFailed(Run(es).sender)
  {
    var stale := FoundFull();
    var s1 := Run(stale);

    var eviction := [ReceiverTurn];
    OneTurn(s1, ReceiverTurn);
    var s2 := Exec(s1, eviction);
    assert s2.receiver.EvictPop?;

    var drained := Repeated(Round(), QUEUE_MAX_SIZE - 1);
    DrainBy(s2, QUEUE_MAX_SIZE - 1);
    var s3 := Exec(s2, drained);

    var copy := [SenderTurn, SenderTurn, SenderTurn];
    ThreeTurns(s3, SenderTurn, SenderTurn, SenderTurn);
    var s4 := Exec(s3, copy);
    assert TakesLast(s4, ReceiverTurn);

    var prefix := stale + eviction + drained + copy;
    ExecConcat(Init(), stale, eviction);
    ExecConcat(Init(), stale + eviction, drained);
    ExecConcat(Init(), stale + eviction + drained, copy);
    es := prefix + [ReceiverTurn, SenderTurn, SenderTurn];
    ThreeTurns(s4, ReceiverTurn, SenderTurn, SenderTurn);
    ExecConcat(Init(), prefix, [ReceiverTurn, SenderTurn, SenderTurn]);
  }
}
