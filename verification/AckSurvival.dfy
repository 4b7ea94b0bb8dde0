/**
 What becomes of the acknowledgement sender when its Get fails.  It then calls Pop all the
 same, and no lock keeps the receive thread from pushing in between: the Pop either fails
 and ends the thread, or takes away a message that was never sent.
 */
module AckSurvival {

  import opened AckChannel
  import opened AckRemoval
  import opened AckSchedules
  import opened Dispatch
  import opened FreeLockQueue

  predicate FailsGet(s: State, e: Event) {
    e.SenderTurn? && (s.sender.SizeCheck? || s.sender.Front?) && s.items == []
  }

  predicate Enqueues(s: State, e: Event) {
    e.ReceiverTurn? && s.receiver.Enqueue?
  }

  /** In event i the sender's Get found the queue empty, and the sender has had no turn
      since. */
  ghost predicate SinceFailedGet(es: seq<Event>, i: nat) {
    && i < |es| && FailsGet(Run(es[..i]), es[i])
    && (forall k :: i < k < |es| ==> !es[k].SenderTurn?)
  }

  /** Event k is a queue_push of the receiver. */
  ghost predicate PushIn(es: seq<Event>, k: nat) {
    k < |es| && Enqueues(Run(es[..k]), es[k])
  }

  /** The receiver has made a queue_push after event i. */
  ghost predicate PushSince(es: seq<Event>, i: nat) {
    exists k :: i < k && PushIn(es, k)
  }

  /** The sender's Get fails in event i and its next turn, event j, comes before any
      queue_push. */
  ghost predicate Beaten(es: seq<Event>, i: nat, j: nat) {
    && j < |es| && es[j].SenderTurn?
    && SinceFailedGet(es[..j], i) && !PushSince(es[..j], i)
  }

  /** The sender's Get fails in event i, a queue_push falls between that and its next turn,
      event j, and its next turn after that is event k. */
  ghost predicate Rescued(es: seq<Event>, i: nat, j: nat, k: nat) {
    && j < k < |es| && es[j].SenderTurn? && es[k].SenderTurn?
    && SinceFailedGet(es[..j], i) && PushSince(es[..j], i)
    && (forall m :: j < m < k ==> !es[m].SenderTurn?)
  }

  // ------------------------------------------------- the round without a copy

  predicate Blind(p: Sender) {
    p == EmptyCheck(false) || p == Remove(false)
  }

  /** In such a round the queue, once filled, stays filled: an eviction then works on a
      full queue, so a blind removal never meets an empty one. */
  ghost predicate BlindLaw(s: State) {
    && (Blind(s.sender) && InEviction(s.receiver) && s.items != [] ==>
          |s.items| >= QUEUE_MAX_SIZE)
    && (s.sender == Remove(false) ==> s.items != [])
    && s.sender != Crashed(false)
  }

  lemma StepKeepsBlindLaw(s: State, e: Event)
    requires BlindLaw(s)
    ensures BlindLaw(Next(s, e))
  {
  }

  /** On every schedule a sender without a copy never calls queue_pop on an empty queue. */
  lemma {:induction false} RunBlindLaw(es: seq<Event>)
    ensures BlindLaw(Run(es))
  {
    if es != [] {
      RunBlindLaw(es[..|es| - 1]);
      StepKeepsBlindLaw(Run(es[..|es| - 1]), es[|es| - 1]);
    }
  }

  lemma WhileBlind(s: State, e: Event)
    requires BlindLaw(s) && Blind(s.sender) && !e.SenderTurn?
    ensures var t := Next(s, e);
            t.sender == s.sender && t.blind == s.blind
            && (t.items == [] <==> s.items == [] && !Enqueues(s, e))
  {
  }

  lemma PushInEarlier(es: seq<Event>, n: nat, k: nat)
    requires k < n <= |es|
    ensures PushIn(es, k) <==> PushIn(es[..n], k)
  {
    assert es[..n][..k] == es[..k];
  }

  lemma PushSinceEarlier(es: seq<Event>, i: nat, n: nat)
    requires i < n == |es| - 1
    ensures PushSince(es, i) <==> PushSince(es[..n], i) || PushIn(es, n)
  {
    forall k: nat | k < n
      ensures PushIn(es, k) <==> PushIn(es[..n], k)
    {
      PushInEarlier(es, n, k);
    }
  }

  /** After a failed Get the sender stands before its queue_empty, and the queue is still
      empty exactly if nothing has been pushed since. */
  lemma {:induction false} AfterFailedGet(es: seq<Event>, i: nat)
    requires SinceFailedGet(es, i)
    ensures Run(es).sender == EmptyCheck(false)
    ensures Run(es).items == [] <==> !PushSince(es, i)
  {
    var n := |es| - 1;
    if i < n {
      assert es[..n][..i] == es[..i];
      AfterFailedGet(es[..n], i);
      RunBlindLaw(es[..n]);
      WhileBlind(Run(es[..n]), es[n]);
      PushSinceEarlier(es, i, n);
    }
  }

  lemma HowGetFails(s: State, e: Event)
    requires Next(s, e).sender == EmptyCheck(false)
    ensures FailsGet(s, e) || (s.sender == EmptyCheck(false) && !e.SenderTurn?)
  {
  }

  lemma {:induction false} FindFailedGet(es: seq<Event>) returns (i: nat)
    requires Run(es).sender == EmptyCheck(false)
    ensures SinceFailedGet(es, i)
  {
    var n := |es| - 1;
    HowGetFails(Run(es[..n]), es[n]);
    if FailsGet(Run(es[..n]), es[n]) {
      i := n;
    } else {
      i := FindFailedGet(es[..n]);
      assert es[..n][..i] == es[..i];
      assert forall k :: 0 <= k < n ==> es[..n][k] == es[k];
    }
  }

  /** The sender's next turn after a failed Get decides: it ends the thread if nothing has
      been pushed since, and otherwise leads to a removal. */
  lemma NextTurnDecides(es: seq<Event>, i: nat, j: nat)
    requires j < |es| && es[j].SenderTurn? && SinceFailedGet(es[..j], i)
    ensures Run(es[..j + 1])
            == Run(es[..j]).(sender := if PushSince(es[..j], i) then Remove(false) else Exited(false))
  {
    AfterFailedGet(es[..j], i);
    RunNext(es, j);
  }

  // ------------------------------------------------------- when the thread ends

  lemma HowStarved(s: State, e: Event)
    requires Next(s, e).sender == Exited(false) && s.sender != Exited(false)
    ensures e.SenderTurn? && s.sender == EmptyCheck(false) && s.items == []
  {
  }

  lemma {:induction false} FindBeaten(es: seq<Event>) returns (i: nat, j: nat)
    requires Run(es).sender == Exited(false)
    ensures Beaten(es, i, j)
  {
    var n := |es| - 1;
    if Run(es[..n]).sender == Exited(false) {
      i, j := FindBeaten(es[..n]);
      assert es[..n][..j] == es[..j];
    } else {
      HowStarved(Run(es[..n]), es[n]);
      i := FindFailedGet(es[..n]);
      j := n;
      AfterFailedGet(es[..n], i);
    }
  }

  lemma {:induction false} ExitIsFinal(s: State, es: seq<Event>)
    requires s.sender == Exited(false)
    ensures Exec(s, es).sender == Exited(false)
  {
    if es != [] {
      ExitIsFinal(s, es[..|es| - 1]);
    }
  }

  /** On every schedule: the sender has ended for want of a message if and only if, after
      some failed Get, its next turn came before any queue_push. */
  lemma ExitIffBeaten(es: seq<Event>)
    ensures Run(es).sender == Exited(false) <==> exists i, j :: Beaten(es, i, j)
  {
    if Run(es).sender == Exited(false) {
      var i, j := FindBeaten(es);
    }
    if i: nat, j: nat :| Beaten(es, i, j) {
      NextTurnDecides(es, i, j);
      RunSplit(es, j + 1);
      ExitIsFinal(Run(es[..j + 1]), es[j + 1..]);
    }
  }

  /** All the ways the sender can end, on every schedule: beaten after a failed Get, or
      overtaken after a successful one. */
  lemma SenderEndsIff(es: seq<Event>)
    ensures Ended(Run(es).sender)
            <==> (exists i, j :: Beaten(es, i, j)) || (exists i, j :: Overtaken(es, i, j))
  {
    ExitIffBeaten(es);
    RemovalFailsIffOvertaken(es);
    RunBlindLaw(es);
  }

  // ---------------------------------------------- when it survives, at what cost

  lemma HowRemoving(s: State, e: Event)
    requires Next(s, e).sender == Remove(false)
    ensures if e.SenderTurn? then s.sender == EmptyCheck(false) && s.items != []
            else s.sender == Remove(false)
  {
  }

  /** A sender about to remove blindly came there in its latest turn, from a failed Get
      after which something had been pushed. */
  lemma {:induction false} FindRescue(es: seq<Event>) returns (i: nat, j: nat)
    requires Run(es).sender == Remove(false)
    ensures j < |es| && es[j].SenderTurn?
    ensures SinceFailedGet(es[..j], i) && PushSince(es[..j], i)
    ensures forall m :: j < m < |es| ==> !es[m].SenderTurn?
  {
    var n := |es| - 1;
    HowRemoving(Run(es[..n]), es[n]);
    if es[n].SenderTurn? {
      i := FindFailedGet(es[..n]);
      j := n;
      AfterFailedGet(es[..n], i);
    } else {
      i, j := FindRescue(es[..n]);
      assert es[..n][..j] == es[..j];
      assert forall k :: 0 <= k < n ==> es[..n][k] == es[k];
    }
  }

  lemma HowBlind(s: State, e: Event)
    requires BlindLaw(s)
    ensures if e.SenderTurn? && s.sender == Remove(false)
            then Next(s, e).blind == s.blind + 1 && Next(s, e).sender.Wait?
                 && Head(Next(s, e)) == Head(s) + 1 && Next(s, e).delivered == s.delivered
            else Next(s, e).blind == s.blind
  {
  }

  lemma {:induction false} FindRescued(es: seq<Event>) returns (i: nat, j: nat, k: nat)
    requires Run(es).blind > 0
    ensures Rescued(es, i, j, k)
  {
    var n := |es| - 1;
    if Run(es[..n]).blind > 0 {
      i, j, k := FindRescued(es[..n]);
      assert es[..n][..j] == es[..j];
      assert forall m :: 0 <= m < n ==> es[..n][m] == es[m];
    } else {
      RunBlindLaw(es[..n]);
      HowBlind(Run(es[..n]), es[n]);
      i, j := FindRescue(es[..n]);
      k := n;
      assert es[..n][..j] == es[..j];
      assert forall m :: 0 <= m < n ==> es[..n][m] == es[m];
    }
  }

  lemma {:induction false} StaysRemoving(s: State, es: seq<Event>)
    requires s.sender == Remove(false)
    requires forall m :: 0 <= m < |es| ==> !es[m].SenderTurn?
    ensures Exec(s, es).sender == Remove(false)
  {
    if es != [] {
      StaysRemoving(s, es[..|es| - 1]);
    }
  }

  lemma RescuedStands(es: seq<Event>, i: nat, j: nat, k: nat)
    requires Rescued(es, i, j, k)
    ensures Run(es[..k]).sender == Remove(false)
  {
    NextTurnDecides(es, i, j);
    RunSplit(es[..k], j + 1);
    assert es[..k][..j + 1] == es[..j + 1];
    StaysRemoving(Run(es[..j + 1]), es[..k][j + 1..]);
  }

  /** The message at position p is gone from the queue and will not be sent. */
  ghost predicate Lost(s: State, p: nat) {
    p < Head(s) && p !in s.delivered && (s.sender.Send? ==> s.sender.index != p)
  }

  lemma StepKeepsLost(s: State, e: Event, p: nat)
    requires Lost(s, p)
    ensures Lost(Next(s, e), p)
  {
  }

  lemma {:induction false} StaysLost(s: State, es: seq<Event>, p: nat)
    requires Lost(s, p)
    ensures Lost(Exec(s, es), p)
  {
    if es != [] {
      StaysLost(s, es[..|es| - 1], p);
      StepKeepsLost(Exec(s, es[..|es| - 1]), es[|es| - 1], p);
    }
  }

  lemma {:induction false} BlindNeverFalls(s: State, es: seq<Event>)
    ensures s.blind <= Exec(s, es).blind
  {
    if es != [] {
      BlindNeverFalls(s, es[..|es| - 1]);
    }
  }

  lemma RescueRemoves(es: seq<Event>, i: nat, j: nat, k: nat)
    requires Rescued(es, i, j, k)
    ensures var s, t := Run(es[..k]), Run(es[..k + 1]);
            t.sender.Wait? && t.blind == s.blind + 1 && Lost(t, Head(s))
  {
    RescuedStands(es, i, j, k);
    RunBlindLaw(es[..k]);
    RunInv(es[..k]);
    RunNext(es, k);
    HowBlind(Run(es[..k]), es[k]);
  }

  /** A rescued sender goes on, and a message that was pushed is then never sent. */
  lemma RescueLosesOne(es: seq<Event>, i: nat, j: nat, k: nat)
    requires Rescued(es, i, j, k)
    ensures Run(es[..k + 1]).sender.Wait? && Run(es).blind > 0
    ensures var p := Head(Run(es[..k]));
            p < |Run(es).pushed| && p !in Run(es).delivered
  {
    RescueRemoves(es, i, j, k);
    RunSplit(es, k + 1);
    BlindNeverFalls(Run(es[..k + 1]), es[k + 1..]);
    StaysLost(Run(es[..k + 1]), es[k + 1..], Head(Run(es[..k])));
    RunInv(es);
  }

  /** On every schedule: a message has been removed unsent by a sender without a copy if
      and only if, after some failed Get, a queue_push came before the sender's next turn
      and the sender has had another turn since. */
  lemma BlindIffRescued(es: seq<Event>)
    ensures Run(es).blind > 0 <==> exists i, j, k :: Rescued(es, i, j, k)
  {
    if Run(es).blind > 0 {
      var i, j, k := FindRescued(es);
    }
    if i: nat, j: nat, k: nat :| Rescued(es, i, j, k) {
      RescueLosesOne(es, i, j, k);
    }
  }

  // ----------------------------------------------------------------- witness

  lemma EvictingPush(s: State)
    requires s.receiver.EvictCheck? && s.items != []
    ensures var two := [ReceiverTurn, ReceiverTurn];
            var t := Exec(s, two + two);
            && t.receiver.Idle? && t.sender == s.sender && |t.items| == |s.items|
            && t.tokens == s.tokens + 1 && t.evicted == s.evicted + 1 && t.refused == s.refused
  {
    var two := [ReceiverTurn, ReceiverTurn];
    ExecConcat(s, two, two);
    TwoTurns(s, ReceiverTurn, ReceiverTurn);
    TwoTurns(ReceiverStep(ReceiverStep(s)), ReceiverTurn, ReceiverTurn);
  }

  /** One completed eviction, all else sent, and the surplus token still there. */
  lemma SurplusLeft() returns (es: seq<Event>)
    ensures var s := Run(es);
            && s.receiver.Idle? && s.sender.Wait? && s.items == [] && s.tokens == 1
            && s.evicted == 1 && s.refused == 0
  {
    var full := FoundFull();
    var two := [ReceiverTurn, ReceiverTurn];
    var push := two + two;
    EvictingPush(Run(full));
    ExecConcat(Init(), full, push);
    var drained := Repeated(Round(), QUEUE_MAX_SIZE);
    DrainBy(Run(full + push), QUEUE_MAX_SIZE);
    ExecConcat(Init(), full + push, drained);
    es := full + push + drained;
  }

  /** A request served while the sender stands between its failed Get and its Pop. */
  lemma ServedInBetween(s: State)
    requires s.receiver.Idle? && s.sender.Wait? && s.items == [] && s.tokens == 1
    ensures var a := Exec(s, [SenderTurn, SenderTurn]);
            var b := Exec(a, Served());
            var t := Exec(b, [SenderTurn, SenderTurn]);
            && t.receiver.Idle? && t.sender.Wait? && t.items == [] && t.blind == s.blind + 1
            && t.evicted == s.evicted && t.refused == s.refused
  {
    TwoTurns(s, SenderTurn, SenderTurn);
    var a := SenderStep(SenderStep(s));
    ServedTurns(a);
    var b := Exec(a, Served());
    TwoTurns(b, SenderTurn, SenderTurn);
  }

  /** One eviction can cost a second acknowledgement, and the sender lives on. */
  lemma BlindRemovalCanHappen() returns (es: seq<Event>)
    ensures var s := Run(es);
            && s.evicted == 1 && s.refused == 0 && s.blind > 0
            && s.sender.Wait? && s.receiver.Idle? && s.items == []
            && |s.sent| + 1 < |AcksOf(s.requests)|
  {
    var before := SurplusLeft();
    ServedInBetween(Run(before));
    ExecConcat(Init(), before, [SenderTurn, SenderTurn]);
    ExecConcat(Init(), before + [SenderTurn, SenderTurn], Served());
    ExecConcat(Init(), before + [SenderTurn, SenderTurn] + Served(), [SenderTurn, SenderTurn]);
    es := before + [SenderTurn, SenderTurn] + Served() + [SenderTurn, SenderTurn];
    RunInv(es);
    OwedCount(Run(es));
  }
}
