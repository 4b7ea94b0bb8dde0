/**
 The acknowledgement channel of snmp.c: the receive thread pushes, pthread_snmp_send_ack
 drains, and a counting semaphore without any lock is all that joins them.

 The two threads interleave at the granularity of single cstl and semaphore calls, so a
 turn of one thread can fall inside a queue wrapper that the other is executing.
 Assumptions: each cstl call and each semaphore call is atomic, and sem_wait returns only
 when it has taken a token.  A schedule is any sequence of turns; a turn of a thread that
 is blocked or gone changes nothing.
 */
module AckChannel {

  import opened Dispatch
  import opened FreeLockQueue
  import opened Sequences

  /** Where the receive thread stands. */
  datatype Receiver =
    | Idle                        // waiting in msgrcv
    | FullCheck(ack: Message)     // Push: about to compare queue_size with the limit
    | EvictCheck(ack: Message)    // Pop inside Push: about to call queue_empty
    | EvictPop(ack: Message)      // Pop inside Push: about to call queue_pop
    | Enqueue(ack: Message)       // about to call queue_push
    | Post                        // about to call sem_post
    | Faulted(ack: Message)       // called queue_pop on an empty queue

  /** Where the acknowledgement sender stands. `copied` says whether the Get of this
      round filled the message buffer. */
  datatype Sender =
    | Wait                        // about to call sem_wait
    | SizeCheck                   // Get: about to call queue_size
    | Front                       // Get: about to call queue_front and copy
    | Send(index: nat, copy: Message)  // about to call msgsnd
    | EmptyCheck(copied: bool)    // Pop: about to call queue_empty
    | Remove(copied: bool)        // Pop: about to call queue_pop
    | Exited(copied: bool)        // Pop failed, the thread returned
    | Crashed(copied: bool)       // called queue_pop on an empty queue

  datatype State = State(
    items: seq<Message>,
    tokens: nat,
    receiver: Receiver,
    sender: Sender,
    // History, read by no step.
    requests: seq<Request>,       // received so far
    refused: nat,                 // pushes that returned -1
    pushed: seq<Message>,         // arguments of queue_push
    places: seq<nat>,             // how many acknowledgements were owed before each of them
    evicted: nat,                 // queue_pop calls of the receiver
    popped: nat,                  // queue_pop calls of the sender
    blind: nat,                   // those of a round whose Get had failed
    sent: seq<Message>,           // what msgsnd was given
    delivered: seq<nat>)          // and its positions in `pushed`

  datatype Event = Arrive(request: Request) | ReceiverTurn | SenderTurn

  function Init(): State {
    State([], 0, Idle, Wait, [], 0, [], [], 0, 0, 0, [], [])
  }

  /** Position in `pushed` of the front of the queue. */
  function Head(s: State): nat {
    s.popped + s.evicted
  }

  function ReceiverStep(s: State): State {
    match s.receiver
    case FullCheck(m) =>
      s.(receiver := if |s.items| >= QUEUE_MAX_SIZE then EvictCheck(m) else Enqueue(m))
    case EvictCheck(m) =>
      if s.items == [] then s.(receiver := Idle, refused := s.refused + 1)
      else s.(receiver := EvictPop(m))
    case EvictPop(m) =>
      if s.items == [] then s.(receiver := Faulted(m))
      else s.(items := s.items[1..], evicted := s.evicted + 1, receiver := Enqueue(m))
    case Enqueue(m) =>
      s.(items := s.items + [m], pushed := s.pushed + [m],
         places := s.places + [|s.pushed| + s.refused], receiver := Post)
    case Post => s.(tokens := s.tokens + 1, receiver := Idle)
    case _ => s
  }

  function SenderStep(s: State): State {
    match s.sender
    case Wait => if s.tokens == 0 then s else s.(tokens := s.tokens - 1, sender := SizeCheck)
    case SizeCheck => s.(sender := if s.items == [] then EmptyCheck(false) else Front)
    case Front =>
      // queue_front answers NULL on an empty queue, and Get then fails.
      s.(sender := if s.items == [] then EmptyCheck(false) else Send(Head(s), s.items[0]))
    case Send(k, m) =>
      // msgsnd: success and failure lead to the same Pop.
      s.(sent := s.sent + [m], delivered := s.delivered + [k], sender := EmptyCheck(true))
    case EmptyCheck(copied) =>
      s.(sender := if s.items == [] then Exited(copied) else Remove(copied))
    case Remove(copied) =>
      if s.items == [] then s.(sender := Crashed(copied))
      else s.(items := s.items[1..], popped := s.popped + 1,
              blind := s.blind + (if copied then 0 else 1), sender := Wait)
    case _ => s
  }

  function Next(s: State, e: Event): State {
    match e
    case Arrive(r) =>
      if !s.receiver.Idle? then s
      else
        s.(requests := s.requests + [r],
           receiver := match AckFor(r) case Some(m) => FullCheck(m) case None => Idle)
    case ReceiverTurn => ReceiverStep(s)
    case SenderTurn => SenderStep(s)
  }

  function Exec(s: State, es: seq<Event>): State {
    if es == [] then s else Next(Exec(s, es[..|es| - 1]), es[|es| - 1])
  }

  function Run(es: seq<Event>): State {
    Exec(Init(), es)
  }

  lemma {:induction false} ExecConcat(s: State, a: seq<Event>, b: seq<Event>)
    ensures Exec(s, a + b) == Exec(Exec(s, a), b)
  {
    if b == [] {
      assert a + b == a;
    } else {
      var n := |b| - 1;
      assert (a + b)[..|a + b| - 1] == a + b[..n];
      ExecConcat(s, a, b[..n]);
    }
  }

  lemma FirstTurn(s: State, e: Event, rest: seq<Event>)
    ensures Exec(s, [e] + rest) == Exec(Next(s, e), rest)
  {
    ExecConcat(s, [e], rest);
    assert [e][..0] == [];
  }

  lemma RunSplit(es: seq<Event>, n: nat)
    requires n <= |es|
    ensures Run(es) == Exec(Run(es[..n]), es[n..])
  {
    assert es == es[..n] + es[n..];
    ExecConcat(Init(), es[..n], es[n..]);
  }

  lemma RunNext(es: seq<Event>, n: nat)
    requires n < |es|
    ensures Run(es[..n + 1]) == Next(Run(es[..n]), es[n])
  {
    assert es[..n + 1][..n] == es[..n];
  }

  predicate AllAre(es: seq<Event>, e: Event) {
    forall i :: 0 <= i < |es| ==> es[i] == e
  }

  /** t is reached from s by repeating event e. */
  ghost predicate ByTurns(e: Event, s: State, t: State) {
    exists es: seq<Event> :: AllAre(es, e) && Exec(s, es) == t
  }

  lemma OneTurnMore(e: Event, s: State, t: State, u: State)
    requires t == Next(s, e) && ByTurns(e, t, u)
    ensures ByTurns(e, s, u)
  {
    var rest: seq<Event> :| AllAre(rest, e) && Exec(t, rest) == u;
    FirstTurn(s, e, rest);
    assert AllAre([e] + rest, e);
  }

  // ------------------------------------------------------------ invariants

  /** The token of a sem_post that is still to come. */
  function Owed(r: Receiver): nat {
    if r.Post? then 1 else 0
  }

  /** The token the sender has taken and not yet paid for with a removal. */
  function Held(p: Sender): nat {
    if p.Wait? then 0 else 1
  }

  function InFlight(r: Receiver): seq<Message> {
    match r
    case FullCheck(m) => [m]
    case EvictCheck(m) => [m]
    case EvictPop(m) => [m]
    case Enqueue(m) => [m]
    case Faulted(m) => [m]
    case _ => []
  }

  /** Tokens in the semaphore or on their way equal queued messages plus evictions. */
  ghost predicate TokenLaw(s: State) {
    s.tokens + Owed(s.receiver) + Held(s.sender) == |s.items| + s.evicted
  }

  /** The queue is a bounded run of the pushed messages ending at the latest. */
  ghost predicate QueueShape(s: State) {
    && Head(s) <= |s.pushed|
    && s.items == s.pushed[Head(s)..]
    && |s.items| <= QUEUE_MAX_SIZE
    && (s.receiver.Enqueue? ==> |s.items| < QUEUE_MAX_SIZE)
  }

  /** Every acknowledgement owed is pushed, refused or in hand, the one in hand being the
      latest; and the pushed ones are picked from those owed, in order. */
  ghost predicate RequestLaw(s: State) {
    OwedLaw(s, AcksOf(s.requests))
  }

  ghost predicate OwedLaw(s: State, owed: seq<Message>) {
    var settled := |s.pushed| + s.refused;
    && settled <= |owed| && owed[settled..] == InFlight(s.receiver)
    && Picks(s.pushed, owed, s.places) && AllBelow(s.places, settled)
  }

  /** Push has found the queue full and has not yet made room. */
  predicate InEviction(r: Receiver) {
    r.EvictCheck? || r.EvictPop?
  }

  /** A round of the sender that has handed its copy to msgsnd but not yet removed it. */
  predicate Unremoved(p: Sender) {
    match p
    case EmptyCheck(copied) => copied
    case Remove(copied) => copied
    case Exited(copied) => copied
    case Crashed(copied) => copied
    case _ => false
  }

  /** How far the deliveries of such a round are ahead of the front. */
  function Ahead(p: Sender): nat {
    if Unremoved(p) then 1 else 0
  }

  ghost predicate DeliveryLaw(s: State) {
    && AllBelow(s.delivered, Head(s) + Ahead(s.sender))
    && |s.delivered| + s.blind == s.popped + Ahead(s.sender)
  }

  /** The sender's copy is a pushed message later than all it has handed over. */
  ghost predicate CopyLaw(s: State) {
    s.sender.Send? ==>
      && s.sender.index <= Head(s) && s.sender.index < |s.pushed|
      && s.sender.copy == s.pushed[s.sender.index]
      && AllBelow(s.delivered, s.sender.index)
  }

  /** What msgsnd was given is picked from what was pushed, in order. */
  ghost predicate SentLaw(s: State) {
    Picks(s.sent, s.pushed, s.delivered)
  }

  /** The sender has ended, or works without a copy. */
  predicate Starved(p: Sender) {
    match p
    case EmptyCheck(copied) => !copied
    case Remove(copied) => !copied
    case Exited(_) => true
    case Crashed(_) => true
    case _ => false
  }

  /** That happens only when tokens exceed messages, and that takes an eviction. */
  ghost predicate SurplusLaw(s: State) {
    Starved(s.sender) || s.blind > 0 ==> s.evicted > 0
  }

  /** The sender has seen a message in the queue and has yet to remove one. */
  predicate ExpectsMessage(p: Sender) {
    p.Front? || p.Send? || p.Remove? || (p.EmptyCheck? && p.copied)
  }

  /** Only an eviction can empty the queue under the sender, and the receiver fills it
      again with its very next call. */
  ghost predicate EmptiedOnlyByEviction(s: State) {
    ExpectsMessage(s.sender) && s.items == [] ==> s.receiver.Enqueue?
  }

  ghost predicate Inv(s: State) {
    && QueueShape(s)
    && TokenLaw(s)
    && RequestLaw(s)
    && DeliveryLaw(s)
    && CopyLaw(s)
    && SentLaw(s)
    && SurplusLaw(s)
    && EmptiedOnlyByEviction(s)
  }

  lemma InitQueueShape(s: State)
    requires s == Init()
    ensures QueueShape(s)
  {
  }

  lemma InitTokenLaw(s: State)
    requires s == Init()
    ensures TokenLaw(s)
  {
  }

  lemma InitSenderLaws(s: State)
    requires s == Init()
    ensures SurplusLaw(s) && EmptiedOnlyByEviction(s)
  {
  }

  lemma InitOrderLaws(s: State)
    requires s == Init()
    ensures RequestLaw(s) && SentLaw(s) && CopyLaw(s)
  {
  }

  lemma InitDeliveryLaw(s: State)
    requires s == Init()
    ensures DeliveryLaw(s)
  {
  }

  lemma InitInv(s: State)
    requires s == Init()
    ensures Inv(s)
  {
    InitQueueShape(s);
    InitTokenLaw(s);
    InitSenderLaws(s);
    InitOrderLaws(s);
    InitDeliveryLaw(s);
  }

  lemma StepKeepsQueueShape(s: State, e: Event)
    requires QueueShape(s)
    ensures QueueShape(Next(s, e))
  {
    var t := Next(s, e);
    if |t.items| < |s.items| {
      assert t.items == s.pushed[Head(s)..][1..] == t.pushed[Head(t)..];
    } else if t.pushed != s.pushed {
      assert t.items == t.pushed[Head(t)..];
    }
  }

  lemma StepKeepsTokenLaw(s: State, e: Event)
    requires TokenLaw(s)
    ensures TokenLaw(Next(s, e))
  {
  }

  lemma ArrivalKeepsOwedLaw(s: State, r: Request, owed: seq<Message>, more: seq<Message>)
    requires OwedLaw(s, owed) && s.receiver.Idle?
    requires more == InFlight(Next(s, Arrive(r)).receiver)
    ensures OwedLaw(Next(s, Arrive(r)), owed + more)
  {
    PicksFromMore(s.pushed, owed, s.places, more);
  }

  lemma ReceiverKeepsOwedLaw(s: State, owed: seq<Message>)
    requires OwedLaw(s, owed)
    ensures OwedLaw(ReceiverStep(s), owed)
  {
    if s.receiver.Enqueue? {
      var k := |s.pushed| + s.refused;
      assert owed[k] == owed[k..][0] == s.receiver.ack;
      PicksOneMore(s.pushed, owed, s.places, k);
      assert owed[k + 1..] == owed[k..][1..];
    }
  }

  lemma AckInHand(s: State, r: Request)
    requires s.receiver.Idle?
    ensures AcksOf([r]) == InFlight(Next(s, Arrive(r)).receiver)
  {
  }

  lemma ArrivalKeepsRequestLaw(s: State, r: Request)
    requires RequestLaw(s) && s.receiver.Idle?
    ensures RequestLaw(Next(s, Arrive(r)))
  {
    AckInHand(s, r);
    AcksOfAppend(s.requests, [r]);
    ArrivalKeepsOwedLaw(s, r, AcksOf(s.requests), AcksOf([r]));
  }

  lemma TurnFrame(s: State)
    ensures ReceiverStep(s).requests == s.requests
    ensures forall owed :: OwedLaw(s, owed) ==> OwedLaw(SenderStep(s), owed)
    ensures SenderStep(s).requests == s.requests
  {
  }

  lemma StepKeepsRequestLaw(s: State, e: Event)
    requires RequestLaw(s)
    ensures RequestLaw(Next(s, e))
  {
    TurnFrame(s);
    match e
    case Arrive(r) =>
      if s.receiver.Idle? {
        ArrivalKeepsRequestLaw(s, r);
      }
    case ReceiverTurn => ReceiverKeepsOwedLaw(s, AcksOf(s.requests));
    case SenderTurn =>
  }

  lemma StepKeepsSentLaw(s: State, e: Event)
    requires CopyLaw(s) && SentLaw(s)
    ensures SentLaw(Next(s, e))
  {
    match e
    case Arrive(_) =>
    case ReceiverTurn =>
      if s.receiver.Enqueue? {
        PicksFromMore(s.sent, s.pushed, s.delivered, [s.receiver.ack]);
      }
    case SenderTurn =>
      if s.sender.Send? {
        PicksOneMore(s.sent, s.pushed, s.delivered, s.sender.index);
      }
  }

  lemma StepKeepsDeliveryLaw(s: State, e: Event)
    requires QueueShape(s) && DeliveryLaw(s) && CopyLaw(s)
    ensures DeliveryLaw(Next(s, e))
  {
  }

  lemma StepKeepsCopyLaw(s: State, e: Event)
    requires QueueShape(s) && DeliveryLaw(s) && CopyLaw(s)
    ensures CopyLaw(Next(s, e))
  {
  }

  lemma StepKeepsSurplusLaw(s: State, e: Event)
    requires TokenLaw(s) && SurplusLaw(s)
    ensures SurplusLaw(Next(s, e))
  {
  }

  lemma StepKeepsEmptiedOnlyByEviction(s: State, e: Event)
    requires EmptiedOnlyByEviction(s)
    ensures EmptiedOnlyByEviction(Next(s, e))
  {
  }

  lemma StepKeepsInv(s: State, e: Event)
    requires Inv(s)
    ensures Inv(Next(s, e))
  {
    StepKeepsQueueShape(s, e);
    StepKeepsTokenLaw(s, e);
    StepKeepsRequestLaw(s, e);
    StepKeepsDeliveryLaw(s, e);
    StepKeepsCopyLaw(s, e);
    StepKeepsSentLaw(s, e);
    StepKeepsSurplusLaw(s, e);
    StepKeepsEmptiedOnlyByEviction(s, e);
  }

  /** The invariant holds after every schedule. */
  lemma {:induction false} RunInv(es: seq<Event>)
    ensures Inv(Run(es))
  {
    if es == [] {
      InitInv(Run(es));
    } else {
      RunInv(es[..|es| - 1]);
      StepKeepsInv(Run(es[..|es| - 1]), es[|es| - 1]);
    }
  }

  /** The requests that arrive while the receive thread waits for one, in order. */
  function Accepted(es: seq<Event>): seq<Request> {
    if es == [] then []
    else
      var n := |es| - 1;
      Accepted(es[..n])
      + match es[n]
        case Arrive(r) => if Run(es[..n]).receiver.Idle? then [r] else []
        case _ => []
  }

  lemma RequestsGrow(s: State, e: Event)
    ensures Next(s, e).requests
            == s.requests + match e
                            case Arrive(r) => if s.receiver.Idle? then [r] else []
                            case _ => []
  {
  }

  /** Those are the requests whose acknowledgements are owed. */
  lemma {:induction false} RequestsAreAccepted(es: seq<Event>)
    ensures Run(es).requests == Accepted(es)
  {
    if es != [] {
      RequestsAreAccepted(es[..|es| - 1]);
      RequestsGrow(Run(es[..|es| - 1]), es[|es| - 1]);
    }
  }

  // -------------------------------------------------- order and completeness

  /** Under every interleaving msgsnd is given pushed messages, unchanged, in push order
      and none twice; and what is missing below the front was lost to evictions or blind
      removals. */
  lemma DeliveredInOrder(es: seq<Event>)
    ensures var s := Run(es);
            && Picks(s.sent, s.pushed, s.delivered)
            && (s.sender.Send? ==>
                  s.sender.index < |s.pushed| && s.sender.copy == s.pushed[s.sender.index])
            && (s.sender.Wait? ==>
                  && AllBelow(s.delivered, Head(s))
                  && Head(s) - |s.delivered| == s.evicted + s.blind)
  {
    RunInv(es);
  }

  /** Between rounds the deliveries are exactly 0, 1, 2, ... up to the front, with no
      gap, if and only if nothing was ever evicted. */
  lemma GapFreeIffNoEviction(es: seq<Event>)
    requires Run(es).sender.Wait?
    ensures Run(es).delivered == Iota(Head(Run(es))) <==> Run(es).evicted == 0
  {
    RunInv(es);
    DeliveredInOrder(es);
    var s := Run(es);
    IncreasingBelow(s.delivered, Head(s));
  }

  /** In the middle of a round as well: without evictions there is no gap. */
  lemma NoEvictionNoGap(es: seq<Event>)
    requires Run(es).evicted == 0
    ensures Run(es).delivered == Iota(|Run(es).delivered|)
  {
    RunInv(es);
    var s := Run(es);
    IncreasingBelow(s.delivered, |s.delivered|) by {
      assert |s.delivered| == if Unremoved(s.sender) then Head(s) + 1 else Head(s);
    }
  }

  /** Positions, among the acknowledgements owed, of those msgsnd was given. */
  ghost function OwedPositions(s: State): seq<nat>
    requires AllBelow(s.delivered, |s.places|)
  {
    Through(s.places, s.delivered)
  }

  /** End to end, on every schedule: what msgsnd is given is picked from the
      acknowledgements the received requests are owed, unchanged, in order, none twice. */
  lemma DeliveredFromOwed(es: seq<Event>)
    ensures var s := Run(es);
            && AllBelow(s.delivered, |s.places|)
            && Picks(s.sent, AcksOf(s.requests), OwedPositions(s))
  {
    RunInv(es);
    var s := Run(es);
    PicksCompose(s.sent, s.pushed, AcksOf(s.requests), s.delivered, s.places);
  }

  /** Conservation between rounds: what was sent, what is queued and what is in hand make
      up what is owed, in that order, if and only if nothing was evicted or refused. */
  lemma OwedIsConserved(es: seq<Event>)
    requires Run(es).sender.Wait?
    ensures var s := Run(es);
            s.sent + s.items + InFlight(s.receiver) == AcksOf(s.requests)
            <==> s.evicted == 0 && s.refused == 0
  {
    RunInv(es);
    var s := Run(es);
    OwedCount(s);
    if s.evicted == 0 && s.refused == 0 {
      PushedAreAllSettled(s);
      SentArePrefixOfPushed(es);
      SentAndQueued(s, AcksOf(s.requests));
    }
  }

  /** Exactly what is missing between rounds: one owed acknowledgement for each eviction,
      each removal without a copy and each refused push. */
  lemma LossesAddUp(es: seq<Event>)
    requires Run(es).sender.Wait?
    ensures var s := Run(es);
            |AcksOf(s.requests)| - |s.sent| - |s.items| - |InFlight(s.receiver)|
            == s.evicted + s.blind + s.refused
  {
    RunInv(es);
    OwedCount(Run(es));
  }

  lemma OwedCount(s: State)
    requires QueueShape(s) && RequestLaw(s) && DeliveryLaw(s) && SentLaw(s) && s.sender.Wait?
    ensures |s.sent + s.items + InFlight(s.receiver)| + s.evicted + s.blind + s.refused
            == |AcksOf(s.requests)|
    ensures |s.sent| == Head(s) - s.evicted - s.blind
  {
  }

  lemma SentAndQueued(s: State, owed: seq<Message>)
    requires owed == AcksOf(s.requests)
    requires QueueShape(s) && RequestLaw(s) && s.refused == 0 && |s.sent| == Head(s)
    requires s.sent == s.pushed[..|s.sent|] && s.pushed == owed[..|s.pushed|]
    ensures s.sent + s.items + InFlight(s.receiver) == owed
  {
    assert InFlight(s.receiver) == owed[|s.pushed|..];
    ThreeParts(owed, |s.sent|, |s.pushed|);
  }

  /** With nothing refused, the pushed messages are the acknowledgements owed, without
      the one in hand. */
  lemma PushedAreAllSettled(s: State)
    requires RequestLaw(s) && s.refused == 0
    ensures s.pushed == AcksOf(s.requests)[..|s.pushed|]
  {
    IncreasingBelow(s.places, |s.pushed|);
  }

  lemma SentArePrefixOfPushed(es: seq<Event>)
    requires Run(es).evicted == 0
    ensures var s := Run(es);
            |s.sent| <= |s.pushed| && s.sent == s.pushed[..|s.sent|]
  {
    RunInv(es);
    NoEvictionNoGap(es);
    var s := Run(es);
    IncreasingBelow(s.delivered, |s.pushed|);
  }

  /** At every moment: as long as nothing was evicted or refused, what msgsnd was given is
      a prefix of what is owed. */
  lemma SentArePrefixOfOwed(es: seq<Event>)
    requires Run(es).evicted == 0 && Run(es).refused == 0
    ensures Run(es).sent <= AcksOf(Run(es).requests)
  {
    RunInv(es);
    PushedAreAllSettled(Run(es));
    SentArePrefixOfPushed(es);
  }

  // ----------------------------------------------------- sender survival

  /** The sender thread has returned, or has called queue_pop on an empty queue. */
  predicate Ended(p: Sender) {
    p.Exited? || p.Crashed?
  }

  /** The sender ends, in whatever way, only on schedules with an eviction. */
  lemma SenderEndsOnlyAfterEviction(es: seq<Event>)
    requires Ended(Run(es).sender)
    ensures Run(es).evicted > 0
  {
    RunInv(es);
  }

  /** The surplus of tokens over messages is the number of evictions, so no turn of any
      thread ever lowers it. */
  lemma SurplusNeverFalls(es: seq<Event>, more: seq<Event>)
    ensures var s, t := Run(es), Run(es + more);
            s.tokens + Owed(s.receiver) + Held(s.sender) - |s.items|
            <= t.tokens + Owed(t.receiver) + Held(t.sender) - |t.items|
  {
    RunInv(es);
    RunInv(es + more);
    ExecConcat(Init(), es, more);
    EvictedNeverFalls(Run(es), more);
  }

  lemma {:induction false} EvictedNeverFalls(s: State, es: seq<Event>)
    ensures s.evicted <= Exec(s, es).evicted
  {
    if es != [] {
      EvictedNeverFalls(s, es[..|es| - 1]);
    }
  }

  /** The sender running alone until it blocks or ends. */
  function Drain(s: State): State
    decreases |s.items|, s.tokens, Rank(s.sender)
  {
    var t := SenderStep(s);
    if t == s then s else Drain(t)
  }

  /** Turns left before the sender waits again. */
  function Rank(p: Sender): nat {
    match p
    case Wait => 0
    case SizeCheck => 7
    case Front => 6
    case Send(_, _) => 5
    case EmptyCheck(_) => 4
    case Remove(_) => 3
    case Exited(_) => 0
    case Crashed(_) => 0
  }

  lemma DrainUnfolds(s: State, t: State)
    requires t == SenderStep(s)
    ensures Drain(s) == if t == s then s else Drain(t)
  {
  }

  lemma SenderProgress(s: State, t: State)
    requires t == SenderStep(s) && t != s
    ensures || |t.items| < |s.items|
            || (t.items == s.items && t.tokens < s.tokens)
            || (t.items == s.items && t.tokens == s.tokens && Rank(t.sender) < Rank(s.sender))
  {
  }

  /** Draining is a schedule of sender turns, and ends when another changes nothing. */
  lemma {:induction false} DrainIsSchedule(s: State, t: State)
    requires t == SenderStep(s)
    ensures ByTurns(SenderTurn, s, Drain(s)) && SenderStep(Drain(s)) == Drain(s)
    decreases |s.items|, s.tokens, Rank(s.sender)
  {
    DrainUnfolds(s, t);
    if t == s {
      assert Exec(s, []) == s;
    } else {
      SenderProgress(s, t);
      DrainIsSchedule(t, SenderStep(t));
      OneTurnMore(SenderTurn, s, t, Drain(s));
    }
  }

  lemma {:induction false} DrainKeeps(s: State, t: State)
    requires t == SenderStep(s) && Inv(s)
    ensures Inv(Drain(s)) && Drain(s).receiver == s.receiver && Drain(s).evicted == s.evicted
    ensures s.receiver.Idle? && !s.sender.Crashed? ==> !Drain(s).sender.Crashed?
    ensures Ended(s.sender) ==> Drain(s) == s
    ensures !Ended(s.sender) && Ended(Drain(s).sender) ==> Drain(s).items == []
    decreases |s.items|, s.tokens, Rank(s.sender)
  {
    DrainUnfolds(s, t);
    if t != s {
      StepKeepsInv(s, SenderTurn);
      SenderFrame(s, t);
      SenderProgress(s, t);
      DrainKeeps(t, SenderStep(t));
    }
  }

  lemma SenderFrame(s: State, t: State)
    requires t == SenderStep(s) && EmptiedOnlyByEviction(s)
    ensures t.receiver == s.receiver && t.evicted == s.evicted
    ensures s.receiver.Idle? && !s.sender.Crashed? ==> !t.sender.Crashed?
    ensures Ended(s.sender) ==> t == s
    ensures !Ended(s.sender) && Ended(t.sender) ==> t.items == []
  {
  }

  lemma StuckOutcome(s: State)
    requires TokenLaw(s) && SenderStep(s) == s
    ensures Ended(s.sender) || s.sender.Wait?
    ensures s.sender.Wait? ==> s.tokens == 0 && |s.items| + s.evicted == Owed(s.receiver)
    ensures Ended(s.sender) && s.items == [] ==> s.evicted > Owed(s.receiver)
  {
  }

  /** Wherever the receive thread stands still, turns of the sender alone end it if and
      only if it has already ended or there have been more evictions than the token the
      receive thread still owes; otherwise it comes to wait, with nothing queued but the
      message that token is for. */
  lemma DrainOutcome(s: State)
    requires Inv(s)
    ensures ByTurns(SenderTurn, s, Drain(s)) && SenderStep(Drain(s)) == Drain(s)
    ensures Ended(Drain(s).sender) <==> Ended(s.sender) || s.evicted > Owed(s.receiver)
    ensures !Ended(Drain(s).sender) ==>
              && Drain(s).sender.Wait? && Drain(s).tokens == 0
              && |Drain(s).items| + s.evicted == Owed(s.receiver)
    ensures s.receiver.Idle? && !s.sender.Crashed? ==> !Drain(s).sender.Crashed?
  {
    DrainIsSchedule(s, SenderStep(s));
    DrainKeeps(s, SenderStep(s));
    StuckOutcome(Drain(s));
  }

  /** One undisturbed round of the sender. */
  function AfterRound(s: State): State
    requires s.items != [] && s.tokens > 0
  {
    s.(items := s.items[1..], tokens := s.tokens - 1, popped := s.popped + 1,
       sent := s.sent + [s.items[0]], delivered := s.delivered + [Head(s)])
  }

  lemma RoundSteps(s: State)
    requires s.sender.Wait? && s.items != [] && s.tokens > 0
    ensures var c := SenderStep(SenderStep(SenderStep(s)));
            c.sender.Send? && SenderStep(SenderStep(SenderStep(c))) == AfterRound(s)
  {
  }

  lemma OneRound(s: State)
    requires s.sender.Wait? && s.items != [] && s.tokens > 0
    ensures Drain(s) == Drain(AfterRound(s))
  {
    RoundSteps(s);
    var a := SenderStep(s);
    var b := SenderStep(a);
    var c := SenderStep(b);
    var d := SenderStep(c);
    var e := SenderStep(d);
    assert d.sender == EmptyCheck(true) && e.sender == Remove(true);
    assert Drain(s) == Drain(a) == Drain(b) == Drain(c);
    assert Drain(c) == Drain(d) == Drain(e) == Drain(SenderStep(e));
  }

  /** A waiting sender left alone first delivers everything queued, in order, whether or
      not it then ends. */
  lemma {:induction false} DrainDelivers(s: State)
    requires s.sender.Wait? && s.tokens >= |s.items|
    ensures Drain(s).sent == s.sent + s.items
    ensures Drain(s).delivered == s.delivered + From(Head(s), |s.items|)
    decreases |s.items|
  {
    if s.items == [] {
      if s.tokens > 0 {
        var a := SenderStep(s);
        var b := SenderStep(a);
        assert Drain(s) == Drain(a) == Drain(b) == SenderStep(b);
      }
    } else {
      OneRound(s);
      DrainDelivers(AfterRound(s));
      assert s.items == [s.items[0]] + s.items[1..];
      assert [Head(s)] + From(Head(s) + 1, |s.items| - 1) == From(Head(s), |s.items|);
    }
  }

  /** After any schedule that leaves the sender waiting and the receive thread idle, the
      sender's turns alone send all that is queued; they end it if and only if there has
      ever been an eviction; and then exactly the acknowledgements owed have been sent,
      once each and in order, if and only if nothing was evicted or refused. */
  lemma LeftAlone(es: seq<Event>)
    requires Run(es).receiver.Idle? && Run(es).sender.Wait?
    ensures var s, t := Run(es), Drain(Run(es));
            && ByTurns(SenderTurn, s, t) && SenderStep(t) == t
            && t.sent == s.sent + s.items
            && (t.sender.Exited? <==> s.evicted > 0)
            && (t.sent == AcksOf(s.requests) <==> s.evicted == 0 && s.refused == 0)
  {
    RunInv(es);
    var s := Run(es);
    DrainOutcome(s);
    DrainDelivers(s);
    OwedIsConserved(es);
    assert s.sent + s.items + [] == s.sent + s.items;
  }
}
