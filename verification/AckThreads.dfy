/**
 The bodies of the receive thread's acknowledgement path and of pthread_snmp_send_ack in
 their own form, each running alone, proved to make exactly the turns of AckChannel.
 */
module AckThreads {

  import opened AckChannel
  import opened Dispatch
  import opened FreeLockQueue

  /** The receive thread running alone until it waits for a request or is stuck. */
  function Settle(s: State): State
    decreases TurnsLeft(s.receiver)
  {
    var t := ReceiverStep(s);
    if t == s then s else Settle(t)
  }

  function TurnsLeft(r: Receiver): nat {
    match r
    case FullCheck(_) => 5
    case EvictCheck(_) => 4
    case EvictPop(_) => 3
    case Enqueue(_) => 2
    case Post => 1
    case _ => 0
  }

  lemma SettleUnfolds(s: State, t: State)
    requires t == ReceiverStep(s)
    ensures Settle(s) == if t == s then s else Settle(t)
  {
  }

  lemma ReceiverProgress(s: State, t: State)
    requires t == ReceiverStep(s) && t != s
    ensures TurnsLeft(t.receiver) < TurnsLeft(s.receiver)
  {
  }

  /** Settling is a schedule of receiver turns. */
  lemma {:induction false} SettleIsSchedule(s: State, t: State)
    requires t == ReceiverStep(s)
    ensures ByTurns(ReceiverTurn, s, Settle(s))
    decreases TurnsLeft(s.receiver)
  {
    SettleUnfolds(s, t);
    if t == s {
      assert Exec(s, []) == s;
    } else {
      ReceiverProgress(s, t);
      SettleIsSchedule(t, ReceiverStep(t));
      OneTurnMore(ReceiverTurn, s, t, Settle(s));
    }
  }

  /** A request handled without interruption has the effect of one drop-oldest push of
      the acknowledgement it is owed, if any, and one token for it. */
  lemma SettleIsOnePush(s: State, r: Request)
    requires Inv(s) && s.receiver.Idle?
    ensures ByTurns(ReceiverTurn, Next(s, Arrive(r)), Settle(Next(s, Arrive(r))))
    ensures var t := Settle(Next(s, Arrive(r)));
            && t.receiver.Idle? && t.sender == s.sender
            && t.pushed == s.pushed + AcksOf([r])
            && t.tokens == s.tokens + |AcksOf([r])|
            && t.items == match AckFor(r)
                          case Some(m) => Apply(s.items, Call.Push(m))
                          case None => s.items
  {
    var a := Next(s, Arrive(r));
    SettleIsSchedule(a, ReceiverStep(a));
    match AckFor(r)
    case Some(m) =>
      AcksOfAnswered(r, m);
      SettlePush(a, m);
    case None =>
      SettleUnfolds(a, a);
  }

  lemma AcksOfAnswered(r: Request, m: Message)
    requires AckFor(r) == Some(m)
    ensures AcksOf([r]) == [m]
  {
    assert [r][..0] == [];
  }

  lemma SettlePush(s: State, m: Message)
    requires s.receiver == FullCheck(m) && |s.items| <= QUEUE_MAX_SIZE
    ensures var t := Settle(s);
            && t.receiver.Idle? && t.sender == s.sender && t.pushed == s.pushed + [m]
            && t.tokens == s.tokens + 1 && t.items == Apply(s.items, Call.Push(m))
  {
    var a := ReceiverStep(s);
    SettleUnfolds(s, a);
    if |s.items| >= QUEUE_MAX_SIZE {
      var b := ReceiverStep(a);
      var c := ReceiverStep(b);
      SettleUnfolds(a, b);
      SettleUnfolds(b, c);
      SettleEnqueue(c);
    } else {
      SettleEnqueue(a);
    }
  }

  lemma SettleEnqueue(s: State)
    requires s.receiver.Enqueue?
    ensures var m := s.receiver.ack;
            Settle(s) == s.(items := s.items + [m], pushed := s.pushed + [m],
                            places := s.places + [|s.pushed| + s.refused],
                            tokens := s.tokens + 1, receiver := Idle)
  {
    var a := ReceiverStep(s);
    var b := ReceiverStep(a);
    assert Settle(s) == Settle(a) == Settle(b) == b;
  }

  datatype Outcome = Sent(message: Message) | Blocked | Ended

  /** The two thread bodies in their own form.  `state` follows the calls they make: each
      cstl or semaphore call is one turn of the thread making it. */
  class Threads {
    var items: seq<Message>
    var tokens: nat
    ghost var state: State

    ghost predicate InStep()
      reads this
    {
      state.items == items && state.tokens == tokens
    }

    constructor ()
      ensures InStep() && state == Init()
    {
      items, tokens, state := [], 0, Init();
    }

    /** SN_Free_Lock_Queue_Push, called by the receive thread. */
    method Push(m: Message) returns (ret: int)
      requires InStep() && state.receiver == FullCheck(m)
      requires |items| <= QUEUE_MAX_SIZE
      modifies this
      ensures InStep() && ret == 0 && state.receiver.Post?
      ensures Settle(state) == Settle(old(state))
    {
      ghost var settled := Settle(state);
      var full := |items| >= QUEUE_MAX_SIZE;
      state := ReceiverStep(state);
      assert Settle(state) == settled;
      if full {
        var empty := items == [];
        state := ReceiverStep(state);
        assert Settle(state) == settled;
        if empty {
          return -1;
        }
        items := items[1..];
        state := ReceiverStep(state);
        assert Settle(state) == settled;
      }
      items := items + [m];
      state := ReceiverStep(state);
      return 0;
    }

    /** One request: the handler's acknowledgement is pushed and a token posted. */
    method Handle(r: Request)
      requires InStep() && Inv(state) && state.receiver.Idle?
      modifies this
      ensures InStep() && state == Settle(Next(old(state), Arrive(r)))
    {
      state := Next(state, Arrive(r));
      var ack := AckFor(r);
      if ack.Some? {
        var ret := Push(ack.value);
        if ret == -1 {
          return;
        }
        tokens := tokens + 1;
        state := ReceiverStep(state);
      }
    }

    /** SN_Free_Lock_Queue_Get, called by the sender. */
    method Get() returns (ret: int, copy: Message)
      requires InStep() && state.sender.SizeCheck?
      modifies this`state
      ensures InStep() && Drain(state) == Drain(old(state))
      ensures ret == if items == [] then -1 else 0
      ensures ret == 0 ==> copy == items[0] && state.sender == Send(Head(state), copy)
      ensures ret == -1 ==> state.sender == EmptyCheck(false)
    {
      copy := Message(0, 0, 0);
      var size := |items|;
      state := SenderStep(state);
      if size <= 0 {
        return -1, copy;
      }
      copy := items[0];
      state := SenderStep(state);
      return 0, copy;
    }

    /** SN_Free_Lock_Queue_Pop, called by the sender. */
    method Pop() returns (ret: int)
      requires InStep() && state.sender.EmptyCheck?
      modifies this
      ensures InStep() && Drain(state) == Drain(old(state)) && tokens == old(tokens)
      ensures ret == if old(items) == [] then -1 else 0
      ensures ret == 0 ==> state.sender.Wait? && items == old(items)[1..]
      ensures ret == -1 ==> state.sender.Exited? && items == old(items)
    {
      var empty := items == [];
      state := SenderStep(state);
      if empty {
        return -1;
      }
      items := items[1..];
      state := SenderStep(state);
      return 0;
    }

    /** One pass of the loop of pthread_snmp_send_ack; `sendFails` is msgsnd's outcome. */
    method SendOne(sendFails: bool) returns (outcome: Outcome)
      requires InStep() && state.sender.Wait? && tokens >= |items|
      modifies this
      ensures InStep() && tokens >= |items| && Drain(state) == Drain(old(state))
      ensures outcome == if old(items) != [] then Sent(old(items)[0])
                         else if old(tokens) == 0 then Blocked else Ended
      ensures match outcome
              case Sent(_) => state.sender.Wait? && items == old(items)[1..]
              case Blocked => Drain(state) == state && state.sender.Wait?
              case Ended => Drain(state) == state && state.sender.Exited?
    {
      if tokens == 0 {
        return Blocked;
      }
      TakeToken();
      var ret, node := Get();
      if ret != 0 {
        var _ := Pop();
        return Ended;
      }
      MsgSnd();
      if sendFails {
        var _ := Pop();
        return Sent(node);
      }
      var _ := Pop();
      return Sent(node);
    }

    method TakeToken()
      requires InStep() && state.sender.Wait? && tokens > 0
      modifies this`tokens, this`state
      ensures InStep() && tokens == old(tokens) - 1 && state.sender.SizeCheck?
      ensures Drain(state) == Drain(old(state))
    {
      tokens := tokens - 1;
      state := SenderStep(state);
    }

    ghost method MsgSnd()
      requires InStep() && state.sender.Send?
      modifies this`state
      ensures InStep() && state.sender == EmptyCheck(true)
      ensures Drain(state) == Drain(old(state))
    {
      state := SenderStep(state);
    }

    /** The loop of pthread_snmp_send_ack while no other thread runs: it returns when the
        thread does, or when sem_wait would block.  `sends` lists what msgsnd was given,
        and `sendFails` says which of those calls fail. */
    method SendLoop(sendFails: nat -> bool) returns (sends: seq<Message>, exited: bool)
      requires InStep() && state.sender.Wait? && tokens >= |items|
      modifies this
      ensures InStep() && state == Drain(old(state))
      ensures exited == state.sender.Exited? && !exited == state.sender.Wait?
      ensures sends == old(items)
    {
      sends := [];
      ghost var end := Drain(state);
      while true
        invariant InStep() && state.sender.Wait? && tokens >= |items|
        invariant Drain(state) == end
        invariant sends + items == old(items)
        decreases |items|
      {
        var outcome := SendOne(sendFails(|sends|));
        match outcome {
          case Sent(m) => sends := sends + [m];
          case Blocked => return sends, false;
          case Ended => return sends, true;
        }
      }
    }

    /** pthread_snmp_send_ack left alone: all that is queued is sent, and then the thread
        ends if and only if there has ever been an eviction. */
    method SendAcks(sendFails: nat -> bool) returns (sends: seq<Message>, exited: bool)
      requires InStep() && Inv(state) && state.receiver.Idle? && state.sender.Wait?
      modifies this
      ensures InStep() && state == Drain(old(state))
      ensures ByTurns(SenderTurn, old(state), state)
      ensures exited <==> old(state).evicted > 0
      ensures sends == old(items) && state.sent == old(state).sent + sends
    {
      DrainOutcome(state);
      DrainDelivers(state);
      sends, exited := SendLoop(sendFails);
    }
  }
}
