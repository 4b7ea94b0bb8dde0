/**
 The bodies of pthread_second_task with snmp_data_trap, and of pthread_snmp_send, in
 their own form, each running alone, proved to make exactly the turns of TrapChannel.
 */
module TrapThreads {

  import opened TrapChannel
  import opened Dispatch
  import opened FreeLockQueue

  /** The producer running alone until it waits for a timer signal or is stuck. */
  function Settle(s: State): State
    decreases s.signals, CodesLeft(s.task), Stage(s.task)
  {
    var t := TaskStep(s);
    if t == s then s else Settle(t)
  }

  /** Traps the cycle under way has yet to finish. */
  function CodesLeft(t: Task): nat {
    var c := match t
      case Lock(c) => c
      case FullCheck(c) => c
      case EvictCheck(c) => c
      case EvictPop(c) => c
      case Enqueue(c) => c
      case Unlock(c) => c
      case Post(c) => c
      case UnlockFailed(c) => c
      case CheckFlag => 0
      case _ => CODES;
    if c < CODES then CODES - c else 0
  }

  /** Calls left, at most, for the trap in hand. */
  function Stage(t: Task): nat {
    match t
    case CheckFlag => 8
    case Lock(_) => 7
    case FullCheck(_) => 6
    case EvictCheck(_) => 5
    case EvictPop(_) => 4
    case Enqueue(_) => 3
    case Unlock(_) => 2
    case Post(_) => 1
    case UnlockFailed(_) => 1
    case _ => 0
  }

  predicate Descends(s: State, t: State) {
    || t.signals < s.signals
    || (t.signals == s.signals && CodesLeft(t.task) < CodesLeft(s.task))
    || (t.signals == s.signals && CodesLeft(t.task) == CodesLeft(s.task)
        && Stage(t.task) < Stage(s.task))
  }

  lemma TrapProgress(c: nat)
    ensures var next := AfterTrap(c);
            || CodesLeft(next) < CodesLeft(Post(c))
            || (CodesLeft(next) == CodesLeft(Post(c)) && Stage(next) < Stage(Post(c)))
  {
  }

  lemma Progress(s: State, t: State)
    requires t == TaskStep(s) && t != s
    ensures Descends(s, t)
  {
    if s.task.Post? {
      TrapProgress(s.task.c);
    } else if s.task.UnlockFailed? {
      TrapProgress(s.task.c);
    }
  }

  lemma SettleUnfolds(s: State, t: State)
    requires t == TaskStep(s)
    ensures Settle(s) == if t == s then s else Settle(t)
  {
  }

  /** Settling is a schedule of producer turns. */
  lemma {:induction false} SettleIsSchedule(s: State, t: State)
    requires t == TaskStep(s)
    ensures ByTurns(TaskTurn, s, Settle(s))
    decreases s.signals, CodesLeft(s.task), Stage(s.task)
  {
    SettleUnfolds(s, t);
    if t == s {
      assert Exec(s, []) == s;
    } else {
      Progress(s, t);
      SettleIsSchedule(t, TaskStep(t));
      OneTurnMore(TaskTurn, s, t, Settle(s));
    }
  }

  datatype Outcome = Sent(message: Message) | Blocked | Ended

  /** The two thread bodies in their own form.  `state` follows the calls they make. */
  class Threads {
    var items: seq<Message>
    var full: nat
    var mutex: nat
    var signals: nat
    var flag: bool
    ghost var state: State

    ghost predicate InStep()
      reads this
    {
      && state.items == items && state.full == full && state.mutex == mutex
      && state.signals == signals && state.flag == flag
    }

    constructor ()
      ensures InStep() && state == Init()
    {
      items, full, mutex, signals, flag, state := [], 0, 1, 0, false, Init();
    }

    /** One call of the producer thread. */
    ghost method Called()
      modifies this`state
      ensures state == TaskStep(old(state)) && Settle(state) == Settle(old(state))
    {
      state := TaskStep(state);
    }

    /** SN_Free_Lock_Queue_Push under the lock: a drop-oldest push that succeeds. */
    method Push(ghost c: nat, m: Message) returns (ret: int)
      requires InStep() && state.task == FullCheck(c) && m == Trap(c)
      modifies this`items, this`state
      ensures InStep() && ret == 0 && state.task == Unlock(c)
      ensures Settle(state) == Settle(old(state))
      ensures items == Apply(old(items), Call.Push(m)) && state.pushed == old(state.pushed) + [m]
    {
      var isFull := |items| >= QUEUE_MAX_SIZE;
      Called();
      if isFull {
        var empty := items == [];
        Called();
        if empty {
          return -1;
        }
        items := items[1..];
        Called();
      }
      items := items + [m];
      Called();
      return 0;
    }

    /** snmp_data_trap, when its sem_wait finds the lock free. */
    method SnmpDataTrap(c: nat) returns (ret: int)
      requires InStep() && state.task == Lock(c) && mutex > 0
      modifies this`items, this`mutex, this`full, this`state
      ensures InStep() && ret == 0 && state.task == AfterTrap(c)
      ensures mutex == old(mutex) && full == old(full) + 1
      ensures Settle(state) == Settle(old(state))
      ensures items == Apply(old(items), Call.Push(Message(0xA000, 0x70 + c, 0)))
      ensures state.pushed == old(state.pushed) + [Message(0xA000, 0x70 + c, 0)]
    {
      mutex := mutex - 1;
      Called();
      // Under the lock this push cannot fail, so the path that only releases is dead.
      ret := Push(c, Trap(c));
      mutex := mutex + 1;
      Called();
      full := full + 1;
      Called();
      return 0;
    }

    /** The six calls of snmp_data_trap in one cycle. */
    method PushCycle()
      requires InStep() && state.task == Lock(0) && mutex > 0
      modifies this`items, this`mutex, this`full, this`state
      ensures InStep() && mutex > 0 && state.task.Wait?
      ensures Settle(state) == Settle(old(state))
      ensures full == old(full) + CODES
      ensures |state.pushed| == |old(state.pushed)| + CODES
    {
      ghost var before := state;
      var c := 0;
      while c < CODES
        invariant c <= CODES
        invariant InStep() && mutex > 0
        invariant state.task == if c < CODES then Lock(c) else Wait
        invariant Settle(state) == Settle(before)
        invariant full == old(full) + c
        invariant |state.pushed| == |before.pushed| + c
      {
        var _ := SnmpDataTrap(c);
        c := c + 1;
      }
    }

    /** pthread_second_task while no other thread runs: it returns when sem_wait on the
        timer's semaphore would block. */
    method SecondTask()
      requires InStep() && state.task.Wait? && mutex > 0
      modifies this
      ensures InStep() && state == Settle(old(state)) && ByTurns(TaskTurn, old(state), state)
      ensures signals == 0 && flag == old(flag)
      ensures |state.pushed| == |old(state.pushed)| + if flag then 6 * old(signals) else 0
      ensures full == old(full) + if flag then 6 * old(signals) else 0
    {
      ghost var before := state;
      SettleIsSchedule(before, TaskStep(before));
      ghost var woken := 0;
      while signals > 0
        decreases signals
        invariant InStep() && state.task.Wait? && mutex > 0
        invariant Settle(state) == Settle(before)
        invariant flag == old(flag) && 0 <= woken
        invariant woken + signals == old(signals)
        invariant |state.pushed| == |before.pushed| + if flag then CODES * woken else 0
        invariant full == old(full) + if flag then CODES * woken else 0
      {
        signals := signals - 1;
        Called();
        Called();
        if flag {
          PushCycle();
        }
        woken := woken + 1;
      }
      assert Settle(state) == state;
    }

    /** One call of the sender thread. */
    ghost method SenderCalled()
      modifies this`state
      ensures state == SenderStep(old(state), true) && Drain(state) == Drain(old(state))
    {
      state := SenderStep(state, true);
    }

    /** The start of the loop body: msgget, then a token, then the lock. */
    method AwaitTrap() returns (blocked: bool)
      requires InStep() && state.sender.Open? && mutex > 0
      modifies this`full, this`mutex, this`state
      ensures InStep() && Drain(state) == Drain(old(state)) && blocked == (old(full) == 0)
      ensures if blocked then Drain(state) == state && state.sender == Take && full == 0
              else state.sender.SizeCheck? && full == old(full) - 1 && mutex == old(mutex) - 1
    {
      SenderCalled();
      if full == 0 {
        return true;
      }
      full := full - 1;
      SenderCalled();
      mutex := mutex - 1;
      SenderCalled();
      return false;
    }

    /** SN_Free_Lock_Queue_Get */
    method Get() returns (ret: int, copy: Message)
      requires InStep() && state.sender.SizeCheck?
      modifies this`state
      ensures InStep() && Drain(state) == Drain(old(state))
      ensures ret == if items == [] then -1 else 0
      ensures ret == 0 ==> copy == items[0] && state.sender == EmptyCheck(Copied(Head(state), copy))
      ensures ret == -1 ==> state.sender == EmptyCheck(NoCopy)
    {
      copy := Message(0, 0, 0);
      SenderCalled();
      if items == [] {
        return -1, copy;
      }
      copy := items[0];
      SenderCalled();
      return 0, copy;
    }

    /** SN_Free_Lock_Queue_Pop */
    method Pop() returns (ret: int)
      requires InStep() && state.sender.EmptyCheck?
      modifies this`items, this`state
      ensures InStep() && Drain(state) == Drain(old(state))
      ensures ret == if old(items) == [] then -1 else 0
      ensures ret == 0 ==> state.sender == Release(old(state).sender.copy) && items == old(items)[1..]
      ensures ret == -1 ==> state.sender == ReleaseExit && items == old(items)
    {
      SenderCalled();
      if items == [] {
        return -1;
      }
      items := items[1..];
      SenderCalled();
      return 0;
    }

    /** The locked part of pthread_snmp_send's loop body: Get, then Pop, then release. */
    method TakeOne() returns (sent: Option<Message>, ret1: int)
      requires InStep() && state.sender.SizeCheck?
      modifies this`items, this`mutex, this`state
      ensures InStep() && mutex == old(mutex) + 1 && Drain(state) == Drain(old(state))
      ensures old(items) == [] ==> sent == None && ret1 == -1 && items == []
      ensures old(items) != [] ==> sent == Some(old(items)[0]) && ret1 == 0 && items == old(items)[1..]
      ensures if ret1 == 0 then state.sender.Send? else Drain(state) == state && state.sender == Exited(PopFailed)
    {
      var ret, node := Get();
      sent := if ret == 0 then Some(node) else None;
      ret1 := Pop();
      mutex := mutex + 1;
      SenderCalled();
    }

    ghost method MsgSnd()
      requires InStep() && state.sender.Send?
      modifies this`state
      ensures InStep() && state.sender.Open? && Drain(state) == Drain(old(state))
    {
      SenderCalled();
    }

    /** One pass of the loop of pthread_snmp_send. */
    method SendOne() returns (outcome: Outcome)
      requires InStep() && state.sender.Open? && mutex > 0 && full >= |items|
      modifies this`items, this`full, this`mutex, this`state
      ensures InStep() && mutex > 0 && full >= |items| && Drain(state) == Drain(old(state))
      ensures outcome == if old(items) != [] then Sent(old(items)[0])
                         else if old(full) == 0 then Blocked else Ended
      ensures match outcome
              case Sent(_) => state.sender.Open? && items == old(items)[1..]
              case Blocked => items == [] && Drain(state) == state && state.sender == Take
              case Ended => items == [] && Drain(state) == state && state.sender == Exited(PopFailed)
    {
      var blocked := AwaitTrap();
      if blocked {
        return Blocked;
      }
      var sent, ret1 := TakeOne();
      if ret1 != 0 {
        return Ended;
      }
      MsgSnd();
      return Sent(sent.value);
    }

    /** The loop of pthread_snmp_send, from its top, while no other thread runs. */
    method SendLoop() returns (sends: seq<Message>, exited: bool)
      requires InStep() && state.sender.Open? && mutex > 0 && full >= |items|
      modifies this`items, this`full, this`mutex, this`state
      ensures InStep() && state == Drain(old(state))
      ensures sends == old(items)
      ensures state.sender == if exited then Exited(PopFailed) else Take
    {
      sends := [];
      while true
        invariant InStep() && state.sender.Open? && mutex > 0 && full >= |items|
        invariant Drain(state) == Drain(old(state))
        invariant sends + items == old(items)
        decreases |items|
      {
        var outcome := SendOne();
        match outcome {
          case Sent(m) => sends := sends + [m];
          case Blocked => return sends, false;
          case Ended => return sends, true;
        }
      }
    }

    /** pthread_snmp_send while the producer is quiet and msgget succeeds: it returns
        when the thread does, or when sem_wait(&full) would block.  `sends` lists what
        msgsnd was given. */
    method SendTraps() returns (sends: seq<Message>, exited: bool)
      requires InStep() && Inv(state) && Quiet(state.task) && state.sender.Open?
      modifies this`items, this`full, this`mutex, this`state
      ensures InStep() && state == Drain(old(state))
      ensures ByTurns(SenderTurn(true), old(state), state)
      ensures exited <==> old(state).dropped != []
      ensures sends == old(items)
    {
      DrainOutcome(state);
      sends, exited := SendLoop();
    }
  }
}
