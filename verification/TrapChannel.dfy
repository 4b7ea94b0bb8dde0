/**
 The trap channel of snmp.c.  A timer signal wakes pthread_second_task, which pushes one
 trap for each of six codes through snmp_data_trap once the gateway has asked for
 anything; pthread_snmp_send drains the queue.  The queue is guarded by the semaphore
 `mutex` and counted by the semaphore `full`; the producer posts `full` only after it has
 released `mutex`, and the sender takes `full` before `mutex`.

 Assumptions: each cstl, semaphore and msgget call is atomic, and sem_wait returns only
 when it has taken a token.  A schedule is any sequence of turns; a turn of a thread that
 is blocked or gone changes nothing.
 */
module TrapChannel {

  import opened Dispatch
  import opened FreeLockQueue
  import opened Sequences

  const CODES: nat := 6
  const FIRST_CODE: nat := 0x70

  /** The n-th trap of a cycle. */
  function Trap(c: nat): Message {
    Message(CMD_TRAP, FIRST_CODE + c, 0)
  }

  /** Where pthread_second_task stands; c counts the traps of the current cycle. */
  datatype Task =
    | Wait                   // sem_wait(&trapsignal)
    | CheckFlag              // Check_trap_flag
    | Lock(c: nat)           // snmp_data_trap: sem_wait(&mutex)
    | FullCheck(c: nat)      // Push: queue_size against the limit
    | EvictCheck(c: nat)     // Pop inside Push: queue_empty
    | EvictPop(c: nat)       // Pop inside Push: queue_pop
    | Enqueue(c: nat)        // queue_push
    | Unlock(c: nat)         // sem_post(&mutex)
    | Post(c: nat)           // sem_post(&full)
    | UnlockFailed(c: nat)   // Push returned -1: sem_post(&mutex)
    | Faulted                // called queue_pop on an empty queue

  datatype Copy = NoCopy | Copied(index: nat, message: Message)

  datatype Reason = PopFailed | NoMessageQueue

  /** Where pthread_snmp_send stands. */
  datatype Sender =
    | Open                   // msgget at the top of the loop
    | Take                   // sem_wait(&full)
    | Acquire                // sem_wait(&mutex)
    | SizeCheck              // Get: queue_size
    | Front                  // Get: queue_front and copy
    | EmptyCheck(copy: Copy) // Pop: queue_empty
    | Remove(copy: Copy)     // Pop: queue_pop
    | Release(copy: Copy)    // sem_post(&mutex) after a successful Pop
    | ReleaseExit            // sem_post(&mutex) after a failed Pop
    | Send(index: nat, copied: Message)  // msgsnd
    | Exited(reason: Reason)
    | Crashed                // called queue_pop on an empty queue

  datatype State = State(
    items: seq<Message>,
    full: nat,
    mutex: nat,
    signals: nat,            // semaphore trapsignal
    flag: bool,              // flag_trap
    task: Task,
    sender: Sender,
    // History, read by no step.
    cycles: nat,             // cycles begun
    pushed: seq<Message>,
    dropped: seq<nat>,       // positions in `pushed` removed by the producer
    taken: seq<nat>,         // positions removed by the sender
    sent: seq<Message>,      // what msgsnd was given
    delivered: seq<nat>)     // and its positions in `pushed`

  datatype Event = Timer | Ask(msgType: int) | TaskTurn | SenderTurn(queueExists: bool)

  function Init(): State {
    State([], 0, 1, 0, false, Wait, Open, 0, [], [], [], [], [])
  }

  function Head(s: State): nat {
    |s.taken| + |s.dropped|
  }

  function AfterTrap(c: nat): Task {
    if c + 1 < CODES then Lock(c + 1) else Wait
  }

  function TaskStep(s: State): State {
    match s.task
    case Wait => if s.signals == 0 then s else s.(signals := s.signals - 1, task := CheckFlag)
    case CheckFlag =>
      if s.flag then s.(task := Lock(0), cycles := s.cycles + 1) else s.(task := Wait)
    case Lock(c) => if s.mutex == 0 then s else s.(mutex := s.mutex - 1, task := FullCheck(c))
    case FullCheck(c) =>
      s.(task := if |s.items| >= QUEUE_MAX_SIZE then EvictCheck(c) else Enqueue(c))
    case EvictCheck(c) => s.(task := if s.items == [] then UnlockFailed(c) else EvictPop(c))
    case EvictPop(c) =>
      if s.items == [] then s.(task := Faulted)
      else s.(items := s.items[1..], dropped := s.dropped + [Head(s)], task := Enqueue(c))
    case Enqueue(c) =>
      s.(items := s.items + [Trap(c)], pushed := s.pushed + [Trap(c)], task := Unlock(c))
    case Unlock(c) => s.(mutex := s.mutex + 1, task := Post(c))
    case Post(c) => s.(full := s.full + 1, task := AfterTrap(c))
    case UnlockFailed(c) => s.(mutex := s.mutex + 1, task := AfterTrap(c))
    case Faulted => s
  }

  function SenderStep(s: State, queueExists: bool): State {
    match s.sender
    case Open => s.(sender := if queueExists then Take else Exited(NoMessageQueue))
    case Take => if s.full == 0 then s else s.(full := s.full - 1, sender := Acquire)
    case Acquire => if s.mutex == 0 then s else s.(mutex := s.mutex - 1, sender := SizeCheck)
    case SizeCheck => s.(sender := if s.items == [] then EmptyCheck(NoCopy) else Front)
    case Front =>
      s.(sender := EmptyCheck(if s.items == [] then NoCopy else Copied(Head(s), s.items[0])))
    case EmptyCheck(copy) => s.(sender := if s.items == [] then ReleaseExit else Remove(copy))
    case Remove(copy) =>
      if s.items == [] then s.(sender := Crashed)
      else s.(items := s.items[1..], taken := s.taken + [Head(s)], sender := Release(copy))
    case Release(copy) =>
      s.(mutex := s.mutex + 1,
         sender := match copy case Copied(k, m) => Send(k, m) case NoCopy => Open)
    case ReleaseExit => s.(mutex := s.mutex + 1, sender := Exited(PopFailed))
    case Send(k, m) =>
      // msgsnd: success and failure both go round the loop.
      s.(sent := s.sent + [m], delivered := s.delivered + [k], sender := Open)
    case Exited(_) => s
    case Crashed => s
  }

  function Next(s: State, e: Event): State {
    match e
    case Timer => s.(signals := s.signals + 1)
    case Ask(t) =>
      if t == CMD_GET || t == CMD_SET then s.(flag := true) else s
    case TaskTurn => TaskStep(s)
    case SenderTurn(queueExists) => SenderStep(s, queueExists)
  }

  function Exec(s: State, es: seq<Event>): State {
    if es == [] then s else Next(Exec(s, es[..|es| - 1]), es[|es| - 1])
  }

  function Run(es: seq<Event>): State {
    Exec(Init(), es)
  }

  // ------------------------------------------------------------ invariants

  predicate TaskInside(t: Task) {
    t.FullCheck? || t.EvictCheck? || t.EvictPop? || t.Enqueue? || t.Unlock?
    || t.UnlockFailed? || t.Faulted?
  }

  predicate SenderInside(p: Sender) {
    p.SizeCheck? || p.Front? || p.EmptyCheck? || p.Remove? || p.Release? || p.ReleaseExit?
    || p.Crashed?
  }

  function Count(b: bool): nat {
    if b then 1 else 0
  }

  /** The mutex is free or held by exactly one thread, on error paths too. */
  ghost predicate MutexLaw(s: State) {
    s.mutex + Count(TaskInside(s.task)) + Count(SenderInside(s.sender)) == 1
  }

  /** Pushed but not yet posted. */
  predicate Owing(t: Task) {
    t.Unlock? || t.Post?
  }

  /** A token taken and not yet paid for with a removal. */
  predicate Holding(p: Sender) {
    p.Acquire? || p.SizeCheck? || p.Front? || p.EmptyCheck? || p.Remove? || p.ReleaseExit?
    || p == Exited(PopFailed) || p.Crashed?
  }

  ghost predicate TokenLaw(s: State) {
    s.full + Count(Owing(s.task)) + Count(Holding(s.sender)) == |s.items| + |s.dropped|
  }

  ghost predicate QueueShape(s: State) {
    && Head(s) <= |s.pushed|
    && s.items == s.pushed[Head(s)..]
    && |s.items| <= QUEUE_MAX_SIZE
    && (s.task.Enqueue? ==> |s.items| < QUEUE_MAX_SIZE)
  }

  /** What the lock makes true inside the critical sections: an eviction works on a full
      queue, and the sender's view of the queue stays valid until it releases. */
  ghost predicate LockedView(s: State) {
    && (s.task.EvictCheck? || s.task.EvictPop? ==> |s.items| == QUEUE_MAX_SIZE)
    && !s.task.UnlockFailed? && !s.task.Faulted? && !s.sender.Crashed?
    && (s.sender.Front? || s.sender.Remove? ==> s.items != [])
    && (s.sender.EmptyCheck? ==> (s.sender.copy.NoCopy? <==> s.items == []))
    && (s.sender.Remove? || s.sender.Release? ==> s.sender.copy.Copied?)
    && (s.sender.ReleaseExit? ==> s.items == [])
    && (s.sender.EmptyCheck? || s.sender.Remove? ==>
          s.sender.copy.Copied? ==> s.sender.copy == Copied(Head(s), s.items[0]))
    && (s.sender.ReleaseExit? || s.sender == Exited(PopFailed) ==> s.dropped != [])
  }

  /** The message the sender has removed and not yet handed to msgsnd. */
  function Removed(p: Sender): seq<nat> {
    match p
    case Release(copy) => (match copy case Copied(k, _) => [k] case NoCopy => [])
    case Send(k, _) => [k]
    case _ => []
  }

  /** Everything below the front was either taken by the sender or dropped by the
      producer, exactly once. */
  ghost predicate Accounted(s: State) {
    Partition(s.taken, s.dropped)
  }

  /** What was taken is handed to msgsnd in the same order and with its contents. */
  ghost predicate HandedOn(s: State) {
    && s.delivered + Removed(s.sender) == s.taken
    && (s.sender.Send? ==> s.sender.index < |s.pushed| && s.sender.copied == s.pushed[s.sender.index])
    && (s.sender.Release? && s.sender.copy.Copied? ==>
          s.sender.copy.index < |s.pushed| && s.sender.copy.message == s.pushed[s.sender.copy.index])
  }

  /** What msgsnd was given is picked from what was pushed, in order. */
  ghost predicate SentLaw(s: State) {
    Picks(s.sent, s.pushed, s.delivered)
  }

  /** Traps still to be pushed in the cycle under way. */
  function Remaining(t: Task): nat {
    match t
    case Lock(c) => if c < CODES then CODES - c else 0
    case FullCheck(c) => if c < CODES then CODES - c else 0
    case EvictCheck(c) => if c < CODES then CODES - c else 0
    case EvictPop(c) => if c < CODES then CODES - c else 0
    case Enqueue(c) => if c < CODES then CODES - c else 0
    case Unlock(c) => if c < CODES then CODES - 1 - c else 0
    case Post(c) => if c < CODES then CODES - 1 - c else 0
    case _ => 0
  }

  predicate InCycle(t: Task) {
    match t
    case Lock(c) => c < CODES
    case FullCheck(c) => c < CODES
    case EvictCheck(c) => c < CODES
    case EvictPop(c) => c < CODES
    case Enqueue(c) => c < CODES
    case Unlock(c) => c < CODES
    case Post(c) => c < CODES
    case UnlockFailed(c) => c < CODES
    case _ => true
  }

  /** The pushed codes repeat 0x70 .. 0x75, one cycle per wake-up with the flag set. */
  ghost predicate CycleLaw(s: State) {
    && InCycle(s.task)
    && |s.pushed| + Remaining(s.task) == CODES * s.cycles
    && (forall i :: 0 <= i < |s.pushed| ==> s.pushed[i] == Trap(i % CODES))
    && (s.cycles > 0 ==> s.flag)
  }

  // ------------------------------------- the producer, counted over the schedule

  /** Some event is a GET (0x1000) or a SET (0x2000). */
  predicate AskedIn(es: seq<Event>) {
    exists i :: 0 <= i < |es| && es[i].Ask? && (es[i].msgType == 0x1000 || es[i].msgType == 0x2000)
  }

  function Timers(es: seq<Event>): nat {
    if es == [] then 0 else Timers(es[..|es| - 1]) + Count(es[|es| - 1].Timer?)
  }

  /** Event k has the task look at the flag before any GET or SET has come. */
  predicate LooksInVain(es: seq<Event>, k: nat) {
    k < |es| && es[k].TaskTurn? && Run(es[..k]).task.CheckFlag? && !AskedIn(es[..k])
  }

  /** How often that happens. */
  function VainWakeUps(es: seq<Event>): nat {
    if es == [] then 0 else VainWakeUps(es[..|es| - 1]) + Count(LooksInVain(es, |es| - 1))
  }

  /** Every timer signal is pending, being looked at, was looked at in vain, or began a
      cycle; and the flag is up exactly if a GET or SET has come. */
  ghost predicate TimerLaw(es: seq<Event>) {
    var s := Run(es);
    && s.cycles + s.signals + Count(s.task.CheckFlag?) + VainWakeUps(es) == Timers(es)
    && (s.flag <==> AskedIn(es))
  }

  lemma AskedSnoc(es: seq<Event>, e: Event)
    ensures AskedIn(es + [e])
            <==> AskedIn(es) || (e.Ask? && (e.msgType == 0x1000 || e.msgType == 0x2000))
  {
    if i :| 0 <= i < |es| && es[i].Ask? && (es[i].msgType == 0x1000 || es[i].msgType == 0x2000) {
      assert (es + [e])[i] == es[i];
    }
    assert (es + [e])[|es|] == e;
  }

  lemma TimerStep(s: State, e: Event)
    ensures var t := Next(s, e);
            && t.cycles + t.signals + Count(t.task.CheckFlag?)
               + Count(e.TaskTurn? && s.task.CheckFlag? && !s.flag)
               == s.cycles + s.signals + Count(s.task.CheckFlag?) + Count(e.Timer?)
            && (t.flag <==> s.flag || (e.Ask? && (e.msgType == 0x1000 || e.msgType == 0x2000)))
  {
  }

  lemma {:induction false} RunTimerLaw(es: seq<Event>)
    ensures TimerLaw(es)
  {
    if es != [] {
      var n := |es| - 1;
      RunTimerLaw(es[..n]);
      TimerStep(Run(es[..n]), es[n]);
      AskedSnoc(es[..n], es[n]);
      assert es == es[..n] + [es[n]];
    }
  }

  lemma {:induction false} NoVainWakeUps(es: seq<Event>)
    requires es != [] && AskedIn(es[..1])
    ensures VainWakeUps(es) == 0
  {
    var n := |es| - 1;
    if n == 0 {
      assert es[0].Ask?;
      assert VainWakeUps(es[..0]) == 0;
    } else {
      assert es[..n][..1] == es[..1];
      NoVainWakeUps(es[..n]);
      assert es[..n][0] == es[0] && es[..1][0] == es[0];
    }
  }

  ghost predicate Inv(s: State) {
    && MutexLaw(s) && TokenLaw(s) && QueueShape(s) && LockedView(s)
    && Accounted(s) && HandedOn(s) && SentLaw(s) && CycleLaw(s)
  }

  lemma StepKeepsMutexLaw(s: State, e: Event)
    requires MutexLaw(s)
    ensures MutexLaw(Next(s, e))
  {
  }

  lemma StepKeepsTokenLaw(s: State, e: Event)
    requires MutexLaw(s) && TokenLaw(s) && LockedView(s)
    ensures TokenLaw(Next(s, e))
  {
  }

  lemma StepKeepsQueueShape(s: State, e: Event)
    requires QueueShape(s)
    ensures QueueShape(Next(s, e))
  {
    match e
    case Timer =>
    case Ask(_) =>
    case TaskTurn => TaskKeepsQueueShape(s);
    case SenderTurn(queueExists) => SenderKeepsQueueShape(s, queueExists);
  }

  lemma TaskKeepsQueueShape(s: State)
    requires QueueShape(s)
    ensures QueueShape(TaskStep(s))
  {
    var t := TaskStep(s);
    if s.task.EvictPop? && s.items != [] {
      assert t.items == s.pushed[Head(s)..][1..] == t.pushed[Head(t)..];
    } else if s.task.Enqueue? {
      assert t.items == t.pushed[Head(t)..];
    }
  }

  lemma SenderKeepsQueueShape(s: State, queueExists: bool)
    requires QueueShape(s)
    ensures QueueShape(SenderStep(s, queueExists))
  {
    var t := SenderStep(s, queueExists);
    if s.sender.Remove? && s.items != [] {
      assert t.items == s.pushed[Head(s)..][1..] == t.pushed[Head(t)..];
    }
  }

  lemma StepKeepsLockedView(s: State, e: Event)
    requires MutexLaw(s) && TokenLaw(s) && QueueShape(s) && LockedView(s)
    ensures LockedView(Next(s, e))
  {
    match e
    case Timer =>
    case Ask(_) =>
    case TaskTurn => TaskKeepsLockedView(s);
    case SenderTurn(queueExists) => SenderKeepsLockedView(s, queueExists);
  }

  lemma TaskKeepsLockedView(s: State)
    requires MutexLaw(s) && QueueShape(s) && LockedView(s)
    ensures LockedView(TaskStep(s))
  {
  }

  lemma SenderKeepsLockedView(s: State, queueExists: bool)
    requires MutexLaw(s) && TokenLaw(s) && LockedView(s)
    ensures LockedView(SenderStep(s, queueExists))
  {
  }

  lemma StepKeepsAccounted(s: State, e: Event)
    requires Accounted(s)
    ensures Accounted(Next(s, e))
  {
    TakenOrDropped(s, e);
    PartitionGrows(s.taken, s.dropped);
    PartitionGrows(s.dropped, s.taken);
  }

  /** An event moves the front at most once, on account of one of the threads. */
  lemma TakenOrDropped(s: State, e: Event)
    ensures var t := Next(s, e);
            || (t.taken == s.taken && t.dropped == s.dropped)
            || (t.taken == s.taken + [Head(s)] && t.dropped == s.dropped)
            || (t.taken == s.taken && t.dropped == s.dropped + [Head(s)])
  {
  }

  lemma StepKeepsHandedOn(s: State, e: Event)
    requires QueueShape(s) && LockedView(s) && HandedOn(s)
    ensures HandedOn(Next(s, e))
  {
    match e
    case Timer =>
    case Ask(_) =>
    case TaskTurn => TaskKeepsHandedOn(s);
    case SenderTurn(queueExists) => SenderKeepsHandedOn(s, queueExists);
  }

  lemma TaskKeepsHandedOn(s: State)
    requires HandedOn(s)
    ensures HandedOn(TaskStep(s))
  {
  }

  lemma SenderKeepsHandedOn(s: State, queueExists: bool)
    requires QueueShape(s) && LockedView(s) && HandedOn(s)
    ensures HandedOn(SenderStep(s, queueExists))
  {
  }

  /** A trap about to be sent was taken after all that were sent. */
  lemma SendIsLatest(s: State)
    requires Accounted(s) && HandedOn(s) && s.sender.Send?
    ensures AllBelow(s.delivered, s.sender.index)
  {
    assert s.taken[|s.delivered|] == s.sender.index;
    forall i | 0 <= i < |s.delivered|
      ensures s.delivered[i] < s.sender.index
    {
      assert s.taken[i] == s.delivered[i];
    }
  }

  lemma StepKeepsSentLaw(s: State, e: Event)
    requires Accounted(s) && HandedOn(s) && SentLaw(s)
    ensures SentLaw(Next(s, e))
  {
    if e.TaskTurn? && s.task.Enqueue? {
      PicksFromMore(s.sent, s.pushed, s.delivered, [Trap(s.task.c)]);
    } else if e.SenderTurn? && s.sender.Send? {
      SendIsLatest(s);
      PicksOneMore(s.sent, s.pushed, s.delivered, s.sender.index);
    } else {
      NothingSent(s, e);
    }
  }

  lemma NothingSent(s: State, e: Event)
    requires !(e.TaskTurn? && s.task.Enqueue?) && !(e.SenderTurn? && s.sender.Send?)
    ensures var t := Next(s, e);
            t.sent == s.sent && t.pushed == s.pushed && t.delivered == s.delivered
  {
  }

  lemma StepKeepsCycleLaw(s: State, e: Event)
    requires LockedView(s) && CycleLaw(s)
    ensures CycleLaw(Next(s, e))
  {
    if e.TaskTurn? && s.task.Enqueue? {
      assert |s.pushed| == CODES * (s.cycles - 1) + s.task.c;
      assert |s.pushed| % CODES == s.task.c;
    }
  }

  lemma StepKeepsInv(s: State, e: Event)
    requires Inv(s)
    ensures Inv(Next(s, e))
  {
    StepKeepsMutexLaw(s, e);
    StepKeepsTokenLaw(s, e);
    StepKeepsQueueShape(s, e);
    StepKeepsLockedView(s, e);
    StepKeepsAccounted(s, e);
    StepKeepsHandedOn(s, e);
    StepKeepsSentLaw(s, e);
    StepKeepsCycleLaw(s, e);
  }

  lemma {:induction false} ExecKeepsInv(s: State, es: seq<Event>)
    requires Inv(s)
    ensures Inv(Exec(s, es))
  {
    if es != [] {
      ExecKeepsInv(s, es[..|es| - 1]);
      StepKeepsInv(Exec(s, es[..|es| - 1]), es[|es| - 1]);
    }
  }

  lemma InitInv(s: State)
    requires s == Init()
    ensures Inv(s)
  {
    assert s.items == [] && s.pushed == [] && s.delivered == [];
    assert s.taken == [] && s.dropped == [];
  }

  /** The invariant holds after every schedule. */
  lemma RunInv(es: seq<Event>)
    ensures Inv(Run(es))
  {
    InitInv(Init());
    ExecKeepsInv(Init(), es);
  }

  lemma {:induction false} ExecConcat(s: State, a: seq<Event>, b: seq<Event>)
    ensures Exec(s, a + b) == Exec(Exec(s, a), b)
  {
    if b == [] {
      assert a + b == a;
    } else {
      var n := |b| - 1;
      assert (a + b)[..|a + b| - 1] == a + b[..n];
      ExecConcat(s, a, b[..n]);
    }
  }

  lemma FirstTurn(s: State, e: Event, rest: seq<Event>)
    ensures Exec(s, [e] + rest) == Exec(Next(s, e), rest)
  {
    ExecConcat(s, [e], rest);
    assert [e][..0] == [];
  }

  predicate AllAre(es: seq<Event>, e: Event) {
    forall i :: 0 <= i < |es| ==> es[i] == e
  }

  /** t is reached from s by repeating event e. */
  ghost predicate ByTurns(e: Event, s: State, t: State) {
    exists es: seq<Event> :: AllAre(es, e) && Exec(s, es) == t
  }

  lemma OneTurnMore(e: Event, s: State, t: State, u: State)
    requires t == Next(s, e) && ByTurns(e, t, u)
    ensures ByTurns(e, s, u)
  {
    var rest: seq<Event> :| AllAre(rest, e) && Exec(t, rest) == u;
    FirstTurn(s, e, rest);
    assert AllAre([e] + rest, e);
  }

  // ------------------------------------------------ delivery and its order

  /** Under every schedule the traps given to msgsnd are in push order, none twice, with
      the contents that were pushed; a trap below the front was given to msgsnd (or is
      about to be) exactly when it was not evicted. */
  lemma EveryTrapAccountedFor(es: seq<Event>)
    ensures var s := Run(es);
            && Picks(s.sent, s.pushed, s.delivered)
            && (forall k: nat :: k < Head(s) ==>
                  (k in s.delivered + Removed(s.sender) <==> k !in s.dropped))
            && (s.sender.Send? ==>
                  s.sender.index < |s.pushed| && s.sender.copied == s.pushed[s.sender.index])
  {
    RunInv(es);
  }

  /** No trap is missing below the front if and only if none was ever evicted. */
  lemma GapFreeIffNoEviction(es: seq<Event>)
    ensures var s := Run(es);
            s.delivered + Removed(s.sender) == Iota(Head(s)) <==> s.dropped == []
  {
    RunInv(es);
    IncreasingBelow(Run(es).taken, Head(Run(es)));
  }

  /** The n-th trap ever pushed carries code 0x70 + n mod 6; so the queue always holds
      cyclically consecutive codes, also after evictions, and a delivered trap's code
      tells its position modulo 6. */
  lemma CodesCycle(es: seq<Event>)
    ensures var s := Run(es);
            && Head(s) <= |s.pushed|
            && (forall n :: 0 <= n < |s.pushed| ==> s.pushed[n] == Message(0xA000, 0x70 + n % 6, 0))
            && (forall j :: 0 <= j < |s.items| ==>
                  s.items[j] == Message(0xA000, 0x70 + (Head(s) + j) % 6, 0))
            && |s.sent| == |s.delivered|
            && (forall i :: 0 <= i < |s.sent| ==>
                  s.sent[i] == Message(0xA000, 0x70 + s.delivered[i] % 6, 0))
            && (s.sender.Send? ==> s.sender.copied == Message(0xA000, 0x70 + s.sender.index % 6, 0))
  {
    RunInv(es);
  }

  /** No trap is pushed before the first GET or SET, and never more than six for each
      timer signal; and once every signal has been handled, exactly six for each that was
      not looked at before the first GET or SET. */
  lemma PushesAreGated(es: seq<Event>)
    ensures var s := Run(es);
            && (s.flag <==> AskedIn(es))
            && (!AskedIn(es) ==> s.pushed == [])
            && |s.pushed| <= 6 * Timers(es)
            && (s.task.Wait? && s.signals == 0 ==> |s.pushed| == 6 * (Timers(es) - VainWakeUps(es)))
  {
    RunInv(es);
    RunTimerLaw(es);
    var s := Run(es);
    assert 6 * s.cycles <= 6 * Timers(es);
  }

  /** If the gateway asks first, every timer signal that has been handled pushed six traps. */
  lemma EveryTimerPushesSix(es: seq<Event>)
    requires es != [] && AskedIn(es[..1])
    requires Run(es).task.Wait? && Run(es).signals == 0
    ensures |Run(es).pushed| == 6 * Timers(es)
  {
    PushesAreGated(es);
    NoVainWakeUps(es);
  }

  // ----------------------------------------------------- sender survival

  /** The error exit is taken only after an eviction; the other error paths, a push that
      fails, a Get that fails before a Pop that succeeds, a pop of an empty queue, are
      never taken. */
  lemma OnlyEvictionEndsSender(es: seq<Event>)
    ensures var s := Run(es);
            && (s.sender == Exited(PopFailed) ==> s.dropped != [])
            && s.sender != Release(NoCopy) && s.sender != Remove(NoCopy) && s.sender != Crashed
            && !s.task.UnlockFailed? && !s.task.Faulted?
  {
    RunInv(es);
  }

  /** Event k finds the sender at its msgget, which fails. */
  predicate QueueMissing(es: seq<Event>, k: nat) {
    k < |es| && es[k] == SenderTurn(false) && Run(es[..k]).sender.Open?
  }

  lemma HowQueueMissing(s: State, e: Event)
    ensures Next(s, e).sender == Exited(NoMessageQueue)
            <==> s.sender == Exited(NoMessageQueue) || (s.sender.Open? && e == SenderTurn(false))
  {
  }

  /** The sender ends for want of the message queue if and only if some msgget failed. */
  lemma {:induction false} ExitIffQueueMissing(es: seq<Event>)
    ensures Run(es).sender == Exited(NoMessageQueue) <==> exists k: nat :: QueueMissing(es, k)
  {
    if es != [] {
      var n := |es| - 1;
      ExitIffQueueMissing(es[..n]);
      HowQueueMissing(Run(es[..n]), es[n]);
      forall k: nat | k < n
        ensures QueueMissing(es, k) <==> QueueMissing(es[..n], k)
      {
        assert es[..n][..k] == es[..k];
      }
      assert QueueMissing(es, n) <==> es[n] == SenderTurn(false) && Run(es[..n]).sender.Open?;
    }
  }

  lemma {:induction false} DroppedNeverShrinks(s: State, es: seq<Event>)
    ensures |s.dropped| <= |Exec(s, es).dropped|
  {
    if es != [] {
      DroppedNeverShrinks(s, es[..|es| - 1]);
    }
  }

  /** Tokens minus messages is the number of evictions: no turn ever lowers it. */
  lemma SurplusNeverFalls(es: seq<Event>, more: seq<Event>)
    ensures var s, t := Run(es), Run(es + more);
            && s.full + Count(Owing(s.task)) + Count(Holding(s.sender)) - |s.items| == |s.dropped|
            && |s.dropped| <= t.full + Count(Owing(t.task)) + Count(Holding(t.sender)) - |t.items|
  {
    RunInv(es);
    RunInv(es + more);
    ExecConcat(Init(), es, more);
    DroppedNeverShrinks(Run(es), more);
  }

  function SenderTurns(es: seq<Event>): nat {
    if es == [] then 0
    else SenderTurns(es[..|es| - 1]) + Count(es[|es| - 1].SenderTurn?)
  }

  /** Where a sender that entered its Get on an empty queue stands n turns later. */
  function Doom(n: nat): Sender {
    match n
    case 0 => SizeCheck
    case 1 => EmptyCheck(NoCopy)
    case 2 => ReleaseExit
    case _ => Exited(PopFailed)
  }

  lemma DoomedStep(s: State, e: Event, n: nat)
    requires MutexLaw(s) && s.sender == Doom(n) && (n < 3 ==> s.items == [])
    ensures var k := n + Count(e.SenderTurn?);
            Next(s, e).sender == Doom(k) && (k < 3 ==> Next(s, e).items == [])
  {
  }

  lemma {:induction false} DoomedRun(s: State, more: seq<Event>)
    requires Inv(s) && s.sender.SizeCheck? && s.items == []
    ensures Exec(s, more).sender == Doom(SenderTurns(more))
    ensures SenderTurns(more) < 3 ==> Exec(s, more).items == []
  {
    if more != [] {
      var n := |more| - 1;
      DoomedRun(s, more[..n]);
      ExecKeepsInv(s, more[..n]);
      DoomedStep(Exec(s, more[..n]), more[n], SenderTurns(more[..n]));
    }
  }

  /** After i events the sender has the lock and is about to find the queue empty. */
  ghost predicate EmptyGet(es: seq<Event>, i: nat) {
    i <= |es| && Run(es[..i]).sender.SizeCheck? && Run(es[..i]).items == []
  }

  /** Such a sender is lost: whatever the producer, the timer and the gateway do, its next
      three turns end it. */
  lemma EmptyGetIsFatal(es: seq<Event>, i: nat)
    requires EmptyGet(es, i)
    ensures Run(es).sender == Doom(SenderTurns(es[i..]))
  {
    RunInv(es[..i]);
    assert es == es[..i] + es[i..];
    ExecConcat(Init(), es[..i], es[i..]);
    DoomedRun(Run(es[..i]), es[i..]);
  }

  predicate Doomed(p: Sender) {
    p == EmptyCheck(NoCopy) || p == ReleaseExit || p == Exited(PopFailed)
  }

  lemma HowDoomed(s: State, e: Event)
    requires LockedView(s) && Doomed(Next(s, e).sender) && !Doomed(s.sender)
    ensures s.sender.SizeCheck? && s.items == []
  {
  }

  lemma {:induction false} DoomHasCause(es: seq<Event>) returns (i: nat)
    requires Doomed(Run(es).sender)
    ensures EmptyGet(es, i)
  {
    var n := |es| - 1;
    if Doomed(Run(es[..n]).sender) {
      i := DoomHasCause(es[..n]);
      assert es[..n][..i] == es[..i];
    } else {
      RunInv(es[..n]);
      HowDoomed(Run(es[..n]), es[n]);
      i := n;
    }
  }

  /** On every schedule: the sender has taken the error exit if and only if it once had the
      lock with the queue empty and has had three turns since. */
  lemma ExitIffEmptyGet(es: seq<Event>)
    ensures Run(es).sender == Exited(PopFailed)
            <==> exists i: nat :: EmptyGet(es, i) && SenderTurns(es[i..]) >= 3
  {
    if Run(es).sender == Exited(PopFailed) {
      var i := DoomHasCause(es);
      EmptyGetIsFatal(es, i);
    }
    if i: nat :| EmptyGet(es, i) && SenderTurns(es[i..]) >= 3 {
      EmptyGetIsFatal(es, i);
    }
  }

  /** The producer is outside snmp_data_trap, or has not yet got its lock. */
  predicate Quiet(t: Task) {
    t.Wait? || t.CheckFlag? || t.Lock?
  }

  /** Turns left, at most, before the sender waits for the next token. */
  function Rank(p: Sender): nat {
    match p
    case Acquire => 9
    case SizeCheck => 8
    case Front => 7
    case EmptyCheck(_) => 6
    case Remove(_) => 5
    case Release(_) => 3
    case Send(_, _) => 2
    case Open => 1
    case ReleaseExit => 1
    case _ => 0
  }

  /** The sender running alone, with the message queue present, until it blocks or ends. */
  function Drain(s: State): State
    decreases |s.items|, s.full, Rank(s.sender)
  {
    var t := SenderStep(s, true);
    if t == s then s else Drain(t)
  }

  lemma DrainUnfolds(s: State, t: State)
    requires t == SenderStep(s, true)
    ensures Drain(s) == if t == s then s else Drain(t)
  {
  }

  lemma SenderProgress(s: State, t: State)
    requires t == SenderStep(s, true) && t != s
    ensures || |t.items| < |s.items|
            || (t.items == s.items && t.full < s.full)
            || (t.items == s.items && t.full == s.full && Rank(t.sender) < Rank(s.sender))
  {
    match s.sender
    case Take =>
    case Remove(_) =>
    case _ => assert t.items == s.items && t.full == s.full;
  }

  /** Draining is a schedule of sender turns. */
  lemma {:induction false} DrainIsSchedule(s: State, t: State)
    requires t == SenderStep(s, true)
    ensures ByTurns(SenderTurn(true), s, Drain(s))
    decreases |s.items|, s.full, Rank(s.sender)
  {
    DrainUnfolds(s, t);
    if t == s {
      assert Exec(s, []) == s;
    } else {
      SenderProgress(s, t);
      DrainIsSchedule(t, SenderStep(t, true));
      OneTurnMore(SenderTurn(true), s, t, Drain(s));
    }
  }

  lemma {:induction false} DrainStops(s: State)
    ensures SenderStep(Drain(s), true) == Drain(s)
    decreases |s.items|, s.full, Rank(s.sender)
  {
    var t := SenderStep(s, true);
    if t != s {
      DrainStops(t);
    }
  }

  lemma DrainKeepsInv(s: State)
    requires Inv(s)
    ensures Inv(Drain(s)) && ByTurns(SenderTurn(true), s, Drain(s))
  {
    DrainIsSchedule(s, SenderStep(s, true));
    var es: seq<Event> :| AllAre(es, SenderTurn(true)) && Exec(s, es) == Drain(s);
    ExecKeepsInv(s, es);
  }

  lemma {:induction false} DrainFrame(s: State)
    requires s.sender != Exited(NoMessageQueue)
    requires s.sender.ReleaseExit? || s.sender.Exited? ==> s.items == []
    ensures var t := Drain(s);
            && t.task == s.task && t.pushed == s.pushed && t.dropped == s.dropped
            && t.sender != Exited(NoMessageQueue)
            && (t.sender.Exited? ==> t.items == [])
    decreases |s.items|, s.full, Rank(s.sender)
  {
    var t := SenderStep(s, true);
    if t != s {
      DrainFrame(t);
    }
  }

  lemma StuckOutcome(s: State)
    requires MutexLaw(s) && TokenLaw(s) && LockedView(s) && Quiet(s.task)
    requires SenderStep(s, true) == s && s.sender != Exited(NoMessageQueue)
    requires s.sender.Exited? ==> s.items == []
    ensures s.sender == Exited(PopFailed) <==> s.dropped != []
    ensures s.sender == Take <==> s.dropped == []
    ensures s.items == []
  {
    if s.sender.Exited? {
      assert s.sender.reason == PopFailed;
    }
  }

  /** While the producer is quiet, a sender left alone reaches the error exit if and only
      if there has ever been an eviction; otherwise it comes to wait on an empty queue. */
  lemma DrainOutcome(s: State)
    requires Inv(s) && Quiet(s.task) && !s.sender.Exited?
    ensures ByTurns(SenderTurn(true), s, Drain(s)) && SenderStep(Drain(s), true) == Drain(s)
    ensures Drain(s).sender == Exited(PopFailed) <==> s.dropped != []
    ensures Drain(s).sender == Take <==> s.dropped == []
    ensures Drain(s).items == []
  {
    DrainStops(s);
    DrainKeepsInv(s);
    DrainFrame(s);
    StuckOutcome(Drain(s));
  }

  /** Put together: what is finally sent is every pushed trap that was not evicted, with
      its contents and in push order. */
  lemma DrainDeliversTheRest(es: seq<Event>)
    requires Quiet(Run(es).task) && !Run(es).sender.Exited?
    ensures ByTurns(SenderTurn(true), Run(es), Drain(Run(es)))
    ensures var t := Drain(Run(es));
            && Picks(t.sent, t.pushed, t.delivered)
            && forall k: nat :: k < |t.pushed| ==> (k in t.delivered <==> k !in t.dropped)
  {
    RunInv(es);
    DrainOutcome(Run(es));
    DrainKeepsInv(Run(es));
    var t := Drain(Run(es));
    assert t.delivered == t.taken;
  }
}
