/** Schedules of the acknowledgement channel from which particular runs are built. */
module AckSchedules {

  import opened AckChannel
  import opened Dispatch
  import opened FreeLockQueue

  lemma OneTurn(s: State, e: Event)
    ensures Exec(s, [e]) == Next(s, e)
  {
    assert [e][..0] == [];
  }

  lemma TwoTurns(s: State, d: Event, e: Event)
    ensures Exec(s, [d, e]) == Next(Next(s, d), e)
  {
    assert [d, e][..1] == [d];
    OneTurn(s, d);
  }

  const READ_ADDRESS := Request(CMD_GET, 1, 0)

  function Served(): seq<Event> {
    [Arrive(READ_ADDRESS), ReceiverTurn] + [ReceiverTurn, ReceiverTurn]
  }

  function Repeated(part: seq<Event>, n: nat): seq<Event> {
    if n == 0 then [] else Repeated(part, n - 1) + part
  }

  function Round(): seq<Event> {
    [SenderTurn, SenderTurn, SenderTurn] + [SenderTurn, SenderTurn, SenderTurn]
  }

  /** A request served in one go, onto a queue that is not full. */
  lemma ServedTurns(s: State)
    requires s.receiver.Idle? && |s.items| < QUEUE_MAX_SIZE
    ensures var t := Exec(s, Served());
            && t.receiver.Idle? && t.sender == s.sender && |t.items| == |s.items| + 1
            && t.tokens == s.tokens + 1 && t.blind == s.blind
            && t.evicted == s.evicted && t.refused == s.refused
  {
    ExecConcat(s, [Arrive(READ_ADDRESS), ReceiverTurn], [ReceiverTurn, ReceiverTurn]);
    TwoTurns(s, Arrive(READ_ADDRESS), ReceiverTurn);
    TwoTurns(Next(Next(s, Arrive(READ_ADDRESS)), ReceiverTurn), ReceiverTurn, ReceiverTurn);
  }

  lemma {:induction false} FillTo(n: nat)
    requires n <= QUEUE_MAX_SIZE
    ensures var s := Run(Repeated(Served(), n));
            s.receiver.Idle? && s.sender.Wait? && |s.items| == s.tokens == n
            && s.evicted == s.refused == 0
  {
    if n > 0 {
      FillTo(n - 1);
      var s := Run(Repeated(Served(), n - 1));
      ExecConcat(Init(), Repeated(Served(), n - 1), Served());
      ServedTurns(s);
    }
  }

  lemma ThreeTurns(s: State, a: Event, b: Event, c: Event)
    ensures Exec(s, [a, b, c]) == Next(Next(Next(s, a), b), c)
  {
    assert [a, b, c][..2] == [a, b];
    TwoTurns(s, a, b);
  }

  lemma RoundSchedule(s: State)
    requires s.sender.Wait? && s.items != [] && s.tokens > 0
    ensures Exec(s, Round()) == AfterRound(s)
  {
    var three := [SenderTurn, SenderTurn, SenderTurn];
    ExecConcat(s, three, three);
    ThreeTurns(s, SenderTurn, SenderTurn, SenderTurn);
    ThreeTurns(SenderStep(SenderStep(SenderStep(s))), SenderTurn, SenderTurn, SenderTurn);
    RoundSteps(s);
  }

  lemma {:induction false} DrainBy(s: State, n: nat)
    requires s.sender.Wait? && n <= |s.items| && n <= s.tokens
    ensures var t := Exec(s, Repeated(Round(), n));
            && t.sender.Wait? && t.receiver == s.receiver
            && |t.items| == |s.items| - n && t.tokens == s.tokens - n
            && t.evicted == s.evicted && t.refused == s.refused
  {
    if n > 0 {
      DrainBy(s, n - 1);
      ExecConcat(s, Repeated(Round(), n - 1), Round());
      RoundSchedule(Exec(s, Repeated(Round(), n - 1)));
    }
  }

  /** A schedule after which a Push has just found the queue full, the sender waits, and
      nothing has been evicted or refused. */
  lemma FoundFull() returns (es: seq<Event>)
    ensures var s := Run(es);
            && s.receiver == EvictCheck(Message(CMD_ACK, 1, 0)) && s.sender.Wait?
            && |s.items| == s.tokens == QUEUE_MAX_SIZE && s.evicted == s.refused == 0
  {
    var filled := Repeated(Served(), QUEUE_MAX_SIZE);
    FillTo(QUEUE_MAX_SIZE);
    TwoTurns(Run(filled), Arrive(READ_ADDRESS), ReceiverTurn);
    es := filled + [Arrive(READ_ADDRESS), ReceiverTurn];
    ExecConcat(Init(), filled, [Arrive(READ_ADDRESS), ReceiverTurn]);
  }
}
