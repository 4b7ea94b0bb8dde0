/**
 What the receive thread of snmp.c does with a request: the dispatch table filled by
 init_SnmpData, the handlers' acknowledgement behaviour, and the trap flag.
 Payload strings are not modelled; the outcome of the network setters is an input.
 */
module Dispatch {

  const CMD_GET: int := 0x1000
  const CMD_SET: int := 0x2000
  const CMD_ACK: int := 0x8000
  const CMD_TRAP: int := 0xA000

  /** The header of a QUEUE_MSG_T. */
  datatype Message = Message(msgType: int, operCode: nat, errorCode: int)

  /** A received message together with the result the setter will return for it. */
  datatype Request = Request(msgType: int, operCode: nat, setterRet: int)

  datatype Option<+T> = None | Some(value: T)

  // -------------------------------------------------- reference definition

  /** Operation codes with an entry in the table. */
  predicate Populated(code: nat) {
    1 <= code <= 5 || code == 0x32 || code == 0x36 || 0x60 <= code <= 0x66
  }

  predicate Readable(code: nat) {
    Populated(code) && code != 4 && code != 5
  }

  predicate Writable(code: nat) {
    1 <= code <= 3
  }

  /** The acknowledgement a request is owed, if any. */
  function AckFor(r: Request): Option<Message> {
    if r.msgType == CMD_GET && Readable(r.operCode) then
      Some(Message(CMD_ACK, r.operCode, 0))
    else if r.msgType == CMD_SET && Writable(r.operCode) then
      Some(Message(CMD_ACK, r.operCode, if r.setterRet == 0 then 0 else -1))
    else
      None
  }

  /** In the numbers of the protocol: a GET (0x1000) is answered for twelve codes, a SET
      (0x2000) for three, and nothing else is answered. */
  predicate Answered(r: Request) {
    || (r.msgType == 0x1000
        && r.operCode in {1, 2, 3, 0x32, 0x36, 0x60, 0x61, 0x62, 0x63, 0x64, 0x65, 0x66})
    || (r.msgType == 0x2000 && r.operCode in {1, 2, 3})
  }

  /** m answers r: its type is 0x8000, its code is the request's, and its error is -1 if a
      SET's setter failed and 0 otherwise. */
  predicate Answers(m: Message, r: Request) {
    && m.msgType == 0x8000 && m.operCode == r.operCode
    && m.errorCode == (if r.msgType == 0x2000 && r.setterRet != 0 then -1 else 0)
  }

  lemma AckForMeans(r: Request)
    ensures AckFor(r).Some? <==> Answered(r)
    ensures AckFor(r).Some? ==> Answers(AckFor(r).value, r)
  {
  }

  lemma AcksOfOne(r: Request)
    ensures |AcksOf([r])| == if Answered(r) then 1 else 0
    ensures Answered(r) ==> Answers(AcksOf([r])[0], r)
  {
    assert [r][..0] == [];
  }

  /** The acknowledgements a sequence of requests is owed, in order. */
  function AcksOf(requests: seq<Request>): seq<Message> {
    if requests == [] then []
    else
      var before := AcksOf(requests[..|requests| - 1]);
      match AckFor(requests[|requests| - 1])
      case Some(ack) => before + [ack]
      case None => before
  }

  lemma {:induction false} AcksOfAppend(a: seq<Request>, b: seq<Request>)
    ensures AcksOf(a + b) == AcksOf(a) + AcksOf(b)
  {
    if b == [] {
      assert a + b == a;
    } else {
      var n := |b| - 1;
      assert (a + b)[..|a + b| - 1] == a + b[..n];
      AcksOfAppend(a, b[..n]);
    }
  }

  /** Every acknowledgement answers one of the requests, and those before it are owed to
      the requests before that one. */
  lemma {:induction false} AcksAnswerRequests(requests: seq<Request>, i: nat)
    requires i < |AcksOf(requests)|
    ensures exists j :: 0 <= j < |requests|
                        && Answered(requests[j]) && Answers(AcksOf(requests)[i], requests[j])
                        && AcksOf(requests[..j]) == AcksOf(requests)[..i]
  {
    var n := |requests| - 1;
    var before := AcksOf(requests[..n]);
    if i < |before| {
      AcksAnswerRequests(requests[..n], i);
      var j :| 0 <= j < n && Answered(requests[..n][j]) && Answers(before[i], requests[..n][j])
               && AcksOf(requests[..n][..j]) == before[..i];
      assert requests[..n][..j] == requests[..j];
      assert AcksOf(requests)[..i] == before[..i];
    } else {
      AckForMeans(requests[n]);
      assert AcksOf(requests)[..i] == before;
    }
  }

  /** And every request that is to be answered is, by the acknowledgement that comes next
      after those owed before it; the others add none. */
  lemma {:induction false} RequestsAreAnswered(requests: seq<Request>, j: nat)
    requires j < |requests|
    ensures var i := |AcksOf(requests[..j])|;
            if Answered(requests[j])
            then i < |AcksOf(requests)| && Answers(AcksOf(requests)[i], requests[j])
            else AcksOf(requests[..j + 1]) == AcksOf(requests[..j])
  {
    AckForMeans(requests[j]);
    AcksOfAppend(requests[..j + 1], requests[j + 1..]);
    assert requests[..j + 1] + requests[j + 1..] == requests;
    assert requests[..j + 1][..j] == requests[..j];
  }

  // --------------------------------------------------------- the handlers

  datatype Handler =
    | NetParameter            // 0x01 - 0x03: address, mask, gateway
    | HardwareAddress         // 0x04
    | DatabaseAddress         // 0x05
    | EquipmentType           // 0x32
    | Query                   // 0x36, 0x60 - 0x66

  /** The entries init_SnmpData makes. */
  function Entries(): map<nat, Handler> {
    map[1 := NetParameter, 2 := NetParameter, 3 := NetParameter,
        4 := HardwareAddress, 5 := DatabaseAddress,
        0x32 := EquipmentType, 0x36 := Query,
        0x60 := Query, 0x61 := Query, 0x62 := Query, 0x63 := Query,
        0x64 := Query, 0x65 := Query, 0x66 := Query]
  }

  lemma EntryCodes()
    ensures Entries().Keys == {1, 2, 3, 4, 5, 0x32, 0x36, 0x60, 0x61, 0x62, 0x63, 0x64, 0x65, 0x66}
  {
  }

  /** h is the kind of handler code has. */
  predicate KindIs(code: nat, h: Handler) {
    && (h == NetParameter <==> code in {1, 2, 3})
    && (h == HardwareAddress <==> code == 4)
    && (h == DatabaseAddress <==> code == 5)
    && (h == EquipmentType <==> code == 0x32)
  }

  lemma EntryKinds(code: nat)
    requires code in Entries()
    ensures KindIs(code, Entries()[code])
  {
  }

  class Agent {
    var table: map<nat, Handler>
    var flagTrap: bool
    // The messages handed to SN_Free_Lock_Queue_Push by this thread, in order.
    ghost var offered: seq<Message>

    /** init_SnmpData */
    constructor ()
      ensures Ready() && !flagTrap && offered == []
    {
      table := Entries();
      flagTrap := false;
      offered := [];
      new;
      EntryCodes();
      forall code: nat | code in table
        ensures KindIs(code, table[code])
      {
        EntryKinds(code);
      }
    }

    ghost predicate Ready()
      reads this
    {
      && table.Keys == {1, 2, 3, 4, 5, 0x32, 0x36, 0x60, 0x61, 0x62, 0x63, 0x64, 0x65, 0x66}
      && (forall code: nat :: code in table ==> KindIs(code, table[code]))
    }

    method SnmpDataAck(operCode: nat) returns (ack: Message)
      modifies this`offered
      ensures ack == Message(CMD_ACK, operCode, 0) && offered == old(offered) + [ack]
    {
      ack := Message(CMD_ACK, operCode, 0);
      offered := offered + [ack];
    }

    method SnmpDataSetAck(operCode: nat, error: int) returns (ack: Message)
      modifies this`offered
      ensures ack == Message(CMD_ACK, operCode, error) && offered == old(offered) + [ack]
    {
      ack := Message(CMD_ACK, operCode, error);
      offered := offered + [ack];
    }

    method HandleNetParameter(r: Request) returns (ret: int)
      requires Writable(r.operCode)
      modifies this`offered
      ensures offered == old(offered) + AcksOf([r])
      ensures |offered| == |old(offered)| + if Answered(r) then 1 else 0
      ensures Answered(r) ==> Answers(offered[|old(offered)|], r)
      ensures ret == 0 <==> r.msgType == CMD_GET || (r.msgType == CMD_SET && r.setterRet == 0)
    {
      AcksOfOne(r);
      if r.msgType == CMD_GET {
        var _ := SnmpDataAck(r.operCode);
      } else if r.msgType == CMD_SET {
        if r.setterRet != 0 {
          var _ := SnmpDataSetAck(r.operCode, -1);
          return -1;
        } else {
          var _ := SnmpDataSetAck(r.operCode, 0);
        }
      } else {
        return -1;
      }
      return 0;
    }

    method HandleQuery(r: Request) returns (ret: int)
      requires Readable(r.operCode) && !Writable(r.operCode)
      modifies this`offered
      ensures offered == old(offered) + AcksOf([r])
      ensures |offered| == |old(offered)| + if r.msgType == 0x1000 then 1 else 0
      ensures r.msgType == 0x1000 ==> offered[|old(offered)|] == Message(0x8000, r.operCode, 0)
      ensures ret == 0
    {
      AcksOfOne(r);
      if r.msgType == CMD_GET {
        var _ := SnmpDataAck(r.operCode);
      }
      return 0;
    }

    method HandleEquipmentType(r: Request) returns (ret: int)
      requires Readable(r.operCode) && !Writable(r.operCode)
      modifies this`offered
      ensures offered == old(offered) + AcksOf([r])
      ensures |offered| == |old(offered)| + if r.msgType == 0x1000 then 1 else 0
      ensures r.msgType == 0x1000 ==> offered[|old(offered)|] == Message(0x8000, r.operCode, 0)
      ensures ret == 0 <==> r.msgType == CMD_GET
    {
      AcksOfOne(r);
      if r.msgType == CMD_GET {
        var _ := SnmpDataAck(r.operCode);
      } else {
        return -1;
      }
      return 0;
    }

    /** One message of the receive loop. */
    method Receive(r: Request)
      requires Ready() && Populated(r.operCode)
      modifies this`offered, this`flagTrap
      ensures flagTrap == (old(flagTrap) || r.msgType == 0x1000 || r.msgType == 0x2000)
      ensures offered == old(offered) + AcksOf([r])
      ensures |offered| == |old(offered)| + if Answered(r) then 1 else 0
      ensures Answered(r) ==> Answers(offered[|old(offered)|], r)
    {
      AcksOfOne(r);
      if (r.msgType == CMD_GET || r.msgType == CMD_SET) && !flagTrap {
        flagTrap := true;
      }
      match table[r.operCode] {
        case NetParameter => var _ := HandleNetParameter(r);
        case HardwareAddress =>
        case DatabaseAddress =>
        case EquipmentType => var _ := HandleEquipmentType(r);
        case Query => var _ := HandleQuery(r);
      }
    }

    /** Some request is a GET or a SET. */
    ghost predicate Asks(requests: seq<Request>) {
      exists i :: 0 <= i < |requests| && requests[i].msgType in {0x1000, 0x2000}
    }

    /** Any number of received messages. */
    method ReceiveAll(requests: seq<Request>)
      requires Ready()
      requires forall i :: 0 <= i < |requests| ==> Populated(requests[i].operCode)
      modifies this`offered, this`flagTrap
      ensures offered == old(offered) + AcksOf(requests)
      ensures flagTrap <==> old(flagTrap) || Asks(requests)
    {
      var n := 0;
      while n < |requests|
        invariant 0 <= n <= |requests|
        invariant Ready()
        invariant offered == old(offered) + AcksOf(requests[..n])
        invariant flagTrap <==> old(flagTrap) || Asks(requests[..n])
      {
        Receive(requests[n]);
        AcksOfAppend(requests[..n], [requests[n]]);
        assert requests[..n + 1] == requests[..n] + [requests[n]];
        n := n + 1;
      }
      assert requests[..n] == requests;
    }
  }
}
