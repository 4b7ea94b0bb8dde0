/**
 The bounded message queue of freeLockQ.c.  The cstl container underneath is a sequence,
 front first, whose operations are atomic; the wrappers add the size limit and the
 drop-oldest policy.
 */
module FreeLockQueue {

  const QUEUE_MAX_SIZE: nat := 2048

  /** sizeof(QUEUE_MSG_T) on the 32-bit target: three words and a 1280-byte union. */
  const QUEUE_LEN: nat := 1292

  newtype uint16 = x: int | 0 <= x < 0x1_0000
  type Byte = bv8

  /** A queued SN_Msg_Param.  Only the first `length` bytes of `data` were ever written. */
  datatype Node = Node(cmd: uint16, length: uint16, data: seq<Byte>) {
    ghost predicate WellFormed() {
      length as nat <= QUEUE_LEN && |data| == QUEUE_LEN
    }
  }

  /** The caller's SN_Msg_Param, filled in place by Get. */
  class MessageBuffer {
    var node: Node

    constructor (node: Node)
      ensures this.node == node
    {
      this.node := node;
    }
  }

  class Queue {
    var items: seq<Node>

    // History: everything ever pushed, and how the front came to move.
    ghost var pushed: seq<Node>
    ghost var pops: nat
    ghost var evictions: nat

    ghost predicate Valid()
      reads this
    {
      && |items| <= QUEUE_MAX_SIZE
      && pops + evictions <= |pushed|
      && items == pushed[pops + evictions..]
      && (forall i :: 0 <= i < |pushed| ==> pushed[i].WellFormed())
    }

    constructor ()
      ensures Valid()
      ensures items == [] && pushed == [] && pops == 0 && evictions == 0
    {
      items, pushed, pops, evictions := [], [], 0, 0;
    }

    method Full() returns (r: int)
      ensures r == 1 || r == 0
      ensures r == 1 <==> |items| >= 2048
    {
      if |items| >= QUEUE_MAX_SIZE {
        return 1;
      }
      return 0;
    }

    /** Copies the oldest message out without removing it: the caller receives the cmd,
        the length and the bytes of the message pushed at position pops + evictions. */
    method Get(buffer: MessageBuffer) returns (ret: int)
      requires Valid()
      modifies buffer
      ensures ret == if items == [] then -1 else 0
      ensures ret == -1 ==> buffer.node == old(buffer.node)
      ensures ret == 0 ==> pops + evictions < |pushed| && buffer.node == pushed[pops + evictions]
    {
      if |items| <= 0 {
        return -1;
      }
      buffer.node := items[0];
      return 0;
    }

    method Pop() returns (ret: int)
      requires Valid()
      modifies this
      ensures Valid()
      ensures ret == if old(items) == [] then -1 else 0
      ensures pushed == old(pushed) && evictions == old(evictions)
      ensures pops == if ret == 0 then old(pops) + 1 else old(pops)
      ensures items == Apply(old(items), Call<Node>.Pop)
    {
      if items == [] {
        return -1;
      }
      items := items[1..];
      pops := pops + 1;
      return 0;
    }

    /** Appends a message.  A full queue first loses its oldest message, so the push
        itself never fails here; an eviction happens only at full length. */
    method Push(data: seq<Byte>, length: uint16, cmd: uint16) returns (ret: int)
      requires Valid()
      requires length as nat <= |data| && length as nat <= QUEUE_LEN
      modifies this
      ensures Valid()
      ensures ret == 0
      ensures pops == old(pops)
      ensures evictions == old(evictions) + (if |old(items)| == 2048 then 1 else 0)
      ensures |pushed| == |old(pushed)| + 1 && pushed[..|old(pushed)|] == old(pushed)
      ensures items == Apply(old(items), Call.Push(pushed[|old(pushed)|]))
      ensures var last := pushed[|old(pushed)|];
              last.cmd == cmd && last.length == length && last.data[..length] == data[..length]
    {
      var full := Full();
      if full == 1 {
        ret := Pop();
        if ret == -1 {
          return -1;
        }
        pops, evictions := pops - 1, evictions + 1;
      }
      // The tail of the stack variable is whatever was there before.
      var tail: seq<Byte> :| |tail| == QUEUE_LEN - length as nat by {
        assert |seq(QUEUE_LEN - length as nat, _ => 0 as Byte)| == QUEUE_LEN - length as nat;
      }
      var node := Node(cmd, length, data[..length] + tail);
      items := items + [node];
      pushed := pushed + [node];
      return 0;
    }
  }

  // ------------------------------------------------ the queue as a value

  /** A call on the queue.  A Get changes nothing, so it needs no trace here. */
  datatype Call<T> = Push(message: T) | Pop

  /** What one call does to the contents. */
  function Apply<T>(items: seq<T>, call: Call<T>): seq<T> {
    match call
    case Push(m) => (if |items| >= QUEUE_MAX_SIZE then items[1..] else items) + [m]
    case Pop => if items == [] then [] else items[1..]
  }

  function Contents<T>(calls: seq<Call<T>>): seq<T> {
    if calls == [] then []
    else Apply(Contents(calls[..|calls| - 1]), calls[|calls| - 1])
  }

  function Pushes<T>(calls: seq<Call<T>>): seq<T> {
    if calls == [] then []
    else
      var before := Pushes(calls[..|calls| - 1]);
      match calls[|calls| - 1]
      case Push(m) => before + [m]
      case Pop => before
  }

  /** Over any mix of calls the contents are a bounded run ending at the latest push. */
  lemma {:induction false} ContentsAreLatestPushes<T>(calls: seq<Call<T>>)
    ensures |Contents(calls)| <= 2048
    ensures |Contents(calls)| <= |Pushes(calls)|
    ensures Contents(calls) == Pushes(calls)[|Pushes(calls)| - |Contents(calls)|..]
  {
    if calls != [] {
      ContentsAreLatestPushes(calls[..|calls| - 1]);
    }
  }

  /** With no pops the queue holds exactly the latest QUEUE_MAX_SIZE messages, or all of
      them if there are fewer. */
  lemma {:induction false} PushOnlyKeepsNewest<T>(calls: seq<Call<T>>)
    requires forall i :: 0 <= i < |calls| ==> calls[i].Push?
    ensures |Pushes(calls)| == |calls|
    ensures |Contents(calls)| == if |calls| < 2048 then |calls| else 2048
  {
    if calls != [] {
      PushOnlyKeepsNewest(calls[..|calls| - 1]);
    }
  }
}
