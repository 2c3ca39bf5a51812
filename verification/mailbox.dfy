/**
 * A buffered Go channel of messages, as used for every listener's inbound queue
 * (`make(chan ACARSMessageInterface, n)`): FIFO, bounded by its capacity.
 */
module Mailbox {
  import opened Wrappers
  import opened Messages

  class Inbox {
    const capacity: nat
    var items: seq<Message>

    constructor (capacity: nat)
      ensures this.capacity == capacity && items == []
    {
      this.capacity := capacity;
      items := [];
    }

    /** The non-blocking send `select { case ch <- m: default: }`: delivered only when there is room. */
    method TrySend(m: Message) returns (sent: bool)
      modifies this
      ensures sent <==> |old(items)| < capacity
      ensures items == Offered(old(items), capacity, m, 1)
    {
      sent := |items| < capacity;
      if sent {
        items := items + [m];
      }
    }

    /** One receive `<-ch`; `None` stands for a receiver that would block on an empty queue. */
    method Receive() returns (m: Option<Message>)
      modifies this
      ensures old(items) == [] ==> m.None? && items == []
      ensures old(items) != [] ==> m == Some(old(items)[0]) && items == old(items)[1..]
    {
      if items == [] {
        m := None;
      } else {
        m := Some(items[0]);
        items := items[1..];
      }
    }
  }

  function Min(a: int, b: int): int { if a <= b then a else b }

  /**
   * The queue left by `k` non-blocking sends of `m` into a queue holding `s` with the
   * given capacity: copies of `m` are appended while there is room, the rest are dropped.
   */
  function Offered(s: seq<Message>, capacity: nat, m: Message, k: nat): seq<Message>
    decreases k
  {
    if k == 0 || |s| >= capacity then s else Offered(s + [m], capacity, m, k - 1)
  }

  /**
   * What the sends leave: a full queue is untouched; otherwise the old contents stay
   * in front, followed by as many copies of `m` as fit, never beyond the capacity.
   */
  lemma {:induction false} OfferedShape(s: seq<Message>, capacity: nat, m: Message, k: nat)
    ensures |s| >= capacity ==> Offered(s, capacity, m, k) == s
    ensures |s| < capacity ==> |Offered(s, capacity, m, k)| == Min(|s| + k, capacity)
    ensures |Offered(s, capacity, m, k)| >= |s| && Offered(s, capacity, m, k)[..|s|] == s
    ensures forall i | |s| <= i < |Offered(s, capacity, m, k)| :: Offered(s, capacity, m, k)[i] == m
    decreases k
  {
    if k != 0 && |s| < capacity {
      OfferedShape(s + [m], capacity, m, k - 1);
      assert (s + [m])[..|s|] == s;
    }
  }

  /** One more send after `k` sends is the same as `k + 1` sends. */
  lemma {:induction false} OfferedOneMore(s: seq<Message>, capacity: nat, m: Message, k: nat)
    ensures Offered(Offered(s, capacity, m, k), capacity, m, 1) == Offered(s, capacity, m, k + 1)
    decreases k
  {
    if k != 0 && |s| < capacity {
      OfferedOneMore(s + [m], capacity, m, k - 1);
    }
  }

  /**
   * The fan-out loop of a channel's dispatcher over its listener list: a non-blocking
   * send of `msg` to each listener in order.
   */
  method Broadcast(listeners: seq<Inbox>, msg: Message)
    modifies set l | l in listeners
    ensures forall l | l in listeners ::
      l.items == Offered(old(l.items), l.capacity, msg, multiset(listeners)[l])
  {
    for i := 0 to |listeners|
      invariant forall l | l in listeners ::
        l.items == Offered(old(l.items), l.capacity, msg, multiset(listeners[..i])[l])
    {
      var target := listeners[i];
      assert listeners[..i + 1] == listeners[..i] + [target];
      ghost var sent := multiset(listeners[..i]);
      var _ := target.TrySend(msg);
      forall l | l in listeners
        ensures l.items == Offered(old(l.items), l.capacity, msg, multiset(listeners[..i + 1])[l])
      {
        if l == target {
          OfferedOneMore(old(l.items), l.capacity, msg, sent[l]);
        }
      }
    }
    assert listeners[..|listeners|] == listeners;
  }
}
