/** The transmit queue of a worker: a buffer that fills from `head` to `tail`,
    flushed in bursts to a device that takes as many packets as it likes. */
module TxQueue {

  const QueueSize := 4096     // TX_QUEUE_SIZE
  const Tries := 8

  /** A packet was handed to the device, or freed without being sent. */
  datatype Fate<P> = Sent(packet: P) | Dropped(packet: P)

  function Packets<P>(fates: seq<Fate<P>>): seq<P> {
    if fates == [] then [] else Packets(fates[..|fates| - 1]) + [fates[|fates| - 1].packet]
  }

  function SentOf<P>(fates: seq<Fate<P>>): seq<P> {
    if fates == [] then []
    else SentOf(fates[..|fates| - 1]) + if fates[|fates| - 1].Sent? then [fates[|fates| - 1].packet] else []
  }

  function AllSent<P>(ps: seq<P>): seq<Fate<P>> { seq(|ps|, i requires 0 <= i < |ps| => Sent(ps[i])) }

  function AllDropped<P>(ps: seq<P>): seq<Fate<P>> { seq(|ps|, i requires 0 <= i < |ps| => Dropped(ps[i])) }

  lemma {:induction false} PacketsAppend<P>(a: seq<Fate<P>>, b: seq<Fate<P>>)
    ensures Packets(a + b) == Packets(a) + Packets(b)
    ensures SentOf(a + b) == SentOf(a) + SentOf(b)
    decreases |b|
  {
    if b == [] {
      assert a + b == a;
    } else {
      var n := |b| - 1;
      assert (a + b)[..|a + b| - 1] == a + b[..n];
      PacketsAppend(a, b[..n]);
    }
  }

  lemma {:induction false} PacketsOfAll<P>(ps: seq<P>)
    ensures Packets(AllSent(ps)) == ps == SentOf(AllSent(ps))
    ensures Packets(AllDropped(ps)) == ps && SentOf(AllDropped(ps)) == []
    decreases |ps|
  {
    if ps != [] {
      var n := |ps| - 1;
      PacketsOfAll(ps[..n]);
      assert AllSent(ps)[..n] == AllSent(ps[..n]) && AllDropped(ps)[..n] == AllDropped(ps[..n]);
      assert ps[..n] + [ps[n]] == ps;
    }
  }

  lemma {:induction false} SentAtMost<P>(fates: seq<Fate<P>>)
    ensures |Packets(fates)| == |fates| && |SentOf(fates)| <= |fates|
    decreases |fates|
  {
    if fates != [] { SentAtMost(fates[..|fates| - 1]); }
  }

  lemma Leave<P>(gone: seq<Fate<P>>, ps: seq<P>, rest: seq<P>)
    ensures Packets(gone + AllSent(ps)) + rest == Packets(gone) + (ps + rest)
    ensures SentOf(gone + AllSent(ps)) == SentOf(gone) + ps
    ensures Packets(gone + AllDropped(ps)) == Packets(gone) + ps && SentOf(gone + AllDropped(ps)) == SentOf(gone)
    ensures |SentOf(gone) + ps| == |SentOf(gone)| + |ps| && |AllSent(ps)| == |AllDropped(ps)| == |ps|
  {
    PacketsAppend(gone, AllSent(ps));
    PacketsAppend(gone, AllDropped(ps));
    PacketsOfAll(ps);
    hide Packets, SentOf;
  }

  /** The books after `n` more of `w` have been sent. */
  lemma Booked<P>(g: seq<Fate<P>>, w: seq<P>, k: nat, n: nat)
    requires k + n <= |w|
    ensures var gone, gone' := g + AllSent(w[..k]), g + AllSent(w[..k + n]);
            && Packets(gone') + w[k..][n..] == Packets(gone) + w[k..] && w[k..][n..] == w[k + n..]
            && SentOf(gone') == SentOf(gone) + w[k..][..n]
            && |gone'| - |SentOf(gone')| == |gone| - |SentOf(gone)|
  {
    var gone, ps, rest := g + AllSent(w[..k]), w[k..][..n], w[k..][n..];
    Leave(gone, ps, rest);
    assert ps + rest == w[k..];
    assert gone + AllSent(ps) == g + AllSent(w[..k + n]);
  }

  lemma NoneLeft<P>(gone: seq<Fate<P>>, w: seq<P>, k: nat)
    requires k <= |w| && w[k..] == []
    ensures k == |w| && gone + AllDropped(w[k..]) == gone
  {
  }

  /** Every packet is sent, dropped or still waiting. */
  lemma Balance<P>(q: Queue<P>)
    requires q.Accounted()
    ensures q.pktTx == |q.device.wire| + q.txDrop + (q.tail - q.head)
  {
    SentAtMost(q.gone);
  }

  // ---------------------------------------------------------------- the device

  /** rte_eth_tx_burst: a device takes any number of the packets offered, from the front. */
  class Device<P(==)> {
    ghost var wire: seq<P>
    ghost var calls: nat

    constructor ()
      ensures wire == [] && calls == 0
    {
      wire, calls := [], 0;
    }

    method Burst(ghost offered: seq<P>, num: nat) returns (n: nat)
      requires |offered| == num
      modifies this
      ensures n <= num && wire == old(wire) + offered[..n] && calls == old(calls) + 1
    {
      n :| 0 <= n <= num;
      wire, calls := wire + offered[..n], calls + 1;
    }
  }

  lemma Facts<P>(q: Queue<P>, w: seq<P>, g: seq<Fate<P>>, k: nat)
    requires q.Progress(w, g, k)
    ensures k <= |w| && q.tx.Length == QueueSize && 1 <= q.txBurst <= 255 && q.head <= q.tail <= QueueSize
    ensures q.gone == g + AllSent(w[..k]) && q.Waiting() == w[k..] && q.arrived == Packets(q.gone) + w[k..]
    ensures q.device.wire == SentOf(q.gone) && q.txDrop == |q.gone| - |SentOf(q.gone)| && q.pktTx == |q.arrived|
  {
  }

  lemma Books<P>(q: Queue<P>, w: seq<P>, g: seq<Fate<P>>, k: nat)
    requires k <= |w| && q.tx.Length == QueueSize && 1 <= q.txBurst <= 255 && q.head <= q.tail <= QueueSize
    requires q.gone == g + AllSent(w[..k]) && q.Waiting() == w[k..] && q.arrived == Packets(q.gone) + w[k..]
    requires q.device.wire == SentOf(q.gone) && q.txDrop == |q.gone| - |SentOf(q.gone)| && q.pktTx == |q.arrived|
    ensures q.Progress(w, g, k)
  {
  }

  lemma Beginning<P>(q: Queue<P>)
    requires q.Accounted()
    ensures q.head <= q.tail <= q.tx.Length == QueueSize && q.Progress(q.Waiting(), q.gone, 0)
    ensures q.Waiting() == q.Waiting()[0..] && q.gone == q.gone + AllSent(q.Waiting()[..0])
  {
  }

  lemma Kept<P>(q: Queue<P>, w: seq<P>, g: seq<Fate<P>>, k: nat)
    requires q.Progress(w, g, k) && q.tail < QueueSize
    ensures q.Valid() && k <= |w| && q.Waiting() == w[k..] && q.gone == g + AllSent(w[..k])
  {
  }

  // ---------------------------------------------------------------- the queue

  class Queue<P(==)> {
    const device: Device<P>
    const tx: array<P>
    const txBurst: nat
    var head: nat
    var tail: nat
    var pktTx: nat                  // the statistics
    var txDrop: nat
    ghost var arrived: seq<P>       // every packet ever given to the queue
    ghost var gone: seq<Fate<P>>    // those that left it, in order

    ghost function Waiting(): seq<P>
      requires head <= tail <= tx.Length
      reads this`head, this`tail, tx
    {
      tx[head..tail]
    }

    /** Each packet is sent, dropped or waiting, once and in the order of arrival, and the counters tell how many. */
    ghost predicate Accounted()
      reads this, tx, device
    {
      && tx.Length == QueueSize && 1 <= txBurst <= 255 && head <= tail <= QueueSize
      && arrived == Packets(gone) + Waiting()
      && device.wire == SentOf(gone)
      && txDrop == |gone| - |SentOf(gone)| && pktTx == |arrived|
    }

    /** What holds between sends. */
    ghost predicate Valid()
      reads this, tx, device
    {
      Accounted() && tail < QueueSize
    }

    constructor (dummy: P, burst: nat)
      requires 1 <= burst <= 255
      ensures Valid() && arrived == [] && fresh(tx) && fresh(device)
    {
      device := new Device();
      tx := new P[QueueSize](_ => dummy);
      txBurst := burst;
      head, tail, pktTx, txDrop := 0, 0, 0, 0;
      arrived, gone := [], [];
    }

    /** In a flush of `w`, begun after `g` had gone, the device has taken `k`. */
    ghost predicate Progress(w: seq<P>, g: seq<Fate<P>>, k: nat)
      reads this, tx, device
    {
      k <= |w| && Accounted() && Waiting() == w[k..] && gone == g + AllSent(w[..k])
    }

    /** One burst: the device takes the first `n` of it. */
    method Take() returns (n: nat)
      requires head < tail <= tx.Length
      modifies this`head, device
      ensures n <= |old(Waiting())| && n <= txBurst && head == old(head) + n <= tail
      ensures Waiting() == old(Waiting())[n..] && device.wire == old(device.wire) + old(Waiting())[..n]
      ensures device.calls == old(device.calls) + 1
    {
      var num := tail - head;
      if num > txBurst { num := txBurst; }
      n := device.Burst(tx[head..][..num], num);
      head := head + n;
    }

    /** The same with the books kept. */
    method Offer(ghost w: seq<P>, ghost g: seq<Fate<P>>, ghost k: nat) returns (n: nat)
      requires Progress(w, g, k) && head < tail
      modifies this`head, this`gone, device
      ensures Progress(w, g, k + n) && n <= txBurst && head <= tail <= QueueSize
      ensures device.calls == old(device.calls) + 1
    {
      hide AllSent, Packets, SentOf, Progress, Accounted;
      Facts(this, w, g, k);
      n := Take();
      Booked(g, w, k, n);
      ghost var gone' := g + AllSent(w[..k + n]);
      gone := gone';
      Books(this, w, g, k + n);
    }

    /** Everything has been sent: back to the start of the buffer. */
    method Restart(ghost w: seq<P>, ghost g: seq<Fate<P>>, ghost k: nat)
      requires Progress(w, g, k) && head == tail
      modifies this`head, this`tail
      ensures Valid() && k == |w| && head == tail == 0 && Waiting() == []
      ensures gone == g + AllSent(w[..k]) && gone == g + AllSent(w[..k]) + AllDropped(w[k..])
    {
      assert Waiting() == [];
      NoneLeft(gone, w, k);
      head, tail := 0, 0;
    }

    /** Everything still queued is freed. */
    method DropRest(ghost w: seq<P>, ghost g: seq<Fate<P>>, ghost k: nat)
      requires Progress(w, g, k)
      modifies this`head, this`tail, this`txDrop, this`gone
      ensures Valid() && k <= |w| && head == tail == 0 && Waiting() == []
      ensures gone == g + AllSent(w[..k]) + AllDropped(w[k..])
    {
      Leave(gone, Waiting(), []);
      gone := gone + AllDropped(Waiting());
      txDrop := txDrop + (tail - head);
      head, tail := 0, 0;
    }

    /** work_space_tx_flush. A queue with room offers one burst and drops nothing; a
        full one offers up to eight and is empty afterwards: what the device then
        still refuses is dropped. The device took the first `k`. */
    method Flush() returns (ghost k: nat)
      requires Accounted() && (tail == QueueSize ==> head < tail)
      modifies this`head, this`tail, this`txDrop, this`gone, device
      ensures Valid() && k <= |old(Waiting())|
      ensures old(tail) < QueueSize ==>
                && k <= txBurst && txDrop == old(txDrop)
                && Waiting() == old(Waiting())[k..] && gone == old(gone) + AllSent(old(Waiting())[..k])
      ensures old(tail) == QueueSize ==>
                && Waiting() == []
                && gone == old(gone) + AllSent(old(Waiting())[..k]) + AllDropped(old(Waiting())[k..])
      ensures device.calls <= old(device.calls) + Tries
      ensures txDrop > old(txDrop) ==> device.calls == old(device.calls) + Tries
    {
      ghost var w, g := Waiting(), gone;
      k := 0;
      Beginning(this);
      hide Accounted, AllSent, AllDropped, Progress;
      if head == tail { return; }
      var i := 0;
      while i < Tries
        invariant i <= Tries && Progress(w, g, k) && tail == old(tail) && head < tail <= QueueSize
        invariant if i == 0 then k == 0 else tail == QueueSize
        invariant txDrop == old(txDrop) && device.calls == old(device.calls) + i
      {
        var n := Offer(w, g, k);
        k := k + n;
        if head == tail {
          Restart(w, g, k);
          return;
        } else if tail < QueueSize {
          Kept(this, w, g, k);
          return;
        }
        i := i + 1;
      }
      DropRest(w, g, k);
    }

    /** work_space_tx_send. */
    method Send(p: P)
      requires Valid()
      modifies this`head, this`tail, this`pktTx, this`txDrop, this`arrived, this`gone, tx, device
      ensures Valid() && arrived == old(arrived) + [p] && old(gone) <= gone
      ensures old(tail) < QueueSize - 1 ==> txDrop == old(txDrop)
    {
      pktTx := pktTx + 1;
      tx[tail] := p;
      tail := tail + 1;
      arrived := arrived + [p];
      if tail - head >= txBurst || tail == QueueSize {
        ghost var k := Flush();
      }
    }
  }
}
