/** The publisher as an object: the trading loop's `publish` and the worker's handling of one event,
    with the code's own loops, each proved to be steps of `Broadcast`. */
module BroadcastClass {
  import opened Broadcast

  /** `net(k)` is what the k-th send of a call comes to. */
  class Broadcaster {
    const capacity: int
    var queue: seq<nat>
    var stop: bool
    var dropped: nat
    ghost var producer: Producer   // its `dropped` is the field above
    var spool: seq<nat>
    var sent: nat
    var spooled: nat
    ghost var pc: WorkerPc
    ghost var acked: seq<nat>
    ghost var received: seq<nat>

    ghost function WorkerModel(): Worker
      reads this`spool, this`sent, this`spooled, this`pc, this`acked, this`received
    {
      Worker(pc, spool, sent, spooled, acked, received)
    }

    ghost function Model(): State
      reads this
    {
      State(capacity, queue, stop, producer.(dropped := dropped), WorkerModel())
    }

    constructor (capacity: int, backlog: nat)
      ensures Model() == Initial(capacity, backlog)
    {
      this.capacity := capacity;
      queue, stop, dropped, producer := [], false, 0, Producer(Idle, 0, backlog, {}, {}, 0);
      spool, sent, spooled := Survivors(backlog, {}), 0, 0;
      pc, acked, received := Waiting, [], [];
    }

    /** `put_nowait`. */
    method PutNowait(ev: nat) returns (ok: bool)
      modifies this`queue
      ensures ok == !IsFull(capacity, old(queue))
      ensures queue == if ok then old(queue) + [ev] else old(queue)
    {
      if capacity <= 0 || |queue| < capacity {
        queue := queue + [ev];
        return true;
      }
      return false;
    }

    /** `publish`, up to the first put.  The worker may act between the three parts. */
    method PublishPut(ev: nat) returns (ok: bool)
      requires producer.pc.Idle? && ev == producer.calls
      modifies this`queue, this`producer
      ensures ok == producer.pc.Idle?
      ensures Model() == Next(old(Model()), Publish)
    {
      producer := producer.(calls := producer.calls + 1);
      ok := PutNowait(ev);
      if !ok {
        producer := producer.(pc := FoundFull(ev));
      }
    }

    /** `publish`, the get that drops the oldest. */
    method PublishEvict(ev: nat)
      requires producer.pc == FoundFull(ev)
      modifies this`queue, this`producer, this`dropped
      ensures Model() == Next(old(Model()), Evict)
    {
      if queue != [] {
        producer := producer.(evicted := producer.evicted + {queue[0]});
        queue := queue[1..];
      } else {
        producer := producer.(emptyGets := producer.emptyGets + 1);
      }
      dropped := dropped + 1;
      producer := producer.(pc := Retrying(ev));
    }

    /** `publish`, the second put. */
    method PublishRetry(ev: nat)
      requires producer.pc == Retrying(ev)
      modifies this`queue, this`producer, this`dropped
      ensures Model() == Next(old(Model()), Retry)
    {
      var ok := PutNowait(ev);
      if !ok {
        producer := producer.(rejected := producer.rejected + {ev});
        dropped := dropped + 1;
      }
      producer := producer.(pc := Idle);
    }

    /** The worker's `get`. */
    method TakeOne() returns (ev: nat)
      requires pc.Waiting? && queue != []
      modifies this`queue, this`pc
      ensures pc == Taken(ev)
      ensures Model() == Next(old(Model()), Take)
    {
      ev := queue[0];
      queue := queue[1..];
      pc := Taken(ev);
    }

    method Send(ev: nat, reply: Reply) returns (ok: bool)
      modifies this`sent, this`acked, this`received
      ensures ok == reply.Acked?
      ensures received == Deliver(old(received), ev, reply)
      ensures acked == (if ok then old(acked) + [ev] else old(acked))
      ensures sent == (if ok then old(sent) + 1 else old(sent))
    {
      received := Deliver(received, ev, reply);
      ok := reply.Acked?;
      if ok {
        sent := sent + 1;
        acked := acked + [ev];
      }
    }

    /** `_spool`; `next` is where the worker goes from there. */
    method Spool(ev: nat, ghost next: WorkerPc)
      modifies this`spool, this`spooled, this`pc
      ensures spool == old(spool) + [ev] && spooled == old(spooled) + 1 && pc == next
    {
      spool := spool + [ev];
      spooled := spooled + 1;
      pc := next;
    }

    /** One line of the drained spool: posted, or written back with everything after it. */
    method DrainLine(lines: seq<nat>, i: nat, reply: Reply) returns (ok: bool)
      requires i < |lines| && pc == Draining(lines[i..])
      modifies this`spool, this`pc, this`sent, this`acked, this`received
      ensures ok == reply.Acked?
      ensures WorkerModel() == Act(old(WorkerModel()), DrainNext(reply))
      ensures ok ==> pc == Draining(lines[i + 1..])
    {
      ok := Send(lines[i], reply);
      if ok {
        pc := Draining(lines[i + 1..]);
      } else {
        spool := spool + lines[i..];
        pc := Waiting;
      }
    }

    /** Replays the spool oldest-first and puts the rest back on the first failure. */
    method DrainSpool(net: nat -> Reply, first: nat)
      requires pc.Reopening?
      modifies this`spool, this`pc, this`sent, this`acked, this`received
      ensures WorkerModel() == Drained(Act(old(WorkerModel()), Reopen), net, first)
    {
      var lines := spool;
      spool := [];
      pc := Draining(lines);
      ghost var goal := Drained(WorkerModel(), net, first);
      var i := 0;
      while i < |lines|
        invariant 0 <= i <= |lines|
        invariant pc == Draining(lines[i..])
        invariant Drained(WorkerModel(), net, first + i) == goal
      {
        ghost var was := WorkerModel();
        assert was.pc.rest != [] && was.pc.rest[0] == lines[i];
        var ok := DrainLine(lines, i, net(first + i));
        assert ok ==> Drained(WorkerModel(), net, first + i + 1) == Drained(was, net, first + i);
        if !ok {
          assert WorkerModel() == goal;
          return;
        }
        i := i + 1;
      }
      pc := Waiting;
    }

    /** `_handle`. */
    method Handle(ev: nat, net: nat -> Reply)
      requires pc == Taken(ev)
      modifies this`spool, this`pc, this`sent, this`spooled, this`acked, this`received
      ensures WorkerModel() == Handled(old(WorkerModel()), net)
    {
      if spool != [] {
        Spool(ev, Reopening);
        DrainSpool(net, 0);
      } else {
        var ok := Send(ev, net(0));
        if ok {
          pc := Reopening;
          DrainSpool(net, 1);
        } else {
          Spool(ev, Waiting);
        }
      }
    }
  }
}
