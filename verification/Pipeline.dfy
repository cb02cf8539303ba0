/** The whole copy-trade path: publisher, network, leader store and polling follower, stepping in any
    order.  What the server receives is what the store appends. */
module Pipeline {
  import opened Broadcast
  import Leader

  /** A step of the publisher, or one at the leader or the follower other than an append. */
  datatype Event = Publisher(step: Step) | StoreFails | Restart | Poll | PollFails

  /** The event a step of the publisher makes the server store, if any. */
  function Arrival(s: State, step: Step): seq<nat> {
    var before, after := s.worker.received, Next(s, step).worker.received;
    if |before| < |after| then [after[|after| - 1]] else []
  }

  function PublisherSteps(events: seq<Event>): seq<Step>
    decreases |events|
  {
    if events == [] then []
    else
      PublisherSteps(events[..|events| - 1]) +
      match events[|events| - 1]
      case Publisher(step) => [step]
      case _ => []
  }

  function PublisherAt(capacity: int, backlog: nat, events: seq<Event>): State {
    Run(Initial(capacity, backlog), PublisherSteps(events))
  }

  /** What all this means for the leader and the follower. */
  function LeaderOps(capacity: int, backlog: nat, events: seq<Event>): seq<Leader.Op>
    decreases |events|
  {
    if events == [] then []
    else
      var most := events[..|events| - 1];
      LeaderOps(capacity, backlog, most) +
      match events[|events| - 1]
      case Publisher(step) =>
        var arrival := Arrival(PublisherAt(capacity, backlog, most), step);
        if arrival == [] then [] else [Leader.DoAppend(arrival[0])]
      case StoreFails => [Leader.DoAppendError]
      case Restart => [Leader.DoReopen]
      case Poll => [Leader.DoPoll]
      case PollFails => [Leader.DoPollError]
  }

  function LeaderAt(capacity: int, backlog: nat, n: int, events: seq<Event>): Leader.System {
    Leader.Run(n, LeaderOps(capacity, backlog, events))
  }

  function EventsOf(file: seq<Leader.Record>): (r: seq<nat>)
    ensures |r| == |file|
    ensures forall i :: 0 <= i < |file| ==> r[i] == file[i].event
  {
    seq(|file|, i requires 0 <= i < |file| => file[i].event)
  }

  lemma ActReceives(w: Worker, action: Action)
    ensures var w' := Act(w, action);
            || w'.received == w.received
            || (|w'.received| == |w.received| + 1 && w'.received[..|w.received|] == w.received)
  {
  }

  lemma NextReceives(s: State, step: Step)
    ensures Next(s, step).worker.received == s.worker.received + Arrival(s, step)
  {
    if step.Work? {
      ActReceives(s.worker, step.action);
    }
  }

  lemma LeaderSnoc(n: int, ops: seq<Leader.Op>, op: Leader.Op)
    ensures Leader.Run(n, ops + [op]) == Leader.Step(Leader.Run(n, ops), n, op)
  {
    assert (ops + [op])[..|ops|] == ops;
  }

  lemma PublisherMoves(capacity: int, backlog: nat, events: seq<Event>, event: Event)
    ensures var s := PublisherAt(capacity, backlog, events);
            PublisherAt(capacity, backlog, events + [event]) == if event.Publisher? then Next(s, event.step) else s
  {
    var steps := PublisherSteps(events);
    assert (events + [event])[..|events|] == events;
    if event.Publisher? {
      assert (steps + [event.step])[..|steps|] == steps;
    } else {
      assert PublisherSteps(events + [event]) == steps;
    }
  }

  /** What one event means for the leader and the follower. */
  lemma LeaderOpsSnoc(capacity: int, backlog: nat, events: seq<Event>, event: Event) returns (more: seq<Leader.Op>)
    ensures LeaderOps(capacity, backlog, events + [event]) == LeaderOps(capacity, backlog, events) + more
    ensures var arrival := if event.Publisher? then Arrival(PublisherAt(capacity, backlog, events), event.step) else [];
            && |more| <= 1 && (arrival != [] ==> more == [Leader.DoAppend(arrival[0])])
            && (arrival == [] && more != [] ==> !more[0].DoAppend?)
  {
    assert (events + [event])[..|events|] == events;
    more := match event
      case Publisher(step) =>
        var arrival := Arrival(PublisherAt(capacity, backlog, events), step);
        if arrival == [] then [] else [Leader.DoAppend(arrival[0])]
      case StoreFails => [Leader.DoAppendError]
      case Restart => [Leader.DoReopen]
      case Poll => [Leader.DoPoll]
      case PollFails => [Leader.DoPollError];
  }

  lemma LeaderStores(capacity: int, backlog: nat, n: int, events: seq<Event>, event: Event)
    ensures var arrival := if event.Publisher? then Arrival(PublisherAt(capacity, backlog, events), event.step) else [];
            var file := EventsOf(LeaderAt(capacity, backlog, n, events).store.file);
            EventsOf(LeaderAt(capacity, backlog, n, events + [event]).store.file) == file + arrival
  {
    var more := LeaderOpsSnoc(capacity, backlog, events, event);
    StoredBy(n, LeaderOps(capacity, backlog, events), more);
  }

  /** At most one more operation stores its event, if it is an append, and nothing else. */
  lemma StoredBy(n: int, ops: seq<Leader.Op>, more: seq<Leader.Op>)
    requires |more| <= 1
    ensures EventsOf(Leader.Run(n, ops + more).store.file) ==
            EventsOf(Leader.Run(n, ops).store.file) + if more != [] && more[0].DoAppend? then [more[0].event] else []
  {
    if more == [] {
      assert ops + more == ops;
    } else {
      LeaderSnoc(n, ops, more[0]);
      assert more == [more[0]];
    }
  }

  /** The store holds exactly what the publisher's network delivered, in that order. */
  lemma {:induction false} StoreHoldsReceived(capacity: int, backlog: nat, n: int, events: seq<Event>)
    ensures EventsOf(LeaderAt(capacity, backlog, n, events).store.file) ==
            PublisherAt(capacity, backlog, events).worker.received
    decreases |events|
  {
    if events != [] {
      var most, event := events[..|events| - 1], events[|events| - 1];
      StoreHoldsReceived(capacity, backlog, n, most);
      assert events == most + [event];
      PublisherMoves(capacity, backlog, most, event);
      LeaderStores(capacity, backlog, n, most, event);
      if event.Publisher? {
        NextReceives(PublisherAt(capacity, backlog, most), event.step);
      }
    }
  }

  /** End to end.  Whatever the interleaving and the network, the leader has the acknowledged events
      in publish order with repeats only adjacent, and at most the next event besides. */
  lemma LeaderInPublishOrder(capacity: int, backlog: nat, n: int, events: seq<Event>)
    ensures var w := PublisherAt(capacity, backlog, events).worker;
            var stored := Squeeze(EventsOf(LeaderAt(capacity, backlog, n, events).store.file));
            stored == w.acked || (Carried(w) != [] && stored == w.acked + [Carried(w)[0]])
  {
    StoreHoldsReceived(capacity, backlog, n, events);
    Conservation(capacity, backlog, PublisherSteps(events));
  }

  /** And a follower that keeps up has printed just that, right after a poll. */
  lemma FollowerMirrors(capacity: int, backlog: nat, n: int, events: seq<Event>)
    requires events != [] && events[|events| - 1] == Poll
    requires Leader.KeepsUp(n, LeaderOps(capacity, backlog, events))
    ensures var w := PublisherAt(capacity, backlog, events).worker;
            var shown := Squeeze(EventsOf(LeaderAt(capacity, backlog, n, events).follower.printed));
            shown == w.acked || (Carried(w) != [] && shown == w.acked + [Carried(w)[0]])
  {
    LeaderInPublishOrder(capacity, backlog, n, events);
    Leader.NothingMissed(n, LeaderOps(capacity, backlog, events));
  }

  lemma {:induction false} SqueezeSortedIsSorted(xs: seq<nat>)
    requires forall i, j :: 0 <= i < j < |Squeeze(xs)| ==> Squeeze(xs)[i] < Squeeze(xs)[j]
    ensures forall i, j :: 0 <= i < j < |xs| ==> xs[i] <= xs[j]
    decreases |xs|
  {
    if |xs| > 1 {
      var most, last := xs[..|xs| - 1], xs[|xs| - 1];
      SqueezeLast(most);
      SqueezeLast(xs);
      var squeezed := Squeeze(most);
      assert forall i :: 0 <= i < |squeezed| ==> Squeeze(xs)[i] == squeezed[i];
      SqueezeSortedIsSorted(most);
      assert last >= most[|most| - 1];
    }
  }

  lemma {:induction false} AscendingEmbeds(file: seq<Leader.Record>, a: Leader.Record, b: Leader.Record)
    requires Leader.Ascending(file) && a in file && b in file && a.seqNo < b.seqNo
    requires forall i, j :: 0 <= i < j < |file| ==> file[i].event <= file[j].event
    ensures a.event <= b.event
  {
    var i :| 0 <= i < |file| && file[i] == a;
    var j :| 0 <= j < |file| && file[j] == b;
  }

  /** Even a follower that falls behind never prints out of order: the events it prints come in
      publish order, and none of them had been evicted. */
  lemma FollowerInPublishOrder(capacity: int, backlog: nat, n: int, events: seq<Event>)
    ensures var p := PublisherAt(capacity, backlog, events).producer;
            var printed := LeaderAt(capacity, backlog, n, events).follower.printed;
            && (forall i, j :: 0 <= i < j < |printed| ==> printed[i].event <= printed[j].event)
            && (forall i :: 0 <= i < |printed| ==> printed[i].event < Settled(p) && printed[i].event !in p.evicted)
  {
    var p, sys := PublisherAt(capacity, backlog, events).producer, LeaderAt(capacity, backlog, n, events);
    var file, printed := sys.store.file, sys.follower.printed;
    var received := PublisherAt(capacity, backlog, events).worker.received;
    StoreHoldsReceived(capacity, backlog, n, events);
    ReceivedInOrder(capacity, backlog, PublisherSteps(events));
    assert InOrder(received, p);
    Leader.RunInv(n, LeaderOps(capacity, backlog, events));
    assert EventsOf(file) == received;
    assert forall i :: 0 <= i < |file| ==> file[i].event == received[i];
    forall i | 0 <= i < |printed| ensures printed[i].event < Settled(p) && printed[i].event !in p.evicted {
      var k :| 0 <= k < |file| && file[k] == printed[i];
      assert received[k] == printed[i].event;
    }
    forall i, j | 0 <= i < j < |printed| ensures printed[i].event <= printed[j].event {
      AscendingEmbeds(file, printed[i], printed[j]);
    }
  }

  /** In publish order and free of evicted events. */
  predicate InOrder(received: seq<nat>, p: Producer) {
    && (forall i, j :: 0 <= i < j < |received| ==> received[i] <= received[j])
    && (forall i :: 0 <= i < |received| ==> received[i] < Settled(p) && received[i] !in p.evicted)
  }

  /** What the server has received is. */
  lemma ReceivedInOrder(capacity: int, backlog: nat, steps: seq<Step>)
    ensures var s := Run(Initial(capacity, backlog), steps); InOrder(s.worker.received, s.producer)
  {
    var s := Run(Initial(capacity, backlog), steps);
    var w := s.worker;
    Conservation(capacity, backlog, steps);
    var account := Survivors(Settled(s.producer), s.producer.evicted);
    SurvivorsSorted(Settled(s.producer), s.producer.evicted);
    assert Squeeze(w.received) == account[..|Squeeze(w.received)|] by {
      assert w.acked + Carried(w) + s.queue == account;
    }
    SqueezeSortedIsSorted(w.received);
    forall i | 0 <= i < |w.received|
      ensures w.received[i] < Settled(s.producer) && w.received[i] !in s.producer.evicted
    {
      SqueezeMember(w.received, i);
      SurvivorsMember(Settled(s.producer), s.producer.evicted, w.received[i]);
    }
  }

  lemma {:induction false} SqueezeMember(xs: seq<nat>, i: nat)
    requires i < |xs|
    ensures xs[i] in Squeeze(xs)
    decreases |xs|
  {
    if |xs| > 1 {
      if i < |xs| - 1 {
        SqueezeMember(xs[..|xs| - 1], i);
      } else {
        SqueezeLast(xs);
      }
    }
  }
}
