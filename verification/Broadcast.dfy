/** The copy-trade publisher: a bounded drop-oldest queue between the trading loop (the producer)
    and a worker thread that posts events to the leader and falls back to a disk spool.

    An event is represented by its publish number: event k is the payload of the k-th `publish`
    call.  The events left in the spool by an earlier process take the first numbers.

    The module is a step system: every atomic action of the producer and of the worker is a step, and
    a run is any sequence of steps, so the lemmas cover every interleaving. */
module Broadcast {

  /** What one HTTP attempt comes to.  `LostAck`: the server stored the event, but the worker saw
      an exception or an error status. */
  datatype Reply = Acked | Refused | LostAck

  /** Where the one producer stands inside `publish`. */
  datatype ProducerPc = Idle | FoundFull(ev: nat) | Retrying(ev: nat)

  datatype Producer = Producer(
    pc: ProducerPc,
    dropped: nat,
    calls: nat,           // publish numbers handed out
    evicted: set<nat>,    // taken out of the full queue
    rejected: set<nat>,   // not accepted by the second put
    emptyGets: nat)       // times the queue was full for the put and empty for the get

  /** Where the worker stands inside `_run` / `_handle` / `_drain_spool`. */
  datatype WorkerPc =
    | Waiting
    | Taken(ev: nat)            // got an event, has not looked at the spool yet
    | Sending(ev: nat)          // no backlog: about to post the event
    | Reopening                 // about to read and remove the spool file
    | Draining(rest: seq<nat>)  // spool file removed, these lines still to post
    | Stopped

  datatype Worker = Worker(
    pc: WorkerPc,
    spool: seq<nat>,      // lines of the spool file
    sent: nat,
    spooled: nat,
    acked: seq<nat>,      // sends that returned 2xx, in order
    received: seq<nat>)   // what the server stored, in order

  /** A capacity of zero or less means an unbounded queue. */
  datatype State = State(capacity: int, queue: seq<nat>, stop: bool, producer: Producer, worker: Worker)

  datatype Step =
    | Publish | Evict | Retry
    | Take | Exit | Close
    | Work(action: Action)

  /** What the worker does between two looks at the queue. */
  datatype Action = Decide | SendNew(reply: Reply) | Reopen | DrainNext(reply: Reply) | FinishDrain

  predicate IsFull(capacity: int, queue: seq<nat>) {
    0 < capacity <= |queue|
  }

  /** The start of a process that finds `backlog` events in the spool file. */
  function Initial(capacity: int, backlog: nat): State {
    State(capacity, [], false,
          Producer(Idle, 0, backlog, {}, {}, 0),
          Worker(Waiting, Survivors(backlog, {}), 0, 0, [], []))
  }

  function Deliver(received: seq<nat>, ev: nat, reply: Reply): seq<nat> {
    if reply.Refused? then received else received + [ev]
  }

  /** One action of the worker; an action that is not enabled leaves everything as it is. */
  function Act(w: Worker, action: Action): Worker {
    match action
    case Decide =>
      if !w.pc.Taken? then w
      else if w.spool != [] then
        w.(spool := w.spool + [w.pc.ev], spooled := w.spooled + 1, pc := Reopening)
      else w.(pc := Sending(w.pc.ev))
    case SendNew(reply) =>
      if !w.pc.Sending? then w
      else
        var w' := w.(received := Deliver(w.received, w.pc.ev, reply));
        if reply.Acked? then w'.(acked := w.acked + [w.pc.ev], sent := w.sent + 1, pc := Reopening)
        else w'.(spool := w.spool + [w.pc.ev], spooled := w.spooled + 1, pc := Waiting)
    case Reopen =>
      if !w.pc.Reopening? then w
      else w.(spool := [], pc := Draining(w.spool))
    case DrainNext(reply) =>
      if !w.pc.Draining? || w.pc.rest == [] then w
      else
        var w' := w.(received := Deliver(w.received, w.pc.rest[0], reply));
        if reply.Acked? then
          w'.(acked := w.acked + [w.pc.rest[0]], sent := w.sent + 1, pc := Draining(w.pc.rest[1..]))
        else
          w'.(spool := w.spool + w.pc.rest, pc := Waiting)
    case FinishDrain =>
      if !w.pc.Draining? || w.pc.rest != [] then w else w.(pc := Waiting)
  }

  /** One atomic step of the whole system; a step that is not enabled leaves the state as it is. */
  function Next(s: State, step: Step): State {
    var p := s.producer;
    match step
    case Publish =>
      if !p.pc.Idle? then s
      else if IsFull(s.capacity, s.queue) then s.(producer := p.(calls := p.calls + 1, pc := FoundFull(p.calls)))
      else s.(queue := s.queue + [p.calls], producer := p.(calls := p.calls + 1))
    case Evict =>
      if !p.pc.FoundFull? then s
      else
        var p' := p.(pc := Retrying(p.pc.ev), dropped := p.dropped + 1);
        if s.queue == [] then s.(producer := p'.(emptyGets := p.emptyGets + 1))
        else s.(queue := s.queue[1..], producer := p'.(evicted := p.evicted + {s.queue[0]}))
    case Retry =>
      if !p.pc.Retrying? then s
      else if IsFull(s.capacity, s.queue) then
        s.(producer := p.(pc := Idle, dropped := p.dropped + 1, rejected := p.rejected + {p.pc.ev}))
      else
        s.(queue := s.queue + [p.pc.ev], producer := p.(pc := Idle))
    case Take =>
      if !s.worker.pc.Waiting? || s.queue == [] then s
      else s.(queue := s.queue[1..], worker := s.worker.(pc := Taken(s.queue[0])))
    case Exit =>
      if s.worker.pc.Waiting? && s.queue == [] && s.stop then s.(worker := s.worker.(pc := Stopped)) else s
    case Close => s.(stop := true)
    case Work(action) => s.(worker := Act(s.worker, action))
  }

  function Run(s: State, steps: seq<Step>): State
    decreases |steps|
  {
    if steps == [] then s else Next(Run(s, steps[..|steps| - 1]), steps[|steps| - 1])
  }

  // ------------------------------------------------------------------ what should be there

  /** The independent account: the numbers below `n` that are not in `gone`, in publish order. */
  function Survivors(n: nat, gone: set<nat>): seq<nat> {
    if n == 0 then []
    else Survivors(n - 1, gone) + (if n - 1 in gone then [] else [n - 1])
  }

  /** Consecutive repeats collapsed to one. */
  function Squeeze(xs: seq<nat>): seq<nat> {
    if |xs| <= 1 then xs
    else
      var most := xs[..|xs| - 1];
      if xs[|xs| - 1] == xs[|xs| - 2] then Squeeze(most) else Squeeze(most) + [xs[|xs| - 1]]
  }

  /** Events whose publish call has returned. */
  function Settled(p: Producer): nat {
    if p.pc.Idle? || p.calls == 0 then p.calls else p.calls - 1
  }

  /** Events the worker is responsible for: on disk, then in its hands, in order. */
  function Carried(w: Worker): seq<nat> {
    w.spool + match w.pc
              case Taken(ev) => [ev]
              case Sending(ev) => [ev]
              case Draining(rest) => rest
              case _ => []
  }

  /** The server has the acknowledged events, and at most the next one besides. */
  predicate ServerInStep(w: Worker) {
    || Squeeze(w.received) == w.acked
    || (Carried(w) != [] && Squeeze(w.received) == w.acked + [Carried(w)[0]])
  }

  predicate WorkerInv(w: Worker) {
    && ServerInStep(w)
    && (w.pc.Sending? || w.pc.Draining? ==> w.spool == [])
    && w.sent == |w.acked|
  }

  predicate ProducerInv(p: Producer) {
    && (forall x <- p.evicted :: x < Settled(p))
    && p.rejected == {}
    && p.dropped == |p.evicted| + p.emptyGets
    && (!p.pc.Idle? ==> p.calls > 0 && p.pc.ev == p.calls - 1)
  }

  function Accounted(s: State): seq<nat> {
    s.worker.acked + Carried(s.worker) + s.queue
  }

  predicate Inv(s: State) {
    && Accounted(s) == Survivors(Settled(s.producer), s.producer.evicted)
    && ProducerInv(s.producer)
    && WorkerInv(s.worker)
    && (s.capacity > 0 ==> |s.queue| <= s.capacity)
    && (!s.producer.pc.Idle? ==> s.capacity > 0)
    && (s.producer.pc.Retrying? ==> !IsFull(s.capacity, s.queue))
  }

  // ------------------------------------------------------------------ lemmas on the account

  lemma {:induction false} SurvivorsMember(n: nat, gone: set<nat>, x: nat)
    ensures x in Survivors(n, gone) <==> x < n && x !in gone
  {
    if n > 0 {
      SurvivorsMember(n - 1, gone, x);
    }
  }

  lemma {:induction false} SurvivorsSorted(n: nat, gone: set<nat>)
    ensures forall i, j :: 0 <= i < j < |Survivors(n, gone)| ==> Survivors(n, gone)[i] < Survivors(n, gone)[j]
  {
    if n > 0 {
      SurvivorsSorted(n - 1, gone);
      var most := Survivors(n - 1, gone);
      forall i | 0 <= i < |most| ensures most[i] < n - 1 {
        SurvivorsMember(n - 1, gone, most[i]);
      }
    }
  }

  lemma {:induction false} SurvivorsIrrelevant(n: nat, gone: set<nat>, x: nat)
    requires n <= x
    ensures Survivors(n, gone + {x}) == Survivors(n, gone)
  {
    if n > 0 {
      SurvivorsIrrelevant(n - 1, gone, x);
    }
  }

  /** Taking one event out of the account takes it out of the published numbers and nothing else. */
  lemma {:induction false} SurvivorsDrop(n: nat, gone: set<nat>, pre: seq<nat>, x: nat, post: seq<nat>)
    requires Survivors(n, gone) == pre + [x] + post
    ensures Survivors(n, gone + {x}) == pre + post
  {
    SurvivorsMember(n, gone, x);
    assert (pre + [x] + post)[|pre|] == x;
    var last := n - 1;
    var most := Survivors(last, gone);
    if last in gone {
      SurvivorsDrop(last, gone, pre, x, post);
    } else if post == [] {
      assert pre + [x] + post == pre + [x];
      assert most == pre && x == last by {
        assert (pre + [x])[..|pre|] == pre;
        assert (most + [last])[..|most|] == most;
      }
      SurvivorsIrrelevant(last, gone, x);
      assert pre + post == pre;
    } else {
      var post' := post[..|post| - 1];
      assert pre + [x] + post == (pre + [x] + post') + [post[|post| - 1]];
      assert most == pre + [x] + post' by {
        assert (most + [last])[..|most|] == most;
        assert ((pre + [x] + post') + [post[|post| - 1]])[..|most|] == pre + [x] + post';
      }
      assert (most + [last])[|most|] == last == post[|post| - 1];
      SurvivorsDrop(last, gone, pre, x, post');
      SurvivorsMember(last, gone, x);
      assert most[|pre|] == x;
      assert pre + post == pre + post' + [last];
    }
  }

  lemma {:induction false} SqueezeSnoc(xs: seq<nat>, x: nat)
    ensures Squeeze(xs + [x]) == if xs != [] && xs[|xs| - 1] == x then Squeeze(xs) else Squeeze(xs) + [x]
  {
    assert (xs + [x])[..|xs|] == xs;
  }

  lemma {:induction false} SqueezeLast(xs: seq<nat>)
    ensures (Squeeze(xs) == []) == (xs == [])
    ensures xs != [] ==> Squeeze(xs)[|Squeeze(xs)| - 1] == xs[|xs| - 1]
  {
    if |xs| > 1 {
      SqueezeLast(xs[..|xs| - 1]);
    }
  }

  /** Posting the head of what the worker carries keeps the server in step, whatever the reply. */
  lemma DeliverHead(acked: seq<nat>, received: seq<nat>, ev: nat, reply: Reply)
    requires Squeeze(received) == acked || Squeeze(received) == acked + [ev]
    requires ev !in acked
    ensures reply.Acked? ==> Squeeze(Deliver(received, ev, reply)) == acked + [ev]
    ensures !reply.Acked? ==>
              var r := Squeeze(Deliver(received, ev, reply)); r == acked || r == acked + [ev]
  {
    SqueezeSnoc(received, ev);
    SqueezeLast(received);
  }

  // ------------------------------------------------------------------ every interleaving

  lemma InitialInv(capacity: int, backlog: nat)
    ensures Inv(Initial(capacity, backlog))
  {
    var s := Initial(capacity, backlog);
    assert Accounted(s) == s.worker.spool;
  }

  lemma CarriedHeadFresh(s: State)
    requires Inv(s) && Carried(s.worker) != []
    ensures Carried(s.worker)[0] !in s.worker.acked
  {
    SurvivorsSorted(Settled(s.producer), s.producer.evicted);
    var acked, xs := s.worker.acked, Accounted(s);
    assert xs[|acked|] == Carried(s.worker)[0];
    forall i | 0 <= i < |acked| ensures acked[i] != Carried(s.worker)[0] {
      assert xs[i] == acked[i];
    }
  }

  lemma PublishKeepsInv(s: State)
    requires Inv(s)
    ensures Inv(Next(s, Publish))
  {
    var s' := Next(s, Publish);
    if s' != s && !IsFull(s.capacity, s.queue) {
      assert Accounted(s') == Accounted(s) + [s.producer.calls];
    }
  }

  lemma EvictKeepsInv(s: State)
    requires Inv(s)
    ensures Inv(Next(s, Evict))
  {
    if s.producer.pc.FoundFull? && s.queue != [] {
      var s', n, gone := Next(s, Evict), Settled(s.producer), s.producer.evicted;
      var x, pre, post := s.queue[0], s.worker.acked + Carried(s.worker), s.queue[1..];
      assert s.queue == [x] + post;
      assert Accounted(s) == pre + [x] + post;
      SurvivorsDrop(n, gone, pre, x, post);
      assert Accounted(s)[|pre|] == x;
      SurvivorsMember(n, gone, x);
      assert Accounted(s') == pre + post;
    }
  }

  lemma RetryKeepsInv(s: State)
    requires Inv(s)
    ensures Inv(Next(s, Retry))
  {
    if s.producer.pc.Retrying? {
      assert Accounted(Next(s, Retry)) == Accounted(s) + [s.producer.pc.ev];
    }
  }

  lemma TakeKeepsInv(s: State)
    requires Inv(s)
    ensures Inv(Next(s, Take))
  {
    if s.worker.pc.Waiting? && s.queue != [] {
      var s' := Next(s, Take);
      assert s.queue == [s.queue[0]] + s.queue[1..];
      assert Carried(s'.worker) == Carried(s.worker) + [s.queue[0]];
      assert Accounted(s') == Accounted(s);
    }
  }

  /** Whatever the worker does, no event changes its place in the account. */
  lemma ActAccount(w: Worker, action: Action)
    requires w.pc.Sending? || w.pc.Draining? ==> w.spool == []
    ensures var w' := Act(w, action);
            w'.acked + Carried(w') == w.acked + Carried(w)
  {
    if action.DrainNext? && w.pc.Draining? && w.pc.rest != [] {
      assert w.pc.rest == [w.pc.rest[0]] + w.pc.rest[1..];
    }
  }

  /** The event a send is about is the first one the worker carries. */
  lemma ActServer(w: Worker, action: Action)
    requires WorkerInv(w) && (Carried(w) != [] ==> Carried(w)[0] !in w.acked)
    ensures WorkerInv(Act(w, action))
  {
    if action.SendNew? && w.pc.Sending? {
      DeliverHead(w.acked, w.received, w.pc.ev, action.reply);
    } else if action.DrainNext? && w.pc.Draining? && w.pc.rest != [] {
      DeliverHead(w.acked, w.received, w.pc.rest[0], action.reply);
    } else {
      assert Carried(Act(w, action)) == Carried(w);
    }
  }

  lemma WorkKeepsInv(s: State, action: Action)
    requires Inv(s)
    ensures Inv(Next(s, Work(action)))
  {
    if Carried(s.worker) != [] {
      CarriedHeadFresh(s);
    }
    ActAccount(s.worker, action);
    ActServer(s.worker, action);
  }

  lemma NextKeepsInv(s: State, step: Step)
    requires Inv(s)
    ensures Inv(Next(s, step))
  {
    match step
    case Publish => PublishKeepsInv(s);
    case Evict => EvictKeepsInv(s);
    case Retry => RetryKeepsInv(s);
    case Take => TakeKeepsInv(s);
    case Exit => assert Carried(Next(s, Exit).worker) == Carried(s.worker);
    case Close =>
    case Work(action) => WorkKeepsInv(s, action);
  }

  /** The invariant holds in every interleaving of the producer and the worker. */
  lemma {:induction false} RunKeepsInv(s: State, steps: seq<Step>)
    requires Inv(s)
    ensures Inv(Run(s, steps))
    decreases |steps|
  {
    if steps != [] {
      RunKeepsInv(s, steps[..|steps| - 1]);
      NextKeepsInv(Run(s, steps[..|steps| - 1]), steps[|steps| - 1]);
    }
  }

  /** Ordering and conservation.  At every point of every interleaving the acknowledged events, then
      those the worker carries, then those queued are the published ones minus the evicted ones, in
      publish order; the server has the acknowledged ones in that order, with repeats only adjacent
      and at most the next event besides. */
  lemma Conservation(capacity: int, backlog: nat, steps: seq<Step>)
    ensures var s := Run(Initial(capacity, backlog), steps);
            var w := s.worker;
            && w.acked + Carried(w) + s.queue == Survivors(Settled(s.producer), s.producer.evicted)
            && (|| Squeeze(w.received) == w.acked
                || (Carried(w) != [] && Squeeze(w.received) == w.acked + [Carried(w)[0]]))
  {
    InitialInv(capacity, backlog);
    RunKeepsInv(Initial(capacity, backlog), steps);
  }

  /** With a single producer the second put never fails, so a publish call always ends with its own
      event at the tail of the queue, whatever the capacity and the interleaving. */
  lemma NewestGetsIn(capacity: int, backlog: nat, steps: seq<Step>, step: Step)
    requires step == Publish || step == Retry
    ensures var s := Run(Initial(capacity, backlog), steps);
            var s' := Next(s, step);
            && s'.producer.rejected == {}
            && (s' != s && s'.producer.pc.Idle? ==>
                  s'.queue != [] && s'.queue[|s'.queue| - 1] == s'.producer.calls - 1)
  {
    InitialInv(capacity, backlog);
    RunKeepsInv(Initial(capacity, backlog), steps);
  }

  /** `dropped` counts every eviction, and counts right exactly when the worker never emptied the
      queue between the failed put and the get. */
  lemma DroppedCount(capacity: int, backlog: nat, steps: seq<Step>)
    ensures var p := Run(Initial(capacity, backlog), steps).producer;
            && p.dropped >= |p.evicted|
            && (p.dropped == |p.evicted| <==> p.emptyGets == 0)
  {
    InitialInv(capacity, backlog);
    RunKeepsInv(Initial(capacity, backlog), steps);
  }

  /** The over-count does happen: a queue of one, emptied by the worker at the wrong moment. */
  lemma DroppedOverCounts()
    ensures var p := Run(Initial(1, 0), [Publish, Publish, Take, Evict]).producer;
            p.dropped == 1 && p.evicted == {}
  {
    var s0, steps := Initial(1, 0), [Publish, Publish, Take, Evict];
    assert steps[..3][..2] == [Publish, Publish] && steps[..3][..2][..1] == [Publish] && [Publish][..0] == [];
    assert Run(s0, [Publish]) == Next(s0, Publish);
    assert Run(s0, [Publish, Publish]) == Next(Next(s0, Publish), Publish);
    assert Run(s0, steps[..3]) == Next(Run(s0, [Publish, Publish]), Take);
  }

  /** A stopped worker leaves nothing in between: once nothing is queued, every surviving event is
      acknowledged or on disk. */
  lemma NothingLostAtExit(capacity: int, backlog: nat, steps: seq<Step>)
    ensures var s := Run(Initial(capacity, backlog), steps);
            s.worker.pc.Stopped? && s.queue == [] ==>
              s.worker.acked + s.worker.spool == Survivors(Settled(s.producer), s.producer.evicted)
  {
    Conservation(capacity, backlog, steps);
  }

  /** An action of the worker touches nothing the producer or the queue has, so the two commute:
      running `_handle` in one piece, as the class does, loses no interleaving. */
  lemma HandlerCommutes(s: State, p: Step, action: Action)
    requires p.Publish? || p.Evict? || p.Retry? || p.Close?
    ensures Next(Next(s, p), Work(action)) == Next(Next(s, Work(action)), p)
  {
    var t := Next(s, p);
    assert t.worker == s.worker;
    assert Next(s.(worker := Act(s.worker, action)), p) == t.(worker := Act(s.worker, action));
  }

  // ------------------------------------------------------------------ one event, start to end

  /** How many of the `n` sends numbered from `k` succeed before the first that does not. */
  function LeadingAcks(net: nat -> Reply, k: nat, n: nat): (m: nat)
    ensures m <= n
    decreases n
  {
    if n == 0 || !net(k).Acked? then 0 else 1 + LeadingAcks(net, k + 1, n - 1)
  }

  lemma {:induction false} LeadingAcksExact(net: nat -> Reply, k: nat, n: nat)
    ensures var m := LeadingAcks(net, k, n);
            (forall i :: k <= i < k + m ==> net(i).Acked?) && (m < n ==> !net(k + m).Acked?)
    decreases n
  {
    if n > 0 && net(k).Acked? {
      LeadingAcksExact(net, k + 1, n - 1);
    }
  }

  /** Posting the drained lines in turn, the next send being number `k`. */
  function Drained(w: Worker, net: nat -> Reply, k: nat): Worker
    requires w.pc.Draining?
    decreases |w.pc.rest|
  {
    if w.pc.rest == [] then Act(w, FinishDrain)
    else if net(k).Acked? then Drained(Act(w, DrainNext(net(k))), net, k + 1)
    else Act(w, DrainNext(net(k)))
  }

  /** Handling the event the worker has taken, `net(k)` answering the k-th send. */
  function Handled(w: Worker, net: nat -> Reply): Worker
    requires w.pc.Taken?
  {
    var w1 := Act(w, Decide);
    if w1.pc.Reopening? then Drained(Act(w1, Reopen), net, 0)
    else
      var w2 := Act(w1, SendNew(net(0)));
      if w2.pc.Reopening? then Drained(Act(w2, Reopen), net, 1) else w2
  }

  /** `w'` is where some sequence of the worker's own actions leads from `w`. */
  ghost predicate Reaches(w: Worker, w': Worker) {
    exists actions :: ActAll(w, actions) == w'
  }

  function ActAll(w: Worker, actions: seq<Action>): Worker
    decreases |actions|
  {
    if actions == [] then w else ActAll(Act(w, actions[0]), actions[1..])
  }

  lemma ReachesSelf(w: Worker)
    ensures Reaches(w, w)
  {
    assert ActAll(w, []) == w;
  }

  lemma ReachesFirst(w: Worker, action: Action, w': Worker)
    requires Reaches(Act(w, action), w')
    ensures Reaches(w, w')
  {
    var actions :| ActAll(Act(w, action), actions) == w';
    assert ([action] + actions)[1..] == actions;
    assert ActAll(w, [action] + actions) == w';
  }

  lemma {:induction false} DrainedIsRun(w: Worker, net: nat -> Reply, k: nat)
    requires w.pc.Draining?
    ensures Reaches(w, Drained(w, net, k))
    decreases |w.pc.rest|
  {
    ReachesSelf(Drained(w, net, k));
    if w.pc.rest == [] {
      ReachesFirst(w, FinishDrain, Drained(w, net, k));
    } else {
      if net(k).Acked? {
        DrainedIsRun(Act(w, DrainNext(net(k))), net, k + 1);
      }
      ReachesFirst(w, DrainNext(net(k)), Drained(w, net, k));
    }
  }

  /** `_handle` in one piece is a run of the worker's own actions. */
  lemma HandledIsRun(w: Worker, net: nat -> Reply)
    requires w.pc.Taken?
    ensures Reaches(w, Handled(w, net))
  {
    var w1, end := Act(w, Decide), Handled(w, net);
    ReachesSelf(end);
    if w1.pc.Reopening? {
      DrainedIsRun(Act(w1, Reopen), net, 0);
      ReachesFirst(w1, Reopen, end);
    } else {
      var w2 := Act(w1, SendNew(net(0)));
      if w2.pc.Reopening? {
        DrainedIsRun(Act(w2, Reopen), net, 1);
        ReachesFirst(w2, Reopen, end);
      }
      ReachesFirst(w1, SendNew(net(0)), end);
    }
    ReachesFirst(w, Decide, end);
  }

  lemma AckedSplit(acked: seq<nat>, rest: seq<nat>, m: nat)
    requires rest != [] && m < |rest|
    ensures acked + [rest[0]] + rest[1..][..m] == acked + rest[..m + 1]
    ensures rest[1..][m..] == rest[m + 1..]
  {
  }

  lemma {:induction false} DrainedAcksPrefix(w: Worker, net: nat -> Reply, k: nat)
    requires w.pc.Draining? && w.spool == []
    ensures var n := LeadingAcks(net, k, |w.pc.rest|);
            var w' := Drained(w, net, k);
            && w'.pc == Waiting
            && w'.acked == w.acked + w.pc.rest[..n]
            && w'.spool == w.pc.rest[n..]
    decreases |w.pc.rest|
  {
    if w.pc.rest != [] && net(k).Acked? {
      var w1, rest := Act(w, DrainNext(net(k))), w.pc.rest;
      assert w1.pc == Draining(rest[1..]) && w1.acked == w.acked + [rest[0]] && w1.spool == [];
      var m := LeadingAcks(net, k + 1, |rest| - 1);
      assert LeadingAcks(net, k, |rest|) == m + 1;
      DrainedAcksPrefix(w1, net, k + 1);
      AckedSplit(w.acked, rest, m);
    } else {
      assert LeadingAcks(net, k, |w.pc.rest|) == 0;
    }
  }

  /** Whatever the network does, handling an event acknowledges the longest prefix of
      backlog-then-event it lets through and leaves exactly the rest on disk, in order. */
  lemma HandledAcksPrefix(w: Worker, net: nat -> Reply)
    requires w.pc.Taken?
    ensures var lines := w.spool + [w.pc.ev];
            var n := LeadingAcks(net, 0, |lines|);
            var w' := Handled(w, net);
            && w'.pc == Waiting
            && w'.acked == w.acked + lines[..n]
            && w'.spool == lines[n..]
  {
    var w1 := Act(w, Decide);
    if w1.pc.Reopening? {
      DrainedAcksPrefix(Act(w1, Reopen), net, 0);
    } else {
      assert w.spool + [w.pc.ev] == [w.pc.ev];
      var w2 := Act(w1, SendNew(net(0)));
      if w2.pc.Reopening? {
        DrainedAcksPrefix(Act(w2, Reopen), net, 1);
      }
    }
  }

  /** Once the network recovers, one event flushes the whole backlog ahead of itself. */
  lemma RecoveryFlushes(w: Worker, net: nat -> Reply)
    requires w.pc.Taken?
    requires forall k :: net(k).Acked?
    ensures var w' := Handled(w, net);
            w'.spool == [] && w'.acked == w.acked + w.spool + [w.pc.ev]
  {
    HandledAcksPrefix(w, net);
    var lines := w.spool + [w.pc.ev];
    LeadingAcksExact(net, 0, |lines|);
    assert lines[..|lines|] == lines;
  }
}
