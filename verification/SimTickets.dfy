/** Tickets in the simulator: each is handed out once, to an order or to a position. */
module SimTickets {
  import opened Prelude
  import opened Models
  import opened Sim

  predicate DistinctOrders(os: seq<Pending>) {
    forall i, j :: 0 <= i < j < |os| ==> os[i].ticket != os[j].ticket
  }

  predicate NoOrder(os: seq<Pending>, ticket: int) {
    forall i :: 0 <= i < |os| ==> os[i].ticket != ticket
  }

  /** Tickets are handed out once: no two orders or positions share one. */
  predicate TicketsOk(ps: seq<Position>, os: seq<Pending>, top: int) {
    && DistinctTickets(ps) && DistinctOrders(os)
    && (forall i :: 0 <= i < |ps| ==> NoOrder(os, ps[i].ticket) && ps[i].ticket <= top)
    && (forall i :: 0 <= i < |os| ==> os[i].ticket <= top)
  }

  /** Every order of `os'` is one of `os`, in some order-preserving way: same tickets, still distinct. */
  predicate Fewer(os: seq<Pending>, os': seq<Pending>) {
    && DistinctOrders(os')
    && forall i :: 0 <= i < |os'| ==> os'[i] in os
  }

  lemma {:induction false} KeepFewer(os: seq<Pending>, ts: int, spike: bool)
    requires DistinctOrders(os)
    ensures Fewer(os, KeepPendings(os, ts, spike))
  {
    if os != [] {
      KeepFewer(os[..|os| - 1], ts, spike);
      var most := KeepPendings(os[..|os| - 1], ts, spike);
      forall i | 0 <= i < |most| ensures most[i].ticket != os[|os| - 1].ticket {
        assert most[i] in os[..|os| - 1];
      }
    }
  }

  /** Every position of `ps` was opened by an order of `os`, under the order's own ticket. */
  predicate OpenedFrom(os: seq<Pending>, ps: seq<Position>) {
    forall i :: 0 <= i < |ps| ==> !NoOrder(os, ps[i].ticket)
  }

  lemma {:induction false} FillTickets(costs: Costs, os: seq<Pending>, top: int, c: Candle)
    requires DistinctOrders(os) && forall i :: 0 <= i < |os| ==> os[i].ticket <= top
    ensures var (still, ps) := FillPendings(costs, os, c);
            Fewer(os, still) && OpenedFrom(os, ps) && TicketsOk(ps, still, top)
  {
    if os != [] {
      var most, o := os[..|os| - 1], os[|os| - 1];
      FillTickets(costs, most, top, c);
      var (still, ps) := FillPendings(costs, most, c);
      forall i | 0 <= i < |still| ensures still[i].ticket != o.ticket && still[i] in os {
        assert still[i] in most;
      }
      forall i | 0 <= i < |ps| ensures ps[i].ticket != o.ticket {
        assert !NoOrder(most, ps[i].ticket);
      }
      OpenedFromMore(most, o, ps);
    }
  }

  lemma OpenedFromMore(most: seq<Pending>, o: Pending, ps: seq<Position>)
    requires OpenedFrom(most, ps)
    ensures OpenedFrom(most + [o], ps)
  {
    forall i | 0 <= i < |ps| ensures !NoOrder(most + [o], ps[i].ticket) {
      assert !NoOrder(most, ps[i].ticket);
      var j :| 0 <= j < |most| && most[j].ticket == ps[i].ticket;
      assert (most + [o])[j].ticket == ps[i].ticket;
    }
  }
}
