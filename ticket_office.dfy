/**
 * A ticket office holding a count of unsold tickets (lab6/ticketOffice/TicketOffice.h).
 * The atomic compare-and-swap loop of a sale is modelled as one atomic step:
 * sequentially the first exchange succeeds.
 */
module Tickets {
  import opened Outcomes

  function Min(a: int, b: int): int {
    if a <= b then a else b
  }

  /** One sale of `request > 0` tickets from `left`: the tickets sold and the tickets then left. */
  function Sale(left: nat, request: int): (r: (nat, nat))
    requires request > 0
    ensures r.0 <= request && r.0 <= left
    ensures r.0 + r.1 == left
    ensures r.0 == request || r.1 == 0
  {
    if left == 0 then (0, 0) else var sold := Min(left, request); (sold, left - sold)
  }

  class TicketOffice {
    var numTickets: int
    /** The count the office opened with, and the tickets sold since. */
    ghost const initial: nat
    ghost var sold: nat

    ghost predicate Valid()
      reads this
    {
      0 <= numTickets && numTickets + sold == initial
    }

    /** Opens with `numTickets` tickets; a negative count is refused (see `NewTicketOffice`). */
    constructor(numTickets: int)
      requires numTickets >= 0
      ensures Valid() && this.numTickets == numTickets && initial == numTickets && sold == 0
    {
      this.numTickets := numTickets;
      initial := numTickets;
      sold := 0;
    }

    /**
     * Sells up to `ticketsToBuy` tickets and returns how many were sold:
     * all of them when enough are left, otherwise the rest. A request of zero
     * or fewer tickets is refused and changes nothing.
     */
    method SellTickets(ticketsToBuy: int) returns (r: Result<int>)
      requires Valid()
      modifies this
      ensures Valid()
      ensures ticketsToBuy <= 0 ==>
        r == Err(InvalidArgument("ticketsToBuy must be greater than 0")) && numTickets == old(numTickets)
      ensures ticketsToBuy > 0 ==>
        r == Ok(Min(old(numTickets), ticketsToBuy)) && numTickets == old(numTickets) - r.value
      ensures ticketsToBuy > 0 ==> (r.value, numTickets) == Sale(old(numTickets), ticketsToBuy)
    {
      if ticketsToBuy <= 0 {
        return Err(InvalidArgument("ticketsToBuy must be greater than 0"));
      }
      var currentTickets := numTickets;
      if currentTickets == 0 {
        return Ok(0);
      }
      var ticketsSold := Min(currentTickets, ticketsToBuy);
      numTickets := currentTickets - ticketsSold;
      sold := sold + ticketsSold;
      r := Ok(ticketsSold);
    }

    /** The tickets not sold yet: the opening count less everything sold. */
    function GetTicketsLeft(): (left: int)
      requires Valid()
      reads this
      ensures left >= 0 && left == initial - sold
    {
      numTickets
    }
  }

  /** Opens an office, refusing a negative count as the constructor's exception does. */
  method NewTicketOffice(numTickets: int) returns (r: Result<TicketOffice>)
    ensures numTickets < 0 <==> r.Err?
    ensures r.Err? ==> r.error == InvalidArgument("numTickets must be positive")
    ensures r.Ok? ==> fresh(r.value) && r.value.Valid() && r.value.GetTicketsLeft() == numTickets
  {
    if numTickets < 0 {
      return Err(InvalidArgument("numTickets must be positive"));
    }
    var office := new TicketOffice(numTickets);
    r := Ok(office);
  }

  /** A run of sales: the tickets sold by each request, and the tickets left at the end. */
  function Sales(left: nat, requests: seq<int>): (r: (seq<nat>, nat))
    requires forall i :: 0 <= i < |requests| ==> requests[i] > 0
    ensures |r.0| == |requests|
    decreases |requests|
  {
    if requests == [] then ([], left)
    else
      var n := |requests| - 1;
      var before := Sales(left, requests[..n]);
      var (sold, after) := Sale(before.1, requests[n]);
      (before.0 + [sold], after)
  }

  function Sum(xs: seq<int>): int
    decreases |xs|
  {
    if xs == [] then 0 else Sum(xs[..|xs| - 1]) + xs[|xs| - 1]
  }

  /**
   * Over any run of sales nothing is oversold: each sale gets at most what it
   * asked for, and the tickets sold plus the tickets left equal the opening count.
   */
  lemma {:induction false} SalesConserve(left: nat, requests: seq<int>)
    requires forall i :: 0 <= i < |requests| ==> requests[i] > 0
    ensures forall i :: 0 <= i < |requests| ==> Sales(left, requests).0[i] <= requests[i]
    ensures Sum(Sales(left, requests).0) + Sales(left, requests).1 == left
    decreases |requests|
  {
    if requests != [] {
      var n := |requests| - 1;
      SalesConserve(left, requests[..n]);
      var r := Sales(left, requests);
      assert r.0[..n] == Sales(left, requests[..n]).0;
    }
  }

  /** When the requests add up to at least the opening count, every ticket is sold. */
  lemma {:induction false} SalesExhaust(left: nat, requests: seq<int>)
    requires forall i :: 0 <= i < |requests| ==> requests[i] > 0
    requires Sum(requests) >= left
    ensures Sales(left, requests).1 == 0
    ensures Sum(Sales(left, requests).0) == left
    decreases |requests|
  {
    SalesConserve(left, requests);
    if requests != [] {
      var n := |requests| - 1;
      var before := Sales(left, requests[..n]);
      if before.1 > 0 {
        SalesConserve(left, requests[..n]);
        SoldAtMostAsked(left, requests[..n]);
      }
    }
  }

  lemma {:induction false} SoldAtMostAsked(left: nat, requests: seq<int>)
    requires forall i :: 0 <= i < |requests| ==> requests[i] > 0
    ensures Sales(left, requests).1 > 0 ==> Sum(Sales(left, requests).0) == Sum(requests)
    decreases |requests|
  {
    if requests != [] {
      var n := |requests| - 1;
      SoldAtMostAsked(left, requests[..n]);
      var before := Sales(left, requests[..n]);
      var r := Sales(left, requests);
      assert r.0[..n] == before.0;
      if r.1 > 0 {
        assert before.1 > 0;
      }
    }
  }
}
