/**
 * A warehouse with a fixed capacity and a current stock (lab3/warehouse/Warehouse.h).
 * Each operation runs under the warehouse's lock and is modelled as one step.
 */
module Warehouses {

  /** The effect of adding `amount`: whether it fits, and the stock after. */
  function Add(stock: int, capacity: int, amount: int): (r: (bool, int))
    ensures r.0 <==> stock + amount <= capacity
    ensures r.1 == if r.0 then stock + amount else stock
  {
    if stock + amount > capacity then (false, stock) else (true, stock + amount)
  }

  /** The effect of removing `amount`: whether there is enough, and the stock after. */
  function Remove(stock: int, amount: int): (r: (bool, int))
    ensures r.0 <==> amount <= stock
    ensures r.1 == if r.0 then stock - amount else stock
  {
    if stock < amount then (false, stock) else (true, stock - amount)
  }

  /** With positive amounts, as the suppliers and clients pass, the stock stays within `[0, capacity]`. */
  lemma AddKeepsBounds(stock: int, capacity: int, amount: int)
    requires 0 <= stock <= capacity && amount > 0
    ensures 0 <= Add(stock, capacity, amount).1 <= capacity
  {
  }

  lemma RemoveKeepsBounds(stock: int, capacity: int, amount: int)
    requires 0 <= stock <= capacity && amount > 0
    ensures 0 <= Remove(stock, amount).1 <= capacity
  {
  }

  /** Amounts are not checked: a negative one is accepted and can drive the stock below zero. */
  lemma NegativeAmountUnchecked(capacity: int)
    requires capacity >= 0
    ensures Add(0, capacity, -1) == (true, -1)
    ensures Remove(0, -1) == (true, 1)
  {
  }

  class Warehouse {
    var capacity: int
    var currentStock: int

    /** A new warehouse is empty. */
    constructor(capacity: int)
      ensures this.capacity == capacity && currentStock == 0
    {
      this.capacity := capacity;
      currentStock := 0;
    }

    /** Stores `amount` goods if they fit under the capacity; otherwise changes nothing. */
    method AddGoods(amount: int) returns (added: bool)
      modifies this
      ensures (added, currentStock) == Add(old(currentStock), capacity, amount)
      ensures capacity == old(capacity)
    {
      if currentStock + amount > capacity {
        return false;
      }
      currentStock := currentStock + amount;
      added := true;
    }

    /** Takes out `amount` goods if there are that many; otherwise changes nothing. */
    method RemoveGoods(amount: int) returns (removed: bool)
      modifies this
      ensures (removed, currentStock) == Remove(old(currentStock), amount)
      ensures capacity == old(capacity)
    {
      if currentStock < amount {
        return false;
      }
      currentStock := currentStock - amount;
      removed := true;
    }

    function GetStock(): (stock: int)
      reads this
      ensures 0 <= currentStock <= capacity ==> 0 <= stock <= capacity
    {
      currentStock
    }
  }
}
