/**
 * The cash of a character in the bank simulation (lab3/bank/CharactersBase.h,
 * class `Character`). Each cash operation takes the character's own lock and
 * is modelled as one step; the `Money` type comes from Bank.h, which is not
 * part of this model, and is modelled as an unbounded integer.
 */
module Characters {

  class Character {
    var cash: int

    constructor(cash: int)
      ensures this.cash == cash
    {
      this.cash := cash;
    }

    function GetCash(): (c: int)
      reads this
      ensures c == cash
    {
      cash
    }

    /** Takes `amount` if the character has that much; otherwise changes nothing. */
    method SpendCash(amount: int) returns (spent: bool)
      modifies this
      ensures spent <==> old(cash) >= amount
      ensures cash == if spent then old(cash) - amount else old(cash)
    {
      if cash < amount {
        return false;
      }
      cash := cash - amount;
      spent := true;
    }

    /** Adds exactly `amount`. */
    method AddCash(amount: int)
      modifies this
      ensures cash == old(cash) + amount
    {
      cash := cash + amount;
    }

    /**
     * Moves `amount` to `recipient` when this character can spend it, and
     * reports whether it did; the two balances together never change. A
     * transfer to oneself leaves the balance as it was.
     */
    method TransferCash(recipient: Character, amount: int) returns (spent: bool)
      modifies this, recipient
      ensures spent <==> old(cash) >= amount
      ensures recipient != this ==> cash == (if spent then old(cash) - amount else old(cash))
      ensures recipient != this ==> recipient.cash == (if spent then old(recipient.cash) + amount else old(recipient.cash))
      ensures recipient != this ==> cash + recipient.cash == old(cash) + old(recipient.cash)
      ensures recipient == this ==> cash == old(cash)
      ensures amount >= 0 && old(cash) >= 0 ==> cash >= 0
    {
      spent := SpendCash(amount);
      if spent {
        recipient.AddCash(amount);
      }
    }

    /** Being robbed is a transfer from the victim (this character) to the thief. */
    method StealCache(thief: Character, amount: int) returns (stolen: bool)
      modifies this, thief
      ensures stolen <==> old(cash) >= amount
      ensures thief != this ==> cash == (if stolen then old(cash) - amount else old(cash))
      ensures thief != this ==> thief.cash == (if stolen then old(thief.cash) + amount else old(thief.cash))
      ensures thief == this ==> cash == old(cash)
    {
      stolen := TransferCash(thief, amount);
    }
  }
}
