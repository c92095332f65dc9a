/** A drink of the slot-keyed machine: validated on construction, its stock changed in place. */
module SlottedDrink {
  import opened Outcomes
  import Slots

  /** The DrinkData interface: a copy of a drink's four fields. */
  datatype DrinkData = DrinkData(name: string, price: int, quantity: int, slot: Slots.Slot)

  class Drink {
    var name: string
    var price: int
    var quantity: int
    var slot: Slots.Slot

    /** What a successful construction establishes (the slot is one of the union by its type). */
    predicate Valid()
      reads this
    {
      price > 0 && quantity >= 0
    }

    /** The drink's fields as a value (what an object spread `{ ...drink }` copies). */
    function Data(): DrinkData
      reads this
    {
      DrinkData(name, price, quantity, slot)
    }

    /** The assignments that follow the constructor's checks once all of them have passed. */
    constructor (name: string, price: int, quantity: int, slot: Slots.Slot)
      requires price > 0 && quantity >= 0
      ensures Valid()
      ensures Data() == DrinkData(name, price, quantity, slot)
    {
      this.name := name;
      this.price := price;
      this.quantity := quantity;
      this.slot := slot;
    }

    /** `new Drink(name, price, quantity, slot)` on a runtime string: checks the price, then
        the quantity, then that the slot is one of the union, and throws the first error found;
        otherwise builds the drink. */
    static method Create(name: string, price: int, quantity: int, slot: string) returns (r: Result<Drink, DrinkError>)
      ensures r.Success? <==> price > 0 && quantity >= 0 && Slots.IsSlot(slot)
      ensures r == Failure(InvalidPrice) <==> price <= 0
      ensures r == Failure(InvalidQuantity) <==> price > 0 && quantity < 0
      ensures r == Failure(InvalidSlot) <==> price > 0 && quantity >= 0 && !Slots.IsSlot(slot)
      ensures r.Success? ==> fresh(r.value) && r.value.Valid()
      ensures r.Success? ==> Slots.Value(r.value.slot) == slot && r.value.Data() == DrinkData(name, price, quantity, r.value.slot)
    {
      if price <= 0 {
        return Failure(InvalidPrice);
      }
      if quantity < 0 {
        return Failure(InvalidQuantity);
      }
      var known := Slots.IncludesSlot(slot);
      if !known {
        return Failure(InvalidSlot);
      }
      var d := new Drink(name, price, quantity, Slots.Parse(slot).value);
      r := Success(d);
    }

    /** Takes `amount` units out of stock when there are that many, and reports whether it did. */
    method DecreaseQuantity(amount: int := 1) returns (ok: bool)
      modifies this`quantity
      ensures ok <==> old(quantity) >= amount
      ensures quantity == if ok then old(quantity) - amount else old(quantity)
      ensures amount >= 0 && old(quantity) >= 0 ==> quantity >= 0
    {
      if quantity >= amount {
        quantity := quantity - amount;
        return true;
      }
      return false;
    }

    /** Adds `amount` units to the stock; no ceiling is enforced here. */
    method IncreaseQuantity(amount: int := 1)
      modifies this`quantity
      ensures quantity == old(quantity) + amount
    {
      quantity := quantity + amount;
    }
  }

  /** The construction scenarios exercised against the class: valid fields are kept, a
      zero or negative price, a negative quantity and the slot "Z9" are each refused, and
      price is checked before quantity. */
  method ConstructionScenarios() returns (ok: Result<Drink, DrinkError>, zeroPrice: Result<Drink, DrinkError>,
                                         negativeQuantity: Result<Drink, DrinkError>, badSlot: Result<Drink, DrinkError>,
                                         both: Result<Drink, DrinkError>)
    ensures ok.Success? && ok.value.Data() == DrinkData("Coke", 10, 5, Slots.A1)
    ensures zeroPrice == Failure(InvalidPrice)
    ensures negativeQuantity == Failure(InvalidQuantity)
    ensures badSlot == Failure(InvalidSlot)
    ensures both == Failure(InvalidPrice)
  {
    ok := Drink.Create("Coke", 10, 5, Slots.Value(Slots.A1));
    zeroPrice := Drink.Create("Water", 0, 10, "A1");
    negativeQuantity := Drink.Create("Juice", 20, -1, "A1");
    badSlot := Drink.Create("Soda", 15, 5, "Z9");
    both := Drink.Create("Water", 0, -1, "A1");
  }

  /** The stock scenarios exercised against the class: a default decrease, a decrease by 3,
      a refused decrease that leaves the stock alone, and increases by default and by 5. */
  method QuantityScenarios() returns (a: bool, b: bool, c: bool, d: bool, qa: int, qb: int, qc: int, qd: int, qe: int, qf: int)
    ensures a && qa == 4
    ensures b && qb == 2
    ensures !c && qc == 2
    ensures !d && qd == 0
    ensures qe == 6 && qf == 10
  {
    var coke := new Drink("Coke", 10, 5, Slots.A1);
    a := coke.DecreaseQuantity();
    qa := coke.quantity;
    coke := new Drink("Coke", 10, 5, Slots.A1);
    b := coke.DecreaseQuantity(3);
    qb := coke.quantity;
    coke := new Drink("Coke", 10, 2, Slots.A1);
    c := coke.DecreaseQuantity(3);
    qc := coke.quantity;
    coke := new Drink("Coke", 10, 0, Slots.A1);
    d := coke.DecreaseQuantity();
    qd := coke.quantity;
    var pepsi := new Drink("Pepsi", 20, 5, Slots.A1);
    pepsi.IncreaseQuantity();
    qe := pepsi.quantity;
    pepsi := new Drink("Pepsi", 20, 5, Slots.A1);
    pepsi.IncreaseQuantity(5);
    qf := pepsi.quantity;
  }
}
