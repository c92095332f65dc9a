/** A drink of the name-keyed machine: validated on construction, its stock changed in
    place. Unlike the slot-keyed drink it carries no slot. */
module NamedDrink {
  import opened Outcomes

  /** The DrinkData interface: a copy of a drink's three fields. */
  datatype DrinkData = DrinkData(name: string, price: int, quantity: int)

  class Drink {
    var name: string
    var price: int
    var quantity: int

    /** What a successful construction establishes. */
    predicate Valid()
      reads this
    {
      price > 0 && quantity >= 0
    }

    /** The drink's fields as a value (what an object spread `{ ...drink }` copies). */
    function Data(): DrinkData
      reads this
    {
      DrinkData(name, price, quantity)
    }

    /** The assignments that follow the constructor's checks once both have passed. */
    constructor (name: string, price: int, quantity: int)
      requires price > 0 && quantity >= 0
      ensures Valid()
      ensures Data() == DrinkData(name, price, quantity)
    {
      this.name := name;
      this.price := price;
      this.quantity := quantity;
    }

    /** `new Drink(name, price, quantity)`: checks the price, then the quantity, and throws
        the first error found; otherwise builds the drink. */
    static method Create(name: string, price: int, quantity: int) returns (r: Result<Drink, DrinkError>)
      ensures r.Success? <==> price > 0 && quantity >= 0
      ensures r == Failure(InvalidPrice) <==> price <= 0
      ensures r == Failure(InvalidQuantity) <==> price > 0 && quantity < 0
      ensures r.Success? ==> fresh(r.value) && r.value.Valid()
      ensures r.Success? ==> r.value.Data() == DrinkData(name, price, quantity)
    {
      if price <= 0 {
        return Failure(InvalidPrice);
      }
      if quantity < 0 {
        return Failure(InvalidQuantity);
      }
      var d := new Drink(name, price, quantity);
      r := Success(d);
    }

    /** Takes `amount` units out of stock when there are that many, and reports whether it
        did; the name and the price are never touched. */
    method DecreaseQuantity(amount: int := 1) returns (ok: bool)
      modifies this`quantity
      ensures ok <==> old(quantity) >= amount
      ensures quantity == if ok then old(quantity) - amount else old(quantity)
      ensures amount >= 0 && old(quantity) >= 0 ==> quantity >= 0
    {
      if quantity >= amount {
        quantity := quantity - amount;
        return true;
      }
      return false;
    }

    /** Adds `amount` units to the stock; no ceiling is enforced here, and the name and the
        price are never touched. */
    method IncreaseQuantity(amount: int := 1)
      modifies this`quantity
      ensures quantity == old(quantity) + amount
    {
      quantity := quantity + amount;
    }
  }

  /** The construction scenarios exercised against the class: valid fields are kept, a zero
      or negative price and a negative quantity are each refused, and the price is checked
      before the quantity. */
  method ConstructionScenarios() returns (ok: Result<Drink, DrinkError>, zeroPrice: Result<Drink, DrinkError>,
                                         negativePrice: Result<Drink, DrinkError>,
                                         negativeQuantity: Result<Drink, DrinkError>, both: Result<Drink, DrinkError>)
    ensures ok.Success? && ok.value.Data() == DrinkData("Coke", 10, 5)
    ensures zeroPrice == Failure(InvalidPrice) && negativePrice == Failure(InvalidPrice)
    ensures negativeQuantity == Failure(InvalidQuantity)
    ensures both == Failure(InvalidPrice)
  {
    ok := Drink.Create("Coke", 10, 5);
    zeroPrice := Drink.Create("Water", 0, 10);
    negativePrice := Drink.Create("Water", -5, 10);
    negativeQuantity := Drink.Create("Juice", 20, -1);
    both := Drink.Create("Water", 0, -1);
  }

  /** The stock scenarios exercised against the class: a default decrease, a decrease by 3,
      refused decreases that leave the stock alone, and increases by default and by 5; the
      name and the price survive all of them. */
  method QuantityScenarios() returns (a: bool, b: bool, c: bool, d: bool, qa: int, qb: int, qc: int, qd: int,
                                      qe: int, qf: int, kept: DrinkData)
    ensures a && qa == 4
    ensures b && qb == 2
    ensures !c && qc == 2
    ensures !d && qd == 0
    ensures qe == 6 && qf == 10
    ensures kept == DrinkData("Pepsi", 20, 10)
  {
    var coke := new Drink("Coke", 10, 5);
    a := coke.DecreaseQuantity();
    qa := coke.quantity;
    coke := new Drink("Coke", 10, 5);
    b := coke.DecreaseQuantity(3);
    qb := coke.quantity;
    coke := new Drink("Coke", 10, 2);
    c := coke.DecreaseQuantity(3);
    qc := coke.quantity;
    coke := new Drink("Coke", 10, 0);
    d := coke.DecreaseQuantity();
    qd := coke.quantity;
    var pepsi := new Drink("Pepsi", 20, 5);
    pepsi.IncreaseQuantity();
    qe := pepsi.quantity;
    pepsi := new Drink("Pepsi", 20, 5);
    pepsi.IncreaseQuantity(5);
    qf := pepsi.quantity;
    kept := pepsi.Data();
  }
}
