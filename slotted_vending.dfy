/** The slot-keyed vending machine: a map from slot to live Drink objects plus the coin and
    cash pools. Every operation is proved to do what the matching function of SlottedLedger
    says. */
module SlottedVending {
  import opened Outcomes
  import opened Slots
  import opened SlottedDrink
  import L = SlottedLedger

  /** What getInventory returns: the stored Drink objects themselves (not copies) and the
      two pools. */
  datatype Inventory = Inventory(drinks: seq<Drink>, coins: int, cash: int)

  class VendingMachine {
    var drinks: map<Slot, Drink>
    var coins: int
    var cash: int

    /** Every drink is stored under its own slot, so no Drink object is stored under two
        slots. */
    ghost predicate Keyed()
      reads this`drinks, drinks.Values
    {
      forall k :: k in drinks ==> drinks[k].slot == k
    }

    /** Keyed, and every drink keeps its construction invariant. */
    ghost predicate Valid()
      reads this`drinks, drinks.Values
    {
      Keyed() && forall k :: k in drinks ==> drinks[k].Valid()
    }

    /** The stored drinks as values. */
    ghost function Stock(): map<Slot, DrinkData>
      reads this`drinks, drinks.Values
    {
      map k | k in drinks :: drinks[k].Data()
    }

    /** The machine as a value of the ledger. */
    ghost function State(): L.Machine
      reads this`drinks, this`coins, this`cash, drinks.Values
    {
      L.Machine(Stock(), coins, cash)
    }

    /** A new machine holds the seeded drinks, as new objects, and the seeded pools. */
    constructor ()
      ensures Valid() && fresh(drinks.Values)
      ensures State() == L.Seed()
    {
      drinks, coins, cash := map[], 0, 0;
      new;
      SeedInventory();
    }

    /** Clears the drinks and the pools and seeds them again, from any state. */
    method Reset()
      modifies this
      ensures Valid() && fresh(drinks.Values)
      ensures State() == L.Seed()
    {
      drinks, coins, cash := map[], 0, 0;
      SeedInventory();
    }

    /** The seeding shared by the constructor and reset, run on an empty machine. Each
        `new Drink(...)` here passes its checks, so the drinks are built directly. */
    method SeedInventory()
      requires drinks == map[] && coins == 0 && cash == 0
      modifies this
      ensures Valid() && fresh(drinks.Values)
      ensures Stock() == L.SeedStock()
      ensures coins == L.SeedCoins && cash == L.SeedCash
    {
      AddNewDrink("Coke", 10, 10, A1);
      assert fresh(drinks.Values);
      AddNewDrink("Pepsi", 25, 10, A2);
      assert fresh(drinks.Values);
      AddNewDrink("Dew", 30, 10, B1);
      assert fresh(drinks.Values);
      AddNewDrink("Sprite", 20, 10, B2);
      assert fresh(drinks.Values);
      AddNewDrink("Fanta", 15, 10, C1);
      assert fresh(drinks.Values);
      AddNewDrink("Dr. Pepper", 35, 10, C2);
      assert fresh(drinks.Values);
      AddNewDrink("Mountain Dew", 30, 10, D1);
      assert fresh(drinks.Values);
      AddNewDrink("Root Beer", 25, 10, D2);
      assert fresh(drinks.Values);
      var coinError := AddCoins(100);
      var cashError := AddCash(200);
    }

    /** Builds a drink whose checks pass and stores it under its slot. */
    method AddNewDrink(name: string, price: int, quantity: int, slot: Slot)
      requires Valid() && price > 0 && quantity >= 0
      modifies this`drinks
      ensures Valid() && fresh(drinks.Values - old(drinks.Values))
      ensures Stock() == old(Stock())[slot := DrinkData(name, price, quantity, slot)]
    {
      var d := new Drink(name, price, quantity, slot);
      AddDrink(d);
    }

    /** Stores a drink under its slot, replacing any drink stored there before. */
    method AddDrink(d: Drink)
      requires Valid() && d.Valid()
      modifies this`drinks
      ensures Valid()
      ensures drinks == old(drinks)[d.slot := d]
      ensures Stock() == old(Stock())[d.slot := d.Data()]
    {
      drinks := drinks[d.slot := d];
    }

    /** Adds to the coin pool; a negative amount is an error and changes nothing. */
    method AddCoins(amount: int) returns (err: Option<PoolError>)
      modifies this`coins
      ensures (err, State()) == L.AddCoins(old(State()), amount)
    {
      if amount < 0 {
        return Some(NegativeCoinAmount);
      }
      coins := coins + amount;
      err := None;
    }

    /** Adds to the cash pool; a negative amount is an error and changes nothing. */
    method AddCash(amount: int) returns (err: Option<PoolError>)
      modifies this`cash
      ensures (err, State()) == L.AddCash(old(State()), amount)
    {
      if amount < 0 {
        return Some(NegativeCashAmount);
      }
      cash := cash + amount;
      err := None;
    }

    /** The stored drinks, each once and as the live objects, with both pools. */
    method GetInventory() returns (inv: Inventory)
      ensures |inv.drinks| == |drinks|
      ensures forall k :: k in drinks ==> drinks[k] in inv.drinks
      ensures forall d :: d in inv.drinks ==> d in drinks.Values
      ensures inv.coins == coins && inv.cash == cash
    {
      var ds := [];
      var rest := drinks.Keys;
      while rest != {}
        invariant rest <= drinks.Keys
        invariant |ds| + |rest| == |drinks|
        invariant forall k :: k in drinks && k !in rest ==> drinks[k] in ds
        invariant forall d :: d in ds ==> d in drinks.Values
        decreases rest
      {
        var k :| k in rest;
        ds := ds + [drinks[k]];
        rest := rest - {k};
      }
      inv := Inventory(ds, coins, cash);
    }

    /** Sells the drink in `slot` if it is there, in stock, paid for and the pools can make
        the change; otherwise refunds the payment and changes nothing. */
    method BuyDrink(slot: Slot, payment: L.Payment) returns (sale: L.Sale)
      requires Keyed()
      modifies this`coins, this`cash, drinks.Values
      ensures Keyed() && drinks == old(drinks)
      ensures old(Valid()) ==> Valid()
      ensures (sale, State()) == L.Buy(old(State()), slot, payment)
    {
      ghost var before := State();
      if slot !in drinks {
        assert L.Buy(before, slot, payment) == (L.Sale(DrinkNotFound, payment.total, None), before);
        return L.Sale(DrinkNotFound, payment.total, None);
      }
      var drink := drinks[slot];
      assert before.stock[slot] == drink.Data();
      if drink.quantity == 0 {
        assert L.Buy(before, slot, payment) == (L.Sale(OutOfStock, payment.total, None), before);
        return L.Sale(OutOfStock, payment.total, None);
      }
      if payment.total < drink.price {
        assert L.Buy(before, slot, payment) == (L.Sale(InsufficientPayment, payment.total, None), before);
        return L.Sale(InsufficientPayment, payment.total, None);
      }
      var change := payment.total - drink.price;
      if coins + cash < change {
        assert L.Buy(before, slot, payment) == (L.Sale(InsufficientChange, payment.total, None), before);
        return L.Sale(InsufficientChange, payment.total, None);
      }
      ghost var sold := if drink.quantity >= 1 then drink.Data().(quantity := drink.quantity - 1) else drink.Data();
      assert L.Buy(before, slot, payment) ==
        (L.Sale(Purchased, change, Some(sold.(quantity := sold.quantity + 1))),
         L.Machine(before.stock[slot := sold], coins + payment.coins - change, cash + payment.cash));
      var decreased := drink.DecreaseQuantity();
      coins := coins + payment.coins;
      cash := cash + payment.cash;
      coins := coins - change;
      sale := L.Sale(Purchased, change, Some(drink.Data().(quantity := drink.quantity + 1)));
      assert drink.Data() == sold;
      forall k | k in drinks && k != slot ensures drinks[k] != drink && Stock()[k] == before.stock[k] {
      }
      assert Stock() == before.stock[slot := sold];
      assert State() == L.Machine(before.stock[slot := sold], before.coins + payment.coins - change, before.cash + payment.cash);
    }

    /** Tops the drink in `slot` up to the ceiling when its stock is at or below the threshold;
        otherwise changes nothing. */
    method RefillDrink(slot: Slot) returns (restock: L.Restock)
      requires Keyed()
      modifies drinks.Values
      ensures Keyed()
      ensures old(Valid()) ==> Valid()
      ensures (restock, State()) == L.Refill(old(State()), slot)
    {
      if slot !in drinks {
        return L.Restock(RefillNotFound, None);
      }
      var drink := drinks[slot];
      if drink.quantity > L.RefillThreshold {
        return L.Restock(AboveRefillThreshold, None);
      }
      ghost var before := Stock();
      var amountToAdd := L.MaxStock - drink.quantity;
      drink.IncreaseQuantity(amountToAdd);
      restock := L.Restock(Refilled, Some(drink.quantity));
      forall k | k in drinks && k != slot ensures drinks[k] != drink && Stock()[k] == before[k] {
      }
      assert Stock() == before[slot := drink.Data()];
    }
  }

  /** The inventory hands out the live drinks: emptying Coke's stock through it makes the next
      purchase of slot A1 fail as out of stock with a full refund. */
  method OutOfStockThroughInventory() returns (sale: L.Sale)
    ensures sale == L.Sale(OutOfStock, 10, None)
  {
    var vm := new VendingMachine();
    var inv := vm.GetInventory();
    assert A1 in vm.Stock();
    assert A1 in vm.drinks;
    var coke :| coke in inv.drinks && coke.slot == A1;
    coke.quantity := 0;
    assert vm.Valid();
    sale := vm.BuyDrink(A1, L.Payment(10, 10, 0));
  }

  /** Likewise, lowering Coke's stock to the threshold through the inventory lets a refill
      top it up to ten, and the inventory then shows ten. */
  method RefillThroughInventory() returns (restock: L.Restock, after: int)
    ensures restock == L.Restock(Refilled, Some(10)) && after == 10
  {
    var vm := new VendingMachine();
    var inv := vm.GetInventory();
    assert A1 in vm.Stock();
    assert A1 in vm.drinks;
    var coke :| coke in inv.drinks && coke.slot == A1;
    coke.quantity := 3;
    assert vm.Valid();
    restock := vm.RefillDrink(A1);
    inv := vm.GetInventory();
    var shown :| shown in inv.drinks && shown.slot == A1;
    after := shown.quantity;
  }

  /** A sale from a new machine: Coke (10) paid 20, declared as 20 in coins and 10 in cash,
      returns 10 in change and reports Coke with its ten units; the inventory then shows 9
      Coke, 100 + 20 - 10 coins and 200 + 10 cash. */
  method PurchaseThroughInventory() returns (sale: L.Sale, inv: Inventory)
    ensures sale == L.Sale(Purchased, 10, Some(DrinkData("Coke", 10, 10, A1)))
    ensures inv.coins == 110 && inv.cash == 210
    ensures exists d :: d in inv.drinks && d.Data() == DrinkData("Coke", 10, 9, A1)
  {
    var vm := new VendingMachine();
    sale := vm.BuyDrink(A1, L.Payment(20, 20, 10));
    inv := vm.GetInventory();
    assert A1 in vm.Stock();
    assert vm.drinks[A1] in inv.drinks;
  }

  /** A stock written below zero through the stored Drink object (the very object an
      inventory entry hands out) does not stop a sale: the refused decrement leaves Coke at
      -1, the reply reports Coke with 0 units, and the pools still take the payment and pay
      the change. */
  method NegativeStockSale() returns (sale: L.Sale, left: int)
    ensures sale == L.Sale(Purchased, 10, Some(DrinkData("Coke", 10, 0, A1)))
    ensures left == -1
  {
    var vm := new VendingMachine();
    assert A1 in vm.Stock();
    var coke := vm.drinks[A1];
    assert coke in vm.drinks.Values;
    coke.quantity := -1;
    assert vm.Keyed();
    assert vm.State().stock[A1] == DrinkData("Coke", 10, -1, A1);
    sale := vm.BuyDrink(A1, L.Payment(20, 20, 0));
    assert vm.State().stock[A1] == DrinkData("Coke", 10, -1, A1);
    left := coke.quantity;
  }
}
