/** The name-keyed vending machine: a map from drink name to live Drink objects plus the
    coin and cash pools. Every operation is proved to do what the matching function of
    NamedLedger says. */
module NamedVending {
  import opened Outcomes
  import opened NamedDrink
  import L = NamedLedger

  /** What getInventory returns: the stored Drink objects themselves (not copies) and the
      two pools. */
  datatype Inventory = Inventory(drinks: seq<Drink>, coins: int, cash: int)

  class VendingMachine {
    var drinks: map<string, Drink>
    var coins: int
    var cash: int

    /** Every drink is stored under its own name, so no Drink object is stored under two
        names. */
    ghost predicate Keyed()
      reads this`drinks, drinks.Values
    {
      forall k :: k in drinks ==> drinks[k].name == k
    }

    /** Keyed, and every drink keeps its construction invariant. */
    ghost predicate Valid()
      reads this`drinks, drinks.Values
    {
      Keyed() && forall k :: k in drinks ==> drinks[k].Valid()
    }

    /** The stored drinks as values. */
    ghost function Stock(): map<string, DrinkData>
      reads this`drinks, drinks.Values
    {
      map k | k in drinks :: drinks[k].Data()
    }

    /** The machine as a value of the ledger. */
    ghost function State(): L.Machine
      reads this`drinks, this`coins, this`cash, drinks.Values
    {
      L.Machine(Stock(), coins, cash)
    }

    /** A new machine holds the seeded drinks, as new objects, and the seeded pools. */
    constructor ()
      ensures Valid() && fresh(drinks.Values)
      ensures State() == L.Seed()
    {
      drinks, coins, cash := map[], 0, 0;
      new;
      SeedInventory();
    }

    /** Clears the drinks and the pools and seeds them again, from any state. */
    method Reset()
      modifies this
      ensures Valid() && fresh(drinks.Values)
      ensures State() == L.Seed()
    {
      drinks, coins, cash := map[], 0, 0;
      SeedInventory();
    }

    /** The seeding shared by the constructor and reset, run on an empty machine. Each
        `new Drink(...)` here passes its checks, so the drinks are built directly. */
    method SeedInventory()
      requires drinks == map[] && coins == 0 && cash == 0
      modifies this
      ensures Valid() && fresh(drinks.Values)
      ensures Stock() == L.SeedStock()
      ensures coins == L.SeedCoins && cash == L.SeedCash
    {
      AddNewDrink("Coke", 10, 10);
      assert fresh(drinks.Values);
      AddNewDrink("Pepsi", 25, 10);
      assert fresh(drinks.Values);
      AddNewDrink("Dew", 30, 10);
      assert fresh(drinks.Values);
      var coinError := AddCoins(100);
      var cashError := AddCash(200);
    }

    /** Builds a drink whose checks pass and stores it under its name. */
    method AddNewDrink(name: string, price: int, quantity: int)
      requires Valid() && price > 0 && quantity >= 0
      modifies this`drinks
      ensures Valid() && fresh(drinks.Values - old(drinks.Values))
      ensures State() == L.AddDrink(old(State()), DrinkData(name, price, quantity))
      ensures name in drinks && fresh(drinks[name]) && drinks == old(drinks)[name := drinks[name]]
    {
      var d := new Drink(name, price, quantity);
      AddDrink(d);
    }

    /** Stores a drink under its name, replacing any drink stored there before. */
    method AddDrink(d: Drink)
      requires Valid() && d.Valid()
      modifies this`drinks
      ensures Valid()
      ensures drinks == old(drinks)[d.name := d]
      ensures State() == L.AddDrink(old(State()), d.Data())
    {
      drinks := drinks[d.name := d];
    }

    /** Adds to the coin pool; a negative amount is an error and changes nothing. */
    method AddCoins(amount: int) returns (err: Option<PoolError>)
      modifies this`coins
      ensures (err, State()) == L.AddCoins(old(State()), amount)
    {
      if amount < 0 {
        return Some(NegativeCoinAmount);
      }
      coins := coins + amount;
      err := None;
    }

    /** Adds to the cash pool; a negative amount is an error and changes nothing. */
    method AddCash(amount: int) returns (err: Option<PoolError>)
      modifies this`cash
      ensures (err, State()) == L.AddCash(old(State()), amount)
    {
      if amount < 0 {
        return Some(NegativeCashAmount);
      }
      cash := cash + amount;
      err := None;
    }

    /** The stored drinks, each once and as the live objects, with both pools. */
    method GetInventory() returns (inv: Inventory)
      ensures |inv.drinks| == |drinks|
      ensures forall k :: k in drinks ==> drinks[k] in inv.drinks
      ensures forall d :: d in inv.drinks ==> d in drinks.Values
      ensures inv.coins == coins && inv.cash == cash
    {
      var ds := [];
      var rest := drinks.Keys;
      while rest != {}
        invariant rest <= drinks.Keys
        invariant |ds| + |rest| == |drinks|
        invariant forall k :: k in drinks && k !in rest ==> drinks[k] in ds
        invariant forall d :: d in ds ==> d in drinks.Values
        decreases rest
      {
        var k :| k in rest;
        ds := ds + [drinks[k]];
        rest := rest - {k};
      }
      inv := Inventory(ds, coins, cash);
    }

    /** Sells the named drink if it is there, in stock, paid for and the pools can make the
        change; otherwise refunds the payment and changes nothing. */
    method BuyDrink(drinkName: string, paymentAmount: int) returns (sale: L.Sale)
      requires Keyed()
      modifies this`coins, drinks.Values
      ensures Keyed() && drinks == old(drinks)
      ensures old(Valid()) ==> Valid()
      ensures (sale, State()) == L.Buy(old(State()), drinkName, paymentAmount)
    {
      ghost var before := State();
      if drinkName !in drinks {
        assert L.Buy(before, drinkName, paymentAmount) == (L.Sale(DrinkNotFound, paymentAmount, None), before);
        return L.Sale(DrinkNotFound, paymentAmount, None);
      }
      var drink := drinks[drinkName];
      assert before.stock[drinkName] == drink.Data();
      if drink.quantity == 0 {
        assert L.Buy(before, drinkName, paymentAmount) == (L.Sale(OutOfStock, paymentAmount, None), before);
        return L.Sale(OutOfStock, paymentAmount, None);
      }
      if paymentAmount < drink.price {
        assert L.Buy(before, drinkName, paymentAmount) == (L.Sale(InsufficientPayment, paymentAmount, None), before);
        return L.Sale(InsufficientPayment, paymentAmount, None);
      }
      var change := paymentAmount - drink.price;
      if coins + cash < change {
        assert L.Buy(before, drinkName, paymentAmount) == (L.Sale(InsufficientChange, paymentAmount, None), before);
        return L.Sale(InsufficientChange, paymentAmount, None);
      }
      ghost var sold := if drink.quantity >= 1 then drink.Data().(quantity := drink.quantity - 1) else drink.Data();
      assert L.Buy(before, drinkName, paymentAmount) ==
        (L.Sale(Purchased, change, Some(sold.(quantity := sold.quantity + 1))),
         L.Machine(before.stock[drinkName := sold], coins + paymentAmount - change, cash));
      var decreased := drink.DecreaseQuantity();
      coins := coins + paymentAmount;
      coins := coins - change;
      sale := L.Sale(Purchased, change, Some(drink.Data().(quantity := drink.quantity + 1)));
      assert drink.Data() == sold;
      forall k | k in drinks && k != drinkName ensures drinks[k] != drink && Stock()[k] == before.stock[k] {
      }
      assert Stock() == before.stock[drinkName := sold];
      assert State() == L.Machine(before.stock[drinkName := sold], before.coins + paymentAmount - change, before.cash);
    }

    /** Tops the named drink up to the ceiling when its stock is at or below the threshold;
        otherwise changes nothing. */
    method RefillDrink(drinkName: string) returns (restock: L.Restock)
      requires Keyed()
      modifies drinks.Values
      ensures Keyed()
      ensures old(Valid()) ==> Valid()
      ensures (restock, State()) == L.Refill(old(State()), drinkName)
    {
      if drinkName !in drinks {
        return L.Restock(RefillNotFound, None);
      }
      var drink := drinks[drinkName];
      if drink.quantity > L.RefillThreshold {
        return L.Restock(AboveRefillThreshold, None);
      }
      ghost var before := Stock();
      var amountToAdd := L.MaxStock - drink.quantity;
      drink.IncreaseQuantity(amountToAdd);
      restock := L.Restock(Refilled, Some(drink.quantity));
      forall k | k in drinks && k != drinkName ensures drinks[k] != drink && Stock()[k] == before[k] {
      }
      assert Stock() == before[drinkName := drink.Data()];
    }
  }

  /** The inventory hands out the live drinks: emptying Dew's stock through it makes the next
      purchase of Dew fail as out of stock with a full refund. */
  method OutOfStockThroughInventory() returns (sale: L.Sale)
    ensures sale == L.Sale(OutOfStock, 30, None)
  {
    var vm := new VendingMachine();
    var inv := vm.GetInventory();
    assert "Dew" in vm.Stock();
    assert "Dew" in vm.drinks;
    var dew :| dew in inv.drinks && dew.name == "Dew";
    dew.quantity := 0;
    assert vm.Valid();
    sale := vm.BuyDrink("Dew", 30);
  }

  /** A sale from a new machine: Pepsi (25) paid with 100 returns 75 in change, reports Pepsi
      with its ten units, and leaves 9 Pepsi, 125 coins and 200 cash. */
  method PurchaseThroughInventory() returns (sale: L.Sale, inv: Inventory)
    ensures sale == L.Sale(Purchased, 75, Some(DrinkData("Pepsi", 25, 10)))
    ensures inv.coins == 125 && inv.cash == 200
    ensures exists d :: d in inv.drinks && d.Data() == DrinkData("Pepsi", 25, 9)
  {
    var vm := new VendingMachine();
    sale := vm.BuyDrink("Pepsi", 100);
    inv := vm.GetInventory();
    assert "Pepsi" in vm.Stock();
    assert vm.drinks["Pepsi"] in inv.drinks;
  }

  /** A stock written below zero through the stored Drink object (the very object an
      inventory entry hands out) does not stop a sale: the refused decrement leaves Coke at
      -1, the reply reports Coke with 0 units, and the change is paid from the coins. */
  method NegativeStockSale() returns (sale: L.Sale, left: int)
    ensures sale == L.Sale(Purchased, 10, Some(DrinkData("Coke", 10, 0)))
    ensures left == -1
  {
    var vm := new VendingMachine();
    assert "Coke" in vm.Stock();
    var coke := vm.drinks["Coke"];
    assert coke in vm.drinks.Values;
    coke.quantity := -1;
    assert vm.Keyed();
    assert vm.State().stock["Coke"] == DrinkData("Coke", 10, -1);
    sale := vm.BuyDrink("Coke", 20);
    assert vm.State().stock["Coke"] == DrinkData("Coke", 10, -1);
    left := coke.quantity;
  }
}
