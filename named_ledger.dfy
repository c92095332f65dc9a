/** The name-keyed machine as a value: its state, what each operation returns and leaves
    behind, and the properties of those operations. The class in NamedVending is proved to
    follow these functions step by step. */
module NamedLedger {
  import opened Outcomes
  import opened NamedDrink

  /** The stocking ceiling a refill tops up to. */
  const MaxStock := 10
  /** The stock level at or below which a refill is allowed. */
  const RefillThreshold := 3
  /** The pools every machine starts from. */
  const SeedCoins := 100
  const SeedCash := 200

  /** The machine's drinks keyed by name (as copies of their fields) and its two pools. */
  datatype Machine = Machine(stock: map<string, DrinkData>, coins: int, cash: int)

  /** What buyDrink returns: its outcome, the money handed back and, on a sale, the drink bought. */
  datatype Sale = Sale(status: BuyStatus, change: int, purchased: Option<DrinkData>)

  /** What refillDrink returns: its outcome and, on success, the new stock level. */
  datatype Restock = Restock(status: RefillStatus, newQuantity: Option<int>)

  /** The three seeded drinks, each with ten units in stock. */
  function SeedStock(): map<string, DrinkData>
  {
    map[
      "Coke" := DrinkData("Coke", 10, 10),
      "Pepsi" := DrinkData("Pepsi", 25, 10),
      "Dew" := DrinkData("Dew", 30, 10)
    ]
  }

  /** The state the constructor and reset both produce. */
  function Seed(): Machine
  {
    Machine(SeedStock(), SeedCoins, SeedCash)
  }

  /** Every stored drink sits under its own name and keeps the invariant its constructor
      established. */
  predicate WellFormed(m: Machine)
  {
    forall k :: k in m.stock ==> m.stock[k].name == k && m.stock[k].price > 0 && m.stock[k].quantity >= 0
  }

  /** addDrink: stores the drink under its name, replacing whatever was stored there. */
  function AddDrink(m: Machine, d: DrinkData): Machine
  {
    m.(stock := m.stock[d.name := d])
  }

  /** addCoins: a negative amount throws and changes nothing; otherwise it joins the coin pool. */
  function AddCoins(m: Machine, amount: int): (Option<PoolError>, Machine)
  {
    if amount < 0 then (Some(NegativeCoinAmount), m) else (None, m.(coins := m.coins + amount))
  }

  /** addCash: a negative amount throws and changes nothing; otherwise it joins the cash pool. */
  function AddCash(m: Machine, amount: int): (Option<PoolError>, Machine)
  {
    if amount < 0 then (Some(NegativeCashAmount), m) else (None, m.(cash := m.cash + amount))
  }

  /** buyDrink: four checks in a fixed order, each refunding the whole payment; on a sale the
      stock goes down through decreaseQuantity() (whose result is ignored), the drink is
      reported with one unit more than it has after that call, the whole payment
      joins the coin pool and the change is then paid out of it; the cash pool is not touched. */
  function Buy(m: Machine, name: string, payment: int): (Sale, Machine)
  {
    if name !in m.stock then (Sale(DrinkNotFound, payment, None), m)
    else
      var d := m.stock[name];
      if d.quantity == 0 then (Sale(OutOfStock, payment, None), m)
      else if payment < d.price then (Sale(InsufficientPayment, payment, None), m)
      else
        var change := payment - d.price;
        if m.coins + m.cash < change then (Sale(InsufficientChange, payment, None), m)
        else
          var sold := if d.quantity >= 1 then d.(quantity := d.quantity - 1) else d;
          (Sale(Purchased, change, Some(sold.(quantity := sold.quantity + 1))),
           Machine(m.stock[name := sold], m.coins + payment - change, m.cash))
  }

  /** refillDrink: refused for an unknown name or a stock above the threshold; otherwise
      increaseQuantity(MaxStock - quantity). */
  function Refill(m: Machine, name: string): (Restock, Machine)
  {
    if name !in m.stock then (Restock(RefillNotFound, None), m)
    else
      var d := m.stock[name];
      if d.quantity > RefillThreshold then (Restock(AboveRefillThreshold, None), m)
      else
        var topped := d.(quantity := d.quantity + (MaxStock - d.quantity));
        (Restock(Refilled, Some(topped.quantity)), m.(stock := m.stock[name := topped]))
  }

  /** The operations the stocking invariant is stated over: buy, refill, addCoins, addCash
      and reset. addDrink and writes through the Drink objects getInventory hands out are
      not among them. */
  datatype Op = BuyOp(name: string, payment: int) | RefillOp(name: string)
              | AddCoinsOp(amount: int) | AddCashOp(amount: int) | ResetOp

  /** The state an operation leaves behind. */
  function Step(m: Machine, op: Op): Machine
  {
    match op
    case BuyOp(name, payment) => Buy(m, name, payment).1
    case RefillOp(name) => Refill(m, name).1
    case AddCoinsOp(amount) => AddCoins(m, amount).1
    case AddCashOp(amount) => AddCash(m, amount).1
    case ResetOp => Seed()
  }

  /** The state a sequence of operations leaves behind. */
  function Run(m: Machine, ops: seq<Op>): Machine
    decreases |ops|
  {
    if ops == [] then m else Run(Step(m, ops[0]), ops[1..])
  }

  // ---------------------------------------------------------------------------
  // Seeding, reset and addDrink

  /** The seed holds exactly Coke, Pepsi and Dew, each with ten units, and the pools 100
      and 200; it is well formed. */
  lemma SeedContents()
    ensures Seed().stock.Keys == {"Coke", "Pepsi", "Dew"}
    ensures Seed().stock["Coke"] == DrinkData("Coke", 10, 10)
    ensures Seed().stock["Pepsi"] == DrinkData("Pepsi", 25, 10)
    ensures Seed().stock["Dew"] == DrinkData("Dew", 30, 10)
    ensures forall k :: k in Seed().stock ==> Seed().stock[k].quantity == MaxStock
    ensures Seed().coins == 100 && Seed().cash == 200
    ensures WellFormed(Seed())
  {
    var s := SeedStock();
    assert s.Keys == {"Coke", "Pepsi", "Dew"};
    forall k | k in s
      ensures s[k].name == k && s[k].price > 0 && s[k].quantity == MaxStock
    {
      assert k == "Coke" || k == "Pepsi" || k == "Dew";
    }
  }

  /** Reset replaces the whole state, so resetting twice is resetting once. */
  lemma ResetIdempotent(m: Machine)
    ensures Step(Step(m, ResetOp), ResetOp) == Step(m, ResetOp) == Seed()
  {
  }

  /** addDrink stores the drink under its name: a new name adds one entry, a name already
      present has its entry replaced and the number of entries stays; no other entry and
      neither pool changes. */
  lemma AddDrinkReplaces(m: Machine, d: DrinkData)
    ensures AddDrink(m, d).stock[d.name] == d
    ensures AddDrink(m, d).stock.Keys == m.stock.Keys + {d.name}
    ensures d.name in m.stock ==> |AddDrink(m, d).stock| == |m.stock|
    ensures d.name !in m.stock ==> |AddDrink(m, d).stock| == |m.stock| + 1
    ensures forall k :: k in m.stock && k != d.name ==> AddDrink(m, d).stock[k] == m.stock[k]
    ensures AddDrink(m, d).coins == m.coins && AddDrink(m, d).cash == m.cash
  {
    var s := AddDrink(m, d).stock;
    if d.name in m.stock {
      assert s.Keys == m.stock.Keys;
    } else {
      assert s.Keys == m.stock.Keys + {d.name};
    }
  }

  // ---------------------------------------------------------------------------
  // Pools

  /** addCoins rejects exactly the negative amounts without a change; otherwise exactly
      `amount` joins the coin pool and the drinks and the cash pool are untouched. */
  lemma AddCoinsEffect(m: Machine, amount: int)
    ensures AddCoins(m, amount).0.Some? <==> amount < 0
    ensures amount < 0 ==> AddCoins(m, amount).1 == m
    ensures amount >= 0 ==> AddCoins(m, amount).1 == Machine(m.stock, m.coins + amount, m.cash)
  {
  }

  /** addCash rejects exactly the negative amounts without a change; otherwise exactly
      `amount` joins the cash pool and the drinks and the coin pool are untouched. */
  lemma AddCashEffect(m: Machine, amount: int)
    ensures AddCash(m, amount).0.Some? <==> amount < 0
    ensures amount < 0 ==> AddCash(m, amount).1 == m
    ensures amount >= 0 ==> AddCash(m, amount).1 == Machine(m.stock, m.coins, m.cash + amount)
  {
  }

  // ---------------------------------------------------------------------------
  // Purchase

  /** The outcome of a purchase is decided by the first failing check, in the order:
      missing name, empty stock, underpayment, not enough change. */
  lemma BuyChecksInOrder(m: Machine, name: string, payment: int)
    ensures Buy(m, name, payment).0.status == DrinkNotFound <==> name !in m.stock
    ensures Buy(m, name, payment).0.status == OutOfStock <==> name in m.stock && m.stock[name].quantity == 0
    ensures Buy(m, name, payment).0.status == InsufficientPayment <==>
      name in m.stock && m.stock[name].quantity != 0 && payment < m.stock[name].price
    ensures Buy(m, name, payment).0.status == InsufficientChange <==>
      name in m.stock && m.stock[name].quantity != 0 && payment >= m.stock[name].price &&
      m.coins + m.cash < payment - m.stock[name].price
    ensures Buy(m, name, payment).0.status == Purchased <==>
      name in m.stock && m.stock[name].quantity != 0 && payment >= m.stock[name].price &&
      m.coins + m.cash >= payment - m.stock[name].price
  {
  }

  /** A failed purchase refunds the whole payment, reports no drink and changes nothing. */
  lemma BuyFailureChangesNothing(m: Machine, name: string, payment: int)
    requires Buy(m, name, payment).0.status != Purchased
    ensures Buy(m, name, payment).0 == Sale(Buy(m, name, payment).0.status, payment, None)
    ensures Buy(m, name, payment).1 == m
  {
  }

  /** On any machine, a sale hands back the overpayment, which is never negative and never
      more than the two pools held; no other drink changes; the coin pool grows by exactly the
      price and the cash pool does not move. When the bought drink's stock is not negative it
      loses exactly one unit and the drink is reported as it was before the sale; a negative
      stock refuses the decrement and stays, and the drink is reported with one unit more. */
  lemma BuySuccessEffect(m: Machine, name: string, payment: int)
    requires Buy(m, name, payment).0.status == Purchased
    ensures name in m.stock
    ensures Buy(m, name, payment).0.change == payment - m.stock[name].price
    ensures 0 <= Buy(m, name, payment).0.change <= m.coins + m.cash
    ensures Buy(m, name, payment).1.stock.Keys == m.stock.Keys
    ensures m.stock[name].quantity >= 0 ==> Buy(m, name, payment).0.purchased == Some(m.stock[name])
    ensures m.stock[name].quantity >= 0 ==>
      Buy(m, name, payment).1.stock[name] == m.stock[name].(quantity := m.stock[name].quantity - 1)
    ensures m.stock[name].quantity < 0 ==>
      Buy(m, name, payment).0.purchased == Some(m.stock[name].(quantity := m.stock[name].quantity + 1))
    ensures m.stock[name].quantity < 0 ==> Buy(m, name, payment).1.stock[name] == m.stock[name]
    ensures forall k :: k in m.stock && k != name ==> Buy(m, name, payment).1.stock[k] == m.stock[k]
    ensures Buy(m, name, payment).1.coins == m.coins + m.stock[name].price
    ensures Buy(m, name, payment).1.cash == m.cash
  {
  }

  // ---------------------------------------------------------------------------
  // Refill

  /** A refill succeeds exactly when the drink is stocked at or below the threshold; it then
      sets the stock to the ceiling and reports it, and changes nothing else. A refused refill
      reports no quantity and changes nothing. */
  lemma RefillEffect(m: Machine, name: string)
    ensures Refill(m, name).0.status == Refilled <==> name in m.stock && m.stock[name].quantity <= RefillThreshold
    ensures Refill(m, name).0.status == RefillNotFound <==> name !in m.stock
    ensures Refill(m, name).0.status == Refilled ==>
      && Refill(m, name).0.newQuantity == Some(MaxStock)
      && Refill(m, name).1 == m.(stock := m.stock[name := m.stock[name].(quantity := MaxStock)])
    ensures Refill(m, name).0.status != Refilled ==>
      Refill(m, name).0.newQuantity == None && Refill(m, name).1 == m
  {
  }

  // ---------------------------------------------------------------------------
  // Whole runs

  /** A state reachable from the seed: exactly the three seeded drinks, each well formed and
      stocked with at most the ceiling, and neither pool below its seeded amount. */
  ghost predicate Stocked(m: Machine)
  {
    && WellFormed(m)
    && m.stock.Keys == SeedStock().Keys
    && (forall k :: k in m.stock ==> m.stock[k].quantity <= MaxStock)
    && m.coins >= SeedCoins && m.cash >= SeedCash
  }

  /** A purchase, sold or refused, keeps a stocked machine stocked. */
  lemma BuyKeepsStocked(m: Machine, name: string, payment: int)
    requires Stocked(m)
    ensures Stocked(Buy(m, name, payment).1)
  {
    if Buy(m, name, payment).0.status == Purchased {
      BuySuccessEffect(m, name, payment);
      var after := Buy(m, name, payment).1;
      forall k | k in after.stock
        ensures after.stock[k].name == k && 0 <= after.stock[k].quantity <= MaxStock
      {
        if k != name {
          assert after.stock[k] == m.stock[k];
        }
      }
    } else {
      BuyFailureChangesNothing(m, name, payment);
    }
  }

  /** A refill, done or refused, keeps a stocked machine stocked. */
  lemma RefillKeepsStocked(m: Machine, name: string)
    requires Stocked(m)
    ensures Stocked(Refill(m, name).1)
  {
    RefillEffect(m, name);
    var after := Refill(m, name).1;
    forall k | k in after.stock
      ensures after.stock[k].name == k && 0 <= after.stock[k].quantity <= MaxStock
    {
      if k != name {
        assert after.stock[k] == m.stock[k];
      }
    }
  }

  /** Every operation keeps a stocked machine stocked. */
  lemma StepKeepsStocked(m: Machine, op: Op)
    requires Stocked(m)
    ensures Stocked(Step(m, op))
  {
    match op
    case BuyOp(name, payment) => BuyKeepsStocked(m, name, payment);
    case RefillOp(name) => RefillKeepsStocked(m, name);
    case AddCoinsOp(amount) =>
    case AddCashOp(amount) =>
    case ResetOp => SeedContents();
  }

  /** Whatever operations follow one another, the machine keeps exactly the three seeded
      drinks, every stock stays between zero and the ceiling, and since a sale only ever adds
      the price to the coin pool, neither pool drops below its seeded amount. */
  lemma {:induction false} RunKeepsStocked(m: Machine, ops: seq<Op>)
    requires Stocked(m)
    ensures Stocked(Run(m, ops))
    decreases |ops|
  {
    if ops != [] {
      StepKeepsStocked(m, ops[0]);
      RunKeepsStocked(Step(m, ops[0]), ops[1..]);
    }
  }

  /** Every state the engine can reach from its seed is stocked. */
  lemma ReachableStocked(ops: seq<Op>)
    ensures Stocked(Run(Seed(), ops))
  {
    SeedContents();
    RunKeepsStocked(Seed(), ops);
  }

  // ---------------------------------------------------------------------------
  // Scenarios from the engine's documented behaviour

  /** Coke (10) from the seeded machine paid with 20: change 10, Coke goes from 10 to 9, the
      coin pool ends at 100 + 20 - 10 and the cash pool stays at 200. */
  lemma PurchaseScenario()
    ensures Buy(Seed(), "Coke", 20).0 == Sale(Purchased, 10, Some(DrinkData("Coke", 10, 10)))
    ensures Buy(Seed(), "Coke", 20).1.stock["Coke"].quantity == 9
    ensures Buy(Seed(), "Coke", 20).1.coins == 110 && Buy(Seed(), "Coke", 20).1.cash == 200
  {
  }

  /** A name that was never seeded is not found, and the payment comes back in full. */
  lemma UnknownDrinkScenario()
    ensures Buy(Seed(), "Sprite", 20) == (Sale(DrinkNotFound, 20, None), Seed())
  {
    assert "Sprite" !in Seed().stock by {
      SeedContents();
    }
  }

  /** Stock written below zero through a live inventory entry: the decrement is refused and
      ignored, so Coke stays at -1, yet the sale goes through and reports one unit more than
      is left, 0. */
  lemma NegativeStockSaleScenario()
    ensures var m := Seed().(stock := Seed().stock["Coke" := DrinkData("Coke", 10, -1)]);
      && Buy(m, "Coke", 20).0 == Sale(Purchased, 10, Some(DrinkData("Coke", 10, 0)))
      && Buy(m, "Coke", 20).1.stock["Coke"].quantity == -1
  {
  }
}
