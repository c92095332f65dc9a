/** The slot-keyed machine as a value: its state, what each operation returns and leaves
    behind, and the properties of those operations. The class in SlottedVending is proved
    to follow these functions step by step. */
module SlottedLedger {
  import opened Outcomes
  import opened Slots
  import opened SlottedDrink

  /** The stocking ceiling a refill tops up to. */
  const MaxStock := 10
  /** The stock level at or below which a refill is allowed. */
  const RefillThreshold := 3
  /** The pools every machine starts from. */
  const SeedCoins := 100
  const SeedCash := 200

  /** A purchase's tender: the total the customer pays and its split into coins and cash.
      The engine does not check that the split adds up to the total. */
  datatype Payment = Payment(total: int, coins: int, cash: int)

  /** The machine's drinks keyed by slot (as copies of their fields) and its two pools. */
  datatype Machine = Machine(stock: map<Slot, DrinkData>, coins: int, cash: int)

  /** What buyDrink returns: its outcome, the money handed back and, on a sale, the drink bought. */
  datatype Sale = Sale(status: BuyStatus, change: int, purchased: Option<DrinkData>)

  /** What refillDrink returns: its outcome and, on success, the new stock level. */
  datatype Restock = Restock(status: RefillStatus, newQuantity: Option<int>)

  /** The eight seeded drinks, each with ten units in stock. */
  function SeedStock(): map<Slot, DrinkData>
  {
    map[
      A1 := DrinkData("Coke", 10, 10, A1),
      A2 := DrinkData("Pepsi", 25, 10, A2),
      B1 := DrinkData("Dew", 30, 10, B1),
      B2 := DrinkData("Sprite", 20, 10, B2),
      C1 := DrinkData("Fanta", 15, 10, C1),
      C2 := DrinkData("Dr. Pepper", 35, 10, C2),
      D1 := DrinkData("Mountain Dew", 30, 10, D1),
      D2 := DrinkData("Root Beer", 25, 10, D2)
    ]
  }

  /** The state the constructor and reset both produce. */
  function Seed(): Machine
  {
    Machine(SeedStock(), SeedCoins, SeedCash)
  }

  /** Every stored drink sits under its own slot and keeps the invariant its constructor
      established. */
  predicate WellFormed(m: Machine)
  {
    forall k :: k in m.stock ==> m.stock[k].slot == k && m.stock[k].price > 0 && m.stock[k].quantity >= 0
  }

  /** addCoins: a negative amount throws and changes nothing; otherwise it joins the coin pool. */
  function AddCoins(m: Machine, amount: int): (Option<PoolError>, Machine)
  {
    if amount < 0 then (Some(NegativeCoinAmount), m) else (None, m.(coins := m.coins + amount))
  }

  /** addCash: a negative amount throws and changes nothing; otherwise it joins the cash pool. */
  function AddCash(m: Machine, amount: int): (Option<PoolError>, Machine)
  {
    if amount < 0 then (Some(NegativeCashAmount), m) else (None, m.(cash := m.cash + amount))
  }

  /** buyDrink: four checks in a fixed order, each refunding the whole payment; on a sale the
      stock goes down through decreaseQuantity() (whose result is ignored), the drink is
      reported with one unit more than it has after that call, the coin and cash
      tender join their pools and the change is paid out of the coin pool alone. */
  function Buy(m: Machine, slot: Slot, p: Payment): (Sale, Machine)
  {
    if slot !in m.stock then (Sale(DrinkNotFound, p.total, None), m)
    else
      var d := m.stock[slot];
      if d.quantity == 0 then (Sale(OutOfStock, p.total, None), m)
      else if p.total < d.price then (Sale(InsufficientPayment, p.total, None), m)
      else
        var change := p.total - d.price;
        if m.coins + m.cash < change then (Sale(InsufficientChange, p.total, None), m)
        else
          var sold := if d.quantity >= 1 then d.(quantity := d.quantity - 1) else d;
          (Sale(Purchased, change, Some(sold.(quantity := sold.quantity + 1))),
           Machine(m.stock[slot := sold], m.coins + p.coins - change, m.cash + p.cash))
  }

  /** refillDrink: refused for an unknown slot or a stock above the threshold; otherwise
      increaseQuantity(MaxStock - quantity). */
  function Refill(m: Machine, slot: Slot): (Restock, Machine)
  {
    if slot !in m.stock then (Restock(RefillNotFound, None), m)
    else
      var d := m.stock[slot];
      if d.quantity > RefillThreshold then (Restock(AboveRefillThreshold, None), m)
      else
        var topped := d.(quantity := d.quantity + (MaxStock - d.quantity));
        (Restock(Refilled, Some(topped.quantity)), m.(stock := m.stock[slot := topped]))
  }

  /** The machine's own operations: buy, refill, addCoins, addCash and reset. Writes through
      the Drink objects getInventory hands out are not operations, and are not modelled here. */
  datatype Op = BuyOp(slot: Slot, payment: Payment) | RefillOp(slot: Slot)
              | AddCoinsOp(amount: int) | AddCashOp(amount: int) | ResetOp

  /** The state an operation leaves behind. */
  function Step(m: Machine, op: Op): Machine
  {
    match op
    case BuyOp(slot, p) => Buy(m, slot, p).1
    case RefillOp(slot) => Refill(m, slot).1
    case AddCoinsOp(amount) => AddCoins(m, amount).1
    case AddCashOp(amount) => AddCash(m, amount).1
    case ResetOp => Seed()
  }

  /** The state a sequence of operations leaves behind. */
  function Run(m: Machine, ops: seq<Op>): Machine
    decreases |ops|
  {
    if ops == [] then m else Run(Step(m, ops[0]), ops[1..])
  }

  // ---------------------------------------------------------------------------
  // Seeding and reset

  /** The seed holds exactly the eight seeded slots with their names and prices, each drink
      with ten units, and the pools 100 and 200; it is well formed. */
  lemma SeedContents()
    ensures Seed().stock.Keys == {A1, A2, B1, B2, C1, C2, D1, D2}
    ensures Seed().stock[A1] == DrinkData("Coke", 10, 10, A1)
    ensures Seed().stock[A2] == DrinkData("Pepsi", 25, 10, A2)
    ensures Seed().stock[B1] == DrinkData("Dew", 30, 10, B1)
    ensures Seed().stock[B2] == DrinkData("Sprite", 20, 10, B2)
    ensures Seed().stock[C1] == DrinkData("Fanta", 15, 10, C1)
    ensures Seed().stock[C2] == DrinkData("Dr. Pepper", 35, 10, C2)
    ensures Seed().stock[D1] == DrinkData("Mountain Dew", 30, 10, D1)
    ensures Seed().stock[D2] == DrinkData("Root Beer", 25, 10, D2)
    ensures forall k :: k in Seed().stock ==> Seed().stock[k].quantity == MaxStock
    ensures Seed().coins == 100 && Seed().cash == 200
    ensures WellFormed(Seed())
  {
    var s := SeedStock();
    assert s.Keys == {A1, A2, B1, B2, C1, C2, D1, D2};
    forall k | k in s
      ensures s[k].slot == k && s[k].price > 0 && s[k].quantity == MaxStock
    {
      match k
      case A1 => case A2 => case B1 => case B2 =>
      case C1 => case C2 => case D1 => case D2 =>
    }
  }

  /** The seed holds eight drinks. */
  lemma SeedSize()
    ensures |Seed().stock| == 8
  {
    var front, back := {A1, A2, B1, B2}, {C1, C2, D1, D2};
    assert Seed().stock.Keys == front + back;
    assert |front| == 4 && |back| == 4 && front !! back;
  }

  /** Reset replaces the whole state, so resetting twice is resetting once. */
  lemma ResetIdempotent(m: Machine)
    ensures Step(Step(m, ResetOp), ResetOp) == Step(m, ResetOp) == Seed()
  {
  }

  // ---------------------------------------------------------------------------
  // Pools

  /** addCoins rejects exactly the negative amounts without a change; otherwise exactly
      `amount` joins the coin pool and the drinks and the cash pool are untouched. */
  lemma AddCoinsEffect(m: Machine, amount: int)
    ensures AddCoins(m, amount).0.Some? <==> amount < 0
    ensures amount < 0 ==> AddCoins(m, amount).1 == m
    ensures amount >= 0 ==> AddCoins(m, amount).1 == Machine(m.stock, m.coins + amount, m.cash)
  {
  }

  /** addCash rejects exactly the negative amounts without a change; otherwise exactly
      `amount` joins the cash pool and the drinks and the coin pool are untouched. */
  lemma AddCashEffect(m: Machine, amount: int)
    ensures AddCash(m, amount).0.Some? <==> amount < 0
    ensures amount < 0 ==> AddCash(m, amount).1 == m
    ensures amount >= 0 ==> AddCash(m, amount).1 == Machine(m.stock, m.coins, m.cash + amount)
  {
  }

  // ---------------------------------------------------------------------------
  // Purchase

  /** The outcome of a purchase is decided by the first failing check, in the order:
      missing slot, empty stock, underpayment, not enough change. */
  lemma BuyChecksInOrder(m: Machine, slot: Slot, p: Payment)
    ensures Buy(m, slot, p).0.status == DrinkNotFound <==> slot !in m.stock
    ensures Buy(m, slot, p).0.status == OutOfStock <==> slot in m.stock && m.stock[slot].quantity == 0
    ensures Buy(m, slot, p).0.status == InsufficientPayment <==>
      slot in m.stock && m.stock[slot].quantity != 0 && p.total < m.stock[slot].price
    ensures Buy(m, slot, p).0.status == InsufficientChange <==>
      slot in m.stock && m.stock[slot].quantity != 0 && p.total >= m.stock[slot].price &&
      m.coins + m.cash < p.total - m.stock[slot].price
    ensures Buy(m, slot, p).0.status == Purchased <==>
      slot in m.stock && m.stock[slot].quantity != 0 && p.total >= m.stock[slot].price &&
      m.coins + m.cash >= p.total - m.stock[slot].price
  {
  }

  /** A failed purchase refunds the whole payment, reports no drink and changes nothing. */
  lemma BuyFailureChangesNothing(m: Machine, slot: Slot, p: Payment)
    requires Buy(m, slot, p).0.status != Purchased
    ensures Buy(m, slot, p).0 == Sale(Buy(m, slot, p).0.status, p.total, None)
    ensures Buy(m, slot, p).1 == m
  {
  }

  /** On any machine, a sale hands back the overpayment, which is never negative and never
      more than the two pools held; no other slot changes; the coin pool absorbs the coin
      tender and pays the change, and the cash pool absorbs the cash tender. When the bought
      slot's stock is not negative it loses exactly one unit and the drink is reported as it
      was before the sale; a negative stock refuses the decrement and stays, and the drink is
      reported with one unit more. */
  lemma BuySuccessEffect(m: Machine, slot: Slot, p: Payment)
    requires Buy(m, slot, p).0.status == Purchased
    ensures slot in m.stock
    ensures Buy(m, slot, p).0.change == p.total - m.stock[slot].price
    ensures 0 <= Buy(m, slot, p).0.change <= m.coins + m.cash
    ensures Buy(m, slot, p).1.stock.Keys == m.stock.Keys
    ensures m.stock[slot].quantity >= 0 ==> Buy(m, slot, p).0.purchased == Some(m.stock[slot])
    ensures m.stock[slot].quantity >= 0 ==>
      Buy(m, slot, p).1.stock[slot] == m.stock[slot].(quantity := m.stock[slot].quantity - 1)
    ensures m.stock[slot].quantity < 0 ==>
      Buy(m, slot, p).0.purchased == Some(m.stock[slot].(quantity := m.stock[slot].quantity + 1))
    ensures m.stock[slot].quantity < 0 ==> Buy(m, slot, p).1.stock[slot] == m.stock[slot]
    ensures forall k :: k in m.stock && k != slot ==> Buy(m, slot, p).1.stock[k] == m.stock[k]
    ensures Buy(m, slot, p).1.coins == m.coins + p.coins - Buy(m, slot, p).0.change
    ensures Buy(m, slot, p).1.cash == m.cash + p.cash
  {
  }

  /** When the tender's split adds up to its total, a sale grows the two pools together by
      exactly the price of the drink. */
  lemma BuyKeepsTheTakings(m: Machine, slot: Slot, p: Payment)
    requires Buy(m, slot, p).0.status == Purchased
    requires p.coins + p.cash == p.total
    ensures slot in m.stock
    ensures Buy(m, slot, p).1.coins + Buy(m, slot, p).1.cash == m.coins + m.cash + m.stock[slot].price
  {
  }

  /** The change is checked against both pools but paid from the coin pool alone, so a sale
      from the seeded machine can leave the coin pool negative: Dr. Pepper (35) paid with 300
      in cash needs 265 in change, which coins and cash together cover. */
  lemma CoinPoolCanGoNegative()
    ensures Buy(Seed(), C2, Payment(300, 0, 300)).0 == Sale(Purchased, 265, Some(DrinkData("Dr. Pepper", 35, 10, C2)))
    ensures Buy(Seed(), C2, Payment(300, 0, 300)).1.coins == -165
  {
  }

  // ---------------------------------------------------------------------------
  // Refill

  /** A refill succeeds exactly when the slot is stocked at or below the threshold; it then
      sets the stock to the ceiling and reports it, and changes nothing else. A refused refill
      reports no quantity and changes nothing. */
  lemma RefillEffect(m: Machine, slot: Slot)
    ensures Refill(m, slot).0.status == Refilled <==> slot in m.stock && m.stock[slot].quantity <= RefillThreshold
    ensures Refill(m, slot).0.status == RefillNotFound <==> slot !in m.stock
    ensures Refill(m, slot).0.status == Refilled ==>
      && Refill(m, slot).0.newQuantity == Some(MaxStock)
      && Refill(m, slot).1 == m.(stock := m.stock[slot := m.stock[slot].(quantity := MaxStock)])
    ensures Refill(m, slot).0.status != Refilled ==>
      Refill(m, slot).0.newQuantity == None && Refill(m, slot).1 == m
  {
  }

  // ---------------------------------------------------------------------------
  // Whole runs

  /** A state reachable from the seed: exactly the eight seeded slots, each well formed and
      stocked with at most the ceiling. */
  ghost predicate Stocked(m: Machine)
  {
    && WellFormed(m)
    && m.stock.Keys == SeedStock().Keys
    && forall k :: k in m.stock ==> m.stock[k].quantity <= MaxStock
  }

  /** A purchase, sold or refused, keeps a stocked machine stocked. */
  lemma BuyKeepsStocked(m: Machine, slot: Slot, p: Payment)
    requires Stocked(m)
    ensures Stocked(Buy(m, slot, p).1)
  {
    if Buy(m, slot, p).0.status == Purchased {
      BuySuccessEffect(m, slot, p);
      var after := Buy(m, slot, p).1;
      forall k | k in after.stock
        ensures after.stock[k].slot == k && 0 <= after.stock[k].quantity <= MaxStock
      {
        if k != slot {
          assert after.stock[k] == m.stock[k];
        }
      }
    } else {
      BuyFailureChangesNothing(m, slot, p);
    }
  }

  /** A refill, done or refused, keeps a stocked machine stocked. */
  lemma RefillKeepsStocked(m: Machine, slot: Slot)
    requires Stocked(m)
    ensures Stocked(Refill(m, slot).1)
  {
    RefillEffect(m, slot);
    var after := Refill(m, slot).1;
    forall k | k in after.stock
      ensures after.stock[k].slot == k && 0 <= after.stock[k].quantity <= MaxStock
    {
      if k != slot {
        assert after.stock[k] == m.stock[k];
      }
    }
  }

  /** Every operation keeps a stocked machine stocked. */
  lemma StepKeepsStocked(m: Machine, op: Op)
    requires Stocked(m)
    ensures Stocked(Step(m, op))
  {
    match op
    case BuyOp(slot, p) => BuyKeepsStocked(m, slot, p);
    case RefillOp(slot) => RefillKeepsStocked(m, slot);
    case AddCoinsOp(amount) =>
    case AddCashOp(amount) =>
    case ResetOp => SeedContents();
  }

  /** Whatever operations follow one another, the machine keeps exactly the eight seeded
      slots and every stock stays between zero and the ceiling. */
  lemma {:induction false} RunKeepsStocked(m: Machine, ops: seq<Op>)
    requires Stocked(m)
    ensures Stocked(Run(m, ops))
    decreases |ops|
  {
    if ops != [] {
      StepKeepsStocked(m, ops[0]);
      RunKeepsStocked(Step(m, ops[0]), ops[1..]);
    }
  }

  /** Every state the engine can reach from its seed is stocked. */
  lemma ReachableStocked(ops: seq<Op>)
    ensures Stocked(Run(Seed(), ops))
  {
    SeedContents();
    RunKeepsStocked(Seed(), ops);
  }

  // ---------------------------------------------------------------------------
  // Scenarios from the engine's documented behaviour

  /** Coke (10) from the seeded machine, paid 20 with a declared split of 20 in coins and 10
      in cash: change 10, Coke goes from 10 to 9, the coin pool ends at 100 + 20 - 10. */
  lemma PurchaseScenario()
    ensures Buy(Seed(), A1, Payment(20, 20, 10)).0 == Sale(Purchased, 10, Some(DrinkData("Coke", 10, 10, A1)))
    ensures Buy(Seed(), A1, Payment(20, 20, 10)).1.stock[A1].quantity == 9
    ensures Buy(Seed(), A1, Payment(20, 20, 10)).1.coins == 110
  {
  }

  /** With 0 coins and 5 cash, Coke paid 50 needs 40 in change: refused with a full refund. */
  lemma NotEnoughChangeScenario()
    ensures Buy(Seed().(coins := 0, cash := 5), A1, Payment(50, 0, 50)) ==
            (Sale(InsufficientChange, 50, None), Seed().(coins := 0, cash := 5))
  {
  }

  /** Stock written below zero through a live inventory entry: the decrement is refused and
      ignored, so Coke stays at -1, yet the sale goes through and reports one unit more than
      is left, 0. */
  lemma NegativeStockSaleScenario()
    ensures var m := Seed().(stock := Seed().stock[A1 := DrinkData("Coke", 10, -1, A1)]);
      && Buy(m, A1, Payment(20, 20, 0)).0 == Sale(Purchased, 10, Some(DrinkData("Coke", 10, 0, A1)))
      && Buy(m, A1, Payment(20, 20, 0)).1.stock[A1].quantity == -1
  {
  }
}
