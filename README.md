# Vending machine engine, modelled in Dafny

This project models the in-memory engine of a small vending machine for drinks priced in
whole PHP. The repository has the engine in two variants, and both are modelled.

- **Slot-keyed machine** (`src/models`). A `Drink` holds a name, a price, a stock quantity
  and a slot. Its constructor rejects a non-positive price, a negative quantity and a slot
  outside the twelve identifiers A1–D3, in that order. The `VendingMachine` keeps a map
  from slot to `Drink` plus two integer pools, `coins` and `cash`. It is seeded with eight
  drinks (ten units each) and 100 coins and 200 cash.
  - `buyDrink` takes a payment made of a total and a coin/cash split. It refuses a missing
    slot, an empty stock, an underpayment and a change larger than `coins + cash`, in that
    order. Every refusal refunds the whole total.
  - A sale decrements the stock, adds the coin tender to `coins` and the cash tender to
    `cash`, and pays the change from `coins` alone.
  - `refillDrink` tops a slot up to 10 when its stock is at most 3.
  - `getInventory` hands out the stored `Drink` objects themselves.
- **Name-keyed machine** (`vending-machine-backend/src/models`). Here a `Drink` has no slot
  and the machine keys drinks by name. It is seeded with Coke, Pepsi and Dew. A sale takes
  a single payment amount, adds all of it to `coins` and then pays the change from `coins`,
  so `coins` grows by the price and `cash` never moves.
- **Slot identifiers** (`vending-machine-backend/src/constants/vendingMachineSlots.ts`):
  the closed set A1–A3, B1–B3, C1–C3, D1–D3, each mapped to the identical string.

Each variant has three modules:

- `SlottedDrink` / `NamedDrink`: the `Drink` class. Its `quantity` is changed in place.
- `SlottedLedger` / `NamedLedger`: the machine as a value.
  - A `Machine` datatype holds the drinks as copies of their fields, plus the two pools.
  - One function per operation returns the reply and the state left behind.
  - `Step` and `Run` apply a sequence of operations.
  - Lemmas state what each operation promises and the invariant every run keeps.
- `SlottedVending` / `NamedVending`: the `VendingMachine` class.
  - It has a `map` of live `Drink` references and two `int` fields.
  - Each engine operation (seeding, reset, adding to a pool, buying, refilling, and in the
    name-keyed machine adding a drink) is proved to return, and to leave behind, exactly
    what its ledger function says of the state before the call.
  - `GetInventory` is proved to return the live objects, and the slot-keyed `AddDrink`
    is proved against the map of objects directly.

`Slots` models the slot identifiers and `Outcomes` holds the shared result datatypes.

A thrown error is modelled as a returned value. `Drink.Create` returns `Failure(...)`,
`AddCoins`/`AddCash` return `Some(error)`, and a refused sale or refill returns a status.
Message strings are replaced by these statuses. All amounts are `int`.

## Model

| member | source | states |
|---|---|---|
| Slots.Parse | vending-machine-backend/src/constants/vendingMachineSlots.ts:4-22 | a string is a member of the slot type exactly when it is one of the twelve identifiers, and then it names that slot |
| Slots.ParseValue | vending-machine-backend/src/constants/vendingMachineSlots.ts:5-19 | every slot's value is a member of the type and reads back as the same slot |
| Slots.ValueInjective | vending-machine-backend/src/constants/vendingMachineSlots.ts:4-20 | two different slots never share a value, so a slot keys at most one drink |
| Slots.ValuesAreTheKeys | vending-machine-backend/src/constants/vendingMachineSlots.ts:4-20 | the object holds exactly twelve values, pairwise distinct, each key mapped to the identical string |
| Slots.OutsideTheUnion | vending-machine-backend/src/constants/vendingMachineSlots.ts:22 | "Z9", "A4", "" and "a1" are not members of the slot type |
| Slots.IncludesSlot | src/models/Drink.ts:41 | the membership test over the slot values is true exactly for the twelve identifiers |
| SlottedDrink.Drink.constructor | src/models/Drink.ts:49-52 | once the checks pass, the four fields equal the arguments |
| SlottedDrink.Drink.Create | src/models/Drink.ts:28-53 | construction succeeds iff price > 0, quantity >= 0 and the slot is one of the twelve; otherwise the price error, then the quantity error, then the slot error is raised, checked in that order |
| SlottedDrink.Drink.DecreaseQuantity | src/models/Drink.ts:60-66 | returns true iff quantity >= amount; it subtracts amount only then and leaves quantity unchanged otherwise; for amount >= 0 a non-negative quantity stays non-negative; nothing but quantity changes |
| SlottedDrink.Drink.IncreaseQuantity | src/models/Drink.ts:72-74 | quantity grows by exactly amount; name, price and slot are untouched |
| SlottedDrink.ConstructionScenarios | vending-machine-backend/src/models/Drink.test.ts:7-35 | Coke/10/5/A1 is built with those fields; price 0, quantity -1, slot "Z9" are each refused with their own error; price 0 with quantity -1 reports the price |
| SlottedDrink.QuantityScenarios | vending-machine-backend/src/models/Drink.test.ts:37-79 | the decrease and increase cases: 5 to 4, 5 to 2, refused at 2 and at 0 with the stock kept, 5 to 6 and 5 to 10 |
| SlottedLedger.Seed | src/models/VendingMachine.ts:23-41 | the state a new machine and a reset both produce; its contents are stated by SeedContents and SeedSize |
| SlottedLedger.AddCoins | src/models/VendingMachine.ts:56-59 | addCoins on a machine value: the error reply and the state left behind, stated by AddCoinsEffect |
| SlottedLedger.AddCash | src/models/VendingMachine.ts:65-68 | addCash on a machine value, stated by AddCashEffect |
| SlottedLedger.Buy | src/models/VendingMachine.ts:88-151 | buyDrink on a machine value: the four ordered refusals, the ignored result of decreaseQuantity(), the drink reported with one unit more than is left, the coin and cash tender joining their pools and the change paid from coins; stated by BuyChecksInOrder, BuyFailureChangesNothing, BuySuccessEffect, BuyKeepsTheTakings and NegativeStockSaleScenario |
| SlottedLedger.Refill | src/models/VendingMachine.ts:158-185 | refillDrink on a machine value, stated by RefillEffect |
| SlottedLedger.SeedContents | src/models/VendingMachine.ts:23-41 | the seed holds exactly A1, A2, B1, B2, C1, C2, D1, D2, each with its seeded name and price and 10 units, 100 coins and 200 cash, and is well formed |
| SlottedLedger.SeedSize | src/models/VendingMachine.ts:29-36 | the seed holds eight drinks |
| SlottedLedger.ResetIdempotent | src/models/VendingMachine.ts:191-208 | reset yields the seed from any state, so resetting twice equals resetting once |
| SlottedLedger.AddCoinsEffect | src/models/VendingMachine.ts:56-59 | a negative amount is an error and changes nothing; otherwise exactly amount joins coins, and drinks and cash are untouched |
| SlottedLedger.AddCashEffect | src/models/VendingMachine.ts:65-68 | a negative amount is an error and changes nothing; otherwise exactly amount joins cash, and drinks and coins are untouched |
| SlottedLedger.BuyChecksInOrder | src/models/VendingMachine.ts:101-137 | each outcome holds iff every earlier check passed and its own failed: missing slot, quantity 0, total < price, coins + cash < total - price; the sale iff all pass |
| SlottedLedger.BuyFailureChangesNothing | src/models/VendingMachine.ts:104-137 | every refusal returns change = total with no drink and leaves drinks, coins and cash unchanged |
| SlottedLedger.BuySuccessEffect | src/models/VendingMachine.ts:126-150 | on every sale, whatever the other slots hold: change = total - price, 0 <= change <= coins + cash; no other slot changes; coins' = coins + coin tender - change; cash' = cash + cash tender; when the bought slot's stock is not negative it loses one unit and the reported drink has the pre-sale quantity, and when it is negative it stays and the report shows one unit more |
| SlottedLedger.BuyKeepsTheTakings | src/models/VendingMachine.ts:140-143 | when the split adds up to the total, coins + cash grow by exactly the price |
| SlottedLedger.CoinPoolCanGoNegative | src/models/VendingMachine.ts:131-143 | Dr. Pepper paid 300 in cash from the seed is sold with change 265 and leaves coins at -165 |
| SlottedLedger.RefillEffect | src/models/VendingMachine.ts:158-185 | a refill succeeds iff the slot exists with quantity <= 3; it then sets the quantity to 10, reports 10 and changes nothing else; a refusal reports no quantity and changes nothing |
| SlottedLedger.BuyKeepsStocked | src/models/VendingMachine.ts:101-150 | a purchase keeps the eight seeded slots, well formed, with stock between 0 and 10 |
| SlottedLedger.RefillKeepsStocked | src/models/VendingMachine.ts:158-185 | a refill keeps the eight seeded slots, well formed, with stock between 0 and 10 |
| SlottedLedger.StepKeepsStocked | src/models/VendingMachine.ts:56-208 | each of buy, refill, addCoins, addCash and reset keeps that invariant |
| SlottedLedger.RunKeepsStocked | src/models/VendingMachine.ts:56-208 | any sequence of buy, refill, addCoins, addCash and reset keeps that invariant |
| SlottedLedger.ReachableStocked | src/models/VendingMachine.ts:23-208 | every state reachable from a new machine through buy, refill, addCoins, addCash and reset has the eight seeded slots, each with stock between 0 and 10 |
| SlottedLedger.PurchaseScenario | src/models/VendingMachine.test.ts:36-61 | Coke paid 20 (split 20/10) gives change 10, reports quantity 10, leaves 9 Coke and 110 coins |
| SlottedLedger.NotEnoughChangeScenario | src/models/VendingMachine.test.ts:102-115 | with 0 coins and 5 cash, Coke paid 50 is refused with the full 50 back and no change of state |
| SlottedLedger.NegativeStockSaleScenario | src/models/VendingMachine.ts:140-149 | with Coke written down to -1, a sale still goes through, the refused decrement leaves -1 and the reported drink shows 0 |
| SlottedVending.VendingMachine.constructor | src/models/VendingMachine.ts:23-41 | a new machine is valid, its drinks are new objects, and its state is the seed |
| SlottedVending.VendingMachine.Reset | src/models/VendingMachine.ts:191-208 | from any state, the drinks are replaced by new objects and the state becomes the seed |
| SlottedVending.VendingMachine.SeedInventory | src/models/VendingMachine.ts:29-40 | on an empty machine, the eight drinks are added as new valid objects and the pools become 100 and 200 |
| SlottedVending.VendingMachine.AddNewDrink | src/models/VendingMachine.ts:29 | `addDrink(new Drink(...))` stores a new drink with those fields under its slot and keeps the machine valid |
| SlottedVending.VendingMachine.AddDrink | src/models/VendingMachine.ts:48-50 | the drink is stored under its own slot, replacing any earlier entry, and the rest of the map is unchanged |
| SlottedVending.VendingMachine.AddCoins | src/models/VendingMachine.ts:56-59 | returns and leaves behind exactly what SlottedLedger.AddCoins gives for the state before the call |
| SlottedVending.VendingMachine.AddCash | src/models/VendingMachine.ts:65-68 | returns and leaves behind exactly what SlottedLedger.AddCash gives for the state before the call |
| SlottedVending.VendingMachine.GetInventory | src/models/VendingMachine.ts:74-80 | changes nothing and needs no precondition; returns every stored Drink object once (the live references), as many entries as slots, and the current coins and cash |
| SlottedVending.VendingMachine.BuyDrink | src/models/VendingMachine.ts:88-151 | needs only each drink stored under its own slot, so a stock or price written through an inventory entry is covered; the reply and new state are exactly SlottedLedger.Buy of the state before; the map of objects is unchanged, and a valid machine stays valid |
| SlottedVending.VendingMachine.RefillDrink | src/models/VendingMachine.ts:158-185 | needs only each drink stored under its own slot; the reply and new state are exactly SlottedLedger.Refill of the state before, and a valid machine stays valid |
| SlottedVending.OutOfStockThroughInventory | src/models/VendingMachine.test.ts:74-89 | setting Coke to 0 through an inventory entry makes the next A1 purchase fail as out of stock with 10 back |
| SlottedVending.RefillThroughInventory | src/models/VendingMachine.test.ts:119-134 | setting Coke to 3 through the inventory lets the refill succeed with 10, and the inventory then shows 10 |
| SlottedVending.NegativeStockSale | src/models/VendingMachine.ts:140-149 | Coke written down to -1 through its live Drink object is still sold for 20 with 10 change; the reply shows 0 units and the object keeps -1 |
| SlottedVending.PurchaseThroughInventory | src/models/VendingMachine.test.ts:36-61 | a new machine sells Coke for 20 (split 20/10) with change 10; the inventory then shows 9 Coke, 110 coins and 210 cash |
| NamedDrink.Drink.constructor | vending-machine-backend/src/models/Drink.ts:30-32 | once the checks pass, the three fields equal the arguments |
| NamedDrink.Drink.Create | vending-machine-backend/src/models/Drink.ts:22-33 | construction succeeds iff price > 0 and quantity >= 0; price is checked first, so price 0 with quantity -1 reports the price; there is no slot check |
| NamedDrink.Drink.DecreaseQuantity | vending-machine-backend/src/models/Drink.ts:40-46 | returns true iff quantity >= amount; it subtracts amount only then and leaves quantity unchanged otherwise; name and price are untouched |
| NamedDrink.Drink.IncreaseQuantity | vending-machine-backend/src/models/Drink.ts:52-54 | quantity grows by exactly amount; name and price are untouched |
| NamedDrink.ConstructionScenarios | vending-machine-backend/src/models/Drink.test.ts:7-29 | Coke/10/5 is built with those fields; price 0 or -5 gives the price error; quantity -1 gives the quantity error; both bad gives the price error |
| NamedDrink.QuantityScenarios | vending-machine-backend/src/models/Drink.test.ts:37-79 | the decrease and increase cases, with name and price kept |
| NamedLedger.Seed | vending-machine-backend/src/models/VendingMachine.ts:19-32 | the state a new machine and a reset both produce; its contents are stated by SeedContents |
| NamedLedger.AddDrink | vending-machine-backend/src/models/VendingMachine.ts:39-41 | addDrink on a machine value: the drink stored under its name, stated by AddDrinkReplaces |
| NamedLedger.AddCoins | vending-machine-backend/src/models/VendingMachine.ts:47-50 | addCoins on a machine value, stated by AddCoinsEffect |
| NamedLedger.AddCash | vending-machine-backend/src/models/VendingMachine.ts:56-59 | addCash on a machine value, stated by AddCashEffect |
| NamedLedger.Buy | vending-machine-backend/src/models/VendingMachine.ts:79-119 | buyDrink on a machine value: the four ordered refusals, the ignored result of decreaseQuantity(), the drink reported with one unit more than is left, the whole payment joining coins and the change paid from them; stated by BuyChecksInOrder, BuyFailureChangesNothing, BuySuccessEffect and NegativeStockSaleScenario |
| NamedLedger.Refill | vending-machine-backend/src/models/VendingMachine.ts:126-146 | refillDrink on a machine value, stated by RefillEffect |
| NamedLedger.SeedContents | vending-machine-backend/src/models/VendingMachine.ts:19-32 | the seed holds exactly Coke 10, Pepsi 25 and Dew 30, each with 10 units, under their names, with 100 coins and 200 cash, and is well formed |
| NamedLedger.ResetIdempotent | vending-machine-backend/src/models/VendingMachine.ts:152-163 | reset yields the seed from any state, so resetting twice equals resetting once |
| NamedLedger.AddDrinkReplaces | vending-machine-backend/src/models/VendingMachine.ts:39-41 | a drink is stored under its name; an existing name is replaced without growing the map, a new name adds one entry; nothing else changes |
| NamedLedger.AddCoinsEffect | vending-machine-backend/src/models/VendingMachine.ts:47-50 | a negative amount is an error and changes nothing; otherwise exactly amount joins coins |
| NamedLedger.AddCashEffect | vending-machine-backend/src/models/VendingMachine.ts:56-59 | a negative amount is an error and changes nothing; otherwise exactly amount joins cash |
| NamedLedger.BuyChecksInOrder | vending-machine-backend/src/models/VendingMachine.ts:80-99 | each outcome holds iff every earlier check passed and its own failed: missing name, quantity 0, payment < price, coins + cash < payment - price; the sale iff all pass |
| NamedLedger.BuyFailureChangesNothing | vending-machine-backend/src/models/VendingMachine.ts:82-99 | every refusal returns change = payment with no drink and changes nothing |
| NamedLedger.BuySuccessEffect | vending-machine-backend/src/models/VendingMachine.ts:92-118 | on every sale, whatever the other drinks hold: change = payment - price, 0 <= change <= coins + cash; no other drink changes; coins' = coins + price; cash is unchanged; when the drink's stock is not negative it loses one unit and the reported drink has the pre-sale quantity, and when it is negative it stays and the report shows one unit more |
| NamedLedger.RefillEffect | vending-machine-backend/src/models/VendingMachine.ts:126-146 | a refill succeeds iff the drink exists with quantity <= 3; it then sets the quantity to 10 and reports it; a refusal reports no quantity and changes nothing |
| NamedLedger.BuyKeepsStocked | vending-machine-backend/src/models/VendingMachine.ts:79-119 | a purchase keeps the three seeded drinks with stock between 0 and 10, and neither pool below its seed |
| NamedLedger.RefillKeepsStocked | vending-machine-backend/src/models/VendingMachine.ts:126-146 | a refill keeps that invariant |
| NamedLedger.StepKeepsStocked | vending-machine-backend/src/models/VendingMachine.ts:47-163 | each of buy, refill, addCoins, addCash and reset keeps that invariant |
| NamedLedger.RunKeepsStocked | vending-machine-backend/src/models/VendingMachine.ts:47-163 | any sequence of buy, refill, addCoins, addCash and reset keeps that invariant; in particular coins never fall below 100 nor cash below 200 along it |
| NamedLedger.ReachableStocked | vending-machine-backend/src/models/VendingMachine.ts:19-163 | every state reachable from a new machine through buy, refill, addCoins, addCash and reset is stocked |
| NamedLedger.PurchaseScenario | vending-machine-backend/src/models/VendingMachine.ts:92-117 | Coke paid 20 gives change 10, reports quantity 10, leaves 9 Coke, 110 coins and 200 cash |
| NamedLedger.UnknownDrinkScenario | vending-machine-backend/src/models/VendingMachine.ts:80-84 | a name never seeded is not found; the payment comes back in full and nothing changes |
| NamedLedger.NegativeStockSaleScenario | vending-machine-backend/src/models/VendingMachine.ts:102-117 | with Coke written down to -1, a sale still goes through, the refused decrement leaves -1 and the reported drink shows 0 |
| NamedVending.VendingMachine.constructor | vending-machine-backend/src/models/VendingMachine.ts:19-32 | a new machine is valid, its drinks are new objects, and its state is the seed |
| NamedVending.VendingMachine.Reset | vending-machine-backend/src/models/VendingMachine.ts:152-163 | from any state, the drinks are replaced by new objects and the state becomes the seed |
| NamedVending.VendingMachine.SeedInventory | vending-machine-backend/src/models/VendingMachine.ts:25-31 | on an empty machine, the three drinks are added as new valid objects and the pools become 100 and 200 |
| NamedVending.VendingMachine.AddNewDrink | vending-machine-backend/src/models/VendingMachine.ts:25 | `addDrink(new Drink(...))` leaves exactly NamedLedger.AddDrink of the earlier state with the new fields; the name now holds a new object and every other name keeps its object |
| NamedVending.VendingMachine.AddDrink | vending-machine-backend/src/models/VendingMachine.ts:39-41 | the drink is stored under its name, replacing any earlier entry; the new state is NamedLedger.AddDrink of the old one |
| NamedVending.VendingMachine.AddCoins | vending-machine-backend/src/models/VendingMachine.ts:47-50 | returns and leaves behind exactly what NamedLedger.AddCoins gives for the state before the call |
| NamedVending.VendingMachine.AddCash | vending-machine-backend/src/models/VendingMachine.ts:56-59 | returns and leaves behind exactly what NamedLedger.AddCash gives for the state before the call |
| NamedVending.VendingMachine.GetInventory | vending-machine-backend/src/models/VendingMachine.ts:65-71 | changes nothing and needs no precondition; returns every stored Drink object once (the live references), as many entries as names, and the current coins and cash |
| NamedVending.VendingMachine.BuyDrink | vending-machine-backend/src/models/VendingMachine.ts:79-119 | needs only each drink stored under its own name, so a stock or price written through an inventory entry is covered; the reply and new state are exactly NamedLedger.Buy of the state before; cash is not in the frame at all, and a valid machine stays valid |
| NamedVending.VendingMachine.RefillDrink | vending-machine-backend/src/models/VendingMachine.ts:126-146 | needs only each drink stored under its own name; the reply and new state are exactly NamedLedger.Refill of the state before, and a valid machine stays valid |
| NamedVending.OutOfStockThroughInventory | vending-machine-backend/src/models/VendingMachine.ts:65-87 | setting Dew to 0 through an inventory entry makes the next Dew purchase fail as out of stock with 30 back |
| NamedVending.PurchaseThroughInventory | vending-machine-backend/src/models/VendingMachine.ts:79-119 | a new machine sells Pepsi for 100 with change 75; the inventory then shows 9 Pepsi, 125 coins and 200 cash |
| NamedVending.NegativeStockSale | vending-machine-backend/src/models/VendingMachine.ts:102-117 | Coke written down to -1 through its live Drink object is still sold for 20 with 10 change; the reply shows 0 units and the object keeps -1 |

## Left out

- Routes, the validation middleware and the two server entry points (`index.ts`) are left
  out. They are HTTP parsing, status mapping and server start-up, which is I/O.
- The test files are not modelled as such. Several of their cases appear as scenario
  lemmas and scenario methods.
- `src/constants/vendingMachineSlots.ts`, which `src/models/Drink.ts` imports, is not part
  of this model. Its content is taken to be the backend's slot file.
- Message strings with interpolated numbers are left out. Each reply carries a status
  instead, along with the change or the new quantity.
- JavaScript `number` is modelled as an unbounded `int`. Every amount in the engine is a
  whole number of PHP.
- The shared singleton and concurrency are left out. Each operation runs to completion.
- `getInventory` returns the map's values in its insertion order. The model returns every
  stored drink exactly once but leaves the order unspecified.
- SlottedVending.VendingMachine.BuyDrink and RefillDrink take a `Slot`, not a string. A
  runtime string outside the union (the tests' `"Z9" as any`) cannot be passed in. Such a
  string is in no map, so it would take the same not-found branch as an unseeded slot.
- SlottedVending.VendingMachine.SeedInventory builds the seeded drinks with the Dafny
  constructor, which requires the checks to pass, instead of `Drink.Create`. Every seeded
  price and quantity passes them, so no error path is lost. It also discards the error
  values of `addCoins(100)` and `addCash(200)`, which are `None` for these amounts.
- NamedVending.VendingMachine.SeedInventory does the same for the three named drinks.
- SlottedVending.VendingMachine.BuyDrink requires every stored drink to sit under its own
  slot. The engine keeps this on its own paths, but a caller can write a drink's `slot`
  through an inventory entry; a machine with a drink under a foreign slot is outside the
  model. Any price or quantity written that way is inside it.
- SlottedVending.VendingMachine.RefillDrink carries the same requirement, for the same
  reason.
- NamedVending.VendingMachine.BuyDrink and NamedVending.VendingMachine.RefillDrink carry it
  too, keyed by name.
- SlottedLedger.ReachableStocked covers the states reached through buy, refill, addCoins,
  addCash and reset. A write through an inventory entry is not one of these operations,
  and it can leave the invariant: a quantity of 50 written to A1 survives a sale as 49.
- NamedLedger.ReachableStocked likewise leaves out such writes and `addDrink`. A price of
  -5 written to Coke lets a sale paid 0 return 5 in change and take the coins to 95.
