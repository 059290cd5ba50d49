# Order-allocation decision engine, in Dafny

This models the allocation engine `run_decision_engine` in `src/decision_engine.py`. The engine
takes a batch of customer orders and a product inventory, and decides every order: Approve, Split,
Delay or Escalate, each with a reason. Two scarce resources are shared between the orders:

- the stock of each product, which the engine updates in place as it decides;
- a daily fulfilment capacity of 200 units across all products, which starts full on each day.

The engine groups the orders by calendar day and visits the days in ascending order. Within a day
it visits the urgent orders first, then the normal ones; orders of the same priority keep their
input order, because Python's `sorted` is stable. For each order it applies a six-branch cascade,
and the first branch that matches wins:

1. No stock: Escalate.
2. Urgent order and capacity exhausted: Escalate.
3. Stock and capacity both cover the quantity: Approve.
4. Some stock and some capacity: Split the smaller of the two.
5. Stock covers the quantity but capacity does not: Delay.
6. Otherwise: Escalate as an unhandled scenario.

Approve and Split take their units from the product's stock and from the day's capacity. Two
runtime guards then check that neither went negative. The engine appends one record per order.

The project has four modules, one per file:

- `Allocation` (`allocation.dfy`): the order, record and reason types, and the cascade as a
  function (`Decide`). It also holds one order's effect on the running state (`Step`) and the fold
  of that step over a day's orders (`Process`), with the branch-by-branch characterisations and
  the safety and accounting invariant of a day.
- `Ordering` (`ordering.dfy`): the grouping by day, the ascending days and the stable urgent-first
  sort, written as functions. It proves that the resulting visit order is a permutation of the
  input, ordered and stable.
- `DecisionEngine` (`engine.dfy`): the engine as imperative Dafny. `GroupByDate` fills the
  grouping map in a loop and `SortDays` sorts the days. `ApplyRule` is one pass of the cascade,
  updating stock and capacity, with the two runtime guards as assertions. `ProcessDay` is one
  day's loop, and `RunDecisionEngine` is the whole engine. Each method is proved equal to the
  specification functions `Process`, `RunDays` and `Run`. Run-level lemmas cover one record per
  order, output order, guards never firing, the per-product stock bound and the daily capacity
  bound.
- `Scenarios` (`scenarios.dfy`): worked cases on concrete orders. These include a whole run in
  which the fallback fires, and a pair of orders whose output does not depend on their input
  order.

Two facts about the cascade that the comments in the source do not make obvious:

- Branch 6, which the source labels a safety fallback (`src/decision_engine.py:99-102`), is
  reachable. A normal order at zero capacity, with some stock but less than its quantity, fails
  branches 1 to 5. `Allocation.FallbackIff` characterises exactly when it fires, and
  `Scenarios.FallbackInRun` shows it firing in a whole run.
- Branch 5 (Delay, `src/decision_engine.py:91-97`) is reached only at zero capacity. Branch 4
  takes every order that finds some stock and some capacity, so stock 50, capacity 5 and a normal
  quantity of 20 give a Split of 5, not a Delay (`Scenarios.SplitBeforeDelayCase`,
  `Allocation.DelayIff`).

Dates are modelled as integers; only their order matters. Product codes and order ids are
strings. The inventory is a map from product code to stock, and a product missing from the map
has stock 0, as `inventory.get(product_code, 0)` does.

## Model

| member | source | states |
|---|---|---|
| Allocation.Process | src/decision_engine.py:36-118 | a day's fold yields exactly one record per order, the k-th carrying the k-th order's id, product, date and quantity |
| Allocation.NoStockEscalates | src/decision_engine.py:42-52 | zero stock escalates with the no-inventory reason whatever the capacity and priority |
| Allocation.MissingProductEscalates | src/decision_engine.py:42-52 | an order for a product missing from the inventory escalates with the no-inventory reason and changes neither stock nor capacity |
| Allocation.UrgentAtZeroCapacityEscalates | src/decision_engine.py:54-59 | when there is stock, an urgent order at zero capacity escalates for exhausted capacity |
| Allocation.ApproveIff | src/decision_engine.py:61-67 | Approve happens if and only if stock and capacity both cover the quantity; its reason carries the stock and capacity read before the update |
| Allocation.SplitIff | src/decision_engine.py:71-89 | Split happens if and only if stock and capacity are both positive and one falls short; it processes min(stock, capacity), strictly between 0 and the quantity; the remainder is said to be escalated if and only if the order is urgent |
| Allocation.DelayIff | src/decision_engine.py:91-97 | Delay happens if and only if the order is normal, capacity is zero and stock covers the quantity |
| Allocation.FallbackIff | src/decision_engine.py:99-102 | the fallback fires if and only if the order is normal, capacity is zero and 0 < stock < quantity; it escalates |
| Allocation.EscalateIff | src/decision_engine.py:47-102 | Escalate happens exactly when stock is zero, or capacity is zero and the order is urgent or short of stock |
| Allocation.StepEffect | src/decision_engine.py:42-102 | Approve takes exactly the quantity from the product's stock and the capacity, Split the processed amount; Delay and Escalate change nothing; no other product's stock changes and no product is added |
| Allocation.ProcessSafe | src/decision_engine.py:62-109 | over any run of a day's orders stock and capacity stay non-negative, capacity never grows, and the units the records take equal the capacity and the stock consumed |
| Ordering.SortedDates | src/decision_engine.py:27 | the days visited ascend strictly and are exactly the days on which some order was placed |
| Ordering.InDatesIff | src/decision_engine.py:22-24 | a day is a key of the grouping if and only if its group is non-empty |
| Ordering.DatesCover | src/decision_engine.py:22-24 | every order's day is a key of the grouping |
| Ordering.IncreasingUnique | src/decision_engine.py:27 | two ascending lists of the same days are equal, so any sort of the keys gives the same visit order |
| Ordering.PrioritySortedPermutes | src/decision_engine.py:31-34 | the urgent-first sort of a day neither loses nor adds an order |
| Ordering.PrioritySortedOrdered | src/decision_engine.py:31-34 | after the sort no normal order precedes an urgent one |
| Ordering.PrioritySortedStable | src/decision_engine.py:31-34 | the sort keeps the input order among the orders of each priority |
| Ordering.TraversalPermutes | src/decision_engine.py:22-36 | the engine visits every order exactly once |
| Ordering.TraversalOrdered | src/decision_engine.py:27-34 | visited days ascend and, within a day, urgent orders come first |
| Ordering.VisitGroup | src/decision_engine.py:27-36 | the orders of any one day, in visit order, are that day's group sorted urgent first |
| Ordering.TraversalStable | src/decision_engine.py:22-34 | within a day, the orders of each priority are visited in input order |
| Ordering.SameTiersSameDays | src/decision_engine.py:22-34 | inputs that agree day by day on the input order of each priority have the same days and the same sorted groups |
| DecisionEngine.RunDays | src/decision_engine.py:27-118 | the records of the days visited are one per visited order, each describing that order |
| DecisionEngine.GroupByDate | src/decision_engine.py:21-24 | the grouping map has one key per order day, each key mapping to that day's orders in input order; the first-seen day list has no repeats |
| DecisionEngine.SortDays | src/decision_engine.py:27 | the days come back strictly ascending and are the same days |
| DecisionEngine.ApplyRule | src/decision_engine.py:42-109 | one cascade pass updates stock and capacity exactly as Step does, and the two guards hold after it |
| DecisionEngine.ProcessDay | src/decision_engine.py:28-118 | a day started at full capacity produces the records and the stock that Process gives, and the stock stays non-negative |
| DecisionEngine.RunDecisionEngine | src/decision_engine.py:6-120 | the engine returns Run(orders, inventory) |
| DecisionEngine.RunDaysNext | src/decision_engine.py:27-28 | one more day runs its sorted group from the inventory the earlier days left, with full capacity |
| DecisionEngine.RunOneRecordPerOrder | src/decision_engine.py:111-118 | the output has exactly as many records as orders, and each record carries the id, product, day and quantity of the order visited at its position |
| DecisionEngine.RunInTraversalOrder | src/decision_engine.py:27-34 | record dates never decrease, and the visit order puts urgent before normal within each day |
| DecisionEngine.RunDaysSafe | src/decision_engine.py:62-109 | after any number of days the inventory is non-negative, keeps its products, and each product lost exactly the units its records took |
| DecisionEngine.GuardsNeverFire | src/decision_engine.py:104-109 | before and after every order of every day, every stock is non-negative and the capacity lies between 0 and 200 |
| DecisionEngine.RunStockBound | src/decision_engine.py:68-75 | the units approved or split from a product over the run never exceed its initial stock |
| DecisionEngine.DayCapacity | src/decision_engine.py:27-76 | one day run from a capacity reset to 200 takes between 0 and 200 units, all of them on that day |
| DecisionEngine.RunDaysDailyCapacity | src/decision_engine.py:27-76 | on every day the units approved or split total between 0 and 200, and a day not yet visited has none |
| DecisionEngine.RunDailyCapacity | src/decision_engine.py:27-76 | capacity is reset each day: the units approved or split on any one day total at most 200 |
| DecisionEngine.RunDependsOnlyOnTiers | src/decision_engine.py:31-34 | moving urgent and normal orders of the same day past each other in the input changes no record |
| Scenarios.NoInventoryCase | src/decision_engine.py:47-52 | an order for a product with no stock escalates and leaves the state unchanged |
| Scenarios.ApproveCase | src/decision_engine.py:61-69 | stock 50, capacity 200, quantity 20: Approve, leaving stock 30 and capacity 180 |
| Scenarios.UrgentSplitCase | src/decision_engine.py:71-83 | stock 10, urgent quantity 30: Split of 10 with the remainder escalated, stock 0, capacity 190 |
| Scenarios.SplitBeforeDelayCase | src/decision_engine.py:71-97 | stock 50, capacity 5, normal quantity 20: Split of 5, not Delay |
| Scenarios.DelayCase | src/decision_engine.py:91-97 | stock 50, capacity 0, normal quantity 20: Delay with no change |
| Scenarios.FallbackInRun | src/decision_engine.py:99-102 | a whole run in which a 200-unit order uses the day's capacity and the next normal order escalates through the fallback |
| Scenarios.UrgentFirstCase | src/decision_engine.py:31-69 | an urgent order takes the stock before a normal one of the same day, in either input order |
| Scenarios.SwappedTiers | src/decision_engine.py:31-34 | swapping an urgent and a normal order of the same day changes, on no day, the input order of either priority |
| Scenarios.SwapWithinDay | src/decision_engine.py:31-34 | an urgent and a normal order of the same day give the same records in either input order |

## Left out

- `src/loader.py` is not part of this model. It reads CSV files through pandas, which is I/O and a
  foreign library. Its guarantees appear as preconditions instead: positive quantities
  (`Positive`) and non-negative stock (`NonNegative`). The engine method itself needs only
  `NonNegative`; the run-level lemmas also use `Positive`.
- Unique order ids and unique product codes are not required. Nothing in the engine depends on
  them, and the inventory is already a map.
- Priorities are the two values `Urgent` and `Normal`. The source treats every priority string
  other than "urgent" as normal; the loader normalises the strings beforehand.
- `src/main.py` is not part of this model. It creates directories, writes files and prints to the
  console.
- DataFrame plumbing is abstracted away: `iterrows`, `int(...)` coercion of quantities and stock,
  and `.date()` on timestamps. Orders are a sequence of values and dates are integer day keys.
  Unparseable dates (NaT) are outside the model.
- Reason texts and `str(order_date)` are not rendered as strings. Each reason is a `Reason`
  variant that carries the numbers its text interpolates (stock, capacity, split quantity,
  product).
- The runtime errors the guards would raise are not modelled as an error path. The guards are
  assertions in `DecisionEngine.ApplyRule`, proved never to fail.
- Python's library sorts are modelled by specification functions (`SortedDates`,
  `PrioritySorted`) and, in the method, by an insertion sort of the day keys. `PrioritySorted` is
  the stable sort by the 0/1 key: the urgent orders, then the normal ones, each in input order.
