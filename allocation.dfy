/** The per-order decision rule of the order-allocation engine, and the fold of that rule
    over the orders of one day, written as functions over values.

    The engine keeps two pieces of running state while it walks the orders: a working copy of
    the inventory (product code to available stock) and the capacity still free on the current
    day. `Step` is one iteration of the inner loop of `run_decision_engine`; `Process` runs it
    over a sequence of orders. */
module Allocation {

  /** Shared ceiling on the units fulfilled per calendar day, across all products. */
  const MaxDailyCapacity: int := 200

  type ProductCode = string
  type OrderId = string
  /** A calendar day; only its order matters to the engine. */
  type Date = int
  /** Working inventory: product code to available stock. Absent products have no stock. */
  type Inventory = map<ProductCode, int>

  datatype Priority = Urgent | Normal

  datatype Order = Order(id: OrderId, product: ProductCode, qty: int, date: Date, priority: Priority)

  datatype Decision = Approve | Split | Delay | Escalate

  /** What the reason of a Split says happens to the part that was not processed. */
  datatype Remainder = RemainderEscalated | RemainderDelayed

  /** The justification of a decision, one variant per reason text, carrying the numbers
      the text interpolates. */
  datatype Reason =
    | NoInventory(product: ProductCode)
    | UrgentCapacityExhausted
    | Sufficient(stock: int, capacity: int)
    | Partial(processed: int, remainder: Remainder)
    | CapacityExhausted(stock: int, capacity: int)
    | Unhandled

  datatype Verdict = Verdict(decision: Decision, reason: Reason)

  /** One output record per order. */
  datatype Record = Record(id: OrderId, product: ProductCode, date: Date, requested: int,
                           decision: Decision, reason: Reason)

  /** The running state of the engine within one day. */
  datatype State = State(stock: Inventory, cap: int)

  /** What the order loader guarantees of every order: a positive quantity. */
  predicate Positive(os: seq<Order>) {
    forall o :: o in os ==> o.qty > 0
  }

  /** What the inventory loader guarantees: no negative stock. */
  predicate NonNegative(inv: Inventory) {
    forall p :: p in inv ==> inv[p] >= 0
  }

  /** Stock of a product, zero when the product is not in the inventory. */
  function Available(inv: Inventory, p: ProductCode): int {
    if p in inv then inv[p] else 0
  }

  function Min(a: int, b: int): int {
    if a <= b then a else b
  }

  /** The six-branch cascade; the first branch whose condition holds wins. */
  function Decide(product: ProductCode, stock: int, cap: int, qty: int, priority: Priority): Verdict {
    if stock == 0 then
      Verdict(Escalate, NoInventory(product))
    else if cap == 0 && priority == Urgent then
      Verdict(Escalate, UrgentCapacityExhausted)
    else if stock >= qty && cap >= qty then
      Verdict(Approve, Sufficient(stock, cap))
    else if stock > 0 && cap > 0 then
      Verdict(Split, Partial(Min(stock, cap),
                             if priority == Urgent then RemainderEscalated else RemainderDelayed))
    else if stock >= qty && cap < qty then
      Verdict(Delay, CapacityExhausted(stock, cap))
    else
      Verdict(Escalate, Unhandled)
  }

  /** Units a record takes from both the product's stock and the day's capacity. */
  function Units(r: Record): int {
    if r.decision == Approve then r.requested
    else if r.decision == Split && r.reason.Partial? then r.reason.processed
    else 0
  }

  /** The record carries the order's identity, product, date and requested quantity. */
  predicate Describes(r: Record, o: Order) {
    r.id == o.id && r.product == o.product && r.date == o.date && r.requested == o.qty
  }

  /** One order: decide, take the units of an Approve or a Split from stock and capacity,
      and produce the record. */
  function Step(st: State, o: Order): (Record, State) {
    var stock := Available(st.stock, o.product);
    var v := Decide(o.product, stock, st.cap, o.qty, o.priority);
    var rec := Record(o.id, o.product, o.date, o.qty, v.decision, v.reason);
    if v.decision == Approve || v.decision == Split then
      (rec, State(st.stock[o.product := stock - Units(rec)], st.cap - Units(rec)))
    else
      (rec, st)
  }

  /** The orders in turn, from the given state: the records in order and the final state. */
  function Process(os: seq<Order>, st: State): (res: (seq<Record>, State))
    ensures |res.0| == |os|
    ensures forall k :: 0 <= k < |os| ==> Describes(res.0[k], os[k])
    decreases |os|
  {
    if os == [] then ([], st)
    else
      var prev := Process(os[..|os| - 1], st);
      var next := Step(prev.1, os[|os| - 1]);
      (prev.0 + [next.0], next.1)
  }

  /** Sum of the units taken by the records. */
  function TotalUnits(rs: seq<Record>): int {
    if rs == [] then 0 else TotalUnits(rs[..|rs| - 1]) + Units(rs[|rs| - 1])
  }

  /** Sum of the units taken from product p by the records. */
  function ProductUnits(rs: seq<Record>, p: ProductCode): int {
    if rs == [] then 0
    else ProductUnits(rs[..|rs| - 1], p) + (if rs[|rs| - 1].product == p then Units(rs[|rs| - 1]) else 0)
  }

  // ---------------------------------------------------------------------------------------
  // The decision rule, branch by branch. Throughout: stock and capacity are never negative
  // and the quantity is positive, as the loaders and the invariants below guarantee.

  /** Branch 1: no stock at all (a product missing from the inventory included) escalates. */
  lemma NoStockEscalates(product: ProductCode, stock: int, cap: int, qty: int, priority: Priority)
    requires stock == 0
    ensures Decide(product, stock, cap, qty, priority) == Verdict(Escalate, NoInventory(product))
  {
  }

  /** Branch 1 reads a product missing from the inventory as no stock: the order escalates
      and nothing changes. */
  lemma MissingProductEscalates(st: State, o: Order)
    requires o.product !in st.stock
    ensures Step(st, o) == (Record(o.id, o.product, o.date, o.qty, Escalate, NoInventory(o.product)), st)
  {
  }

  /** Branch 2: an urgent order facing exhausted capacity escalates, whenever there is stock. */
  lemma UrgentAtZeroCapacityEscalates(product: ProductCode, stock: int, qty: int)
    requires stock != 0
    ensures Decide(product, stock, 0, qty, Urgent) == Verdict(Escalate, UrgentCapacityExhausted)
  {
  }

  /** Branch 3: Approve happens exactly when both stock and capacity cover the quantity,
      and its reason carries the stock and capacity read before the update. */
  lemma ApproveIff(product: ProductCode, stock: int, cap: int, qty: int, priority: Priority)
    requires 0 <= stock && 0 <= cap && 0 < qty
    ensures var v := Decide(product, stock, cap, qty, priority);
      (v.decision == Approve <==> stock >= qty && cap >= qty) &&
      (v.decision == Approve ==> v.reason == Sufficient(stock, cap))
  {
  }

  /** Branch 4: Split happens exactly when there is some stock and some capacity but one of
      them falls short; it processes the smaller of the two, which is strictly between 0 and
      the quantity, and says "escalated" for urgent orders and "delayed" for normal ones. */
  lemma SplitIff(product: ProductCode, stock: int, cap: int, qty: int, priority: Priority)
    requires 0 <= stock && 0 <= cap && 0 < qty
    ensures var v := Decide(product, stock, cap, qty, priority);
      (v.decision == Split <==> 0 < stock && 0 < cap && (stock < qty || cap < qty)) &&
      (v.decision == Split ==>
        v.reason.Partial? &&
        v.reason.processed == Min(stock, cap) &&
        0 < v.reason.processed < qty &&
        (v.reason.remainder == RemainderEscalated <==> priority == Urgent))
  {
  }

  /** Branch 5: Delay happens exactly for a normal order with capacity exhausted and stock
      covering the quantity. */
  lemma DelayIff(product: ProductCode, stock: int, cap: int, qty: int, priority: Priority)
    requires 0 <= stock && 0 <= cap && 0 < qty
    ensures var v := Decide(product, stock, cap, qty, priority);
      (v.decision == Delay <==> priority == Normal && cap == 0 && stock >= qty) &&
      (v.decision == Delay ==> v.reason == CapacityExhausted(stock, cap))
  {
  }

  /** Branch 6: the fallback is reachable. It fires exactly for a normal order with capacity
      exhausted and some stock, but less than the quantity. */
  lemma FallbackIff(product: ProductCode, stock: int, cap: int, qty: int, priority: Priority)
    requires 0 <= stock && 0 <= cap && 0 < qty
    ensures var v := Decide(product, stock, cap, qty, priority);
      (v.reason == Unhandled <==> priority == Normal && cap == 0 && 0 < stock < qty) &&
      (v.reason == Unhandled ==> v.decision == Escalate)
  {
  }

  /** Escalate happens exactly in branches 1, 2 and 6. */
  lemma EscalateIff(product: ProductCode, stock: int, cap: int, qty: int, priority: Priority)
    requires 0 <= stock && 0 <= cap && 0 < qty
    ensures Decide(product, stock, cap, qty, priority).decision == Escalate <==>
      stock == 0 || (cap == 0 && (priority == Urgent || stock < qty))
  {
  }

  /** Approve consumes exactly the quantity from the product's stock and from capacity;
      Split consumes the processed amount; Delay and Escalate change nothing. No other
      product's stock changes, and no product is added to the inventory. */
  lemma StepEffect(st: State, o: Order)
    requires NonNegative(st.stock) && 0 <= st.cap && 0 < o.qty
    ensures var (rec, next) := Step(st, o);
      var u := Units(rec);
      Describes(rec, o) &&
      next.stock.Keys == st.stock.Keys &&
      (rec.decision == Approve ==> u == o.qty) &&
      (rec.decision == Delay || rec.decision == Escalate ==> next == st && u == 0) &&
      0 <= u <= Available(st.stock, o.product) && u <= st.cap &&
      next.cap == st.cap - u &&
      Available(next.stock, o.product) == Available(st.stock, o.product) - u &&
      (forall p :: p != o.product ==> Available(next.stock, p) == Available(st.stock, p))
  {
  }

  /** Over any run of orders within a day, stock and capacity never go negative, the
      inventory keeps its products, and the units the records take account exactly for the
      capacity and the stock consumed. Since this holds for every sequence of orders, it holds
      after every step. */
  lemma {:induction false} ProcessSafe(os: seq<Order>, st: State)
    requires Positive(os) && NonNegative(st.stock) && 0 <= st.cap
    ensures var (rs, fin) := Process(os, st);
      NonNegative(fin.stock) && 0 <= fin.cap <= st.cap &&
      fin.stock.Keys == st.stock.Keys &&
      TotalUnits(rs) == st.cap - fin.cap &&
      (forall p :: Available(fin.stock, p) == Available(st.stock, p) - ProductUnits(rs, p))
    decreases |os|
  {
    if os != [] {
      var front := os[..|os| - 1];
      assert Positive(front) by {
        forall o | o in front ensures o.qty > 0 { assert o in os; }
      }
      ProcessSafe(front, st);
      var prev := Process(front, st);
      var o := os[|os| - 1];
      StepEffect(prev.1, o);
      var (rs, fin) := Process(os, st);
      assert rs == prev.0 + [Step(prev.1, o).0];
      assert rs[..|rs| - 1] == prev.0;
    }
  }
}
