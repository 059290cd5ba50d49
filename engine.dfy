/** The decision engine: group the orders by day, visit the days in ascending order with the
    capacity reset at the start of each, visit each day's orders urgent first, and decide
    every order against the running inventory and capacity.

    `RunDays` and `Run` specify the engine as functions; `RunDecisionEngine` is the engine
    itself, updating its working inventory and capacity in place, proved to produce `Run`. */
module DecisionEngine {
  import opened Allocation
  import opened Ordering

  /** The days ds in turn from inventory inv, each day starting with full capacity: the
      records in order and the inventory left at the end. */
  function RunDays(ds: seq<Date>, s: seq<Order>, inv: Inventory): (res: (seq<Record>, Inventory))
    ensures |res.0| == |Visit(ds, s)|
    ensures forall k :: 0 <= k < |res.0| ==> Describes(res.0[k], Visit(ds, s)[k])
    decreases |ds|
  {
    if ds == [] then ([], inv)
    else
      var prev := RunDays(ds[..|ds| - 1], s, inv);
      var day := Process(PrioritySorted(GroupOf(s, ds[|ds| - 1])), State(prev.1, MaxDailyCapacity));
      (prev.0 + day.0, day.1.stock)
  }

  /** The records the engine produces for the orders s and the inventory inv. */
  function Run(s: seq<Order>, inv: Inventory): seq<Record> {
    RunDays(SortedDates(s), s, inv).0
  }

  /** Units taken on day d by the records. */
  function DayUnits(rs: seq<Record>, d: Date): int {
    if rs == [] then 0
    else DayUnits(rs[..|rs| - 1], d) + (if rs[|rs| - 1].date == d then Units(rs[|rs| - 1]) else 0)
  }

  // ---------------------------------------------------------------------------------------
  // The engine

  /** Groups the orders by day, keeping the input order within each group; the days come
      back without repetition. */
  method GroupByDate(orders: seq<Order>) returns (byDate: map<Date, seq<Order>>, days: seq<Date>)
    ensures byDate.Keys == Dates(orders)
    ensures forall d :: d in byDate ==> byDate[d] == GroupOf(orders, d)
    ensures forall d :: d in days <==> d in byDate
    ensures forall i, j :: 0 <= i < j < |days| ==> days[i] != days[j]
  {
    byDate, days := map[], [];
    for i := 0 to |orders|
      invariant byDate.Keys == Dates(orders[..i])
      invariant forall d :: d in byDate ==> byDate[d] == GroupOf(orders[..i], d)
      invariant forall d :: d in days <==> d in byDate
      invariant forall i, j :: 0 <= i < j < |days| ==> days[i] != days[j]
    {
      var order := orders[i];
      assert orders[..i + 1][..i] == orders[..i];
      InDatesIff(orders[..i], order.date);
      if order.date in byDate {
        byDate := byDate[order.date := byDate[order.date] + [order]];
      } else {
        byDate := byDate[order.date := [order]];
        days := days + [order.date];
      }
    }
    assert orders[..|orders|] == orders;
  }

  /** Sorts the days ascending, by insertion. */
  method SortDays(days: seq<Date>) returns (ds: seq<Date>)
    ensures Increasing(ds)
    ensures forall d :: d in ds <==> d in days
  {
    ds := [];
    for i := 0 to |days|
      invariant Increasing(ds)
      invariant forall d :: d in ds <==> d in days[..i]
    {
      var day := days[i];
      var j := 0;
      while j < |ds| && ds[j] < day
        invariant 0 <= j <= |ds|
        invariant forall m :: 0 <= m < j ==> ds[m] < day
      {
        j := j + 1;
      }
      if j == |ds| || ds[j] != day {
        ds := ds[..j] + [day] + ds[j..];
      }
      assert days[..i + 1] == days[..i] + [day];
    }
    assert days[..|days|] == days;
  }

  /** One order against the running inventory and capacity: the decision cascade, first
      matching branch wins, taking the units of an Approve or a Split from both. The two
      runtime guards of the source, on the product's stock and on the capacity after the
      decision, are the two assertions at the end: they never fail. */
  method ApplyRule(order: Order, stock: Inventory, remaining: int)
    returns (record: Record, stock': Inventory, remaining': int)
    requires NonNegative(stock) && 0 <= remaining
    ensures (record, State(stock', remaining')) == Step(State(stock, remaining), order)
    ensures NonNegative(stock') && 0 <= remaining'
  {
    stock', remaining' := stock, remaining;
    var product, quantity := order.product, order.qty;
    var available := Available(stock', product);
    var decision, reason;
    if available == 0 {
      decision, reason := Escalate, NoInventory(product);
    } else if remaining' == 0 && order.priority == Urgent {
      decision, reason := Escalate, UrgentCapacityExhausted;
    } else if available >= quantity && remaining' >= quantity {
      decision, reason := Approve, Sufficient(available, remaining');
      stock' := stock'[product := stock'[product] - quantity];
      remaining' := remaining' - quantity;
    } else if available > 0 && remaining' > 0 {
      var splitQty := Min(available, remaining');
      stock' := stock'[product := stock'[product] - splitQty];
      remaining' := remaining' - splitQty;
      decision := Split;
      reason := Partial(splitQty, if order.priority == Urgent then RemainderEscalated else RemainderDelayed);
    } else if available >= quantity && remaining' < quantity {
      decision, reason := Delay, CapacityExhausted(available, remaining');
    } else {
      decision, reason := Escalate, Unhandled;
    }
    assert Available(stock', product) >= 0;
    assert remaining' >= 0;
    record := Record(order.id, product, order.date, quantity, decision, reason);
  }

  /** One day: the capacity starts full and the orders, already in priority order, are
      decided in turn against the running inventory and capacity. */
  method ProcessDay(daily: seq<Order>, stock: Inventory) returns (records: seq<Record>, stock': Inventory)
    requires NonNegative(stock)
    ensures var (rs, fin) := Process(daily, State(stock, MaxDailyCapacity));
      records == rs && stock' == fin.stock
    ensures NonNegative(stock')
  {
    var remaining := MaxDailyCapacity;
    stock', records := stock, [];
    for j := 0 to |daily|
      invariant (records, State(stock', remaining)) == Process(daily[..j], State(stock, MaxDailyCapacity))
      invariant NonNegative(stock') && 0 <= remaining
    {
      var record;
      record, stock', remaining := ApplyRule(daily[j], stock', remaining);
      assert daily[..j + 1][..j] == daily[..j];
      records := records + [record];
    }
    assert daily[..|daily|] == daily;
  }

  /** The engine. Requires what the inventory loader guarantees: no negative stock. */
  method RunDecisionEngine(orders: seq<Order>, inventory: Inventory) returns (decisions: seq<Record>)
    requires NonNegative(inventory)
    ensures decisions == Run(orders, inventory)
  {
    var stock := inventory;
    var byDate, days := GroupByDate(orders);
    var dates := SortDays(days);
    IncreasingUnique(dates, SortedDates(orders));
    decisions := [];
    for i := 0 to |dates|
      invariant (decisions, stock) == RunDays(dates[..i], orders, inventory)
      invariant NonNegative(stock)
    {
      var date := dates[i];
      assert date in byDate;
      var daily := PrioritySorted(byDate[date]);
      var dayRecords;
      dayRecords, stock := ProcessDay(daily, stock);
      decisions := decisions + dayRecords;
      RunDaysNext(dates, i, orders, inventory);
    }
    assert dates[..|dates|] == dates;
  }

  // ---------------------------------------------------------------------------------------
  // Properties of a run

  /** One more day: its orders, priority-sorted, from the inventory the earlier days left,
      with full capacity. */
  lemma RunDaysNext(ds: seq<Date>, i: nat, s: seq<Order>, inv: Inventory)
    requires i < |ds|
    ensures var prev := RunDays(ds[..i], s, inv);
      var day := Process(PrioritySorted(GroupOf(s, ds[i])), State(prev.1, MaxDailyCapacity));
      RunDays(ds[..i + 1], s, inv) == (prev.0 + day.0, day.1.stock)
  {
    assert ds[..i + 1][..i] == ds[..i];
  }

  /** Exactly one record per order; the k-th record carries the identity, product, day and
      quantity of the k-th order visited, and every order is visited once. */
  lemma RunOneRecordPerOrder(s: seq<Order>, inv: Inventory)
    ensures |Run(s, inv)| == |s|
    ensures multiset(Traversal(s)) == multiset(s)
    ensures forall k :: 0 <= k < |s| ==> Describes(Run(s, inv)[k], Traversal(s)[k])
  {
    TraversalPermutes(s);
  }

  /** The record dates never decrease. The order of the orders that the records follow puts,
      within a day, every urgent order before every normal one; the records reach that order
      position by position through the `Describes` of `RunOneRecordPerOrder`. */
  lemma RunInTraversalOrder(s: seq<Order>, inv: Inventory)
    ensures forall i, j :: 0 <= i < j < |Run(s, inv)| ==> Run(s, inv)[i].date <= Run(s, inv)[j].date
    ensures InTraversalOrder(Traversal(s))
  {
    TraversalOrdered(s);
  }

  lemma {:induction false} RunDaysSafe(ds: seq<Date>, s: seq<Order>, inv: Inventory)
    requires Positive(s) && NonNegative(inv)
    ensures NonNegative(RunDays(ds, s, inv).1)
    ensures RunDays(ds, s, inv).1.Keys == inv.Keys
    ensures forall p :: Available(RunDays(ds, s, inv).1, p) == Available(inv, p) - ProductUnits(RunDays(ds, s, inv).0, p)
    decreases |ds|
  {
    if ds != [] {
      var front := ds[..|ds| - 1];
      RunDaysSafe(front, s, inv);
      var prev := RunDays(front, s, inv);
      var g := PrioritySorted(GroupOf(s, ds[|ds| - 1]));
      DayOfSortedGroup(s, ds[|ds| - 1]);
      assert Positive(g);
      ProcessSafe(g, State(prev.1, MaxDailyCapacity));
      var day := Process(g, State(prev.1, MaxDailyCapacity));
      forall p ensures ProductUnits(prev.0 + day.0, p) == ProductUnits(prev.0, p) + ProductUnits(day.0, p) {
        ProductUnitsConcat(prev.0, day.0, p);
      }
    }
  }

  /** Stock and capacity never go negative: before and after every order of every day, from
      the loaders' guarantees. This is why the source's two runtime guards never fire. */
  lemma GuardsNeverFire(s: seq<Order>, inv: Inventory, i: nat, j: nat)
    requires Positive(s) && NonNegative(inv)
    requires i < |SortedDates(s)| && j <= |PrioritySorted(GroupOf(s, SortedDates(s)[i]))|
    ensures var ds := SortedDates(s);
      var daily := PrioritySorted(GroupOf(s, ds[i]));
      var st := Process(daily[..j], State(RunDays(ds[..i], s, inv).1, MaxDailyCapacity)).1;
      NonNegative(st.stock) && 0 <= st.cap <= MaxDailyCapacity
  {
    var ds := SortedDates(s);
    var daily := PrioritySorted(GroupOf(s, ds[i]));
    RunDaysSafe(ds[..i], s, inv);
    DayOfSortedGroup(s, ds[i]);
    assert Positive(daily[..j]) by {
      forall o | o in daily[..j] ensures o.qty > 0 { assert o in daily; }
    }
    ProcessSafe(daily[..j], State(RunDays(ds[..i], s, inv).1, MaxDailyCapacity));
  }

  /** The units approved or split from a product over the whole run never exceed its initial
      stock: what they take is exactly what the stock lost. */
  lemma RunStockBound(s: seq<Order>, inv: Inventory, p: ProductCode)
    requires Positive(s) && NonNegative(inv)
    ensures ProductUnits(Run(s, inv), p) <= Available(inv, p)
  {
    RunDaysSafe(SortedDates(s), s, inv);
  }

  lemma {:induction false} ProductUnitsConcat(a: seq<Record>, b: seq<Record>, p: ProductCode)
    ensures ProductUnits(a + b, p) == ProductUnits(a, p) + ProductUnits(b, p)
    decreases |b|
  {
    if b == [] {
      assert a + b == a;
    } else {
      assert (a + b)[..|a + b| - 1] == a + b[..|b| - 1];
      ProductUnitsConcat(a, b[..|b| - 1], p);
    }
  }

  lemma {:induction false} DayUnitsConcat(a: seq<Record>, b: seq<Record>, d: Date)
    ensures DayUnits(a + b, d) == DayUnits(a, d) + DayUnits(b, d)
    decreases |b|
  {
    if b == [] {
      assert a + b == a;
    } else {
      assert (a + b)[..|a + b| - 1] == a + b[..|b| - 1];
      DayUnitsConcat(a, b[..|b| - 1], d);
    }
  }

  /** Records that all fall on day e take, on day d, all their units or none. */
  lemma {:induction false} DayUnitsUniform(rs: seq<Record>, e: Date, d: Date)
    requires forall k :: 0 <= k < |rs| ==> rs[k].date == e
    ensures DayUnits(rs, d) == if d == e then TotalUnits(rs) else 0
    decreases |rs|
  {
    if rs != [] {
      DayUnitsUniform(rs[..|rs| - 1], e, d);
    }
  }

  /** One day run from full capacity takes between 0 and 200 units, all on that day. */
  lemma DayCapacity(s: seq<Order>, e: Date, stock: Inventory, d: Date)
    requires Positive(s) && NonNegative(stock)
    ensures var day := Process(PrioritySorted(GroupOf(s, e)), State(stock, MaxDailyCapacity));
      0 <= DayUnits(day.0, d) <= MaxDailyCapacity && (d != e ==> DayUnits(day.0, d) == 0)
  {
    var g := PrioritySorted(GroupOf(s, e));
    DayOfSortedGroup(s, e);
    assert Positive(g);
    ProcessSafe(g, State(stock, MaxDailyCapacity));
    var day := Process(g, State(stock, MaxDailyCapacity));
    assert forall k :: 0 <= k < |day.0| ==> day.0[k].date == g[k].date == e;
    DayUnitsUniform(day.0, e, d);
  }

  lemma {:induction false} RunDaysDailyCapacity(ds: seq<Date>, s: seq<Order>, inv: Inventory, d: Date)
    requires Increasing(ds) && Positive(s) && NonNegative(inv)
    ensures 0 <= DayUnits(RunDays(ds, s, inv).0, d) <= MaxDailyCapacity
    ensures d !in ds ==> DayUnits(RunDays(ds, s, inv).0, d) == 0
    decreases |ds|
  {
    if ds != [] {
      var front, last := ds[..|ds| - 1], ds[|ds| - 1];
      assert ds == front + [last];
      RunDaysDailyCapacity(front, s, inv, d);
      RunDaysSafe(front, s, inv);
      var prev := RunDays(front, s, inv);
      DayCapacity(s, last, prev.1, d);
      var day := Process(PrioritySorted(GroupOf(s, last)), State(prev.1, MaxDailyCapacity));
      DayUnitsConcat(prev.0, day.0, d);
      EarlierDays(front, last);
    }
  }

  /** Capacity is reset each day and never carried over: the units approved or split on any
      one day total at most the daily capacity, whatever happened on other days. */
  lemma RunDailyCapacity(s: seq<Order>, inv: Inventory, d: Date)
    requires Positive(s) && NonNegative(inv)
    ensures 0 <= DayUnits(Run(s, inv), d) <= MaxDailyCapacity
  {
    RunDaysDailyCapacity(SortedDates(s), s, inv, d);
  }

  lemma {:induction false} RunDaysSameDays(ds: seq<Date>, a: seq<Order>, b: seq<Order>, inv: Inventory)
    requires forall d :: PrioritySorted(GroupOf(a, d)) == PrioritySorted(GroupOf(b, d))
    ensures RunDays(ds, a, inv) == RunDays(ds, b, inv)
    decreases |ds|
  {
    if ds != [] {
      RunDaysSameDays(ds[..|ds| - 1], a, b, inv);
    }
  }

  /** Only the input order among the urgent orders of a day, and among its normal orders,
      matters: moving urgent and normal orders of the same day past each other in the input
      changes no decision. */
  lemma RunDependsOnlyOnTiers(a: seq<Order>, b: seq<Order>, inv: Inventory)
    requires forall d, p :: Tier(GroupOf(a, d), p) == Tier(GroupOf(b, d), p)
    ensures Run(a, inv) == Run(b, inv)
  {
    SameTiersSameDays(a, b);
    IncreasingUnique(SortedDates(a), SortedDates(b));
    RunDaysSameDays(SortedDates(a), a, b, inv);
  }
}
