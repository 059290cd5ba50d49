/** Worked cases of the engine on concrete orders and inventories. */
module Scenarios {
  import opened Allocation
  import opened Ordering
  import opened DecisionEngine

  /** An order for a product with no stock escalates and changes nothing. */
  lemma NoInventoryCase()
    ensures var st := State(map["P1" := 0], MaxDailyCapacity);
      Step(st, Order("O1", "P1", 5, 1, Normal)) ==
        (Record("O1", "P1", 1, 5, Escalate, NoInventory("P1")), st)
  {
  }

  /** Approve takes the quantity from stock and capacity; its reason shows both as read
      before the update. */
  lemma ApproveCase()
    ensures Step(State(map["P1" := 50], MaxDailyCapacity), Order("O3", "P1", 20, 1, Normal)) ==
      (Record("O3", "P1", 1, 20, Approve, Sufficient(50, 200)), State(map["P1" := 30], 180))
  {
    assert map["P1" := 50]["P1" := 30] == map["P1" := 30];
  }

  /** An urgent order larger than the stock is split; the rest is said to be escalated. */
  lemma UrgentSplitCase()
    ensures Step(State(map["P1" := 10], MaxDailyCapacity), Order("O4", "P1", 30, 1, Urgent)) ==
      (Record("O4", "P1", 1, 30, Split, Partial(10, RemainderEscalated)), State(map["P1" := 0], 190))
  {
    assert map["P1" := 10]["P1" := 0] == map["P1" := 0];
  }

  /** With ample stock but only 5 units of capacity left, branch 4 comes before branch 5:
      the order is split, not delayed, and the capacity is used up. */
  lemma SplitBeforeDelayCase()
    ensures Step(State(map["P1" := 50], 5), Order("O5", "P1", 20, 1, Normal)) ==
      (Record("O5", "P1", 1, 20, Split, Partial(5, RemainderDelayed)), State(map["P1" := 45], 0))
  {
    assert map["P1" := 50]["P1" := 45] == map["P1" := 45];
  }

  /** Delay needs capacity exhausted to exactly zero. */
  lemma DelayCase()
    ensures var st := State(map["P1" := 50], 0);
      Step(st, Order("O5", "P1", 20, 1, Normal)) ==
        (Record("O5", "P1", 1, 20, Delay, CapacityExhausted(50, 0)), st)
  {
  }

  /** The fallback fires from a fresh start: a first order uses the whole day's capacity, and
      a second, normal order on the same day finds some stock but less than it asks for. */
  lemma FallbackInRun()
    ensures Run([Order("A1", "A", 200, 1, Normal), Order("B1", "B", 10, 1, Normal)],
                map["A" := 200, "B" := 5]) ==
      [Record("A1", "A", 1, 200, Approve, Sufficient(200, 200)),
       Record("B1", "B", 1, 10, Escalate, Unhandled)]
  {
    var s := [Order("A1", "A", 200, 1, Normal), Order("B1", "B", 10, 1, Normal)];
    var inv := map["A" := 200, "B" := 5];
    var ra := Record("A1", "A", 1, 200, Approve, Sufficient(200, 200));
    var rb := Record("B1", "B", 1, 10, Escalate, Unhandled);
    OneDay(s, 1);
    var st0 := State(inv, MaxDailyCapacity);
    var st1 := State(map["A" := 0, "B" := 5], 0);
    assert Available(inv, "A") == 200;
    assert Decide("A", 200, MaxDailyCapacity, 200, Normal) == Verdict(Approve, Sufficient(200, 200));
    assert inv["A" := 0] == map["A" := 0, "B" := 5];
    assert Step(st0, s[0]) == (ra, st1);
    assert Step(st1, s[1]).0 == rb;
    TwoSteps(s, st0);
  }

  /** An urgent order is served before a normal one of the same day whatever their input
      order; here it takes all the stock and the normal order escalates. */
  lemma UrgentFirstCase()
    ensures var o6 := Order("O6", "P1", 10, 1, Urgent);
      var o7 := Order("O7", "P1", 5, 1, Normal);
      var expected := [Record("O6", "P1", 1, 10, Approve, Sufficient(10, 200)),
                       Record("O7", "P1", 1, 5, Escalate, NoInventory("P1"))];
      Run([o6, o7], map["P1" := 10]) == expected && Run([o7, o6], map["P1" := 10]) == expected
  {
    UrgentThenNormal();
    SwapWithinDay(Order("O6", "P1", 10, 1, Urgent), Order("O7", "P1", 5, 1, Normal), map["P1" := 10]);
  }

  /** The urgent order already first: the day runs in input order. */
  lemma UrgentThenNormal()
    ensures Run([Order("O6", "P1", 10, 1, Urgent), Order("O7", "P1", 5, 1, Normal)], map["P1" := 10]) ==
      [Record("O6", "P1", 1, 10, Approve, Sufficient(10, 200)),
       Record("O7", "P1", 1, 5, Escalate, NoInventory("P1"))]
  {
    var o6 := Order("O6", "P1", 10, 1, Urgent);
    var o7 := Order("O7", "P1", 5, 1, Normal);
    var s := [o6, o7];
    var inv := map["P1" := 10];
    OneDay(s, 1);
    var st0 := State(inv, MaxDailyCapacity);
    var st1 := State(map["P1" := 0], 190);
    assert Available(inv, "P1") == 10;
    assert Decide("P1", 10, MaxDailyCapacity, 10, Urgent) == Verdict(Approve, Sufficient(10, 200));
    assert inv["P1" := 0] == map["P1" := 0];
    assert Step(st0, o6) == (Record("O6", "P1", 1, 10, Approve, Sufficient(10, 200)), st1);
    assert Step(st1, o7).0 == Record("O7", "P1", 1, 5, Escalate, NoInventory("P1"));
    TwoSteps(s, st0);
  }

  /** An urgent and a normal order of the same day give the same run in either input order. */
  lemma SwapWithinDay(u: Order, n: Order, inv: Inventory)
    requires u.priority == Urgent && n.priority == Normal && u.date == n.date
    ensures Run([u, n], inv) == Run([n, u], inv)
  {
    forall d, p ensures Tier(GroupOf([u, n], d), p) == Tier(GroupOf([n, u], d), p) {
      SwappedTiers(u, n, d, p);
    }
    RunDependsOnlyOnTiers([u, n], [n, u], inv);
  }

  /** Swapping an urgent and a normal order of the same day changes no tier of any day. */
  lemma SwappedTiers(u: Order, n: Order, d: Date, p: Priority)
    requires u.priority == Urgent && n.priority == Normal && u.date == n.date
    ensures Tier(GroupOf([u, n], d), p) == Tier(GroupOf([n, u], d), p)
  {
    KeepUniform([u, n], u.date, {d});
    KeepUniform([n, u], u.date, {d});
    if d == u.date {
      assert [u, n] == [u] + [n] && [n, u] == [n] + [u];
      TierConcat([u], [n], p);
      TierConcat([n], [u], p);
      TierSingle(u, p);
      TierSingle(n, p);
      if p == Urgent {
        assert Tier([u, n], p) == [u] + [] && Tier([n, u], p) == [] + [u];
      } else {
        assert Tier([u, n], p) == [] + [n] && Tier([n, u], p) == [n] + [];
      }
    } else {
      assert Tier([], p) == [];
    }
  }

  /** A single order is in its own tier only. */
  lemma TierSingle(o: Order, p: Priority)
    ensures Tier([o], p) == if o.priority == p then [o] else []
  {
    assert [o][..0] == [];
    assert Tier([], p) == [];
  }

  /** Two orders on the same day d, the first urgent or both normal: one day, in input order. */
  lemma OneDay(s: seq<Order>, d: Date)
    requires |s| == 2 && s[0].date == d && s[1].date == d
    requires s[0].priority == Urgent || s[1].priority == Normal
    ensures forall inv :: Run(s, inv) == Process(s, State(inv, MaxDailyCapacity)).0
  {
    assert s[..1][..0] == [];
    assert SortedDates(s[..1]) == [d];
    assert SortedDates(s) == [d];
    assert Keep(s[..1], {d}) == s[..1];
    assert GroupOf(s, d) == s;
    assert PrioritySorted(s) == s by {
      if s[0].priority == Urgent {
        assert Tier(s[..1], Urgent) == [s[0]] && Tier(s[..1], Normal) == [];
      } else {
        assert Tier(s[..1], Urgent) == [] && Tier(s[..1], Normal) == [s[0]];
      }
    }
    assert [d][..0] == [];
  }

  /** Two orders, one step each. */
  lemma TwoSteps(s: seq<Order>, st: State)
    requires |s| == 2
    ensures Process(s, st).0 == [Step(st, s[0]).0, Step(Step(st, s[0]).1, s[1]).0]
  {
    var first := Step(st, s[0]);
    var one := s[..1];
    assert one[..|one| - 1] == [] && one[|one| - 1] == s[0];
    assert Process(one, st) == ([] + [first.0], first.1);
    assert s[..|s| - 1] == s[..1];
  }
}
