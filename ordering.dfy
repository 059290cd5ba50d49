/** The order in which the engine visits the orders: grouped by calendar day, days in
    ascending order, and within a day urgent orders first, each priority keeping the input
    order (a stable sort on the key 0 for urgent, 1 for normal). */
module Ordering {
  import opened Allocation

  /** The orders whose date is in the given set, in input order. */
  function Keep(s: seq<Order>, dates: set<Date>): seq<Order>
    decreases |s|
  {
    if s == [] then []
    else Keep(s[..|s| - 1], dates) + (if s[|s| - 1].date in dates then [s[|s| - 1]] else [])
  }

  /** The orders placed on day d, in input order: one group of the grouping by date. */
  function GroupOf(s: seq<Order>, d: Date): seq<Order> {
    Keep(s, {d})
  }

  /** The orders of priority p, in input order. */
  function Tier(s: seq<Order>, p: Priority): seq<Order>
    decreases |s|
  {
    if s == [] then []
    else Tier(s[..|s| - 1], p) + (if s[|s| - 1].priority == p then [s[|s| - 1]] else [])
  }

  /** The sort key of an order within its day. */
  function Rank(p: Priority): int {
    if p == Urgent then 0 else 1
  }

  /** A day's orders stably sorted by Rank: the urgent ones, then the normal ones, each in
      input order. */
  function PrioritySorted(g: seq<Order>): seq<Order> {
    Tier(g, Urgent) + Tier(g, Normal)
  }

  /** The days on which some order was placed: the keys of the grouping. */
  function Dates(s: seq<Order>): set<Date>
    decreases |s|
  {
    if s == [] then {} else Dates(s[..|s| - 1]) + {s[|s| - 1].date}
  }

  predicate Increasing(ds: seq<Date>) {
    forall i, j :: 0 <= i < j < |ds| ==> ds[i] < ds[j]
  }

  /** The days of ds with d added, kept ascending and without repetition. */
  function Insert(ds: seq<Date>, d: Date): (r: seq<Date>)
    requires Increasing(ds)
    ensures Increasing(r)
    ensures forall x :: x in r <==> x in ds || x == d
    decreases |ds|
  {
    if ds == [] then [d]
    else if d < ds[0] then [d] + ds
    else if d == ds[0] then ds
    else
      var rest := Insert(ds[1..], d);
      assert forall x :: x in ds[1..] ==> ds[0] < x by { EarlierThanTail(ds); }
      assert forall i :: 0 <= i < |rest| ==> ds[0] < rest[i] by {
        forall i | 0 <= i < |rest| ensures ds[0] < rest[i] { assert rest[i] in rest; }
      }
      [ds[0]] + rest
  }

  /** The days on which some order was placed, ascending: the sorted keys of the grouping. */
  function SortedDates(s: seq<Order>): (ds: seq<Date>)
    ensures Increasing(ds)
    ensures forall d :: d in ds <==> d in Dates(s)
    decreases |s|
  {
    if s == [] then [] else Insert(SortedDates(s[..|s| - 1]), s[|s| - 1].date)
  }

  /** The orders of the days ds, day after day, each day priority-sorted. */
  function Visit(ds: seq<Date>, s: seq<Order>): seq<Order>
    decreases |ds|
  {
    if ds == [] then [] else Visit(ds[..|ds| - 1], s) + PrioritySorted(GroupOf(s, ds[|ds| - 1]))
  }

  /** The order in which the engine visits all the orders. */
  function Traversal(s: seq<Order>): seq<Order> {
    Visit(SortedDates(s), s)
  }

  /** Days ascend, and within a day no normal order precedes an urgent one. */
  predicate InTraversalOrder(t: seq<Order>) {
    forall i, j :: 0 <= i < j < |t| ==>
      t[i].date < t[j].date || (t[i].date == t[j].date && Rank(t[i].priority) <= Rank(t[j].priority))
  }

  // ---------------------------------------------------------------------------------------
  // Filters

  /** Keep selects orders of the input whose date is among the given ones. */
  lemma {:induction false} KeepMembers(s: seq<Order>, dates: set<Date>)
    ensures forall o :: o in Keep(s, dates) ==> o in s && o.date in dates
    decreases |s|
  {
    if s != [] {
      var front := s[..|s| - 1];
      KeepMembers(front, dates);
      assert s == front + [s[|s| - 1]];
    }
  }

  /** Tier selects orders of the input that have the given priority. */
  lemma {:induction false} TierMembers(s: seq<Order>, p: Priority)
    ensures forall o :: o in Tier(s, p) ==> o in s && o.priority == p
    decreases |s|
  {
    if s != [] {
      var front := s[..|s| - 1];
      TierMembers(front, p);
      assert s == front + [s[|s| - 1]];
    }
  }

  lemma {:induction false} KeepConcat(a: seq<Order>, b: seq<Order>, dates: set<Date>)
    ensures Keep(a + b, dates) == Keep(a, dates) + Keep(b, dates)
    decreases |b|
  {
    if b != [] {
      var front := b[..|b| - 1];
      assert (a + b)[..|a + b| - 1] == a + front;
      assert (a + b)[|a + b| - 1] == b[|b| - 1];
      KeepConcat(a, front, dates);
    } else {
      assert a + b == a;
    }
  }

  lemma {:induction false} TierConcat(a: seq<Order>, b: seq<Order>, p: Priority)
    ensures Tier(a + b, p) == Tier(a, p) + Tier(b, p)
    decreases |b|
  {
    if b != [] {
      var front := b[..|b| - 1];
      assert (a + b)[..|a + b| - 1] == a + front;
      assert (a + b)[|a + b| - 1] == b[|b| - 1];
      TierConcat(a, front, p);
    } else {
      assert a + b == a;
    }
  }

  /** Keeping days from orders that all fall on day e keeps all of them or none. */
  lemma {:induction false} KeepUniform(g: seq<Order>, e: Date, dates: set<Date>)
    requires forall o :: o in g ==> o.date == e
    ensures Keep(g, dates) == if e in dates then g else []
    decreases |g|
  {
    if g != [] {
      var front, last := g[..|g| - 1], g[|g| - 1];
      assert g == front + [last];
      assert forall o :: o in front ==> o in g;
      KeepUniform(front, e, dates);
      assert last in g;
    }
  }

  lemma {:induction false} TierUniform(g: seq<Order>, q: Priority, p: Priority)
    requires forall o :: o in g ==> o.priority == q
    ensures Tier(g, p) == if q == p then g else []
    decreases |g|
  {
    if g != [] {
      var front, last := g[..|g| - 1], g[|g| - 1];
      assert g == front + [last];
      assert forall o :: o in front ==> o in g;
      TierUniform(front, q, p);
      assert last in g;
    }
  }

  /** Every order has one of the two priorities. */
  lemma {:induction false} TierSizes(g: seq<Order>)
    ensures |Tier(g, Urgent)| + |Tier(g, Normal)| == |g|
    decreases |g|
  {
    if g != [] {
      TierSizes(g[..|g| - 1]);
    }
  }

  /** A day is among the dates exactly when its group is not empty. */
  lemma {:induction false} InDatesIff(s: seq<Order>, d: Date)
    ensures d in Dates(s) <==> GroupOf(s, d) != []
    decreases |s|
  {
    if s != [] {
      InDatesIff(s[..|s| - 1], d);
    }
  }

  lemma {:induction false} DatesCover(s: seq<Order>)
    ensures forall o :: o in s ==> o.date in Dates(s)
    decreases |s|
  {
    if s != [] {
      var front := s[..|s| - 1];
      DatesCover(front);
      forall o | o in s ensures o.date in Dates(s) {
        if o != s[|s| - 1] {
          assert s == front + [s[|s| - 1]];
          assert o in front;
        }
      }
    }
  }

  lemma {:induction false} KeepAll(s: seq<Order>, dates: set<Date>)
    requires forall o :: o in s ==> o.date in dates
    ensures Keep(s, dates) == s
    decreases |s|
  {
    if s != [] {
      var front := s[..|s| - 1];
      forall o | o in front ensures o.date in dates { assert o in s; }
      KeepAll(front, dates);
      assert front + [s[|s| - 1]] == s;
    }
  }

  /** Keeping the days of S and then day d (not in S) is, up to order, keeping S + {d}. */
  lemma {:induction false} KeepSplit(s: seq<Order>, dates: set<Date>, d: Date)
    requires d !in dates
    ensures multiset(Keep(s, dates + {d})) == multiset(Keep(s, dates)) + multiset(GroupOf(s, d))
    decreases |s|
  {
    if s != [] {
      KeepSplit(s[..|s| - 1], dates, d);
    }
  }

  // ---------------------------------------------------------------------------------------
  // The stable priority sort

  /** Sorting a day by priority neither loses nor adds an order. */
  lemma {:induction false} PrioritySortedPermutes(g: seq<Order>)
    ensures multiset(PrioritySorted(g)) == multiset(g)
    decreases |g|
  {
    if g != [] {
      var front := g[..|g| - 1];
      PrioritySortedPermutes(front);
      assert front + [g[|g| - 1]] == g;
    }
  }

  /** After the sort no normal order precedes an urgent one. */
  lemma PrioritySortedOrdered(g: seq<Order>)
    ensures var r := PrioritySorted(g);
      forall i, j :: 0 <= i < j < |r| ==> Rank(r[i].priority) <= Rank(r[j].priority)
  {
    TierMembers(g, Urgent);
    TierMembers(g, Normal);
    var u, n := Tier(g, Urgent), Tier(g, Normal);
    var r := u + n;
    forall i, j | 0 <= i < j < |r| ensures Rank(r[i].priority) <= Rank(r[j].priority) {
      if i < |u| {
        assert r[i] in u;
      } else {
        assert r[i] in n && r[j] in n;
      }
    }
  }

  /** The sort keeps the order of the orders of each priority: it is stable. */
  lemma PrioritySortedStable(g: seq<Order>, p: Priority)
    ensures Tier(PrioritySorted(g), p) == Tier(g, p)
  {
    TierConcat(Tier(g, Urgent), Tier(g, Normal), p);
    TierMembers(g, Urgent);
    TierMembers(g, Normal);
    TierUniform(Tier(g, Urgent), Urgent, p);
    TierUniform(Tier(g, Normal), Normal, p);
  }

  // ---------------------------------------------------------------------------------------
  // Sorted days

  /** Sorting days is unique: two ascending lists of the same days are equal. */
  lemma {:induction false} IncreasingUnique(a: seq<Date>, b: seq<Date>)
    requires Increasing(a) && Increasing(b)
    requires forall d :: d in a <==> d in b
    ensures a == b
    decreases |a|
  {
    assert (a == []) == (b == []) by {
      if a != [] { assert a[0] in a; assert a[0] in b; }
      if b != [] { assert b[0] in b; assert b[0] in a; }
    }
    if a != [] {
      assert a[0] in a && b[0] in b;
      assert a[0] in b && b[0] in a;
      EarlierThanTail(a);
      EarlierThanTail(b);
      assert a == [a[0]] + a[1..] && b == [b[0]] + b[1..];
      HeadIsLeast(a, b[0]);
      HeadIsLeast(b, a[0]);
      forall d ensures d in a[1..] <==> d in b[1..] {
        assert d in a[1..] <==> d in a && d != a[0];
        assert d in b[1..] <==> d in b && d != b[0];
      }
      IncreasingUnique(a[1..], b[1..]);
    }
  }

  lemma HeadIsLeast(ds: seq<Date>, x: Date)
    requires Increasing(ds) && x in ds
    ensures ds[0] <= x
  {
    var k :| 0 <= k < |ds| && ds[k] == x;
  }

  /** The head of an ascending list is earlier than every later day. */
  lemma EarlierThanTail(ds: seq<Date>)
    requires Increasing(ds) && ds != []
    ensures forall x :: x in ds[1..] ==> ds[0] < x
  {
    forall x | x in ds[1..] ensures ds[0] < x {
      var k :| 0 <= k < |ds| - 1 && ds[1..][k] == x;
      assert ds[k + 1] == x;
    }
  }

  /** In an ascending list of days, every day before the last is earlier than it. */
  lemma EarlierDays(front: seq<Date>, last: Date)
    requires Increasing(front + [last])
    ensures forall d :: d in front ==> d < last
  {
    var ds := front + [last];
    forall d | d in front ensures d < last {
      var k :| 0 <= k < |front| && front[k] == d;
      assert ds[k] == d && ds[|ds| - 1] == last;
    }
  }

  /** Within a group every order falls on the group's day; sorting keeps that. */
  lemma DayOfSortedGroup(s: seq<Order>, d: Date)
    ensures forall o :: o in PrioritySorted(GroupOf(s, d)) ==> o.date == d && o in s
  {
    KeepMembers(s, {d});
    TierMembers(GroupOf(s, d), Urgent);
    TierMembers(GroupOf(s, d), Normal);
  }

  /** The days of a list, as a set. */
  function Elems(ds: seq<Date>): (r: set<Date>)
    ensures forall d :: d in r <==> d in ds
    decreases |ds|
  {
    if ds == [] then {} else Elems(ds[..|ds| - 1]) + {ds[|ds| - 1]}
  }

  lemma {:induction false} VisitPermutes(ds: seq<Date>, s: seq<Order>)
    requires Increasing(ds)
    ensures multiset(Visit(ds, s)) == multiset(Keep(s, Elems(ds)))
    decreases |ds|
  {
    if ds == [] {
      KeepUniformEmpty(s);
    } else {
      var front, last := ds[..|ds| - 1], ds[|ds| - 1];
      assert ds == front + [last];
      VisitPermutes(front, s);
      PrioritySortedPermutes(GroupOf(s, last));
      EarlierDays(front, last);
      KeepSplit(s, Elems(front), last);
    }
  }

  lemma {:induction false} KeepUniformEmpty(s: seq<Order>)
    ensures Keep(s, {}) == []
    decreases |s|
  {
    if s != [] {
      KeepUniformEmpty(s[..|s| - 1]);
    }
  }

  /** The traversal visits every order exactly once. */
  lemma TraversalPermutes(s: seq<Order>)
    ensures multiset(Traversal(s)) == multiset(s)
    ensures |Traversal(s)| == |s|
  {
    var ds := SortedDates(s);
    VisitPermutes(ds, s);
    assert Elems(ds) == Dates(s);
    DatesCover(s);
    KeepAll(s, Dates(s));
    assert |multiset(Traversal(s))| == |multiset(s)|;
  }

  lemma {:induction false} VisitOrdered(ds: seq<Date>, s: seq<Order>)
    requires Increasing(ds)
    ensures InTraversalOrder(Visit(ds, s))
    ensures forall o :: o in Visit(ds, s) ==> o.date in ds
    decreases |ds|
  {
    if ds != [] {
      var front, last := ds[..|ds| - 1], ds[|ds| - 1];
      VisitOrdered(front, s);
      var v, g := Visit(front, s), PrioritySorted(GroupOf(s, last));
      var t := v + g;
      DayOfSortedGroup(s, last);
      PrioritySortedOrdered(GroupOf(s, last));
      assert ds == front + [last];
      EarlierDays(front, last);
      forall i, j | 0 <= i < j < |t|
        ensures t[i].date < t[j].date || (t[i].date == t[j].date && Rank(t[i].priority) <= Rank(t[j].priority))
      {
        if j < |v| {
          assert t[i] == v[i] && t[j] == v[j];
        } else if i < |v| {
          assert t[i] in v && t[j] in g;
        } else {
          assert t[i] == g[i - |v|] && t[j] == g[j - |v|];
        }
      }
      forall o | o in t ensures o.date in ds {
        if o in v {
          assert o.date in front;
        }
      }
    }
  }

  /** Days ascend, and within a day urgent orders come first. */
  lemma TraversalOrdered(s: seq<Order>)
    ensures InTraversalOrder(Traversal(s))
  {
    VisitOrdered(SortedDates(s), s);
  }

  /** The group of day d within the sorted group of day e: all of it when d is e, else nothing. */
  lemma SortedGroupOfDay(s: seq<Order>, e: Date, d: Date)
    ensures GroupOf(PrioritySorted(GroupOf(s, e)), d) == if d == e then PrioritySorted(GroupOf(s, e)) else []
  {
    DayOfSortedGroup(s, e);
    KeepUniform(PrioritySorted(GroupOf(s, e)), e, {d});
  }

  lemma {:induction false} VisitGroup(ds: seq<Date>, s: seq<Order>, d: Date)
    requires Increasing(ds)
    ensures GroupOf(Visit(ds, s), d) == if d in ds then PrioritySorted(GroupOf(s, d)) else []
    decreases |ds|
  {
    if ds != [] {
      var front, last := ds[..|ds| - 1], ds[|ds| - 1];
      var v, g := Visit(front, s), PrioritySorted(GroupOf(s, last));
      assert Visit(ds, s) == v + g;
      VisitGroup(front, s, d);
      KeepConcat(v, g, {d});
      assert GroupOf(v + g, d) == GroupOf(v, d) + GroupOf(g, d);
      SortedGroupOfDay(s, last, d);
      assert ds == front + [last];
      if d == last {
        EarlierDays(front, last);
        assert d !in front;
        assert GroupOf(v, d) == [];
        assert GroupOf(v + g, d) == g;
      } else {
        assert GroupOf(g, d) == [];
        assert GroupOf(v + g, d) == GroupOf(v, d);
        assert d in ds <==> d in front;
      }
    }
  }

  /** Within a day the orders of each priority keep their input order: Python's sort is
      stable. Together with TraversalOrdered and TraversalPermutes this determines the
      traversal completely. */
  lemma TraversalStable(s: seq<Order>, d: Date, p: Priority)
    ensures Tier(GroupOf(Traversal(s), d), p) == Tier(GroupOf(s, d), p)
  {
    var ds := SortedDates(s);
    VisitGroup(ds, s, d);
    if d in ds {
      PrioritySortedStable(GroupOf(s, d), p);
    } else {
      InDatesIff(s, d);
    }
  }

  /** Two order lists that agree, day by day, on the input order of their urgent orders and
      of their normal orders are visited identically: how urgent and normal orders of one day
      interleave in the input does not matter. */
  lemma SameTiersSameDays(a: seq<Order>, b: seq<Order>)
    requires forall d, p :: Tier(GroupOf(a, d), p) == Tier(GroupOf(b, d), p)
    ensures Dates(a) == Dates(b)
    ensures forall d :: PrioritySorted(GroupOf(a, d)) == PrioritySorted(GroupOf(b, d))
  {
    forall d ensures d in Dates(a) <==> d in Dates(b) {
      InDatesIff(a, d);
      InDatesIff(b, d);
      TierSizes(GroupOf(a, d));
      TierSizes(GroupOf(b, d));
      assert Tier(GroupOf(a, d), Urgent) == Tier(GroupOf(b, d), Urgent);
      assert Tier(GroupOf(a, d), Normal) == Tier(GroupOf(b, d), Normal);
    }
    forall d ensures PrioritySorted(GroupOf(a, d)) == PrioritySorted(GroupOf(b, d)) {
      assert Tier(GroupOf(a, d), Urgent) == Tier(GroupOf(b, d), Urgent);
      assert Tier(GroupOf(a, d), Normal) == Tier(GroupOf(b, d), Normal);
    }
  }
}
