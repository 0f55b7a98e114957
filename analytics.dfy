/** Spending analytics: the per-category spending breakdown and the
    allocation list padded with an implied "Miscellaneous" share. Both are
    pure functions of a budget's current records. */
module Analytics {
  import opened Basics
  import opened Records

  const Miscellaneous := "Miscellaneous"

  /** Sum of amounts folded from the left, starting at 0. */
  function SumAmounts(ts: seq<Transaction>): (total: real)
    ensures (forall t <- ts :: t.amount >= 0.0) ==> total >= 0.0
  {
    if ts == [] then 0.0 else SumAmounts(ts[..|ts| - 1]) + ts[|ts| - 1].amount
  }

  /** The transactions tagged `c`, in their original order. */
  function Tagged(ts: seq<Transaction>, c: string): (r: seq<Transaction>)
    ensures forall t <- r :: t in ts && t.category == c
  {
    if ts == [] then []
    else if ts[|ts| - 1].category == c then Tagged(ts[..|ts| - 1], c) + [ts[|ts| - 1]]
    else Tagged(ts[..|ts| - 1], c)
  }

  /** The distinct category strings that occur in `ts`. */
  function CategoriesOf(ts: seq<Transaction>): (cats: set<string>) {
    set t <- ts :: t.category
  }

  /** Reference definition of how much was spent under category `c`:
      every transaction tagged `c` contributes its amount, others nothing. */
  function SpentOn(ts: seq<Transaction>, c: string): (spent: real) {
    if ts == [] then 0.0
    else (if ts[0].category == c then ts[0].amount else 0.0) + SpentOn(ts[1..], c)
  }

  /** Grouping transactions by their category string, each group keeping
      the order in which its transactions occur. */
  function GroupByCategory(ts: seq<Transaction>): (g: map<string, seq<Transaction>>)
    ensures forall c :: c in g ==> g[c] != [] && forall t <- g[c] :: t in ts && t.category == c
  {
    if ts == [] then map[]
    else
      var g := GroupByCategory(ts[..|ts| - 1]);
      var t := ts[|ts| - 1];
      g[t.category := (if t.category in g then g[t.category] else []) + [t]]
  }

  /** Every group is exactly the transactions carrying that category, and
      there is one group per category that occurs. */
  lemma {:induction false} GroupByCategoryIsTagged(ts: seq<Transaction>)
    ensures GroupByCategory(ts).Keys == CategoriesOf(ts)
    ensures forall c :: c in GroupByCategory(ts) ==> GroupByCategory(ts)[c] == Tagged(ts, c)
  {
    if ts != [] {
      var init := ts[..|ts| - 1];
      GroupByCategoryIsTagged(init);
      assert ts == init + [ts[|ts| - 1]];
      assert CategoriesOf(ts) == CategoriesOf(init) + {ts[|ts| - 1].category};
      forall c | c !in CategoriesOf(init)
        ensures Tagged(init, c) == []
      {
        TaggedAbsent(init, c);
      }
    }
  }

  lemma {:induction false} TaggedAbsent(ts: seq<Transaction>, c: string)
    requires c !in CategoriesOf(ts)
    ensures Tagged(ts, c) == [] && SpentOn(ts, c) == 0.0
  {
    if ts != [] {
      assert ts[0] in ts && ts[|ts| - 1] in ts;
      assert CategoriesOf(ts[..|ts| - 1]) <= CategoriesOf(ts);
      assert CategoriesOf(ts[1..]) <= CategoriesOf(ts);
      TaggedAbsent(ts[..|ts| - 1], c);
      TaggedAbsent(ts[1..], c);
    }
  }

  /** Appending one transaction adds its amount to its own category only. */
  lemma {:induction false} SpentOnSnoc(ts: seq<Transaction>, t: Transaction, c: string)
    ensures SpentOn(ts + [t], c) == SpentOn(ts, c) + (if t.category == c then t.amount else 0.0)
  {
    if ts != [] {
      assert (ts + [t])[1..] == ts[1..] + [t];
      SpentOnSnoc(ts[1..], t, c);
    }
  }

  /** Folding the amounts of the transactions tagged `c` gives what was spent on `c`. */
  lemma {:induction false} SumTaggedIsSpent(ts: seq<Transaction>, c: string)
    ensures SumAmounts(Tagged(ts, c)) == SpentOn(ts, c)
  {
    if ts != [] {
      var init, t := ts[..|ts| - 1], ts[|ts| - 1];
      SumTaggedIsSpent(init, c);
      assert ts == init + [t];
      SpentOnSnoc(init, t, c);
      if t.category == c {
        var g := Tagged(init, c) + [t];
        assert Tagged(ts, c) == g;
        assert g[..|g| - 1] == Tagged(init, c);
        assert SumAmounts(g) == SumAmounts(Tagged(init, c)) + t.amount;
      } else {
        assert Tagged(ts, c) == Tagged(init, c);
      }
    }
  }

  /** The spending breakdown: group the transactions by category string and
      fold each group's amounts. Its keys are exactly the categories that
      occur (none for no transactions), and each value is what was spent
      under that category. */
  function Breakdown(ts: seq<Transaction>): (m: map<string, real>)
    ensures m.Keys == CategoriesOf(ts)
    ensures forall c :: c in m ==> m[c] == SpentOn(ts, c)
  {
    var g := GroupByCategory(ts);
    GroupByCategoryIsTagged(ts);
    forall c | c in g ensures SumAmounts(g[c]) == SpentOn(ts, c) {
      SumTaggedIsSpent(ts, c);
    }
    map c | c in g :: SumAmounts(g[c])
  }

  /** What a category row shows as spent: the breakdown entry for its name,
      or 0 when nothing was logged under that name. */
  function Spent(breakdown: map<string, real>, name: string): (spent: real)
    ensures name in breakdown ==> spent == breakdown[name]
    ensures name !in breakdown ==> spent == 0.0
  {
    if name in breakdown then breakdown[name] else 0.0
  }

  /** The spent value looked up by any name is what the budget's
      transactions spent under that name, 0 for a name never used. */
  lemma SpentMatchesTransactions(ts: seq<Transaction>, name: string)
    ensures Spent(Breakdown(ts), name) == SpentOn(ts, name)
    ensures name !in CategoriesOf(ts) ==> Spent(Breakdown(ts), name) == 0.0
  {
    if name !in CategoriesOf(ts) {
      TaggedAbsent(ts, name);
    }
  }

  /** Sum of allocated amounts folded from the left, starting at 0. */
  function TotalAllocated(cats: seq<BudgetCategory>): (total: real)
    ensures (forall c <- cats :: c.amount >= 0.0) ==> total >= 0.0
  {
    if cats == [] then 0.0 else TotalAllocated(cats[..|cats| - 1]) + cats[|cats| - 1].amount
  }

  /** The categories to chart: the budget's own categories in order, and,
      when they allocate less than the limit, one extra "Miscellaneous"
      entry for the unallocated rest. The extra entry is built for this
      result only; over-allocation adds no negative entry. */
  function AdjustedCategories(cats: seq<BudgetCategory>, limit: real): (r: seq<BudgetCategory>)
    ensures |cats| <= |r| <= |cats| + 1 && r[..|cats|] == cats
    ensures TotalAllocated(cats) < limit <==> |r| == |cats| + 1
    ensures |r| == |cats| + 1 ==>
      r[|cats|] == BudgetCategory(Miscellaneous, limit - TotalAllocated(cats)) && r[|cats|].amount > 0.0
    ensures TotalAllocated(r) == Max(TotalAllocated(cats), limit)
  {
    var total := TotalAllocated(cats);
    if total < limit then
      var r := cats + [BudgetCategory(Miscellaneous, limit - total)];
      assert r[..|r| - 1] == cats;
      r
    else
      cats
  }

  /** Three transactions, two of them for food, break down into two totals. */
  lemma BreakdownExample(d: Date)
    ensures Breakdown(Sample(d)) == map["Food" := 150.0, "Rent" := 300.0]
  {
    SampleCategories(d);
    SampleSpending(d);
  }

  /** Groceries and dining out under "Food", rent under "Rent". */
  function Sample(d: Date): (ts: seq<Transaction>)
  {
    [Transaction(50.0, d, "Groceries", "Food"),
     Transaction(100.0, d, "Dining Out", "Food"),
     Transaction(300.0, d, "April Rent", "Rent")]
  }

  lemma SampleCategories(d: Date)
    ensures CategoriesOf(Sample(d)) == {"Food", "Rent"}
  {
    var ts := Sample(d);
    assert ts[0] in ts && ts[2] in ts;
    forall c | c in CategoriesOf(ts) ensures c in {"Food", "Rent"} {
      var t :| t in ts && t.category == c;
      assert t == ts[0] || t == ts[1] || t == ts[2];
    }
  }

  lemma SampleSpending(d: Date)
    ensures SpentOn(Sample(d), "Food") == 150.0 && SpentOn(Sample(d), "Rent") == 300.0
  {
    var ts := Sample(d);
    var t2 := [ts[1], ts[2]];
    assert ts[1..] == t2 && t2[1..] == [ts[2]] && [ts[2]][1..] == [];
    assert SpentOn([ts[2]], "Food") == 0.0 && SpentOn([ts[2]], "Rent") == 300.0;
    assert SpentOn(t2, "Food") == 100.0 && SpentOn(t2, "Rent") == 300.0;
  }

  /** A limit of 800 over 200 + 400 allocated leaves a Miscellaneous share
      of 200; a fully allocated budget gets no extra entry. */
  lemma AdjustedCategoriesExample()
    ensures AdjustedCategories([BudgetCategory("Food", 200.0), BudgetCategory("Rent", 400.0)], 800.0)
            == [BudgetCategory("Food", 200.0), BudgetCategory("Rent", 400.0),
                BudgetCategory(Miscellaneous, 200.0)]
    ensures AdjustedCategories([BudgetCategory("Food", 400.0), BudgetCategory("Rent", 400.0)], 800.0)
            == [BudgetCategory("Food", 400.0), BudgetCategory("Rent", 400.0)]
  {
    var under := [BudgetCategory("Food", 200.0), BudgetCategory("Rent", 400.0)];
    var full := [BudgetCategory("Food", 400.0), BudgetCategory("Rent", 400.0)];
    assert under[..1] == [under[0]] && [under[0]][..0] == [];
    assert full[..1] == [full[0]] && [full[0]][..0] == [];
    assert TotalAllocated(under) == 600.0;
    assert TotalAllocated(full) == 800.0;
  }
}
