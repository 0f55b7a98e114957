/** The transactions tab of one budget: the five most recent transactions,
    newest first, and a form that logs a new transaction. */
module TransactionsTab {
  import opened Basics
  import opened Records
  import opened BudgetModel
  import opened Persistence

  // ---- The recent list -------------------------------------------------

  /** Ordered by date, newest first. */
  predicate NewestFirst(ts: seq<Transaction>)
  {
    forall i, j :: 0 <= i < j < |ts| ==> ts[i].date >= ts[j].date
  }

  /** Places `t` into a newest-first list, before every transaction that
      is not newer than it. */
  function Insert(t: Transaction, ts: seq<Transaction>): (r: seq<Transaction>)
    requires NewestFirst(ts)
    ensures NewestFirst(r)
    ensures multiset(r) == multiset(ts) + multiset{t}
  {
    if ts == [] then [t]
    else if t.date >= ts[0].date then [t] + ts
    else
      var rest := Insert(t, ts[1..]);
      assert ts == [ts[0]] + ts[1..];
      InsertAfterHead(ts[0], t, ts[1..], rest);
      [ts[0]] + rest
  }

  /** The step of Insert that keeps the head: `h` is newer than `t` and
      than everything in `tail`, so it stays first. */
  lemma InsertAfterHead(h: Transaction, t: Transaction, tail: seq<Transaction>, rest: seq<Transaction>)
    requires NewestFirst([h] + tail) && t.date < h.date
    requires NewestFirst(rest) && multiset(rest) == multiset(tail) + multiset{t}
    ensures NewestFirst([h] + rest)
  {
    var r := [h] + rest;
    forall i, j | 0 <= i < j < |r| ensures r[i].date >= r[j].date {
      if i == 0 {
        var x := rest[j - 1];
        assert r[0] == h && r[j] == x;
        assert x in multiset(rest);
        if x != t {
          assert x in multiset(tail);
          var k :| 0 <= k < |tail| && tail[k] == x;
          assert ([h] + tail)[0] == h && ([h] + tail)[k + 1] == x;
        }
      } else {
        assert r[i] == rest[i - 1] && r[j] == rest[j - 1];
      }
    }
  }

  /** `transactions.sorted { $0.date > $1.date }`: the same transactions,
      newest first. */
  function SortNewestFirst(ts: seq<Transaction>): (r: seq<Transaction>)
    ensures NewestFirst(r)
    ensures multiset(r) == multiset(ts)
  {
    if ts == [] then []
    else
      assert ts == [ts[0]] + ts[1..];
      Insert(ts[0], SortNewestFirst(ts[1..]))
  }

  /** The number of rows of the recent list. */
  function RecentCount(ts: seq<Transaction>): (n: nat)
    ensures n <= 5 && n <= |ts|
  {
    if |ts| <= 5 then |ts| else 5
  }

  /** The "Recent Transactions" section: the sorted list cut after five. */
  function Recent(ts: seq<Transaction>): (r: seq<Transaction>)
    ensures |r| == RecentCount(ts)
    ensures forall t <- r :: t in ts
  {
    var sorted := SortNewestFirst(ts);
    assert |sorted| == |multiset(sorted)| == |ts|;
    var r := sorted[..RecentCount(ts)];
    assert forall t <- r :: t in ts by {
      forall t <- r ensures t in ts {
        assert t in sorted;
        assert t in multiset(sorted);
      }
    }
    r
  }

  /** The recent list shows at most five transactions, all of them the
      budget's own, newest first, and every one of them when there are
      five or fewer. */
  lemma RecentIsNewestFive(ts: seq<Transaction>)
    ensures |Recent(ts)| == RecentCount(ts) <= 5
    ensures multiset(Recent(ts)) <= multiset(ts)
    ensures NewestFirst(Recent(ts))
    ensures |ts| <= 5 ==> multiset(Recent(ts)) == multiset(ts)
  {
    var s := SortNewestFirst(ts);
    assert |s| == |multiset(s)| == |ts|;
    var n := RecentCount(ts);
    assert s == s[..n] + s[n..];
    assert multiset(ts) == multiset(s[..n]) + multiset(s[n..]);
  }

  /** No transaction left out of the recent list is newer than one shown. */
  lemma RecentOmitsOnlyOlder(ts: seq<Transaction>, x: Transaction, y: Transaction)
    requires x in Recent(ts) && y in multiset(ts) - multiset(Recent(ts))
    ensures y.date <= x.date
  {
    var s := SortNewestFirst(ts);
    var n := RecentCount(ts);
    RecentSplit(ts);
    assert y in s[n..];
    var j :| n <= j < |s| && s[j] == y;
    var i :| 0 <= i < n && s[i] == x;
  }

  /** The recent list is the sorted list up to RecentCount, and what it
      leaves out is the sorted list's rest. */
  lemma RecentSplit(ts: seq<Transaction>)
    ensures RecentCount(ts) <= |SortNewestFirst(ts)|
    ensures Recent(ts) == SortNewestFirst(ts)[..RecentCount(ts)]
    ensures multiset(ts) - multiset(Recent(ts)) == multiset(SortNewestFirst(ts)[RecentCount(ts)..])
  {
    var s := SortNewestFirst(ts);
    assert |s| == |multiset(s)| == |ts|;
    var n := RecentCount(ts);
    assert s == s[..n] + s[n..];
    assert multiset(ts) == multiset(s[..n]) + multiset(s[n..]);
  }

  // ---- The "Add Transaction" form --------------------------------------

  /** The form's state: the text fields, the picked category name and the
      date, bound to the budget with identifier `budget`. */
  class TransactionForm {
    var amount: string
    var description: string
    var selectedCategory: string
    var date: Date
    const budget: Id

    /** A fresh form: empty fields and today's date (`now`, given). */
    constructor (budget: Id, now: Date)
      ensures this.budget == budget
      ensures amount == "" && description == "" && selectedCategory == "" && date == now
    {
      this.budget := budget;
      amount := "";
      description := "";
      selectedCategory := "";
      date := now;
    }

    /** The "Add" button. `parse` is the locale's `Double(String)`, `now`
        the clock's reading. An amount that does not parse, or no picked
        category, leaves everything as it was; otherwise the budget gains
        one transaction carrying the parsed amount, the picked date, the
        description (empty or not) and the category name, and the form is
        reset. */
    method Add(ctx: ModelContext, parse: string -> Option<real>, now: Date)
      requires ctx.Valid()
      modifies this, ctx
      ensures ctx.Valid() && ctx.stores == old(ctx.stores) && ctx.nextId == old(ctx.nextId)
      ensures parse(old(amount)).None? || old(selectedCategory) == "" ==>
                unchanged(this) && ctx.budgets == old(ctx.budgets)
      ensures parse(old(amount)).Some? && old(selectedCategory) != "" ==>
                && ctx.budgets == AddTransaction(old(ctx.budgets), budget,
                     Transaction(parse(old(amount)).value, old(date), old(description), old(selectedCategory)))
                && amount == "" && description == "" && selectedCategory == "" && date == now
    {
      var amt := parse(amount);
      if amt.None? || selectedCategory == "" {
        return;
      }
      var tx := Transaction(amt.value, date, description, selectedCategory);
      ctx.AppendTransaction(budget, tx);
      amount := "";
      description := "";
      selectedCategory := "";
      date := now;
    }
  }
}
