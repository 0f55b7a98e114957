/** The persistence context (the app's SwiftData model context) for its two
    top-level record kinds. Budgets and achievements stores each live in a
    table kept in fetch order, which the model takes to be insertion order.
    Transactions, categories and badges live inside the record that owns
    them: each is reachable only through its owner and goes when the owner
    goes, which is what the cascade delete rule asks of them. */
module Persistence {
  import opened Basics
  import opened Records
  import opened BadgeModel
  import opened BudgetModel
  import opened AchievementsModel

  // ---- Tables of records with identifiers ----------------------------

  /** No identifier occurs twice: the `.unique` attribute on `id`. */
  predicate UniqueKeys<T>(xs: seq<T>, key: T -> Id) {
    forall i, j :: 0 <= i < j < |xs| ==> key(xs[i]) != key(xs[j])
  }

  /** The first record whose identifier is `id` (Swift's `first(where:)`). */
  function Lookup<T>(xs: seq<T>, key: T -> Id, id: Id): (r: Option<T>)
    ensures r.None? <==> forall i :: 0 <= i < |xs| ==> key(xs[i]) != id
    ensures r.Some? ==> r.value in xs && key(r.value) == id
  {
    if xs == [] then None
    else if key(xs[0]) == id then Some(xs[0])
    else Lookup(xs[1..], key, id)
  }

  /** With unique identifiers, the record found under `id` is the one
      record that carries it. */
  lemma {:induction false} LookupUnique<T>(xs: seq<T>, key: T -> Id, i: nat)
    requires UniqueKeys(xs, key) && i < |xs|
    ensures Lookup(xs, key, key(xs[i])) == Some(xs[i])
  {
    if i > 0 {
      assert UniqueKeys(xs[1..], key) by {
        forall m, n | 0 <= m < n < |xs| - 1 ensures key(xs[1..][m]) != key(xs[1..][n]) {
          assert xs[1..][m] == xs[m + 1] && xs[1..][n] == xs[n + 1];
        }
      }
      LookupUnique(xs[1..], key, i - 1);
      assert xs[1..][i - 1] == xs[i];
    }
  }

  /** The table with `f` applied to the records whose identifier is `id`. */
  function Update<T>(xs: seq<T>, key: T -> Id, id: Id, f: T -> T): (r: seq<T>)
    ensures |r| == |xs|
    ensures forall i :: 0 <= i < |xs| ==> r[i] == if key(xs[i]) == id then f(xs[i]) else xs[i]
  {
    seq(|xs|, i requires 0 <= i < |xs| => if key(xs[i]) == id then f(xs[i]) else xs[i])
  }

  /** An update that keeps identifiers changes the record found under
      `id` by `f` and leaves every other lookup alone. */
  lemma {:induction false} UpdateLookup<T>(xs: seq<T>, key: T -> Id, id: Id, f: T -> T, o: Id)
    requires forall x :: key(f(x)) == key(x)
    ensures Lookup(Update(xs, key, id, f), key, o) ==
      match Lookup(xs, key, o)
      case None => None
      case Some(x) => if o == id then Some(f(x)) else Some(x)
  {
    if xs != [] {
      UpdateLookup(xs[1..], key, id, f, o);
      assert Update(xs, key, id, f)[1..] == Update(xs[1..], key, id, f);
    }
  }

  /** The table without the records whose identifier is in `gone`, in order. */
  function Remove<T(!new)>(xs: seq<T>, key: T -> Id, gone: set<Id>): (r: seq<T>)
    ensures |r| <= |xs|
    ensures forall x :: x in r <==> x in xs && key(x) !in gone
  {
    if xs == [] then []
    else if key(xs[0]) in gone then Remove(xs[1..], key, gone)
    else [xs[0]] + Remove(xs[1..], key, gone)
  }

  /** Removal keeps identifiers unique. */
  lemma {:induction false} RemoveUnique<T(!new)>(xs: seq<T>, key: T -> Id, gone: set<Id>)
    requires UniqueKeys(xs, key)
    ensures UniqueKeys(Remove(xs, key, gone), key)
  {
    if xs != [] {
      assert UniqueKeys(xs[1..], key) by {
        forall m, n | 0 <= m < n < |xs| - 1 ensures key(xs[1..][m]) != key(xs[1..][n]) {
          assert xs[1..][m] == xs[m + 1] && xs[1..][n] == xs[n + 1];
        }
      }
      RemoveUnique(xs[1..], key, gone);
      var rest := Remove(xs[1..], key, gone);
      if key(xs[0]) !in gone {
        var r := [xs[0]] + rest;
        forall i, j | 0 <= i < j < |r| ensures key(r[i]) != key(r[j]) {
          assert r[j] == rest[j - 1];
          if i == 0 {
            assert rest[j - 1] in rest;
            var m :| 0 <= m < |xs| - 1 && xs[1..][m] == r[j];
            assert xs[m + 1] == r[j];
          } else {
            assert r[i] == rest[i - 1];
          }
        }
      }
    }
  }

  /** Removing identifiers that do not occur changes nothing. */
  lemma {:induction false} RemoveAbsent<T(!new)>(xs: seq<T>, key: T -> Id, gone: set<Id>)
    requires forall i :: 0 <= i < |xs| ==> key(xs[i]) !in gone
    ensures Remove(xs, key, gone) == xs
  {
    if xs != [] {
      RemoveAbsent(xs[1..], key, gone);
      assert [xs[0]] + xs[1..] == xs;
    }
  }

  /** Removal keeps what it keeps in order: it distributes over
      concatenation, so it is the order-preserving filter. */
  lemma {:induction false} RemoveAppend<T(!new)>(xs: seq<T>, ys: seq<T>, key: T -> Id, gone: set<Id>)
    ensures Remove(xs + ys, key, gone) == Remove(xs, key, gone) + Remove(ys, key, gone)
  {
    if xs == [] {
      assert xs + ys == ys;
    } else {
      assert (xs + ys)[0] == xs[0] && (xs + ys)[1..] == xs[1..] + ys;
      RemoveAppend(xs[1..], ys, key, gone);
      if key(xs[0]) !in gone {
        assert [xs[0]] + (Remove(xs[1..], key, gone) + Remove(ys, key, gone))
            == ([xs[0]] + Remove(xs[1..], key, gone)) + Remove(ys, key, gone);
      }
    }
  }

  /** Removing every identifier that occurs leaves nothing. */
  lemma {:induction false} RemoveAll<T(!new)>(xs: seq<T>, key: T -> Id, gone: set<Id>)
    requires forall i :: 0 <= i < |xs| ==> key(xs[i]) in gone
    ensures Remove(xs, key, gone) == []
  {
    if xs != [] {
      RemoveAll(xs[1..], key, gone);
    }
  }

  /** Removing a set and then one more identifier is removing both at once. */
  lemma {:induction false} RemoveRemove<T(!new)>(xs: seq<T>, key: T -> Id, gone: set<Id>, id: Id)
    ensures Remove(Remove(xs, key, gone), key, {id}) == Remove(xs, key, gone + {id})
  {
    if xs != [] {
      RemoveRemove(xs[1..], key, gone, id);
      if key(xs[0]) !in gone {
        var r := Remove(xs, key, gone);
        assert r == [xs[0]] + Remove(xs[1..], key, gone);
        assert r[0] == xs[0] && r[1..] == Remove(xs[1..], key, gone);
      }
    }
  }

  /** Removing identifiers other than `o` keeps what is found under `o`. */
  lemma {:induction false} RemoveLookup<T(!new)>(xs: seq<T>, key: T -> Id, gone: set<Id>, o: Id)
    requires o !in gone
    ensures Lookup(Remove(xs, key, gone), key, o) == Lookup(xs, key, o)
  {
    if xs != [] {
      RemoveLookup(xs[1..], key, gone, o);
      if key(xs[0]) !in gone {
        var r := Remove(xs, key, gone);
        assert r == [xs[0]] + Remove(xs[1..], key, gone);
        assert r[0] == xs[0] && r[1..] == Remove(xs[1..], key, gone);
      }
    }
  }

  // ---- Budgets ---------------------------------------------------------

  function BudgetId(b: Budget): (id: Id) { b.id }

  function StoreId(s: AchievementsStore): (id: Id) { s.id }

  /** The budget with identifier `id`, if the table holds one. */
  function Find(bs: seq<Budget>, id: Id): (r: Option<Budget>)
    ensures r.None? <==> forall b <- bs :: b.id != id
    ensures r.Some? ==> r.value in bs && r.value.id == id
  {
    Lookup(bs, BudgetId, id)
  }

  /** `budget.transactions.append(tx)` on the budget with identifier `id`:
      that budget gains `tx` at the end of its transactions; nothing else
      changes, and an absent identifier changes nothing at all. */
  function AddTransaction(bs: seq<Budget>, id: Id, tx: Transaction): (r: seq<Budget>)
    ensures |r| == |bs| && forall i :: 0 <= i < |bs| ==> r[i].id == bs[i].id
    ensures Find(r, id) ==
      match Find(bs, id)
      case None => None
      case Some(b) => Some(b.(transactions := b.transactions + [tx]))
    ensures forall o :: o != id ==> Find(r, o) == Find(bs, o)
    ensures Find(bs, id).None? ==> r == bs
  {
    var f := (b: Budget) => b.(transactions := b.transactions + [tx]);
    var r := Update(bs, BudgetId, id, f);
    UpdateLookup(bs, BudgetId, id, f, id);
    forall o | o != id ensures Find(r, o) == Find(bs, o) {
      UpdateLookup(bs, BudgetId, id, f, o);
    }
    r
  }

  /** `budget.categories.append(cat)` on the budget with identifier `id`. */
  function AddCategory(bs: seq<Budget>, id: Id, cat: BudgetCategory): (r: seq<Budget>)
    ensures |r| == |bs| && forall i :: 0 <= i < |bs| ==> r[i].id == bs[i].id
    ensures Find(r, id) ==
      match Find(bs, id)
      case None => None
      case Some(b) => Some(b.(categories := b.categories + [cat]))
    ensures forall o :: o != id ==> Find(r, o) == Find(bs, o)
    ensures Find(bs, id).None? ==> r == bs
  {
    var f := (b: Budget) => b.(categories := b.categories + [cat]);
    var r := Update(bs, BudgetId, id, f);
    UpdateLookup(bs, BudgetId, id, f, id);
    forall o | o != id ensures Find(r, o) == Find(bs, o) {
      UpdateLookup(bs, BudgetId, id, f, o);
    }
    r
  }

  /** `modelContext.delete` on every budget whose identifier is in `gone`. */
  function DeleteBudgets(bs: seq<Budget>, gone: set<Id>): (r: seq<Budget>)
    ensures forall b :: b in r <==> b in bs && b.id !in gone
    ensures forall o :: o !in gone ==> Find(r, o) == Find(bs, o)
  {
    var r := Remove(bs, BudgetId, gone);
    forall o | o !in gone ensures Find(r, o) == Find(bs, o) {
      RemoveLookup(bs, BudgetId, gone, o);
    }
    r
  }

  /** The budgets left after a delete keep their order: the first of them
      is the first budget of the old table that was not deleted. */
  lemma FirstSurvivor(bs: seq<Budget>, gone: set<Id>, i: nat)
    requires i < |bs| && bs[i].id !in gone
    requires forall j :: 0 <= j < i ==> bs[j].id in gone
    ensures DeleteBudgets(bs, gone) != [] && DeleteBudgets(bs, gone)[0] == bs[i]
  {
    var before, after := bs[..i], bs[i..];
    assert bs == before + after;
    RemoveAppend(before, after, BudgetId, gone);
    RemoveAll(before, BudgetId, gone);
    assert after == [bs[i]] + after[1..];
  }

  /** All records of one kind owned by budgets in the table, as the
      global table of that kind sees them. */
  function Owned<T>(bs: seq<Budget>, children: Budget -> seq<T>): (owned: seq<T>)
  {
    if bs == [] then [] else children(bs[0]) + Owned(bs[1..], children)
  }

  /** Deleting a budget deletes exactly the records it owns: the global
      table of transactions (or categories, or badges) loses that budget's
      records and no others. */
  lemma {:induction false} CascadeDelete<T>(bs: seq<Budget>, id: Id, children: Budget -> seq<T>)
    requires UniqueKeys(bs, BudgetId) && Find(bs, id).Some?
    ensures multiset(Owned(DeleteBudgets(bs, {id}), children)) + multiset(children(Find(bs, id).value))
         == multiset(Owned(bs, children))
  {
    assert UniqueKeys(bs[1..], BudgetId) by {
      forall m, n | 0 <= m < n < |bs| - 1 ensures bs[1..][m].id != bs[1..][n].id {
        assert bs[1..][m] == bs[m + 1] && bs[1..][n] == bs[n + 1];
      }
    }
    if bs[0].id == id {
      assert forall i :: 0 <= i < |bs| - 1 ==> bs[1..][i] == bs[i + 1];
      RemoveAbsent(bs[1..], BudgetId, {id});
    } else {
      CascadeDelete(bs[1..], id, children);
      assert Remove(bs, BudgetId, {id}) == [bs[0]] + Remove(bs[1..], BudgetId, {id});
      assert Owned([bs[0]] + Remove(bs[1..], BudgetId, {id}), children)
          == children(bs[0]) + Owned(Remove(bs[1..], BudgetId, {id}), children);
    }
  }

  // ---- Achievements stores ---------------------------------------------

  /** The store with identifier `id`, if the table holds one. */
  function FindStore(ss: seq<AchievementsStore>, id: Id): (r: Option<AchievementsStore>)
    ensures r.None? <==> forall s <- ss :: s.id != id
    ensures r.Some? ==> r.value in ss && r.value.id == id
  {
    Lookup(ss, StoreId, id)
  }

  /** Writing `store.emergencyFundGoal`: reading it back gives `v`, the
      saved amount and the badges are untouched, and no other store
      changes. */
  function SetFundGoal(ss: seq<AchievementsStore>, id: Id, v: real): (r: seq<AchievementsStore>)
    ensures |r| == |ss| && forall i :: 0 <= i < |ss| ==> r[i].id == ss[i].id
    ensures FindStore(r, id) ==
      match FindStore(ss, id)
      case None => None
      case Some(s) => Some(s.(emergencyFundGoal := v))
    ensures forall o :: o != id ==> FindStore(r, o) == FindStore(ss, o)
  {
    var f := (s: AchievementsStore) => s.(emergencyFundGoal := v);
    var r := Update(ss, StoreId, id, f);
    UpdateLookup(ss, StoreId, id, f, id);
    forall o | o != id ensures FindStore(r, o) == FindStore(ss, o) {
      UpdateLookup(ss, StoreId, id, f, o);
    }
    r
  }

  /** Writing `store.emergencyFundProgress`, symmetric to SetFundGoal. */
  function SetFundProgress(ss: seq<AchievementsStore>, id: Id, v: real): (r: seq<AchievementsStore>)
    ensures |r| == |ss| && forall i :: 0 <= i < |ss| ==> r[i].id == ss[i].id
    ensures FindStore(r, id) ==
      match FindStore(ss, id)
      case None => None
      case Some(s) => Some(s.(emergencyFundProgress := v))
    ensures forall o :: o != id ==> FindStore(r, o) == FindStore(ss, o)
  {
    var f := (s: AchievementsStore) => s.(emergencyFundProgress := v);
    var r := Update(ss, StoreId, id, f);
    UpdateLookup(ss, StoreId, id, f, id);
    forall o | o != id ensures FindStore(r, o) == FindStore(ss, o) {
      UpdateLookup(ss, StoreId, id, f, o);
    }
    r
  }

  // ---- The context -------------------------------------------------------

  /** The mutable model context shared by every view. Identifiers are
      drawn from a counter (standing for `UUID()`), so each is fresh. */
  class ModelContext {
    var budgets: seq<Budget>
    var stores: seq<AchievementsStore>
    var nextId: Id

    ghost predicate Valid()
      reads this
    {
      && UniqueKeys(budgets, BudgetId) && UniqueKeys(stores, StoreId)
      && (forall b <- budgets :: b.id < nextId)
      && (forall s <- stores :: s.id < nextId)
    }

    /** A context over an empty store file. */
    constructor ()
      ensures Valid() && budgets == [] && stores == []
    {
      budgets := [];
      stores := [];
      nextId := 0;
    }

    /** A new record identifier, used by no budget and no store. */
    method FreshId() returns (id: Id)
      requires Valid()
      modifies this
      ensures Valid() && budgets == old(budgets) && stores == old(stores)
      ensures id == old(nextId) && nextId == id + 1
      ensures forall b <- budgets :: b.id != id
      ensures forall s <- stores :: s.id != id
    {
      id := nextId;
      nextId := nextId + 1;
    }

    /** `modelContext.insert(budget)` of a budget with a fresh identifier. */
    method InsertBudget(b: Budget)
      requires Valid() && b.id < nextId && forall x <- budgets :: x.id != b.id
      modifies this
      ensures Valid()
      ensures budgets == old(budgets) + [b] && stores == old(stores) && nextId == old(nextId)
    {
      budgets := budgets + [b];
      assert forall i :: 0 <= i < |old(budgets)| ==> old(budgets)[i] in old(budgets);
    }

    /** `modelContext.insert(store)` of a store with a fresh identifier. */
    method InsertStore(s: AchievementsStore)
      requires Valid() && s.id < nextId && forall x <- stores :: x.id != s.id
      modifies this
      ensures Valid()
      ensures stores == old(stores) + [s] && budgets == old(budgets) && nextId == old(nextId)
    {
      stores := stores + [s];
      assert forall i :: 0 <= i < |old(stores)| ==> old(stores)[i] in old(stores);
    }

    method AppendTransaction(budget: Id, tx: Transaction)
      requires Valid()
      modifies this
      ensures Valid()
      ensures budgets == AddTransaction(old(budgets), budget, tx)
      ensures stores == old(stores) && nextId == old(nextId)
    {
      budgets := AddTransaction(budgets, budget, tx);
    }

    method AppendCategory(budget: Id, cat: BudgetCategory)
      requires Valid()
      modifies this
      ensures Valid()
      ensures budgets == AddCategory(old(budgets), budget, cat)
      ensures stores == old(stores) && nextId == old(nextId)
    {
      budgets := AddCategory(budgets, budget, cat);
    }

    method WriteFundGoal(store: Id, v: real)
      requires Valid()
      modifies this
      ensures Valid()
      ensures stores == SetFundGoal(old(stores), store, v)
      ensures budgets == old(budgets) && nextId == old(nextId)
    {
      stores := SetFundGoal(stores, store, v);
    }

    method WriteFundProgress(store: Id, v: real)
      requires Valid()
      modifies this
      ensures Valid()
      ensures stores == SetFundProgress(old(stores), store, v)
      ensures budgets == old(budgets) && nextId == old(nextId)
    {
      stores := SetFundProgress(stores, store, v);
    }

    /** `modelContext.delete(budget)`, cascading to what the budget owns. */
    method Delete(budget: Id)
      requires Valid()
      modifies this
      ensures Valid()
      ensures budgets == DeleteBudgets(old(budgets), {budget})
      ensures stores == old(stores) && nextId == old(nextId)
    {
      RemoveUnique(budgets, BudgetId, {budget});
      budgets := DeleteBudgets(budgets, {budget});
    }
  }
}
