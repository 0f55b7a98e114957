/** The main screen: which budget is selected and which tab is shown, the
    budget list with tap-to-select, create and swipe-to-delete, and the
    rule for what sits above the tabs. */
module MainTab {
  import opened Basics
  import opened BadgeModel
  import opened BudgetModel
  import opened Persistence

  datatype Tab = Budgets | Transactions | Analytics | Settings | Achievements | EmergencyFund

  /** What is shown above the tab view. */
  datatype Header = NoHeader | NoBudgetsNotice | BudgetPicker

  /** The tabs that work on one selected budget show a budget picker, or a
      notice when there is no budget to pick; the budget list and the
      achievements tab show neither. */
  function HeaderFor(tab: Tab, budgets: seq<Budget>): (h: Header)
    ensures h == BudgetPicker <==> tab in {Transactions, Analytics, Settings, EmergencyFund} && budgets != []
    ensures h == NoBudgetsNotice <==> tab in {Transactions, Analytics, Settings, EmergencyFund} && budgets == []
    ensures tab == Budgets || tab == Achievements ==> h == NoHeader
  {
    if tab in {Transactions, Analytics, Settings, EmergencyFund} then
      if budgets == [] then NoBudgetsNotice else BudgetPicker
    else NoHeader
  }

  /** `selectedBudget`: the budget the selection names, or none when
      nothing is selected or the selection names no budget. */
  function SelectedBudget(budgets: seq<Budget>, sel: Option<Id>): (r: Option<Budget>)
    ensures r.Some? ==> r.value in budgets && sel == Some(r.value.id)
    ensures r.None? <==> sel.None? || forall b <- budgets :: b.id != sel.value
  {
    match sel
    case None => None
    case Some(id) => Find(budgets, id)
  }

  /** Selecting a budget by its identifier makes exactly that budget the
      selected one. */
  lemma SelectingPicksThatBudget(budgets: seq<Budget>, i: nat)
    requires UniqueKeys(budgets, BudgetId) && i < |budgets|
    ensures SelectedBudget(budgets, Some(budgets[i].id)) == Some(budgets[i])
  {
    LookupUnique(budgets, BudgetId, i);
  }

  /** The identifiers of the rows at `offsets` in the list as it was shown. */
  function IdsAt(shown: seq<Budget>, offsets: seq<nat>): (ids: set<Id>)
    requires forall k :: 0 <= k < |offsets| ==> offsets[k] < |shown|
    ensures forall k :: 0 <= k < |offsets| ==> shown[offsets[k]].id in ids
    ensures forall id :: id in ids ==> exists k :: 0 <= k < |offsets| && shown[offsets[k]].id == id
  {
    set k | 0 <= k < |offsets| :: shown[offsets[k]].id
  }

  lemma IdsAtSnoc(shown: seq<Budget>, offsets: seq<nat>, o: nat)
    requires forall k :: 0 <= k < |offsets| ==> offsets[k] < |shown|
    requires o < |shown|
    ensures IdsAt(shown, offsets + [o]) == IdsAt(shown, offsets) + {shown[o].id}
  {
    var l := offsets + [o];
    forall id | id in IdsAt(shown, l) ensures id in IdsAt(shown, offsets) + {shown[o].id} {
      var k :| 0 <= k < |l| && shown[l[k]].id == id;
      if k < |offsets| { assert l[k] == offsets[k]; }
    }
    forall k | 0 <= k < |offsets| ensures shown[offsets[k]].id in IdsAt(shown, l) {
      assert l[k] == offsets[k];
    }
    assert l[|offsets|] == o;
  }

  /** Deleting one more row extends the set of deleted identifiers by that
      row's budget. */
  lemma DeleteStep(shown: seq<Budget>, offsets: seq<nat>, k: nat)
    requires forall k :: 0 <= k < |offsets| ==> offsets[k] < |shown|
    requires k < |offsets|
    ensures DeleteBudgets(DeleteBudgets(shown, IdsAt(shown, offsets[..k])), {shown[offsets[k]].id})
         == DeleteBudgets(shown, IdsAt(shown, offsets[..k + 1]))
  {
    RemoveRemove(shown, BudgetId, IdsAt(shown, offsets[..k]), shown[offsets[k]].id);
    assert offsets[..k + 1] == offsets[..k] + [offsets[k]];
    IdsAtSnoc(shown, offsets[..k], offsets[k]);
  }

  /** With unique identifiers, a row at none of the swiped offsets
      survives the deletion. */
  lemma UnswipedRowsSurvive(shown: seq<Budget>, offsets: seq<nat>, i: nat)
    requires forall k :: 0 <= k < |offsets| ==> offsets[k] < |shown|
    requires UniqueKeys(shown, BudgetId) && i < |shown|
    requires forall k :: 0 <= k < |offsets| ==> offsets[k] != i
    ensures shown[i] in DeleteBudgets(shown, IdsAt(shown, offsets))
  {
    assert shown[i].id !in IdsAt(shown, offsets);
  }

  /** The swipe-to-delete rule for the selection: it is cleared only when
      the first deleted row (the lowest offset) held the selected budget. */
  predicate ClearsSelection(shown: seq<Budget>, offsets: seq<nat>, sel: Option<Id>): (clears: bool)
    requires forall k :: 0 <= k < |offsets| ==> offsets[k] < |shown|
    ensures clears ==> SelectedBudget(shown, sel).Some? && sel.value in IdsAt(shown, offsets)
    ensures offsets == [] || sel.None? ==> !clears
  {
    offsets != [] && sel == Some(shown[offsets[0]].id)
  }

  /** Deleting several rows at once when the selected budget is one of them
      but not the first leaves the selection in place, naming a budget
      that no longer exists; the default-selection rule does not repair
      it, as the selection is not empty. */
  lemma DeletingLeavesStaleSelection(a: Budget, b: Budget, c: Budget)
    requires a.id == 0 && b.id == 1 && c.id == 2
    ensures var shown := [a, b, c];
      && !ClearsSelection(shown, [0, 1], Some(1))
      && DeleteBudgets(shown, IdsAt(shown, [0, 1])) == [c]
      && SelectedBudget([c], Some(1)) == None
  {
    var shown := [a, b, c];
    assert IdsAt(shown, [0, 1]) == {0, 1} by {
      assert shown[[0, 1][0]].id == 0 && shown[[0, 1][1]].id == 1;
    }
    var gone := {0, 1};
    assert shown[1..] == [b, c] && [b, c][1..] == [c] && [c][1..] == [];
    assert Remove([c], BudgetId, gone) == [c] + Remove([], BudgetId, gone);
    assert Remove([b, c], BudgetId, gone) == Remove([c], BudgetId, gone);
    assert Remove(shown, BudgetId, gone) == Remove([b, c], BudgetId, gone);
  }

  /** The main screen's view state. */
  class MainTab {
    var selectedBudgetID: Option<Id>
    var selectedTab: Tab

    constructor ()
      ensures selectedBudgetID == None && selectedTab == Budgets
    {
      selectedBudgetID := None;
      selectedTab := Budgets;
    }

    /** onAppear and onChange(of: budgets): an empty selection takes the
        first budget (or stays empty with no budgets); a selection that is
        set is never overwritten, even when it names no budget. */
    method DefaultSelection(budgets: seq<Budget>)
      modifies this
      ensures old(selectedBudgetID).Some? ==> selectedBudgetID == old(selectedBudgetID)
      ensures old(selectedBudgetID).None? && budgets == [] ==> selectedBudgetID == None
      ensures old(selectedBudgetID).None? && budgets != [] ==> selectedBudgetID == Some(budgets[0].id)
      ensures selectedTab == old(selectedTab)
    {
      if selectedBudgetID == None {
        selectedBudgetID := if budgets == [] then None else Some(budgets[0].id);
      }
    }

    /** Tapping a row selects its budget and switches to the transactions tab. */
    method Tap(b: Budget)
      modifies this
      ensures selectedBudgetID == Some(b.id) && selectedTab == Transactions
    {
      selectedBudgetID := Some(b.id);
      selectedTab := Transactions;
    }

    /** The add button: a budget named "New Budget" with limit 500 from
        `now` to `monthLater` (the calendar's one-month step, given), owning
        the six starter badges, is inserted and selected, and the
        transactions tab is shown. */
    method CreateBudget(ctx: ModelContext, now: Date, monthLater: Date)
      requires ctx.Valid()
      modifies this, ctx
      ensures ctx.Valid() && ctx.stores == old(ctx.stores)
      ensures |ctx.budgets| == |old(ctx.budgets)| + 1 && ctx.budgets[..|old(ctx.budgets)|] == old(ctx.budgets)
      ensures ctx.budgets[|old(ctx.budgets)|]
           == NewBudget(old(ctx.nextId), "New Budget", 500.0, now, monthLater).(badges := StarterBadges())
      ensures SelectedBudget(ctx.budgets, selectedBudgetID) == Some(ctx.budgets[|old(ctx.budgets)|])
      ensures selectedTab == Transactions
    {
      var id := ctx.FreshId();
      var budget := NewBudget(id, "New Budget", 500.0, now, monthLater);
      budget := budget.(badges := budget.badges + StarterBadges());
      ctx.InsertBudget(budget);
      selectedBudgetID := Some(id);
      selectedTab := Transactions;
      SelectingPicksThatBudget(ctx.budgets, |ctx.budgets| - 1);
    }

    /** Swipe-to-delete of the rows at `offsets` (an index set: ascending,
        no repeats) of the list as shown: each budget is deleted with what
        it owns, then the selection rule of ClearsSelection applies. */
    method OnDelete(ctx: ModelContext, offsets: seq<nat>)
      requires ctx.Valid()
      requires forall k :: 0 <= k < |offsets| ==> offsets[k] < |ctx.budgets|
      requires forall k, l :: 0 <= k < l < |offsets| ==> offsets[k] < offsets[l]
      modifies this, ctx
      ensures ctx.Valid() && ctx.stores == old(ctx.stores)
      ensures ctx.budgets == DeleteBudgets(old(ctx.budgets), IdsAt(old(ctx.budgets), offsets))
      ensures ClearsSelection(old(ctx.budgets), offsets, old(selectedBudgetID)) ==>
                selectedBudgetID == None && selectedTab == Budgets
      ensures !ClearsSelection(old(ctx.budgets), offsets, old(selectedBudgetID)) ==>
                selectedBudgetID == old(selectedBudgetID) && selectedTab == old(selectedTab)
    {
      var shown := ctx.budgets;
      DeleteRows(ctx, offsets);
      if offsets != [] && selectedBudgetID == Some(shown[offsets[0]].id) {
        selectedBudgetID := None;
        selectedTab := Budgets;
      }
    }
  }

  /** The loop of swipe-to-delete: the budget of every row at `offsets` in
      the list as shown is deleted, with what it owns. */
  method DeleteRows(ctx: ModelContext, offsets: seq<nat>)
    requires ctx.Valid()
    requires forall k :: 0 <= k < |offsets| ==> offsets[k] < |ctx.budgets|
    modifies ctx
    ensures ctx.Valid() && ctx.stores == old(ctx.stores)
    ensures ctx.budgets == DeleteBudgets(old(ctx.budgets), IdsAt(old(ctx.budgets), offsets))
  {
    var shown := ctx.budgets;
    RemoveAbsent(shown, BudgetId, {});
    assert IdsAt(shown, offsets[..0]) == {};
    var k := 0;
    while k < |offsets|
      invariant 0 <= k <= |offsets|
      invariant ctx.Valid() && ctx.stores == old(ctx.stores)
      invariant ctx.budgets == DeleteBudgets(shown, IdsAt(shown, offsets[..k]))
    {
      ctx.Delete(shown[offsets[k]].id);
      DeleteStep(shown, offsets, k);
      k := k + 1;
    }
    assert offsets[..k] == offsets;
  }
}
