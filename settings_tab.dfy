/** The settings tab of one budget: its categories and a form that adds a
    category. */
module SettingsTab {
  import opened Basics
  import opened Records
  import opened BudgetModel
  import opened Persistence

  /** The add-category form's state, bound to the budget with identifier
      `budget`. */
  class CategoryForm {
    var newCategoryName: string
    var newCategoryAmount: string
    const budget: Id

    constructor (budget: Id)
      ensures this.budget == budget && newCategoryName == "" && newCategoryAmount == ""
    {
      this.budget := budget;
      newCategoryName := "";
      newCategoryAmount := "";
    }

    /** The plus button. `parse` is the locale's `Double(String)`. An
        amount that does not parse, or an empty name, leaves everything as
        it was, the typed text included; otherwise one category with the
        typed name and the parsed amount (of any sign, and whether or not
        the name is already taken) is appended to the budget's categories
        and both fields are cleared. */
    method AddCategory(ctx: ModelContext, parse: string -> Option<real>)
      requires ctx.Valid()
      modifies this, ctx
      ensures ctx.Valid() && ctx.stores == old(ctx.stores) && ctx.nextId == old(ctx.nextId)
      ensures parse(old(newCategoryAmount)).None? || old(newCategoryName) == "" ==>
                unchanged(this) && ctx.budgets == old(ctx.budgets)
      ensures parse(old(newCategoryAmount)).Some? && old(newCategoryName) != "" ==>
                && ctx.budgets == Persistence.AddCategory(old(ctx.budgets), budget,
                     BudgetCategory(old(newCategoryName), parse(old(newCategoryAmount)).value))
                && newCategoryName == "" && newCategoryAmount == ""
    {
      var amt := parse(newCategoryAmount);
      if amt.None? || newCategoryName == "" {
        return;
      }
      var cat := BudgetCategory(newCategoryName, amt.value);
      ctx.AppendCategory(budget, cat);
      newCategoryName := "";
      newCategoryAmount := "";
    }
  }

  /** Adding a category touches nothing of the budget but its category
      list, which keeps its old entries in order and gains the new one at
      the end. */
  lemma AddCategoryKeepsTheRest(bs: seq<Budget>, id: Id, c: BudgetCategory)
    requires Find(bs, id).Some?
    ensures var before, after := Find(bs, id).value, Find(AddCategory(bs, id, c), id).value;
      && after.transactions == before.transactions && after.badges == before.badges
      && after.limit == before.limit && after.name == before.name
      && after.startDate == before.startDate && after.endDate == before.endDate
      && |after.categories| == |before.categories| + 1
      && after.categories[..|before.categories|] == before.categories
      && after.categories[|before.categories|] == c
  {
    var before := Find(bs, id).value;
    assert (before.categories + [c])[..|before.categories|] == before.categories;
  }

  /** There is no uniqueness check: adding a category twice leaves two
      entries of the same name. */
  lemma {:induction false} DuplicateNamesAccepted(bs: seq<Budget>, id: Id, c: BudgetCategory)
    requires Find(bs, id).Some?
    ensures var before, after := Find(bs, id).value, Find(AddCategory(AddCategory(bs, id, c), id, c), id).value;
      after.categories == before.categories + [c, c]
  {
    var before := Find(bs, id).value;
    var once := AddCategory(bs, id, c);
    assert Find(once, id) == Some(before.(categories := before.categories + [c]));
    assert before.categories + [c] + [c] == before.categories + [c, c];
  }
}
