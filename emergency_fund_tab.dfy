/** The emergency-fund tab: a goal and a saved amount kept on the global
    store, edited through two fields, and a progress bar. */
module EmergencyFundTab {
  import opened Basics
  import opened BadgeModel
  import opened AchievementsModel
  import opened Persistence
  import AchievementsTab

  /** What onAppear leaves in the table of stores when the view has no
      store yet: the table as it is when it has a store, otherwise one
      bare new store (under the unused identifier `newId`) owning no
      badges. */
  function EmergencyOpen(ss: seq<AchievementsStore>, newId: Id): (r: seq<AchievementsStore>)
    ensures ss != [] ==> r == ss
    ensures ss == [] ==> r == [NewStore(newId)] && r[0].badges == []
  {
    if ss != [] then ss else [NewStore(newId)]
  }

  /** The goal field's value: the store's goal, or 0 without a store. */
  function Goal(s: Option<AchievementsStore>): (goal: real)
    ensures s.None? ==> goal == 0.0
    ensures s.Some? ==> goal == s.value.emergencyFundGoal
  {
    if s.Some? then s.value.emergencyFundGoal else 0.0
  }

  /** The saved field's value, and the bar's value: the store's saved
      amount, or 0 without a store. */
  function Progress(s: Option<AchievementsStore>): (saved: real)
    ensures s.None? ==> saved == 0.0
    ensures s.Some? ==> saved == s.value.emergencyFundProgress
  {
    if s.Some? then s.value.emergencyFundProgress else 0.0
  }

  /** The bar's total, `max(goal ?? 1, 1)`: never below 1, so never zero,
      and 1 without a store. It agrees with the goal field's value kept
      to at least 1. */
  function BarTotal(s: Option<AchievementsStore>): (total: real)
    ensures total >= 1.0
    ensures total == Max(Goal(s), 1.0)
    ensures s.None? ==> total == 1.0
    ensures s.Some? && s.value.emergencyFundGoal >= 1.0 ==> total == s.value.emergencyFundGoal
  {
    Max(if s.Some? then s.value.emergencyFundGoal else 1.0, 1.0)
  }

  /** The bar's value is not clamped to its total: 150 saved of a goal of
      100 gives a value above the total. */
  lemma BarValueNotClamped(s: AchievementsStore)
    requires s.emergencyFundGoal == 100.0 && s.emergencyFundProgress == 150.0
    ensures Progress(Some(s)) > BarTotal(Some(s))
  {
  }

  /** Which tab is opened first on an empty store file decides the badges
      of the one store: the emergency-fund tab first leaves a store with
      no badges, which the achievements tab then adopts as it is; the
      achievements tab first leaves the six starter badges. */
  lemma OpeningOrderDecidesBadges(n: Id, m: Id)
    ensures AchievementsTab.AchievementsOpen(EmergencyOpen([], n), m) == [NewStore(n)]
    ensures AchievementsTab.AchievementsOpen(EmergencyOpen([], n), m)[0].badges == []
    ensures EmergencyOpen(AchievementsTab.AchievementsOpen([], n), m)[0].badges == StarterBadges()
  {
  }

  /** The view's state: the store it edits, once it has one. */
  class EmergencyFundTab {
    var store: Option<Id>

    constructor ()
      ensures store == None
    {
      store := None;
    }

    /** The store the view shows, looked up in the context. */
    function Shown(ctx: ModelContext): (shown: Option<AchievementsStore>)
      reads this, ctx
      ensures shown.Some? ==> store.Some? && shown.value in ctx.stores && shown.value.id == store.value
    {
      if store.None? then None else FindStore(ctx.stores, store.value)
    }

    /** onAppear: a view that has a store keeps it and changes nothing;
        otherwise it adopts the first store, or inserts a bare new one and
        adopts that. */
    method OnAppear(ctx: ModelContext)
      requires ctx.Valid()
      modifies this, ctx
      ensures ctx.Valid() && ctx.budgets == old(ctx.budgets)
      ensures old(store).Some? ==>
                store == old(store) && ctx.stores == old(ctx.stores) && ctx.nextId == old(ctx.nextId)
      ensures old(store).None? ==>
                && ctx.stores == EmergencyOpen(old(ctx.stores), old(ctx.nextId))
                && Shown(ctx) == Some(ctx.stores[0])
      ensures old(store).None? && old(ctx.stores) != [] ==> ctx.nextId == old(ctx.nextId)
    {
      if store.None? {
        if ctx.stores != [] {
          store := Some(ctx.stores[0].id);
        } else {
          var id := ctx.FreshId();
          ctx.InsertStore(NewStore(id));
          store := Some(id);
        }
        LookupUnique(ctx.stores, StoreId, 0);
      }
    }

    /** The goal field's setter: with a store, its goal becomes `v` and
        nothing else changes; without one, nothing changes. */
    method SetGoal(ctx: ModelContext, v: real)
      requires ctx.Valid()
      modifies ctx
      ensures ctx.Valid() && ctx.budgets == old(ctx.budgets) && ctx.nextId == old(ctx.nextId)
      ensures store.None? ==> ctx.stores == old(ctx.stores)
      ensures store.Some? ==> ctx.stores == SetFundGoal(old(ctx.stores), store.value, v)
      ensures old(Shown(ctx)).None? ==> Shown(ctx) == None
      ensures old(Shown(ctx)).Some? ==> Shown(ctx) == Some(old(Shown(ctx)).value.(emergencyFundGoal := v))
      ensures old(Shown(ctx)).Some? ==> Goal(Shown(ctx)) == v && Progress(Shown(ctx)) == Progress(old(Shown(ctx)))
    {
      if store.Some? {
        ctx.WriteFundGoal(store.value, v);
      }
    }

    /** The saved field's setter, symmetric to SetGoal. */
    method SetProgress(ctx: ModelContext, v: real)
      requires ctx.Valid()
      modifies ctx
      ensures ctx.Valid() && ctx.budgets == old(ctx.budgets) && ctx.nextId == old(ctx.nextId)
      ensures store.None? ==> ctx.stores == old(ctx.stores)
      ensures store.Some? ==> ctx.stores == SetFundProgress(old(ctx.stores), store.value, v)
      ensures old(Shown(ctx)).None? ==> Shown(ctx) == None
      ensures old(Shown(ctx)).Some? ==> Shown(ctx) == Some(old(Shown(ctx)).value.(emergencyFundProgress := v))
      ensures old(Shown(ctx)).Some? ==> Progress(Shown(ctx)) == v && Goal(Shown(ctx)) == Goal(old(Shown(ctx)))
    {
      if store.Some? {
        ctx.WriteFundProgress(store.value, v);
      }
    }
  }
}
