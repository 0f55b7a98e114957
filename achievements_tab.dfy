/** The achievements tab: the global store (created with the starter
    badges on first use), the XP bar, and one row per badge. */
module AchievementsTab {
  import opened Basics
  import opened BadgeModel
  import opened BudgetModel
  import opened AchievementsModel
  import opened Persistence

  /** The icon at the end of a badge row. */
  datatype StatusIcon = Seal | Lock

  /** A seal for an achieved badge, a lock for any other. */
  function StatusIconFor(b: Badge): (icon: StatusIcon)
    ensures icon == Seal <==> b.achieved
    ensures icon == Lock <==> !b.achieved
  {
    if b.achieved then Seal else Lock
  }

  /** A row carries a progress bar only for a badge with a positive goal
      that is not yet achieved. */
  predicate ShowsProgressBar(b: Badge): (shown: bool)
    ensures shown ==> StatusIconFor(b) == Lock
    ensures b.goal <= 0.0 ==> !shown
  {
    b.goal > 0.0 && !b.achieved
  }

  /** The XP bar's value: the remainder of the XP by 500 with the app's
      truncating `%`. For non-negative XP it is the XP earned within the
      current level, so the bar never fills. */
  function XpBarValue(xp: int): (v: int)
    ensures xp >= 0 ==> 0 <= v < XpPerLevel
    ensures xp >= 0 ==> xp == XpPerLevel * (LevelFor(xp) - 1) + v
    ensures xp < 0 ==> -XpPerLevel < v <= 0
  {
    TruncRem(xp, XpPerLevel)
  }

  /** A brand-new set of starter badges shows six locked rows, and a progress
      bar on exactly the last two, the ones with goals. */
  lemma StarterRows()
    ensures forall b <- StarterBadges() :: StatusIconFor(b) == Lock
    ensures forall i :: 0 <= i < |StarterBadges()| ==> (ShowsProgressBar(StarterBadges()[i]) <==> i >= 4)
  {
    var bs := StarterBadges();
    forall i | 0 <= i < |bs| ensures ShowsProgressBar(bs[i]) <==> i >= 4 {
      assert bs[i] in bs;
      if i < 4 {
        assert bs[i].name != bs[4].name && bs[i].name != bs[5].name;
      }
    }
  }

  /** What the store getter leaves in the table of stores: the table as it
      is when it has a store, otherwise one new store (under the unused
      identifier `newId`) that owns the six starter badges. */
  function AchievementsOpen(ss: seq<AchievementsStore>, newId: Id): (r: seq<AchievementsStore>)
    ensures ss != [] ==> r == ss
    ensures ss == [] ==> |r| == 1 && r[0].id == newId && r[0].xp == 0
    ensures ss == [] ==> r[0].emergencyFundGoal == 0.0 && r[0].emergencyFundProgress == 0.0
    ensures ss == [] ==> r[0].badges == StarterBadges()
  {
    if ss != [] then ss else [NewStore(newId).(badges := StarterBadges())]
  }

  /** The `store` getter: the first store, or a new one seeded with the
      starter badges (each appended in turn) and inserted. */
  method Store(ctx: ModelContext) returns (store: AchievementsStore)
    requires ctx.Valid()
    modifies ctx
    ensures ctx.Valid() && ctx.budgets == old(ctx.budgets)
    ensures ctx.stores == AchievementsOpen(old(ctx.stores), old(ctx.nextId))
    ensures store == ctx.stores[0]
    ensures old(ctx.stores) != [] ==> ctx.nextId == old(ctx.nextId)
  {
    if ctx.stores != [] {
      return ctx.stores[0];
    }
    var id := ctx.FreshId();
    store := NewStore(id);
    var initial := StarterBadges();
    var k := 0;
    while k < |initial|
      invariant 0 <= k <= |initial|
      invariant store == NewStore(id).(badges := initial[..k])
    {
      assert initial[..k + 1] == initial[..k] + [initial[k]];
      store := store.(badges := store.badges + [initial[k]]);
      k := k + 1;
    }
    assert initial[..k] == initial;
    ctx.InsertStore(store);
  }
}
