/** The global achievements record: XP, an emergency fund, and global
    badges it owns with the cascade delete rule (stored inside the
    record). One instance is expected, by convention only. */
module AchievementsModel {
  import opened Basics
  import opened BadgeModel
  import BudgetModel

  datatype AchievementsStore = AchievementsStore(
    id: Id,
    xp: int,
    emergencyFundGoal: real,
    emergencyFundProgress: real,
    badges: seq<Badge>)
  {
    /** The global level follows the same rule as a budget's level. */
    function Level(): (level: int)
      ensures xp >= 0 ==> level >= 1
      ensures level == BudgetModel.LevelFor(xp)
    {
      BudgetModel.LevelFor(xp)
    }
  }

  /** A store as its (empty) initialiser leaves it under the fresh
      identifier `id`: no XP, an empty emergency fund, and no badges; it
      seeds nothing itself. */
  function NewStore(id: Id): (s: AchievementsStore)
    ensures s.id == id
    ensures s.xp == 0 && s.Level() == 1
    ensures s.emergencyFundGoal == 0.0 && s.emergencyFundProgress == 0.0
    ensures s.badges == []
  {
    AchievementsStore(id, 0, 0.0, 0.0, [])
  }
}
