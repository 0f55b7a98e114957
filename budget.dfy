/** A budget: a named limit over a date range. It owns its transactions,
    categories and badges with the cascade delete rule; the model stores
    them inside the budget record, so they are reachable only through it
    and go when it goes. */
module BudgetModel {
  import opened Basics
  import opened Records
  import opened BadgeModel

  const XpPerLevel: int := 500

  /** The level reached with `xp` points: one level per 500 points,
      starting at level 1, computed with truncating integer division. */
  function LevelFor(xp: int): (level: int)
    ensures xp >= 0 ==> level >= 1 && XpPerLevel * (level - 1) <= xp < XpPerLevel * level
    ensures xp < 0 ==> level <= 1 && XpPerLevel * (level - 2) < xp <= XpPerLevel * (level - 1)
  {
    TruncDiv(xp, XpPerLevel) + 1
  }

  datatype Budget = Budget(
    id: Id,
    name: string,
    limit: real,
    startDate: Date,
    endDate: Date,
    xp: int,
    emergencyFundGoal: real,
    emergencyFundProgress: real,
    transactions: seq<Transaction>,
    categories: seq<BudgetCategory>,
    badges: seq<Badge>)
  {
    /** The budget's level: at least 1 for non-negative XP. */
    function Level(): (level: int)
      ensures level == LevelFor(xp)
      ensures xp >= 0 ==> level >= 1
    {
      LevelFor(xp)
    }

    /** Streaks are not tracked: every budget reports a streak of 0. */
    function StreakCount(): (n: int)
      ensures n == 0
    {
      0
    }
  }

  /** A budget as its initialiser leaves it under the fresh identifier
      `id`: the four given fields stored unchecked (a negative limit or an
      end before the start is accepted), no XP, an empty emergency fund,
      and no owned records. */
  function NewBudget(id: Id, name: string, limit: real, startDate: Date, endDate: Date): (b: Budget)
    ensures b.id == id
    ensures b.name == name && b.limit == limit && b.startDate == startDate && b.endDate == endDate
    ensures b.xp == 0 && b.Level() == 1
    ensures b.emergencyFundGoal == 0.0 && b.emergencyFundProgress == 0.0
    ensures b.transactions == [] && b.categories == [] && b.badges == []
  {
    Budget(id, name, limit, startDate, endDate, 0, 0.0, 0.0, [], [], [])
  }

  /** More XP never means a lower level. */
  lemma LevelMonotone(x: int, y: int)
    requires x <= y
    ensures LevelFor(x) <= LevelFor(y)
  {
  }

  lemma LevelExamples()
    ensures LevelFor(0) == 1 && LevelFor(499) == 1 && LevelFor(500) == 2
  {
  }
}
