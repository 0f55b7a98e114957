/** Achievement badges: a badge is binary when its goal is 0 and
    progress-tracked when its goal is positive. */
module BadgeModel {
  import opened Basics

  datatype Badge = Badge(
    name: string,
    desc: string,
    iconName: string,
    achieved: bool,
    achievedDate: Option<Date>,
    progress: real,
    goal: real)
  {
    /** How far the badge is toward its goal, as a fraction capped at 1;
        a badge without a positive goal reports no progress at all. */
    function ProgressFraction(): (f: real)
      ensures f <= 1.0
      ensures progress >= 0.0 ==> f >= 0.0
      ensures goal <= 0.0 ==> f == 0.0
      ensures goal > 0.0 && progress >= goal ==> f == 1.0
      ensures goal > 0.0 && progress < goal ==> f * goal == progress
    {
      if goal > 0.0 then
        QuotientBounds(progress, goal);
        Min(progress / goal, 1.0)
      else 0.0
    }
  }

  /** Dividing by a positive goal: the quotient times the goal gives back
      the dividend, and it reaches 1 exactly when the dividend reaches the
      goal. */
  lemma QuotientBounds(p: real, g: real)
    requires g > 0.0
    ensures (p / g) * g == p
    ensures p >= g <==> p / g >= 1.0
    ensures p >= 0.0 ==> p / g >= 0.0
  {
    var q := p / g;
    assert q * g == p;
    if q >= 1.0 {
      assert q * g - g == (q - 1.0) * g;
    } else {
      assert g - q * g == (1.0 - q) * g;
    }
  }

  /** A new badge: not achieved, no achievement date, no progress, and
      the goal given (0 when the caller gives none). */
  function NewBadge(name: string, description: string, iconName: string, goal: real := 0.0): (b: Badge)
    ensures !b.achieved && b.achievedDate == None && b.progress == 0.0
    ensures b.name == name && b.desc == description && b.iconName == iconName
    ensures b.goal == goal
  {
    Badge(name, description, iconName, false, None, 0.0, goal)
  }

  const TransactionTracker := "Transaction Tracker"
  const DataDiver := "Data Diver"

  /** The six starter badges seeded into a new budget and into a new
      achievements store; both places list the same six in this order. */
  function StarterBadges(): (bs: seq<Badge>)
    ensures |bs| == 6
    ensures forall i, j :: 0 <= i < j < |bs| ==> bs[i].name != bs[j].name
    ensures forall b <- bs :: !b.achieved && b.achievedDate == None && b.progress == 0.0
    ensures forall b <- bs ::
      b.goal == (if b.name == TransactionTracker then 50.0 else if b.name == DataDiver then 90.0 else 0.0)
    ensures bs[4].name == TransactionTracker && bs[5].name == DataDiver
  {
    [ NewBadge("First Budget", "Created your first budget", "flag.fill"),
      NewBadge("On Track", "Stay under budget this month", "checkmark.circle.fill"),
      NewBadge("Budget Veteran", "Completed 6 full budgets", "rosette"),
      NewBadge("Big Saver", "Saved over $500 in a single month", "trophy.fill"),
      NewBadge(TransactionTracker, "Log 50 transactions", "list.bullet", 50.0),
      NewBadge(DataDiver, "Log spending for 90 days", "calendar", 90.0) ]
  }

  /** The worked examples: 25 of 50 is half way, 60 of 50 is capped at 1,
      and a binary badge shows nothing whatever its progress. */
  lemma ProgressFractionExamples(name: string, desc: string, icon: string)
    ensures Badge(name, desc, icon, false, None, 25.0, 50.0).ProgressFraction() == 0.5
    ensures Badge(name, desc, icon, false, None, 60.0, 50.0).ProgressFraction() == 1.0
    ensures Badge(name, desc, icon, false, None, 60.0, 0.0).ProgressFraction() == 0.0
  {
  }
}
