/** The savings cards: money saved by pausing, money at risk on unused
    subscriptions, and the yearly projection of active spend. */
module SavingsMetrics {
  import opened Seqs
  import opened Subscriptions
  import DeepDive

  /** This view's reading of `lastUsed`: a "k days ago" text is k days,
      "Never" 999, and everything else, "Today" and "Yesterday" included, 0. */
  function DaysInactive(lastUsed: LastUsed): (d: nat)
    ensures lastUsed.DaysAgo? ==> d == lastUsed.days
    ensures lastUsed == Never ==> d == 999
    ensures !lastUsed.DaysAgo? && lastUsed != Never ==> d == 0
  {
    match lastUsed
    case DaysAgo(k) => k
    case Never => 999
    case _ => 0
  }

  /** The two readings of `lastUsed` differ on "Yesterday" only. */
  lemma InactivityReadingsAgree(u: LastUsed)
    ensures u != Yesterday ==> DaysInactive(u) == DeepDive.DaysInactive(u)
    ensures DaysInactive(Yesterday) == 0 && DeepDive.DaysInactive(Yesterday) == 1
  {
  }

  /** Unused for thirty days or more, of either status. */
  function Unused(s: Sub): (r: bool)
    ensures r <==> s.lastUsed == Never || (s.lastUsed.DaysAgo? && s.lastUsed.days >= 30)
  {
    DaysInactive(s.lastUsed) >= 30
  }

  datatype Metrics = Metrics(pausedSavings: int, potentialSavings: int, activeTotal: int, annualProjection: int)

  function Compute(subs: seq<Sub>): (m: Metrics)
    ensures m.pausedSavings == CostWhere(subs, IsPaused)
    ensures m.potentialSavings == CostWhere(subs, Unused)
    ensures m.activeTotal + m.pausedSavings == TotalCost(subs)
    ensures m.annualProjection == 12 * (TotalCost(subs) - m.pausedSavings)
  {
    ActivePausedSplit(subs);
    var active := CostWhere(subs, IsActive);
    Metrics(CostWhere(subs, IsPaused), CostWhere(subs, Unused), active, active * 12)
  }

  /** No card depends on the order of the list. */
  lemma ComputePermutation(a: seq<Sub>, b: seq<Sub>)
    requires multiset(a) == multiset(b)
    ensures Compute(a) == Compute(b)
  {
    CostWherePermutation(a, b, IsPaused);
    CostWherePermutation(a, b, Unused);
    CostWherePermutation(a, b, IsActive);
  }

  /** With non-negative costs, the money at risk is bounded by the total. */
  lemma PotentialWithinTotal(subs: seq<Sub>)
    requires forall i :: 0 <= i < |subs| ==> subs[i].monthlyCost >= 0
    ensures 0 <= Compute(subs).potentialSavings <= TotalCost(subs)
  {
    SumOfSplit(subs, Unused, (s: Sub) => !Unused(s), Cost);
    NonNegativeCosts(Filter(subs, Unused));
    NonNegativeCosts(Filter(subs, (s: Sub) => !Unused(s)));
  }

  lemma {:induction false} NonNegativeCosts(xs: seq<Sub>)
    requires forall x :: x in xs ==> x.monthlyCost >= 0
    ensures SumOf(xs, Cost) >= 0
  {
    if xs != [] {
      assert xs[0] in xs;
      NonNegativeCosts(xs[1..]);
    }
  }
}
