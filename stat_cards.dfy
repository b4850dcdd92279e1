/** The dashboard's summary cards: how many subscriptions are active, the
    monthly spend on them, and the money saved by the paused ones. */
module StatCards {
  import opened Seqs
  import opened Subscriptions
  import MockData

  datatype StatValues = StatValues(activeCount: nat, totalMonthly: int, pausedSavings: int)

  function Stats(subs: seq<Sub>): (r: StatValues)
    ensures r.activeCount == |Filter(subs, IsActive)| <= |subs|
    ensures r.activeCount + |Filter(subs, IsPaused)| == |subs|
    ensures r.totalMonthly == CostWhere(subs, IsActive) && r.pausedSavings == CostWhere(subs, IsPaused)
    ensures r.totalMonthly + r.pausedSavings == TotalCost(subs)
  {
    ActivePausedSplit(subs);
    StatValues(|Filter(subs, IsActive)|, CostWhere(subs, IsActive), CostWhere(subs, IsPaused))
  }

  /** The cards do not depend on the order of the list. */
  lemma StatsPermutation(a: seq<Sub>, b: seq<Sub>)
    requires multiset(a) == multiset(b)
    ensures Stats(a) == Stats(b)
  {
    CostWherePermutation(a, b, IsActive);
    CostWherePermutation(a, b, IsPaused);
    FilterPermutation(a, b, IsActive);
    assert |Filter(a, IsActive)| == |multiset(Filter(a, IsActive))|;
    assert |Filter(b, IsActive)| == |multiset(Filter(b, IsActive))|;
  }

  function ActiveCents(s: Sub): int { if s.status == Active then s.monthlyCost else 0 }
  function ActiveOne(s: Sub): int { if s.status == Active then 1 else 0 }

  /** On the fixture: eight active subscriptions costing $84.97 a month,
      and $84.98 a month saved by the two paused ones. */
  lemma FixtureStats()
    ensures Stats(MockData.Fixture) == StatValues(8, 8497, 8498)
  {
    var f := MockData.Fixture;
    SumOfFilter(f, IsActive, Cost, ActiveCents);
    CountFilter(f, IsActive, ActiveOne);
    FixtureActiveCents();
    FixtureActiveCount();
    FixtureTotal();
    ActivePausedSplit(f);
  }

  lemma FixtureActiveCents()
    ensures SumOf(MockData.Fixture, ActiveCents) == 8497
  {
    var f := MockData.Fixture;
    assert f[10..] == [];
    SumOfStep(f, 9, ActiveCents);
    SumOfStep(f, 8, ActiveCents);
    SumOfStep(f, 7, ActiveCents);
    SumOfStep(f, 6, ActiveCents);
    SumOfStep(f, 5, ActiveCents);
    SumOfStep(f, 4, ActiveCents);
    SumOfStep(f, 3, ActiveCents);
    SumOfStep(f, 2, ActiveCents);
    SumOfStep(f, 1, ActiveCents);
    SumOfStep(f, 0, ActiveCents);
    assert f[0..] == f;
  }

  lemma FixtureActiveCount()
    ensures SumOf(MockData.Fixture, ActiveOne) == 8
  {
    var f := MockData.Fixture;
    assert f[10..] == [];
    SumOfStep(f, 9, ActiveOne);
    SumOfStep(f, 8, ActiveOne);
    SumOfStep(f, 7, ActiveOne);
    SumOfStep(f, 6, ActiveOne);
    SumOfStep(f, 5, ActiveOne);
    SumOfStep(f, 4, ActiveOne);
    SumOfStep(f, 3, ActiveOne);
    SumOfStep(f, 2, ActiveOne);
    SumOfStep(f, 1, ActiveOne);
    SumOfStep(f, 0, ActiveOne);
    assert f[0..] == f;
  }

  lemma FixtureTotal()
    ensures SumOf(MockData.Fixture, Cost) == 16995
  {
    var f := MockData.Fixture;
    assert f[10..] == [];
    SumOfStep(f, 9, Cost);
    SumOfStep(f, 8, Cost);
    SumOfStep(f, 7, Cost);
    SumOfStep(f, 6, Cost);
    SumOfStep(f, 5, Cost);
    SumOfStep(f, 4, Cost);
    SumOfStep(f, 3, Cost);
    SumOfStep(f, 2, Cost);
    SumOfStep(f, 1, Cost);
    SumOfStep(f, 0, Cost);
    assert f[0..] == f;
  }
}
