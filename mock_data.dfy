/** The demonstration data set that the stat cards, the account sidebar,
    the header export and the low-usage alerts are computed from, and the
    low-usage filter itself. */
module MockData {
  import opened Wrappers
  import opened Seqs
  import opened Subscriptions

  /** The `subscriptions` fixture, in its order; amounts in cents. */
  const Fixture: seq<Sub> :=
    [Netflix, Spotify, Figma, ChatGptPlus, GitHubPro, AdobeCc, Notion, ICloudPlus, LinkedInPremium, Grammarly]

  const Netflix: Sub :=
    Sub("1", "Netflix", "🎬", Active, "2026-02-15", 1599, Today, Hours(42.0), true, Some(["Alice", "Bob"]), "Entertainment", [])
  const Spotify: Sub :=
    Sub("2", "Spotify", "🎵", Active, "2026-02-20", 999, Yesterday, Hours(28.0), true, Some(["Alice"]), "Music", [])
  const Figma: Sub :=
    Sub("3", "Figma", "🎨", Active, "2026-02-28", 1200, DaysAgo(2), Hours(18.0), false, None, "Design", [])
  const ChatGptPlus: Sub :=
    Sub("4", "ChatGPT Plus", "🤖", Active, "2026-03-01", 2000, Today, Label("156 queries"), false, None, "AI", [])
  const GitHubPro: Sub :=
    Sub("5", "GitHub Pro", "💻", Active, "2026-02-18", 400, Today, Label("320 commits"), false, None, "Dev Tools", [])
  const AdobeCc: Sub :=
    Sub("6", "Adobe CC", "🖌️", Paused, "—", 5499, DaysAgo(45), Hours(0.0), false, None, "Design", [])
  const Notion: Sub :=
    Sub("7", "Notion", "📝", Active, "2026-02-22", 800, DaysAgo(3), Hours(12.0), true, Some(["Team"]), "Productivity", [])
  const ICloudPlus: Sub :=
    Sub("8", "iCloud+", "☁️", Active, "2026-03-05", 299, Today, Label("48 GB"), true, Some(["Family"]), "Storage", [])
  const LinkedInPremium: Sub :=
    Sub("9", "LinkedIn Premium", "💼", Paused, "—", 2999, DaysAgo(62), Hours(0.0), false, None, "Career", [])
  const Grammarly: Sub :=
    Sub("10", "Grammarly", "✍️", Active, "2026-02-25", 1200, DaysAgo(35), Label("2 docs"), false, None, "Writing", [])

  /** The alert test: a "k days ago" marker with k of thirty or more. */
  function LowUsage(s: Sub): (r: bool)
    ensures r ==> s.lastUsed != Today && s.lastUsed != Yesterday && s.lastUsed != Never && !s.lastUsed.Other?
    ensures s.lastUsed.DaysAgo? ==> (r <==> s.lastUsed.days >= 30)
  {
    s.lastUsed.DaysAgo? && s.lastUsed.days >= 30
  }

  /** `lowUsageAlerts`, over any list. */
  function LowUsageAlerts(subs: seq<Sub>): (r: seq<Sub>)
    ensures forall x :: x in r <==> x in subs && x.lastUsed.DaysAgo? && x.lastUsed.days >= 30
    ensures forall x :: x in r ==> x.lastUsed != Today && x.lastUsed != Yesterday && x.lastUsed != Never
    ensures multiset(r) == multiset(Filter(subs, LowUsage))
  {
    Filter(subs, LowUsage)
  }

  /** The alerts keep list order: an alert list of a concatenation is the
      concatenation of the alert lists. */
  lemma LowUsageOrder(a: seq<Sub>, b: seq<Sub>)
    ensures LowUsageAlerts(a + b) == LowUsageAlerts(a) + LowUsageAlerts(b)
  {
    FilterConcat(a, b, LowUsage);
  }

  /** On the fixture: Adobe CC, then LinkedIn Premium, then Grammarly. */
  lemma FixtureAlerts()
    ensures LowUsageAlerts(Fixture) == [AdobeCc, LinkedInPremium, Grammarly]
    ensures AdobeCc.service == "Adobe CC" && AdobeCc.lastUsed == DaysAgo(45)
    ensures LinkedInPremium.service == "LinkedIn Premium" && LinkedInPremium.lastUsed == DaysAgo(62)
    ensures Grammarly.service == "Grammarly" && Grammarly.lastUsed == DaysAgo(35)
  {
    AlertsFrom8();
    AlertsFrom6();
    AlertsFrom4();
    AlertsFrom2();
    AlertsFrom0();
    assert Fixture[0..] == Fixture;
  }

  lemma AlertsFrom8()
    ensures Filter(Fixture[8..], LowUsage) == [LinkedInPremium, Grammarly]
  {
    assert Fixture[10..] == [];
    FilterStep(Fixture, 9, LowUsage);
    FilterStep(Fixture, 8, LowUsage);
  }

  lemma AlertsFrom6()
    requires Filter(Fixture[8..], LowUsage) == [LinkedInPremium, Grammarly]
    ensures Filter(Fixture[6..], LowUsage) == [LinkedInPremium, Grammarly]
  {
    FilterStep(Fixture, 7, LowUsage);
    FilterStep(Fixture, 6, LowUsage);
  }

  lemma AlertsFrom4()
    requires Filter(Fixture[6..], LowUsage) == [LinkedInPremium, Grammarly]
    ensures Filter(Fixture[4..], LowUsage) == [AdobeCc, LinkedInPremium, Grammarly]
  {
    FilterStep(Fixture, 5, LowUsage);
    assert LowUsage(Fixture[5]);
    assert [AdobeCc] + [LinkedInPremium, Grammarly] == [AdobeCc, LinkedInPremium, Grammarly];
    FilterStep(Fixture, 4, LowUsage);
  }

  lemma AlertsFrom2()
    requires Filter(Fixture[4..], LowUsage) == [AdobeCc, LinkedInPremium, Grammarly]
    ensures Filter(Fixture[2..], LowUsage) == [AdobeCc, LinkedInPremium, Grammarly]
  {
    FilterStep(Fixture, 3, LowUsage);
    FilterStep(Fixture, 2, LowUsage);
  }

  lemma AlertsFrom0()
    requires Filter(Fixture[2..], LowUsage) == [AdobeCc, LinkedInPremium, Grammarly]
    ensures Filter(Fixture[0..], LowUsage) == [AdobeCc, LinkedInPremium, Grammarly]
  {
    FilterStep(Fixture, 1, LowUsage);
    FilterStep(Fixture, 0, LowUsage);
  }

  /** The fixture's identifiers are distinct, and a record is unbilled
      exactly when it is paused. */
  lemma FixtureWellFormed()
    ensures UniqueIds(Fixture)
    ensures forall i :: 0 <= i < |Fixture| ==> (Fixture[i].status == Paused <==> Fixture[i].nextBilling == NoBilling)
  {
  }
}
