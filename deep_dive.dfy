/** The per-subscription detail view: inactivity, cost per hour and per
    day of logged use, the waste flag, the usage chart and the renewal
    countdown. */
module DeepDive {
  import opened Wrappers
  import opened Seqs
  import opened Text
  import opened Calendar
  import opened Subscriptions

  /** This view's reading of `lastUsed`: a "k days ago" text is k days,
      "Today" 0, "Yesterday" 1, "Never" 999, anything else 0. */
  function DaysInactive(lastUsed: LastUsed): (d: nat)
    ensures lastUsed.DaysAgo? ==> d == lastUsed.days
    ensures lastUsed == Yesterday ==> d == 1
    ensures lastUsed == Never ==> d == 999
    ensures lastUsed == Today || lastUsed.Other? ==> d == 0
  {
    match lastUsed
    case DaysAgo(k) => k
    case Today => 0
    case Yesterday => 1
    case Never => 999
    case Other(_) => 0
  }

  /** The waste flag: a week or more without use. */
  function IsWasting(s: Sub): (r: bool)
    ensures r <==> s.lastUsed == Never || (s.lastUsed.DaysAgo? && s.lastUsed.days >= 7)
  {
    DaysInactive(s.lastUsed) >= 7
  }

  function TotalHours(s: Sub): real {
    SumReals(s.dailyHours)
  }

  /** Cost per logged hour, in cents; 0 (shown as a dash) when nothing
      positive is logged. */
  function CostPerHour(s: Sub): (r: real)
    ensures TotalHours(s) > 0.0 ==> r * TotalHours(s) == s.monthlyCost as real
    ensures TotalHours(s) <= 0.0 ==> r == 0.0
  {
    var total := TotalHours(s);
    if total > 0.0 then s.monthlyCost as real / total else 0.0
  }

  /** Cost per logged day (24 logged hours), in cents, under the same guard. */
  function CostPerDay(s: Sub): (r: real)
    ensures TotalHours(s) > 0.0 ==> r * (TotalHours(s) / 24.0) == s.monthlyCost as real
    ensures TotalHours(s) <= 0.0 ==> r == 0.0
  {
    var days := TotalHours(s) / 24.0;
    if days > 0.0 then s.monthlyCost as real / days else 0.0
  }

  /** A day of use costs as much as 24 hours of use. */
  lemma CostPerDayIsDayOfHours(s: Sub)
    ensures CostPerDay(s) == 24.0 * CostPerHour(s)
  {
  }

  /** Logging positive time lowers the cost per hour of a subscription with
      a non-negative cost and a non-negative log. */
  lemma LoggingLowersCostPerHour(s: Sub, hours: real)
    requires hours > 0.0 && s.monthlyCost >= 0 && TotalHours(s) > 0.0
    ensures CostPerHour(Logged(s, hours)) <= CostPerHour(s)
  {
    SumRealsAppend(s.dailyHours, hours);
    var t := TotalHours(s);
    var c := s.monthlyCost as real;
    assert CostPerHour(Logged(s, hours)) == c / (t + hours);
    assert c / (t + hours) <= c / t by {
      assert c / (t + hours) * (t + hours) == c;
      assert c / t * t == c;
    }
  }

  datatype ChartPoint = ChartPoint(dayLabel: string, hours: real)

  /** The chart: the last (at most) seven log entries, oldest first,
      labelled D1, D2, and so on. */
  function ChartData(log: seq<real>): (r: seq<ChartPoint>)
    ensures |r| == if |log| < 7 then |log| else 7
    ensures forall i :: 0 <= i < |r| ==> r[i].hours == log[|log| - |r| + i]
    ensures forall i :: 0 <= i < |r| ==> r[i].dayLabel == "D" + NatToString(i + 1)
  {
    var tail := if |log| < 7 then log else log[|log| - 7..];
    seq(|tail|, i requires 0 <= i < |tail| => ChartPoint("D" + NatToString(i + 1), tail[i]))
  }

  /** Chart labels are pairwise distinct. */
  lemma ChartLabelsDistinct(log: seq<real>, i: nat, j: nat)
    requires i < j < |ChartData(log)|
    ensures ChartData(log)[i].dayLabel != ChartData(log)[j].dayLabel
  {
    var r := ChartData(log);
    NatToStringRoundTrip(i + 1);
    NatToStringRoundTrip(j + 1);
    assert r[i].dayLabel[1..] == NatToString(i + 1);
    assert r[j].dayLabel[1..] == NatToString(j + 1);
  }

  /** The newest log entry is the last bar of the chart. */
  lemma ChartEndsWithLatest(s: Sub, hours: real)
    ensures var r := ChartData(Logged(s, hours).dailyHours); r != [] && r[|r| - 1].hours == hours
  {
  }

  /** The renewal countdown: none for an unbilled record, a clamped
      non-negative number of days, or NaN for an unreadable date. */
  datatype Renewal = NoRenewal | InDays(days: nat) | BadDate

  function RenewalDays(nextBilling: string, daysFromToday: DaysFromToday): (r: Renewal)
    ensures r == NoRenewal <==> nextBilling == NoBilling
    ensures r.InDays? ==> daysFromToday(nextBilling).Some?
                          && r.days == if daysFromToday(nextBilling).value < 0 then 0
                                       else daysFromToday(nextBilling).value
    ensures r == BadDate <==> nextBilling != NoBilling && daysFromToday(nextBilling).None?
  {
    if nextBilling == NoBilling then NoRenewal
    else match daysFromToday(nextBilling)
      case None => BadDate
      case Some(d) => InDays(if d < 0 then 0 else d)
  }

  /** The share of a 30-day period already elapsed, in percent. */
  function CycleProgress(days: nat): (p: real)
    ensures 0.0 <= p <= 100.0
    ensures days == 0 ==> p == 100.0
    ensures days >= 30 ==> p == 0.0
  {
    var raw := (30.0 - days as real) / 30.0 * 100.0;
    if raw < 0.0 then 0.0 else raw
  }

  /** A renewal further away never shows more progress. */
  lemma CycleProgressAntitone(d: nat, e: nat)
    requires d <= e
    ensures CycleProgress(e) <= CycleProgress(d)
  {
  }

  /** `renewalProgress`: 0 for an unbilled record and NaN (`None`) for an
      unreadable date. */
  function RenewalProgress(r: Renewal): (p: Option<real>)
    ensures r.NoRenewal? ==> p == Some(0.0)
    ensures r.InDays? ==> p == Some(CycleProgress(r.days))
    ensures r.BadDate? <==> p.None?
  {
    match r
    case NoRenewal => Some(0.0)
    case InDays(d) => Some(CycleProgress(d))
    case BadDate => None
  }
}
