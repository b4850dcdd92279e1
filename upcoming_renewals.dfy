/** The renewals strip: active subscriptions renewing within a week,
    soonest first, each with an urgency class, a label and a progress bar. */
module UpcomingRenewals {
  import opened Wrappers
  import opened Seqs
  import opened Text
  import opened Calendar
  import opened Subscriptions
  import Locale

  /** `getDaysUntil`: Infinity for an unbilled record, NaN for a text that
      is not a date, and otherwise the rounded-up day difference. */
  datatype Until = Infinite | Days(n: int) | NotANumber

  function DaysUntil(nextBilling: string, daysFromToday: DaysFromToday): (u: Until)
    ensures u == Infinite <==> nextBilling == NoBilling
    ensures u.Days? <==> nextBilling != NoBilling && daysFromToday(nextBilling).Some?
    ensures u.Days? ==> u.n == daysFromToday(nextBilling).value
  {
    if nextBilling == NoBilling then Infinite
    else match daysFromToday(nextBilling)
      case Some(d) => Days(d)
      case None => NotANumber
  }

  /** `daysUntil >= 0 && daysUntil <= 7`; both comparisons fail on
      Infinity's upper bound and on NaN. */
  function InWindow(u: Until): (r: bool)
    ensures u == Infinite || u == NotANumber ==> !r
    ensures u.Days? ==> (r <==> 0 <= u.n <= 7)
  {
    u.Days? && 0 <= u.n <= 7
  }

  /** A record with its days until renewal attached. */
  datatype Due = Due(sub: Sub, until: Until)

  /** The sort key; every record that survives the window filter has one. */
  function Key(x: Due): int {
    if x.until.Days? then x.until.n else 0
  }

  predicate DueInWindow(x: Due) { InWindow(x.until) }

  function Annotate(subs: seq<Sub>, daysFromToday: DaysFromToday): (r: seq<Due>)
    ensures |r| == |subs|
    ensures forall i :: 0 <= i < |r| ==> r[i] == Due(subs[i], DaysUntil(subs[i].nextBilling, daysFromToday))
  {
    if subs == [] then []
    else [Due(subs[0], DaysUntil(subs[0].nextBilling, daysFromToday))] + Annotate(subs[1..], daysFromToday)
  }

  /** The records the strip shows before sorting: the active records with
      their days attached, kept when they fall in the week, in list order. */
  function Window(subs: seq<Sub>, daysFromToday: DaysFromToday): (r: seq<Due>)
    ensures |r| <= |subs|
    ensures forall x :: x in r <==>
      x.sub in subs && x.sub.status == Active && x.until == DaysUntil(x.sub.nextBilling, daysFromToday) && InWindow(x.until)
  {
    var act := Filter(subs, IsActive);
    var a := Annotate(act, daysFromToday);
    assert forall x :: x in a <==> x.sub in act && x.until == DaysUntil(x.sub.nextBilling, daysFromToday) by {
      forall x: Due | x.sub in act && x.until == DaysUntil(x.sub.nextBilling, daysFromToday) ensures x in a {
        var k :| 0 <= k < |act| && act[k] == x.sub;
        assert a[k] == x;
      }
    }
    Filter(a, DueInWindow)
  }

  predicate SortedByKey(s: seq<Due>) {
    forall i, j :: 0 <= i < j < |s| ==> Key(s[i]) <= Key(s[j])
  }

  /** Places `x` in front of the first element whose key is not smaller. */
  function Insert(x: Due, s: seq<Due>): (r: seq<Due>)
    requires SortedByKey(s)
    ensures SortedByKey(r)
    ensures multiset(r) == multiset(s) + multiset{x}
    ensures forall y :: y in r ==> y == x || y in s
  {
    if s == [] then [x]
    else if Key(x) <= Key(s[0]) then
      SortedHeadMin(s);
      SortedCons(x, s);
      [x] + s
    else
      var rest := Insert(x, s[1..]);
      assert s == [s[0]] + s[1..];
      SortedHeadMin(s);
      SortedCons(s[0], rest);
      [s[0]] + rest
  }

  /** The head of a sorted list has the smallest key. */
  lemma SortedHeadMin(s: seq<Due>)
    requires SortedByKey(s) && s != []
    ensures forall y :: y in s ==> Key(s[0]) <= Key(y)
  {
    forall y | y in s ensures Key(s[0]) <= Key(y) {
      var k :| 0 <= k < |s| && s[k] == y;
    }
  }

  /** A key no larger than any key of a sorted list may go in front of it. */
  lemma SortedCons(h: Due, t: seq<Due>)
    requires SortedByKey(t) && forall y :: y in t ==> Key(h) <= Key(y)
    ensures SortedByKey([h] + t)
  {
    forall i, j | 0 <= i < j < |[h] + t| ensures Key(([h] + t)[i]) <= Key(([h] + t)[j]) {
      if i == 0 {
        assert ([h] + t)[j] == t[j - 1];
        assert t[j - 1] in t;
      } else {
        assert ([h] + t)[i] == t[i - 1] && ([h] + t)[j] == t[j - 1];
      }
    }
  }

  /** Sorting by the days until renewal, as the comparator
      `a.daysUntil - b.daysUntil` orders them. */
  function SortByDays(s: seq<Due>): (r: seq<Due>)
    ensures SortedByKey(r)
    ensures multiset(r) == multiset(s)
  {
    if s == [] then []
    else
      assert s == [s[0]] + s[1..];
      Insert(s[0], SortByDays(s[1..]))
  }

  /** `upcoming`. */
  function Upcoming(subs: seq<Sub>, daysFromToday: DaysFromToday): (r: seq<Due>)
    ensures SortedByKey(r)
    ensures multiset(r) == multiset(Window(subs, daysFromToday))
    ensures forall x :: x in r <==>
      x.sub in subs && x.sub.status == Active && x.until == DaysUntil(x.sub.nextBilling, daysFromToday) && InWindow(x.until)
  {
    var w := Window(subs, daysFromToday);
    var r := SortByDays(w);
    assert forall x :: x in r <==> x in w by {
      forall x ensures x in r <==> x in w {
        assert x in r <==> x in multiset(r);
      }
    }
    r
  }

  /** An unbilled record is never listed, so neither is a paused one that
      the dialog saved. */
  lemma UnbilledNeverListed(subs: seq<Sub>, daysFromToday: DaysFromToday, x: Due)
    requires x.sub.nextBilling == NoBilling || x.sub.status == Paused
    ensures x !in Upcoming(subs, daysFromToday)
  {
  }

  /** The strip renders only when there is something to list. */
  predicate Renders(subs: seq<Sub>, daysFromToday: DaysFromToday) {
    |Upcoming(subs, daysFromToday)| > 0
  }

  /** It renders exactly when some active record renews within the week. */
  lemma RendersIffDue(subs: seq<Sub>, daysFromToday: DaysFromToday)
    ensures Renders(subs, daysFromToday) <==>
      exists i :: 0 <= i < |subs| && subs[i].status == Active && InWindow(DaysUntil(subs[i].nextBilling, daysFromToday))
  {
    var r := Upcoming(subs, daysFromToday);
    if r != [] {
      assert r[0] in r;
      var i :| 0 <= i < |subs| && subs[i] == r[0].sub;
    }
    if exists i :: 0 <= i < |subs| && subs[i].status == Active
                   && InWindow(DaysUntil(subs[i].nextBilling, daysFromToday)) {
      var i :| 0 <= i < |subs| && subs[i].status == Active
               && InWindow(DaysUntil(subs[i].nextBilling, daysFromToday));
      assert Due(subs[i], DaysUntil(subs[i].nextBilling, daysFromToday)) in r;
    }
  }

  datatype Urgency = Destructive | Warning | Primary

  /** `urgencyColor`. */
  function UrgencyOf(days: int): (u: Urgency)
    ensures u == Destructive <==> days <= 1
    ensures u == Warning <==> 2 <= days <= 3
    ensures u == Primary <==> days >= 4
  {
    if days <= 1 then Destructive else if days <= 3 then Warning else Primary
  }

  /** `daysLabel`. */
  function DaysLabel(days: nat, locale: Locale.Code): (s: string)
    ensures days == 0 ==> s == Locale.T("renewals.today", locale)
    ensures days == 1 ==> s == Locale.T("renewals.tomorrow", locale)
    ensures days >= 2 ==> s == NatToString(days) + " " + Locale.T("renewals.days", locale)
  {
    if days == 0 then Locale.T("renewals.today", locale)
    else if days == 1 then Locale.T("renewals.tomorrow", locale)
    else NatToString(days) + " " + Locale.T("renewals.days", locale)
  }

  /** The English and Hindi labels. */
  lemma DaysLabelText(days: nat)
    ensures DaysLabel(0, "en") == "Today" && DaysLabel(1, "en") == "Tomorrow"
    ensures DaysLabel(0, "hi") == "आज" && DaysLabel(1, "hi") == "कल"
    ensures days >= 2 ==> DaysLabel(days, "en") == NatToString(days) + " days"
                          && DaysLabel(days, "hi") == NatToString(days) + " दिन"
  {
    Locale.RenewalLabels();
  }

  /** The progress bar: how much of the last week before renewal has gone. */
  function WeekProgress(days: int): (p: real)
    ensures days >= 0 ==> 0.0 <= p <= 100.0
    ensures days == 0 ==> p == 100.0
    ensures days >= 7 ==> p == 0.0
  {
    var raw := (7.0 - days as real) / 7.0 * 100.0;
    if raw < 0.0 then 0.0 else raw
  }

  /** A later renewal never shows more progress. */
  lemma WeekProgressAntitone(d: int, e: int)
    requires d <= e
    ensures WeekProgress(e) <= WeekProgress(d)
  {
  }
}
