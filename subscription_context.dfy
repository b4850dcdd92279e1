/** The subscription ledger: the record type, the pure list transformations
    behind each ledger operation, and the stateful ledger that owns the list,
    the selected record and the daily usage-prompt flag. */
module Subscriptions {
  import opened Wrappers
  import opened Seqs

  type Id = string

  datatype Status = Active | Paused

  /** The `lastUsed` marker. `DaysAgo(k)` stands for every text on which the
      unanchored pattern `(\d+)\s*days?\s*ago` matches with digits of value k;
      `Other` for every text that matches neither that pattern nor one of the
      three sentinels "Today", "Yesterday" and "Never". */
  datatype LastUsed = Today | Yesterday | DaysAgo(days: nat) | Never | Other(text: string)

  /** The `currentMonthUsage` text: `Hours(x)` stands for "x hrs", as usage
      logging writes it; every other text is a `Label`. */
  datatype UsageSummary = Hours(total: real) | Label(text: string)

  /** One tracked subscription. Money is held in integer cents. */
  datatype Sub = Sub(
    id: Id,
    service: string,
    icon: string,
    status: Status,
    nextBilling: string,
    monthlyCost: int,
    lastUsed: LastUsed,
    currentMonthUsage: UsageSummary,
    shared: bool,
    sharedWith: Option<seq<string>>,
    category: string,
    dailyHours: seq<real>)

  /** A record without its `id` and `dailyHours`: what `add` is given. */
  datatype SubFields = SubFields(
    service: string,
    icon: string,
    status: Status,
    nextBilling: string,
    monthlyCost: int,
    lastUsed: LastUsed,
    currentMonthUsage: UsageSummary,
    shared: bool,
    sharedWith: Option<seq<string>>,
    category: string)

  /** A partial record: a present field overrides, an absent one keeps the old
      value. `sharedWith: Some(None)` is a field present with value undefined. */
  datatype Patch = Patch(
    id: Option<Id>,
    service: Option<string>,
    icon: Option<string>,
    status: Option<Status>,
    nextBilling: Option<string>,
    monthlyCost: Option<int>,
    lastUsed: Option<LastUsed>,
    currentMonthUsage: Option<UsageSummary>,
    shared: Option<bool>,
    sharedWith: Option<Option<seq<string>>>,
    category: Option<string>,
    dailyHours: Option<seq<real>>)

  /** The `nextBilling` text of a record that is not billed. */
  const NoBilling: string := "—"

  predicate IsActive(s: Sub) { s.status == Active }
  predicate IsPaused(s: Sub) { s.status == Paused }
  predicate IsShared(s: Sub) { s.shared }
  function Cost(s: Sub): int { s.monthlyCost }

  /** The sum of the monthly costs of `subs`. */
  function TotalCost(subs: seq<Sub>): int {
    SumOf(subs, Cost)
  }

  /** The total monthly cost of the records `p` selects. */
  function CostWhere(subs: seq<Sub>, p: Sub -> bool): int {
    SumOf(Filter(subs, p), Cost)
  }

  /** Status is binary, so active and paused spend make up the whole. */
  lemma ActivePausedSplit(subs: seq<Sub>)
    ensures CostWhere(subs, IsActive) + CostWhere(subs, IsPaused) == TotalCost(subs)
    ensures |Filter(subs, IsActive)| + |Filter(subs, IsPaused)| == |subs|
  {
    SumOfSplit(subs, IsActive, IsPaused, Cost);
    CountSplit(subs, IsActive, IsPaused);
  }

  /** Filtered sums do not depend on the order of the list. */
  lemma CostWherePermutation(a: seq<Sub>, b: seq<Sub>, p: Sub -> bool)
    requires multiset(a) == multiset(b)
    ensures CostWhere(a, p) == CostWhere(b, p)
  {
    FilterPermutation(a, b, p);
    SumOfPermutation(Filter(a, p), Filter(b, p), Cost);
  }

  /** Record identifiers are pairwise distinct. */
  ghost predicate UniqueIds(subs: seq<Sub>) {
    forall i, j :: 0 <= i < j < |subs| ==> subs[i].id != subs[j].id
  }

  predicate HasId(subs: seq<Sub>, id: Id) {
    exists i :: 0 <= i < |subs| && subs[i].id == id
  }

  function FieldsOf(s: Sub): SubFields {
    SubFields(s.service, s.icon, s.status, s.nextBilling, s.monthlyCost, s.lastUsed,
              s.currentMonthUsage, s.shared, s.sharedWith, s.category)
  }

  /** `{ ...sub, id, dailyHours: [] }`. */
  function NewSub(f: SubFields, id: Id): (r: Sub)
    ensures r.id == id && r.dailyHours == [] && FieldsOf(r) == f
  {
    Sub(id, f.service, f.icon, f.status, f.nextBilling, f.monthlyCost, f.lastUsed,
        f.currentMonthUsage, f.shared, f.sharedWith, f.category, [])
  }

  /** A spread field: the patch's value when it has one, else the old one. */
  predicate Spread<T(==)>(patch: Option<T>, before: T, after: T) {
    if patch.Some? then after == patch.value else after == before
  }

  /** `{ ...s, ...p }`. */
  function ApplyPatch(s: Sub, p: Patch): (r: Sub)
    ensures Spread(p.id, s.id, r.id) && Spread(p.service, s.service, r.service) && Spread(p.icon, s.icon, r.icon)
    ensures Spread(p.status, s.status, r.status) && Spread(p.nextBilling, s.nextBilling, r.nextBilling)
    ensures Spread(p.monthlyCost, s.monthlyCost, r.monthlyCost) && Spread(p.lastUsed, s.lastUsed, r.lastUsed)
    ensures Spread(p.currentMonthUsage, s.currentMonthUsage, r.currentMonthUsage)
    ensures Spread(p.shared, s.shared, r.shared) && Spread(p.sharedWith, s.sharedWith, r.sharedWith)
    ensures Spread(p.category, s.category, r.category) && Spread(p.dailyHours, s.dailyHours, r.dailyHours)
  {
    Sub(p.id.GetOr(s.id), p.service.GetOr(s.service), p.icon.GetOr(s.icon),
        p.status.GetOr(s.status), p.nextBilling.GetOr(s.nextBilling),
        p.monthlyCost.GetOr(s.monthlyCost), p.lastUsed.GetOr(s.lastUsed),
        p.currentMonthUsage.GetOr(s.currentMonthUsage), p.shared.GetOr(s.shared),
        p.sharedWith.GetOr(s.sharedWith), p.category.GetOr(s.category),
        p.dailyHours.GetOr(s.dailyHours))
  }

  const EmptyPatch: Patch := Patch(None, None, None, None, None, None, None, None, None, None, None, None)

  /** Every field of a `SubFields` value present in a patch: the object the
      edit form passes to `update`. */
  function FullPatch(f: SubFields): Patch {
    Patch(None, Some(f.service), Some(f.icon), Some(f.status), Some(f.nextBilling),
          Some(f.monthlyCost), Some(f.lastUsed), Some(f.currentMonthUsage), Some(f.shared),
          Some(f.sharedWith), Some(f.category), None)
  }

  lemma EmptyPatchKeeps(s: Sub)
    ensures ApplyPatch(s, EmptyPatch) == s
  {
  }

  lemma PatchIdempotent(s: Sub, p: Patch)
    ensures ApplyPatch(ApplyPatch(s, p), p) == ApplyPatch(s, p)
  {
  }

  /** Applying the edit form's patch replaces every field it carries and
      keeps the identifier and the usage log. */
  lemma FullPatchReplacesFields(s: Sub, f: SubFields)
    ensures FieldsOf(ApplyPatch(s, FullPatch(f))) == f
    ensures ApplyPatch(s, FullPatch(f)).id == s.id
    ensures ApplyPatch(s, FullPatch(f)).dailyHours == s.dailyHours
  {
  }

  /** `subs.map(s => s.id === id ? g(s) : s)`. */
  function MapMatching(subs: seq<Sub>, id: Id, g: Sub -> Sub): (r: seq<Sub>)
    ensures |r| == |subs|
    ensures forall i :: 0 <= i < |subs| ==> r[i] == if subs[i].id == id then g(subs[i]) else subs[i]
  {
    if subs == [] then []
    else [if subs[0].id == id then g(subs[0]) else subs[0]] + MapMatching(subs[1..], id, g)
  }

  /** The list after `updateSubscription(id, p)`. */
  function UpdateById(subs: seq<Sub>, id: Id, p: Patch): (r: seq<Sub>)
    ensures |r| == |subs|
    ensures forall i :: 0 <= i < |subs| && subs[i].id != id ==> r[i] == subs[i]
    ensures forall i :: 0 <= i < |subs| && subs[i].id == id ==> r[i] == ApplyPatch(subs[i], p)
    ensures !HasId(subs, id) ==> r == subs
  {
    MapMatching(subs, id, (s: Sub) => ApplyPatch(s, p))
  }

  /** The list after `deleteSubscription(id)`. */
  function RemoveById(subs: seq<Sub>, id: Id): (r: seq<Sub>)
    ensures forall x :: x in r <==> x in subs && x.id != id
    ensures !HasId(r, id)
    ensures !HasId(subs, id) ==> r == subs
  {
    NoIdFilterKeeps(subs, id);
    Filter(subs, (s: Sub) => s.id != id)
  }

  /** Deleting keeps the order of the others: the list after deleting from
      a concatenation is the concatenation of the two lists after deleting. */
  lemma RemoveByIdOrder(a: seq<Sub>, b: seq<Sub>, id: Id)
    ensures RemoveById(a + b, id) == RemoveById(a, id) + RemoveById(b, id)
  {
    FilterConcat(a, b, (s: Sub) => s.id != id);
  }

  /** With `RemoveByIdOrder`, this pins the count: one record is dropped
      exactly when it has the id. */
  lemma RemoveByIdSingle(x: Sub, id: Id)
    ensures RemoveById([x], id) == if x.id == id then [] else [x]
  {
    assert [x][1..] == [];
  }

  lemma {:induction false} NoIdFilterKeeps(subs: seq<Sub>, id: Id)
    ensures !HasId(subs, id) ==> Filter(subs, (s: Sub) => s.id != id) == subs
  {
    if subs != [] {
      NoIdFilterKeeps(subs[1..], id);
      if !HasId(subs, id) {
        assert !HasId(subs[1..], id) by {
          forall i | 0 <= i < |subs[1..]| ensures subs[1..][i].id != id {
            assert subs[1..][i] == subs[i + 1];
          }
        }
        assert subs == [subs[0]] + subs[1..];
      }
    }
  }

  /** The record after one `logUsage(id, hours)` entry. */
  function Logged(s: Sub, hours: real): (r: Sub)
    ensures r.dailyHours == s.dailyHours + [hours]
    ensures hours > 0.0 ==> r.lastUsed == Today && r.currentMonthUsage == Hours(SumReals(s.dailyHours) + hours)
    ensures hours <= 0.0 ==> r.lastUsed == s.lastUsed && r.currentMonthUsage == s.currentMonthUsage
    ensures r.(lastUsed := s.lastUsed, currentMonthUsage := s.currentMonthUsage, dailyHours := s.dailyHours) == s
  {
    var updated := s.(dailyHours := s.dailyHours + [hours]);
    if hours > 0.0 then
      updated.(lastUsed := Today, currentMonthUsage := Hours(SumReals(s.dailyHours) + hours))
    else
      updated
  }

  /** After a positive entry the usage summary is the total of the whole log. */
  lemma LoggedSummaryIsLogTotal(s: Sub, hours: real)
    requires hours > 0.0
    ensures Logged(s, hours).currentMonthUsage == Hours(SumReals(Logged(s, hours).dailyHours))
  {
    SumRealsAppend(s.dailyHours, hours);
  }

  /** The list after `logUsage(id, hours)`. */
  function LogUsageAt(subs: seq<Sub>, id: Id, hours: real): (r: seq<Sub>)
    ensures |r| == |subs|
    ensures forall i :: 0 <= i < |subs| && subs[i].id != id ==> r[i] == subs[i]
    ensures forall i :: 0 <= i < |subs| && subs[i].id == id ==> r[i] == Logged(subs[i], hours)
  {
    MapMatching(subs, id, (s: Sub) => Logged(s, hours))
  }

  /** `subs.find(s => s.id === id)`. */
  function Find(subs: seq<Sub>, id: Id): (r: Option<Sub>)
    ensures r.None? <==> !HasId(subs, id)
    ensures r.Some? ==> r.value.id == id && r.value in subs
    ensures r.Some? ==> exists i :: 0 <= i < |subs| && subs[i] == r.value
                                   && forall j :: 0 <= j < i ==> subs[j].id != id
  {
    if subs == [] then None
    else if subs[0].id == id then Some(subs[0])
    else
      var r := Find(subs[1..], id);
      assert HasId(subs, id) ==> HasId(subs[1..], id) by {
        if HasId(subs, id) {
          var i :| 0 <= i < |subs| && subs[i].id == id;
          assert subs[1..][i - 1] == subs[i];
        }
      }
      assert r.Some? ==> exists i :: 0 <= i < |subs| && subs[i] == r.value
                                    && forall j :: 0 <= j < i ==> subs[j].id != id by {
        if r.Some? {
          var i :| 0 <= i < |subs[1..]| && subs[1..][i] == r.value
                   && forall j :: 0 <= j < i ==> subs[1..][j].id != id;
          assert subs[i + 1] == r.value;
          assert forall j :: 0 <= j < i + 1 ==> subs[j].id != id by {
            forall j | 0 <= j < i + 1 ensures subs[j].id != id {
              if j > 0 { assert subs[j] == subs[1..][j - 1]; }
            }
          }
        }
      }
      r
  }

  /** Identifier uniqueness survives deletion. */
  lemma {:induction false} RemoveKeepsUnique(subs: seq<Sub>, id: Id)
    requires UniqueIds(subs)
    ensures UniqueIds(RemoveById(subs, id))
  {
    if subs != [] {
      var p := (s: Sub) => s.id != id;
      UniqueTail(subs);
      RemoveKeepsUnique(subs[1..], id);
      var tail := Filter(subs[1..], p);
      assert RemoveById(subs[1..], id) == tail;
      if p(subs[0]) {
        assert Filter(subs, p) == [subs[0]] + tail;
        UniqueCons(subs[0], tail);
      } else {
        assert Filter(subs, p) == tail;
      }
    }
  }

  lemma UniqueTail(subs: seq<Sub>)
    requires UniqueIds(subs) && subs != []
    ensures UniqueIds(subs[1..])
    ensures forall x :: x in subs[1..] ==> x.id != subs[0].id
  {
    forall x | x in subs[1..] ensures x.id != subs[0].id {
      var k :| 0 <= k < |subs[1..]| && subs[1..][k] == x;
      assert subs[k + 1] == x;
    }
  }

  lemma UniqueCons(h: Sub, t: seq<Sub>)
    requires UniqueIds(t) && forall x :: x in t ==> x.id != h.id
    ensures UniqueIds([h] + t)
  {
    forall i, j | 0 <= i < j < |[h] + t| ensures ([h] + t)[i].id != ([h] + t)[j].id {
      assert ([h] + t)[j] == t[j - 1];
      if i > 0 {
        assert ([h] + t)[i] == t[i - 1];
      } else {
        assert t[j - 1] in t;
      }
    }
  }

  /** Appending a record whose identifier is new keeps identifiers unique. */
  lemma AddKeepsUnique(subs: seq<Sub>, r: Sub)
    requires UniqueIds(subs) && !HasId(subs, r.id)
    ensures UniqueIds(subs + [r])
  {
    forall i, j | 0 <= i < j < |subs + [r]| ensures (subs + [r])[i].id != (subs + [r])[j].id {
      if j == |subs| {
        assert (subs + [r])[i] == subs[i];
      } else {
        assert (subs + [r])[i] == subs[i] && (subs + [r])[j] == subs[j];
      }
    }
  }

  /** What the list loads as: the stored value, or the empty list when the
      slot is empty or does not parse. */
  function LoadSubscriptions(saved: Slot<seq<Sub>>): (r: seq<Sub>)
    ensures saved.Parsed? ==> r == saved.value
    ensures !saved.Parsed? ==> r == []
  {
    match saved
    case Parsed(v) => v
    case _ => []
  }

  /** The usage-prompt flag a session starts with. */
  function InitialVibeFlag(lastDismissed: Option<string>, today: string, subs: seq<Sub>): (r: bool)
    ensures r <==> lastDismissed != Some(today) && subs != []
  {
    lastDismissed != Some(today) && |subs| > 0
  }

  /** Whether the re-check turns the usage-prompt flag on. */
  function RecheckDue(lastDismissed: Option<string>, today: string, subs: seq<Sub>): (r: bool)
    ensures r <==> lastDismissed != Some(today) && exists i :: 0 <= i < |subs| && subs[i].status == Active
  {
    var active := Filter(subs, IsActive);
    assert active != [] <==> exists i :: 0 <= i < |subs| && subs[i].status == Active by {
      if active != [] {
        assert active[0] in subs;
      } else {
        forall i | 0 <= i < |subs| ensures subs[i].status != Active {
          assert subs[i] in subs;
        }
      }
    }
    lastDismissed != Some(today) && |active| > 0
  }

  /** A re-check that fires would also have started the session with the
      flag on; once today's date is recorded, neither fires. */
  lemma RecheckImpliesInitial(lastDismissed: Option<string>, today: string, subs: seq<Sub>)
    ensures RecheckDue(lastDismissed, today, subs) ==> InitialVibeFlag(lastDismissed, today, subs)
    ensures !RecheckDue(Some(today), today, subs) && !InitialVibeFlag(Some(today), today, subs)
  {
  }

  /** The state behind the subscription context. `vibeDate` is the persisted
      "prompted today" marker. */
  class Ledger {
    var subscriptions: seq<Sub>
    var selectedSubId: Option<Id>
    var shouldShowVibeCheck: bool
    var vibeDate: Option<string>

    constructor (saved: Slot<seq<Sub>>, storedVibeDate: Option<string>, today: string)
      ensures subscriptions == LoadSubscriptions(saved)
      ensures selectedSubId == None && vibeDate == storedVibeDate
      ensures shouldShowVibeCheck == InitialVibeFlag(storedVibeDate, today, subscriptions)
    {
      var loaded := LoadSubscriptions(saved);
      subscriptions := loaded;
      selectedSubId := None;
      vibeDate := storedVibeDate;
      shouldShowVibeCheck := InitialVibeFlag(storedVibeDate, today, loaded);
    }

    /** The effect run when the number of records changes: it can only turn
        the flag on. */
    method RecheckVibe(today: string)
      modifies this`shouldShowVibeCheck
      ensures shouldShowVibeCheck == (old(shouldShowVibeCheck) || RecheckDue(vibeDate, today, subscriptions))
    {
      if RecheckDue(vibeDate, today, subscriptions) {
        shouldShowVibeCheck := true;
      }
    }

    method AddSubscription(f: SubFields, freshId: Id)
      modifies this`subscriptions
      ensures subscriptions == old(subscriptions) + [NewSub(f, freshId)]
      ensures UniqueIds(old(subscriptions)) && !HasId(old(subscriptions), freshId) ==> UniqueIds(subscriptions)
    {
      if UniqueIds(subscriptions) && !HasId(subscriptions, freshId) {
        AddKeepsUnique(subscriptions, NewSub(f, freshId));
      }
      subscriptions := subscriptions + [NewSub(f, freshId)];
    }

    method UpdateSubscription(id: Id, updates: Patch)
      modifies this`subscriptions
      ensures subscriptions == UpdateById(old(subscriptions), id, updates)
    {
      subscriptions := UpdateById(subscriptions, id, updates);
    }

    method DeleteSubscription(id: Id)
      modifies this`subscriptions, this`selectedSubId
      ensures subscriptions == RemoveById(old(subscriptions), id)
      ensures selectedSubId == if old(selectedSubId) == Some(id) then None else old(selectedSubId)
      ensures UniqueIds(old(subscriptions)) ==> UniqueIds(subscriptions)
    {
      if UniqueIds(subscriptions) {
        RemoveKeepsUnique(subscriptions, id);
      }
      subscriptions := RemoveById(subscriptions, id);
      if selectedSubId == Some(id) {
        selectedSubId := None;
      }
    }

    method LogUsage(id: Id, hours: real)
      modifies this`subscriptions
      ensures subscriptions == LogUsageAt(old(subscriptions), id, hours)
    {
      subscriptions := LogUsageAt(subscriptions, id, hours);
    }

    method SetSelectedSubId(id: Option<Id>)
      modifies this`selectedSubId
      ensures selectedSubId == id
    {
      selectedSubId := id;
    }

    /** Records today's date as the prompt marker and lowers the flag. */
    method DismissVibeCheck(today: string)
      modifies this`vibeDate, this`shouldShowVibeCheck
      ensures vibeDate == Some(today) && !shouldShowVibeCheck
    {
      vibeDate := Some(today);
      shouldShowVibeCheck := false;
    }
  }

  /** Once the prompt is dismissed, adding and deleting records on the same
      day does not bring it back. */
  method DismissThenEdit(l: Ledger, today: string, f: SubFields, freshId: Id, gone: Id)
    modifies l
    ensures !l.shouldShowVibeCheck
  {
    l.DismissVibeCheck(today);
    l.AddSubscription(f, freshId);
    l.RecheckVibe(today);
    l.DeleteSubscription(gone);
    l.RecheckVibe(today);
  }
}
