/** The add/edit dialog: icon lookup, the save-time guard chain, the record
    the dialog builds, and the ledger call it makes. */
module AddSubscriptionModal {
  import opened Wrappers
  import opened Seqs
  import opened Text
  import opened Subscriptions
  import opened Tiers

  /** `knownLogos`, in its key order. */
  const KnownLogos: seq<(string, string)> := [
    ("netflix", "🎬"), ("spotify", "🎵"), ("figma", "🎨"), ("chatgpt", "🤖"), ("github", "💻"),
    ("adobe", "🖌️"), ("notion", "📝"), ("icloud", "☁️"), ("linkedin", "💼"), ("grammarly", "✍️"),
    ("youtube", "📺"), ("slack", "💬"), ("discord", "🎮"), ("zoom", "📹"), ("dropbox", "📦"),
    ("canva", "🎯"), ("trello", "📋"), ("aws", "🌐"), ("heroku", "🚀"), ("vercel", "▲")]

  /** The first table position, at or after `from`, whose key occurs in `lower`. */
  function FirstLogoFrom(lower: string, from: nat): (r: Option<nat>)
    requires from <= |KnownLogos|
    decreases |KnownLogos| - from
    ensures r.Some? ==> from <= r.value < |KnownLogos| && Contains(lower, KnownLogos[r.value].0)
    ensures r.Some? ==> forall j :: from <= j < r.value ==> !Contains(lower, KnownLogos[j].0)
    ensures r.None? ==> forall j :: from <= j < |KnownLogos| ==> !Contains(lower, KnownLogos[j].0)
  {
    if from == |KnownLogos| then None
    else if Contains(lower, KnownLogos[from].0) then Some(from)
    else FirstLogoFrom(lower, from + 1)
  }

  /** The icon the dialog assigns to a service name: that of the first key,
      in table order, occurring in the lower-cased name, or "" when none does. */
  function IconFor(name: string): (r: string)
    ensures r == "" <==> forall j :: 0 <= j < |KnownLogos| ==> !Contains(ToLower(name), KnownLogos[j].0)
    ensures r != "" ==> exists i :: 0 <= i < |KnownLogos| && r == KnownLogos[i].1
                                   && Contains(ToLower(name), KnownLogos[i].0)
                                   && forall j :: 0 <= j < i ==> !Contains(ToLower(name), KnownLogos[j].0)
  {
    match FirstLogoFrom(ToLower(name), 0)
    case Some(i) => KnownLogos[i].1
    case None => ""
  }

  /** `getIcon`: scans the table and returns at the first key that matches. */
  method GetIcon(name: string) returns (icon: string)
    ensures icon == IconFor(name)
  {
    var lower := ToLower(name);
    var i := 0;
    while i < |KnownLogos|
      invariant 0 <= i <= |KnownLogos|
      invariant FirstLogoFrom(lower, i) == FirstLogoFrom(lower, 0)
    {
      if Contains(lower, KnownLogos[i].0) {
        return KnownLogos[i].1;
      }
      i := i + 1;
    }
    return "";
  }

  /** `parts.map(s => s.trim())`. */
  function TrimAll(parts: seq<string>): (r: seq<string>)
    ensures |r| == |parts|
    ensures forall i :: 0 <= i < |parts| ==> r[i] == Trim(parts[i])
  {
    if parts == [] then [] else [Trim(parts[0])] + TrimAll(parts[1..])
  }

  predicate NonEmpty(s: string) { s != [] }

  /** The names typed into the "shared with" box: the comma-separated
      pieces, trimmed, without the empty ones. */
  function SharedNames(text: string): (r: seq<string>)
    ensures forall i :: 0 <= i < |r| ==> r[i] != [] && IsTrimmed(r[i])
  {
    Filter(TrimAll(Split(text, ',')), NonEmpty)
  }

  /** A list of names the edit form can show and read back unchanged. */
  predicate WellFormedNames(names: seq<string>) {
    forall i :: 0 <= i < |names| ==> names[i] != [] && IsTrimmed(names[i]) && Free(names[i], ',')
  }

  /** Reading back the text the edit form shows for a list of names,
      `names.join(", ")`, gives the list again. */
  lemma SharedNamesRoundTrip(names: seq<string>)
    requires WellFormedNames(names)
    ensures SharedNames(Join(names, ", ")) == names
  {
    if names == [] {
      assert Split("", ',') == [""];
      assert TrimAll([""]) == [Trim("")];
    } else {
      assert ", " == [','] + " ";
      TrimmedPieces(names, " ");
      FilterAll(names, NonEmpty);
    }
  }

  /** The pieces of a joined list, trimmed, are the list's names, when the
      separator is a comma followed by white space. */
  lemma TrimmedPieces(names: seq<string>, pad: string)
    requires names != [] && WellFormedNames(names)
    requires forall i :: 0 <= i < |pad| ==> IsSpace(pad[i])
    ensures TrimAll(Split(Join(names, [','] + pad), ',')) == names
  {
    assert Free(pad, ',') by {
      forall i | 0 <= i < |pad| ensures pad[i] != ',' {
        assert IsSpace(pad[i]);
      }
    }
    SplitJoin(names, ',', pad);
    var parts := Split(Join(names, [','] + pad), ',');
    var trimmed := TrimAll(parts);
    forall i | 0 <= i < |names| ensures trimmed[i] == names[i] {
      if i == 0 {
        TrimmedIsFixed(names[0]);
      } else {
        TrimLeadingSpace(pad, names[i]);
      }
    }
  }

  /** The dialog's fields. `costText` is the cost box's text and
      `renewal` the date box's ISO text ("" when empty). */
  datatype Form = Form(
    name: string,
    category: string,
    costText: string,
    renewal: string,
    shared: string,
    status: Status)

  /** JavaScript truthiness of `editId`: present and not the empty string. */
  predicate Editing(editId: Option<Id>) {
    editId.Some? && editId.value != ""
  }

  /** `existing`: the record being edited, if the dialog edits one that
      still exists. */
  function Existing(subs: seq<Sub>, editId: Option<Id>): (r: Option<Sub>)
    ensures r.Some? <==> Editing(editId) && HasId(subs, editId.value)
    ensures r.Some? ==> r.value in subs && r.value.id == editId.value
  {
    if Editing(editId) then Find(subs, editId.value) else None
  }

  /** The fields an opened dialog is filled with; `costText` stands for
      the text of the existing record's cost. */
  function InitialForm(e: Option<Sub>, costText: int -> string): (f: Form)
    ensures e.None? ==> f == Form("", "Entertainment", "", "", "", Active)
    ensures e.Some? && e.value.sharedWith.Some? ==> f.shared == Join(e.value.sharedWith.value, ", ")
    ensures e.Some? && e.value.sharedWith.None? ==> f.shared == ""
    ensures e.Some? ==> f.name == e.value.service && f.costText == costText(e.value.monthlyCost)
                        && f.renewal == e.value.nextBilling && f.status == e.value.status
    ensures e.Some? ==> f.category == if e.value.category == "" then "Entertainment" else e.value.category
  {
    match e
    case None => Form("", "Entertainment", "", "", "", Active)
    case Some(s) =>
      Form(s.service, if s.category == "" then "Entertainment" else s.category, costText(s.monthlyCost),
           s.nextBilling, match s.sharedWith { case Some(names) => Join(names, ", ") case None => "" },
           s.status)
  }

  /** Opening a record for edit and reading the sharing box straight back
      reproduces its sharing list. */
  lemma EditFormKeepsSharing(s: Sub, costText: int -> string)
    requires s.sharedWith.Some? ==> WellFormedNames(s.sharedWith.value)
    ensures SharedNames(InitialForm(Some(s), costText).shared)
            == match s.sharedWith { case Some(names) => names case None => [] }
  {
    match s.sharedWith
    case Some(names) => SharedNamesRoundTrip(names);
    case None => SharedNamesRoundTrip([]);
  }

  datatype SaveOutcome = Ignored | PastDate | LimitReached | Proceed

  /** The guard chain of `handleSave`, in its order. */
  function SaveDecision(form: Form, editId: Option<Id>, today: string, tier: Tier, count: nat): (r: SaveOutcome)
    ensures r == Ignored <==> Trim(form.name) == "" || form.costText == ""
    ensures r == PastDate <==> r != Ignored && form.renewal != "" && LexLess(form.renewal, today)
    ensures r == LimitReached <==> r != Ignored && r != PastDate && !Editing(editId) && !CanAdd(tier, count)
  {
    if Trim(form.name) == "" || form.costText == "" then Ignored
    else if form.renewal != "" && LexLess(form.renewal, today) then PastDate
    else if !Editing(editId) && !CanAdd(tier, count) then LimitReached
    else Proceed
  }

  /** The record fields `handleSave` builds; `cents` is the parsed cost. */
  function BuildFields(form: Form, existing: Option<Sub>, cents: int): (f: SubFields)
    ensures f.service == Trim(form.name) && f.icon == IconFor(form.name)
    ensures f.status == form.status && f.category == form.category && f.monthlyCost == cents
    ensures f.nextBilling == if form.status == Paused then NoBilling else form.renewal
    ensures f.shared <==> SharedNames(form.shared) != []
    ensures f.sharedWith == if f.shared then Some(SharedNames(form.shared)) else None
    ensures existing.Some? && existing.value.lastUsed != Other("") ==> f.lastUsed == existing.value.lastUsed
    ensures (existing.None? || existing.value.lastUsed == Other("")) ==> f.lastUsed == Never
    ensures existing.Some? && existing.value.currentMonthUsage != Label("")
            ==> f.currentMonthUsage == existing.value.currentMonthUsage
    ensures (existing.None? || existing.value.currentMonthUsage == Label("")) ==> f.currentMonthUsage == Label("0 days")
  {
    var names := SharedNames(form.shared);
    SubFields(
      Trim(form.name),
      IconFor(form.name),
      form.status,
      if form.status == Paused then NoBilling else form.renewal,
      cents,
      if existing.Some? && existing.value.lastUsed != Other("") then existing.value.lastUsed else Never,
      if existing.Some? && existing.value.currentMonthUsage != Label("") then existing.value.currentMonthUsage
      else Label("0 days"),
      |names| > 0,
      if |names| > 0 then Some(names) else None,
      form.category)
  }

  /** The list after a save: unchanged unless every guard passed; then an
      update of the edited record when it still exists, and otherwise an
      append. */
  function SavedList(subs: seq<Sub>, form: Form, editId: Option<Id>, today: string, tier: Tier,
                     cents: int, freshId: Id): seq<Sub>
  {
    if SaveDecision(form, editId, today, tier, |subs|) != Proceed then subs
    else
      var existing := Existing(subs, editId);
      var fields := BuildFields(form, existing, cents);
      if existing.Some? then UpdateById(subs, editId.value, FullPatch(fields))
      else subs + [NewSub(fields, freshId)]
  }

  /** A save made from the add dialog never takes the list past the plan's
      ceiling. */
  lemma AddRespectsCeiling(subs: seq<Sub>, form: Form, today: string, tier: Tier, cents: int, freshId: Id)
    requires Limits(tier).maxSubscriptions.Some? && |subs| <= Limits(tier).maxSubscriptions.value
    ensures |SavedList(subs, form, None, today, tier, cents, freshId)| <= Limits(tier).maxSubscriptions.value
  {
    if SaveDecision(form, None, today, tier, |subs|) == Proceed {
      assert CanAdd(tier, |subs|);
      assert Existing(subs, None).None?;
      assert |SavedList(subs, form, None, today, tier, cents, freshId)| == |subs| + 1;
    }
  }

  /** Saving an edit keeps the number of records, the edited record's
      identifier and its usage log. */
  lemma EditKeepsShape(subs: seq<Sub>, form: Form, id: Id, today: string, tier: Tier, cents: int, freshId: Id)
    requires id != "" && HasId(subs, id)
    ensures |SavedList(subs, form, Some(id), today, tier, cents, freshId)| == |subs|
    ensures forall i :: 0 <= i < |subs| ==>
      SavedList(subs, form, Some(id), today, tier, cents, freshId)[i].id == subs[i].id
      && SavedList(subs, form, Some(id), today, tier, cents, freshId)[i].dailyHours == subs[i].dailyHours
  {
    var r := SavedList(subs, form, Some(id), today, tier, cents, freshId);
    if SaveDecision(form, Some(id), today, tier, |subs|) == Proceed {
      var fields := BuildFields(form, Existing(subs, Some(id)), cents);
      forall i | 0 <= i < |subs|
        ensures r[i].id == subs[i].id && r[i].dailyHours == subs[i].dailyHours
      {
        if subs[i].id == id {
          FullPatchReplacesFields(subs[i], fields);
        }
      }
    }
  }

  /** `handleSave`. `cents` is the parsed cost text; the result says which
      guard stopped the save, and `Proceed` means the dialog closes. */
  method HandleSave(ledger: Ledger, plan: TierState, form: Form, editId: Option<Id>, today: string,
                    cents: int, freshId: Id) returns (outcome: SaveOutcome)
    modifies ledger`subscriptions
    ensures outcome == SaveDecision(form, editId, today, plan.tier, |old(ledger.subscriptions)|)
    ensures ledger.subscriptions
            == SavedList(old(ledger.subscriptions), form, editId, today, plan.tier, cents, freshId)
  {
    ghost var subs0 := ledger.subscriptions;
    if Trim(form.name) == "" || form.costText == "" {
      return Ignored;
    }
    if form.renewal != "" && LexLess(form.renewal, today) {
      return PastDate;
    }
    if !Editing(editId) && !plan.CanAddSubscription(|ledger.subscriptions|) {
      return LimitReached;
    }
    assert SaveDecision(form, editId, today, plan.tier, |subs0|) == Proceed;
    var icon := GetIcon(form.name);
    var existing := Existing(ledger.subscriptions, editId);
    var fields := BuildFields(form, existing, cents);
    assert fields.icon == icon;
    assert SavedList(subs0, form, editId, today, plan.tier, cents, freshId)
        == if existing.Some? then UpdateById(subs0, editId.value, FullPatch(fields)) else subs0 + [NewSub(fields, freshId)];
    if existing.Some? {
      ledger.UpdateSubscription(editId.value, FullPatch(fields));
    } else {
      ledger.AddSubscription(fields, freshId);
    }
    return Proceed;
  }

  /** `handleDelete`: deletes the edited record, and closes, only when the
      dialog is editing. */
  method HandleDelete(ledger: Ledger, editId: Option<Id>) returns (closed: bool)
    modifies ledger`subscriptions, ledger`selectedSubId
    ensures closed == Editing(editId)
    ensures closed ==> ledger.subscriptions == RemoveById(old(ledger.subscriptions), editId.value)
    ensures closed ==> ledger.selectedSubId
                       == if old(ledger.selectedSubId) == Some(editId.value) then None else old(ledger.selectedSubId)
    ensures !closed ==> ledger.subscriptions == old(ledger.subscriptions)
                        && ledger.selectedSubId == old(ledger.selectedSubId)
  {
    closed := Editing(editId);
    if closed {
      ledger.DeleteSubscription(editId.value);
    }
  }
}
