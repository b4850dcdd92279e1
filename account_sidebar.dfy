/** The account panel's data export and its list of shared plans. Both are
    computed from whatever list they are given; the panel itself passes the
    demonstration fixture. */
module AccountSidebar {
  import opened Seqs
  import opened Text
  import opened Subscriptions
  import opened CsvExport
  import MockData
  import SavingsMetrics

  /** Spend on plans whose "k days ago" marker is thirty days or older, of
      either status; a plan never used is not counted. */
  function Waste(subs: seq<Sub>): (w: int)
    ensures w == SumOf(MockData.LowUsageAlerts(subs), Cost)
  {
    CostWhere(subs, MockData.LowUsage)
  }

  /** A summary line: its caption, a comma and the amount to two decimals,
      which splitting at the comma gives back. */
  function SummaryLine(caption: string, cents: int): (line: string)
    requires Free(caption, ',') && Free(caption, '\n')
    ensures Split(line, ',') == [caption, FormatCents(cents)]
    ensures Free(line, '\n')
  {
    CostFree(cents, ',');
    CostFree(cents, '\n');
    var parts := [caption, FormatCents(cents)];
    assert parts[1..] == [FormatCents(cents)];
    SplitJoinEmptyPad(parts, ',');
    JoinFree(parts, ",", '\n');
    Join(parts, ",")
  }

  const SpendCaption: string := "Monthly Spend"
  const SaveCaption: string := "Monthly Save"
  const WasteCaption: string := "Monthly Waste"

  lemma CaptionsSingleField()
    ensures Free(SpendCaption, ',') && Free(SaveCaption, ',') && Free(WasteCaption, ',')
    ensures Free(SpendCaption, '\n') && Free(SaveCaption, '\n') && Free(WasteCaption, '\n')
  {
  }

  /** The blank line and the three summary lines after the records. */
  function SummaryLines(subs: seq<Sub>): (r: seq<string>)
    ensures |r| == 4 && r[0] == ""
    ensures Split(r[1], ',') == [SpendCaption, FormatCents(CostWhere(subs, IsActive))]
    ensures Split(r[2], ',') == [SaveCaption, FormatCents(CostWhere(subs, IsPaused))]
    ensures Split(r[3], ',') == [WasteCaption, FormatCents(Waste(subs))]
    ensures Free(r[1], '\n') && Free(r[2], '\n') && Free(r[3], '\n')
  {
    CaptionsSingleField();
    var spend := SummaryLine(SpendCaption, CostWhere(subs, IsActive));
    var save := SummaryLine(SaveCaption, CostWhere(subs, IsPaused));
    var waste := SummaryLine(WasteCaption, Waste(subs));
    ["", spend, save, waste]
  }

  /** The lines of the exported file: header, one line per record in list
      order, a blank line, then spend, savings from paused plans and waste. */
  function ExportLines(subs: seq<Sub>): (r: seq<string>)
    ensures |r| == |subs| + 5
    ensures r[0] == HeaderLine()
    ensures forall i :: 0 <= i < |subs| ==> r[i + 1] == Row(subs[i])
    ensures r[|subs| + 1..] == SummaryLines(subs)
  {
    var r := [HeaderLine()] + RecordLines(subs) + SummaryLines(subs);
    assert r[|subs| + 1..] == SummaryLines(subs);
    r
  }

  /** Splitting the downloaded file into lines gives the export lines back
      when no free-text field holds a line feed. */
  lemma ExportFileRoundTrip(subs: seq<Sub>)
    requires forall i :: 0 <= i < |subs| ==>
      Free(subs[i].service, '\n') && Free(subs[i].nextBilling, '\n') && Free(subs[i].category, '\n')
    ensures Split(FileText(ExportLines(subs)), '\n') == ExportLines(subs)
  {
    var r := ExportLines(subs);
    HeaderSingleLine();
    forall i | 0 <= i < |subs| ensures Free(Row(subs[i]), '\n') {
      RowSingleLine(subs[i]);
    }
    var summary := SummaryLines(subs);
    forall i | 0 <= i < |r| ensures Free(r[i], '\n') {
      if 1 <= i <= |subs| {
        assert r[i] == r[(i - 1) + 1];
      } else if i > |subs| {
        assert r[i] == summary[i - |subs| - 1];
        assert i == |subs| + 1 || i == |subs| + 2 || i == |subs| + 3 || i == |subs| + 4;
      }
    }
    FileRoundTrip(r);
  }

  /** The summary does not depend on the order of the list. */
  lemma SummaryPermutation(a: seq<Sub>, b: seq<Sub>)
    requires multiset(a) == multiset(b)
    ensures SummaryLines(a) == SummaryLines(b)
  {
    CostWherePermutation(a, b, IsActive);
    CostWherePermutation(a, b, IsPaused);
    CostWherePermutation(a, b, MockData.LowUsage);
  }

  /** The savings card's money at risk is the export's waste plus the cost
      of the plans never used: the card reads "Never" as 999 days, the
      export does not match it at all. */
  lemma PotentialIsWastePlusNever(subs: seq<Sub>)
    ensures SavingsMetrics.Compute(subs).potentialSavings == Waste(subs) + CostWhere(subs, IsNever)
  {
    var unusedCost := (s: Sub) => if SavingsMetrics.Unused(s) then s.monthlyCost else 0;
    var lowCost := (s: Sub) => if MockData.LowUsage(s) then s.monthlyCost else 0;
    var neverCost := (s: Sub) => if IsNever(s) then s.monthlyCost else 0;
    forall s: Sub ensures unusedCost(s) == lowCost(s) + neverCost(s) {
      UnusedIsLowOrNever(s);
    }
    SumOfAdd(subs, lowCost, neverCost, unusedCost);
    SumOfFilter(subs, SavingsMetrics.Unused, Cost, unusedCost);
    SumOfFilter(subs, MockData.LowUsage, Cost, lowCost);
    SumOfFilter(subs, IsNever, Cost, neverCost);
  }

  predicate IsNever(s: Sub) { s.lastUsed == Never }

  /** Thirty days unused, in the savings card's reading, is a "k days ago"
      marker of thirty or more, or "Never"; never both. */
  lemma UnusedIsLowOrNever(s: Sub)
    ensures SavingsMetrics.Unused(s) <==> MockData.LowUsage(s) || IsNever(s)
    ensures !(MockData.LowUsage(s) && IsNever(s))
  {
  }

  /** `sharedSubs`: the plans shared with someone, in list order. */
  function SharedSubs(subs: seq<Sub>): (r: seq<Sub>)
    ensures forall x :: x in r <==> x in subs && x.shared
    ensures |r| <= |subs|
  {
    Filter(subs, IsShared)
  }

  /** Order is kept: the shared plans of a concatenation are those of the
      first part followed by those of the second. */
  lemma SharedSubsOrder(a: seq<Sub>, b: seq<Sub>)
    ensures SharedSubs(a + b) == SharedSubs(a) + SharedSubs(b)
  {
    FilterConcat(a, b, IsShared);
  }

  /** A list of shared plans is its own shared list. */
  lemma SharedSubsKeepsShared(subs: seq<Sub>)
    requires forall i :: 0 <= i < |subs| ==> subs[i].shared
    ensures SharedSubs(subs) == subs
  {
    FilterAll(subs, IsShared);
  }

  /** On the fixture the waste line is Adobe CC, LinkedIn Premium and
      Grammarly together: 96.98. */
  lemma FixtureWaste()
    ensures Waste(MockData.Fixture) == 9698
  {
    MockData.FixtureAlerts();
    SumOfThree(MockData.AdobeCc, MockData.LinkedInPremium, MockData.Grammarly);
  }

  lemma SumOfThree(a: Sub, b: Sub, c: Sub)
    ensures SumOf([a, b, c], Cost) == a.monthlyCost + b.monthlyCost + c.monthlyCost
  {
    assert [c][1..] == [];
    assert SumOf([c], Cost) == c.monthlyCost;
    assert [b, c][1..] == [c];
    assert SumOf([b, c], Cost) == b.monthlyCost + c.monthlyCost;
    assert [a, b, c][1..] == [b, c];
  }

  /** The panel's screens: the menu and the ten pages it links to. */
  datatype SidebarView =
    | MenuPanel | ProfilePanel | UsagePanel | CardPanel | PlanPanel | PaymentsPanel
    | ResetPanel | SupportPanel | NotificationsPanel | FamilyPanel | ExportPanel

  /** The pages the menu lists, in menu order. */
  const MenuTargets: seq<SidebarView> :=
    [ProfilePanel, UsagePanel, CardPanel, PlanPanel, PaymentsPanel,
     ResetPanel, SupportPanel, NotificationsPanel, FamilyPanel, ExportPanel]

  /** Every page but the menu itself is listed exactly once. */
  lemma MenuListsEveryPage(v: SidebarView)
    ensures v in MenuTargets <==> v != MenuPanel
    ensures forall i, j :: 0 <= i < j < |MenuTargets| ==> MenuTargets[i] != MenuTargets[j]
  {
  }

  /** A notification switch: what it is about and how it is delivered. */
  datatype Topic = Renewal7 | Renewal3 | Renewal1 | Payment | UsageTopic | Summary | QuestionsTopic
  datatype Channel = Email | Push

  /** The switches' settings when the panel opens. */
  function DefaultSetting(t: Topic, c: Channel): bool {
    match (t, c)
    case (Renewal7, Email) => true
    case (Renewal7, Push) => false
    case (Renewal3, _) => true
    case (Renewal1, _) => true
    case (Payment, Email) => true
    case (Payment, Push) => false
    case (UsageTopic, Email) => false
    case (UsageTopic, Push) => true
    case (Summary, Email) => true
    case (Summary, Push) => false
    case (QuestionsTopic, Email) => false
    case (QuestionsTopic, Push) => true
  }

  /** The switches' initial state as a table. */
  function Defaults(): map<(Topic, Channel), bool> {
    map[
      (Renewal7, Email) := true, (Renewal7, Push) := false,
      (Renewal3, Email) := true, (Renewal3, Push) := true,
      (Renewal1, Email) := true, (Renewal1, Push) := true,
      (Payment, Email) := true, (Payment, Push) := false,
      (UsageTopic, Email) := false, (UsageTopic, Push) := true,
      (Summary, Email) := true, (Summary, Push) := false,
      (QuestionsTopic, Email) := false, (QuestionsTopic, Push) := true]
  }

  /** The table has a setting for every switch, and it is the default. */
  lemma DefaultsComplete()
    ensures forall t: Topic, c: Channel :: (t, c) in Defaults() && Defaults()[(t, c)] == DefaultSetting(t, c)
  {
    forall t: Topic, c: Channel ensures (t, c) in Defaults() && Defaults()[(t, c)] == DefaultSetting(t, c) {
      match c
      case Email =>
        {
          match t
          case Renewal7 =>
          case Renewal3 =>
          case Renewal1 =>
          case Payment =>
          case UsageTopic =>
          case Summary =>
          case QuestionsTopic =>
        }
      case Push =>
        {
          match t
          case Renewal7 =>
          case Renewal3 =>
          case Renewal1 =>
          case Payment =>
          case UsageTopic =>
          case Summary =>
          case QuestionsTopic =>
        }
    }
  }

  /** The card number as shown: in full when revealed, otherwise masked
      but for its last four digits. */
  function CardNumber(revealed: bool): (r: string)
    ensures |r| == 19 && r[15..] == "7831"
    ensures !revealed ==> forall i :: 0 <= i < 15 ==> r[i] == ' ' || r[i] == '\U{2022}'
  {
    if revealed then "4532 8921 0045 7831" else "\U{2022}\U{2022}\U{2022}\U{2022} \U{2022}\U{2022}\U{2022}\U{2022} \U{2022}\U{2022}\U{2022}\U{2022} 7831"
  }

  class AccountPanel {
    var view: SidebarView
    var cardRevealed: bool
    var settings: map<(Topic, Channel), bool>

    /** The panel opens on its menu, the card masked and every switch at
        its default. */
    constructor ()
      ensures view == MenuPanel && !cardRevealed
      ensures settings == Defaults()
    {
      view := MenuPanel;
      cardRevealed := false;
      settings := Defaults();
    }

    /** A menu entry: only the menu shows the entries. */
    method Open(target: SidebarView)
      requires view == MenuPanel && target in MenuTargets
      modifies this`view
      ensures view == target
    {
      view := target;
    }

    /** The back arrow of every page. */
    method Back()
      modifies this`view
      ensures view == MenuPanel
    {
      view := MenuPanel;
    }

    /** "Reveal Number" / "Hide Number". */
    method ToggleCard()
      modifies this`cardRevealed
      ensures cardRevealed == !old(cardRevealed)
    {
      cardRevealed := !cardRevealed;
    }

    /** A switch changes its own setting and no other. */
    method SetSwitch(t: Topic, c: Channel, on: bool)
      modifies this`settings
      ensures settings == old(settings)[(t, c) := on]
      ensures forall k :: k in old(settings) && k != (t, c) ==> k in settings && settings[k] == old(settings)[k]
    {
      settings := settings[(t, c) := on];
    }
  }
}
