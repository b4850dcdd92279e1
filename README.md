# SubCentral core, modelled in Dafny

SubCentral is a browser-local subscription tracker. A user registers an
account, lists their subscriptions, and sees derived figures on a dashboard:
- monthly spend and savings;
- money at risk from plans they do not use;
- renewals due within the week;
- cost per hour of use.

A vibe-check overlay asks how many hours each active plan was used and logs
the answers. A plan tier (Basic, Premium or Premium Plus) caps how many plans may be added.
The account panel and the header export the list as comma-separated text.

This project models that core, one Dafny module per source file:

| module | file | what it holds |
|---|---|---|
| `Subscriptions` | `subscription_context.dfy` | The subscription record and its patch. It has the pure list operations behind add, update, delete and usage logging. The `Ledger` class holds the list, the selection, the overlay flag and the dismissal date, and its methods replace them. |
| `Tiers` | `tier_context.dfy` | The tier table, the add ceiling, and reading back the stored tier. |
| `AddSubscriptionModal` | `add_subscription.dfy` | Logo lookup and the form's initial values. It has the save guard chain (`HandleSave`) and delete. |
| `VibeCheck` | `vibe_check.dfy` | The question list and the `Overlay` class, which steps through questions, logs hours, skips and closes. |
| `DeepDive` | `deep_dive.dfy` | Days inactive, cost per hour and per day, the usage chart, and renewal progress. |
| `SavingsMetrics` | `savings_metrics.dfy` | The three savings figures. |
| `UpcomingRenewals` | `upcoming_renewals.dfy` | The seven-day window sorted by days left. It also has urgency labels and week progress. |
| `StatCards` | `stat_cards.dfy` | The three dashboard cards: monthly spend, the active count and the money saved by pausing. |
| `MockData` | `mock_data.dfy` | The demonstration fixture and its low-usage filter. |
| `AccountSidebar` | `account_sidebar.dfy` | The export with summary lines, the shared-plan list, and the panel's view, card and notification state. |
| `AppHeader` | `app_header.dfy` | The header export and the profile menu's state. |
| `CsvExport` | `csv_export.dfy` | The header line and record lines that both exports share. |
| `Auth` | `auth_context.dfy` | The account store (`AuthStore`): users keyed by e-mail, plus the signed-in profile. |
| `AuthPage` | `auth_page.dfy` | The sign-in page's three views and the guard chains in front of the store. |
| `Locale` | `locale_context.dfy` | Translation lookup, currency symbols, poll questions, locale detection, and the locale state. |
| `Locales` | `locales.dfy` | The country table and its detection function. |
| `Wrappers` | `wrappers.dfy` | Helpers: `Option`, and `Slot`, which is a storage value that is absent, unreadable or parsed. |
| `Seqs` | `seqs.dfy` | Helpers: order-preserving filter and sums, with their permutation and concatenation laws. |
| `Text` | `text.dfy` | Helpers: trim, lower-case, join, split, decimal numerals and two-decimal amounts. |

Modelling conventions used throughout:

- **Money** is held in integer cents. Usage hours are `real`.
- **Storage keys** (`localStorage`) become the values read at start-up, as a `Slot<T>` or an `Option<string>`. Where the code writes a key, the value becomes a field that the methods assign.
- **Host inputs become parameters:**
  - the clock, as the day difference from today;
  - the fresh id;
  - the browser language and time zone;
  - the page's colour scheme.
- **`lastUsed`** is a datatype:
  - `Today`;
  - `Yesterday`;
  - `DaysAgo(k)`, which stands for any text matching `(\d+)\s*days?\s*ago`;
  - `Never`;
  - `Other(text)`.
- **Mock data.** The stat cards, the sidebar and the header all compute from
  the demonstration fixture in `src/lib/mockData.ts`, not from the ledger.
  The model computes them from any list it is given, and proves the
  fixture's values separately.

Four behaviours of the code that a reader might not expect:
- The ledger's update does not force the billing date to "—" on a paused
  record. Only the modal does, when it builds the record.
- The save handler does not reject a negative cost.
- The inactivity threshold for "waste" differs by component:
  - 30 days of either status in the savings card and the export;
  - 7 days in the deep-dive panel.
- Saving with an edit id that names no record adds a new record.

Two quirks of the code are proved as they stand:
- **Profile menu.** Closing the header's profile menu with the avatar button
  keeps its sub-panel (`AppHeader.ReopenAfterToggle`).
- **E-mail change.** Editing the signed-in profile's e-mail address leaves the
  stored record under the old key (`Auth.EmailChangeLeavesOldKey`).

## Model

| member | source | states |
|---|---|---|
| Subscriptions.ActivePausedSplit | src/components/dashboard/StatCards.tsx:10-11 | Active spend plus paused spend is the total. The active count plus the paused count is the length of the list. |
| Subscriptions.CostWherePermutation | src/components/dashboard/SavingsMetrics.tsx:17-19 | The cost of the records satisfying any predicate does not depend on the order of the list. |
| Subscriptions.NewSub | src/contexts/SubscriptionContext.tsx:69 | A new record carries the fresh id and the given fields. Its usage log starts empty. |
| Subscriptions.EmptyPatchKeeps | src/contexts/SubscriptionContext.tsx:74 | Spreading an empty patch over a record leaves it unchanged. |
| Subscriptions.PatchIdempotent | src/contexts/SubscriptionContext.tsx:74 | Applying the same patch twice equals applying it once. |
| Subscriptions.FullPatchReplacesFields | src/components/dashboard/AddSubscriptionModal.tsx:96 | A patch that sets every editable field gives those fields. It keeps the id and the usage log. |
| Subscriptions.MapMatching | src/contexts/SubscriptionContext.tsx:74 | Mapping keeps the length and the positions. Each record with the id is transformed, and every other record is unchanged. |
| Subscriptions.UpdateById | src/contexts/SubscriptionContext.tsx:73-75 | The records with the id take the patch, and every other record is unchanged. A list without the id is unchanged. |
| Subscriptions.RemoveById | src/contexts/SubscriptionContext.tsx:77-78 | Exactly the records without the id remain, so the id is gone. A list without the id is unchanged. |
| Subscriptions.RemoveByIdOrder | src/contexts/SubscriptionContext.tsx:78 | Deleting from a concatenation gives the two parts with the id deleted, one after the other, so the others keep their order. |
| Subscriptions.RemoveByIdSingle | src/contexts/SubscriptionContext.tsx:78 | One record is dropped exactly when it has the id and kept once otherwise. With the concatenation law this fixes the count of each record. |
| Subscriptions.ApplyPatch | src/contexts/SubscriptionContext.tsx:74 | Each field the patch sets takes the patch's value, and every other field keeps the record's. |
| Subscriptions.Logged | src/contexts/SubscriptionContext.tsx:84-90 | The hours are appended to the log, and nothing else changes except as follows. A positive amount marks the plan used today, and it sets the month's summary to the sum of the new log. A zero amount leaves both unchanged. |
| Subscriptions.LoggedSummaryIsLogTotal | src/contexts/SubscriptionContext.tsx:88 | After a positive amount is logged, the month's summary is the sum of every logged hour value. |
| Subscriptions.LogUsageAt | src/contexts/SubscriptionContext.tsx:82-91 | The records with the id are logged, and every other record and the length are unchanged. |
| Subscriptions.Find | src/components/dashboard/AddSubscriptionModal.tsx:44 | Returns none exactly when no record has the id. Otherwise it returns a record of the list with that id. |
| Subscriptions.RemoveKeepsUnique | src/contexts/SubscriptionContext.tsx:78 | Deleting keeps the ids unique. |
| Subscriptions.AddKeepsUnique | src/contexts/SubscriptionContext.tsx:69-70 | Adding a record with a fresh id keeps the ids unique. |
| Subscriptions.LoadSubscriptions | src/contexts/SubscriptionContext.tsx:38-45 | A parsed stored list is used as it is. An absent or unreadable one falls back to the empty list. |
| Subscriptions.InitialVibeFlag | src/contexts/SubscriptionContext.tsx:49-53 | At start the overlay shows exactly when the check was not dismissed today and the list is non-empty. |
| Subscriptions.RecheckDue | src/contexts/SubscriptionContext.tsx:60-66 | The recheck is due exactly when the check was not dismissed today and some plan is active. |
| Subscriptions.RecheckImpliesInitial | src/contexts/SubscriptionContext.tsx:49-66 | Whenever the recheck is due, the start-up test holds too. Neither holds on a day the check was dismissed. |
| Subscriptions.Ledger.constructor | src/contexts/SubscriptionContext.tsx:38-53 | The list comes from the stored slot and nothing is selected. The stored dismissal date is kept, and the overlay flag is the start-up test. |
| Subscriptions.Ledger.RecheckVibe | src/contexts/SubscriptionContext.tsx:60-66 | The flag is raised when the recheck is due and otherwise kept, so it can only turn on. |
| Subscriptions.Ledger.AddSubscription | src/contexts/SubscriptionContext.tsx:68-71 | The new record is appended. Unique ids stay unique when the new id is fresh. |
| Subscriptions.Ledger.UpdateSubscription | src/contexts/SubscriptionContext.tsx:73-75 | The list becomes the patched list. |
| Subscriptions.Ledger.DeleteSubscription | src/contexts/SubscriptionContext.tsx:77-80 | The record is removed, and unique ids stay unique. The selection is cleared only when it named the deleted id. |
| Subscriptions.Ledger.LogUsage | src/contexts/SubscriptionContext.tsx:82-92 | The list becomes the list with the hours logged. |
| Subscriptions.Ledger.SetSelectedSubId | src/contexts/SubscriptionContext.tsx:47 | Only the selection changes. |
| Subscriptions.Ledger.DismissVibeCheck | src/contexts/SubscriptionContext.tsx:94-97 | The flag is cleared, and today's date becomes the dismissal date. |
| Subscriptions.DismissThenEdit | src/contexts/SubscriptionContext.tsx:60-66 | After a dismissal today, a later edit on the same day does not raise the overlay again. |
| Tiers.Limits | src/contexts/TierContext.tsx:15-19 | The ceiling is 4 on Basic, 10 on Premium and none on Premium Plus. Basic has no feature, Premium every feature but data export and billing download, and Premium Plus all of them. |
| Tiers.TierState.CanAddSubscription | src/contexts/TierContext.tsx:54-57 | A plan may be added exactly when the current tier has no ceiling or the count is below it. |
| Tiers.CanAdd | src/contexts/TierContext.tsx:54-57 | A plan may be added exactly when the count is below 4 on Basic or below 10 on Premium. Premium Plus is always allowed. |
| Tiers.CanAddAntitone | src/contexts/TierContext.tsx:56 | If a count may be added, so may every smaller count. |
| Tiers.EntitlementsMonotone | src/contexts/TierContext.tsx:15-19 | A higher tier has every entitlement of a lower one, and a ceiling at least as high. |
| Tiers.ParseStoredTier | src/contexts/TierContext.tsx:39-45 | Only the stored names "premium" and "premiumPlus" select those tiers. Any other value selects Basic. |
| Tiers.StoredTierRoundTrip | src/contexts/TierContext.tsx:39-50 | Storing a tier and reading it back gives the same tier. |
| Tiers.AllTiers | src/contexts/TierContext.tsx:59-61 | The table lists the three tiers in rank order, each with its name, price and limits. |
| Tiers.AllTiersComplete | src/contexts/TierContext.tsx:59 | Every tier appears in the table. |
| Tiers.TierState.constructor | src/contexts/TierContext.tsx:39-45 | The tier is read back from the stored value. |
| Tiers.TierState.SetTier | src/contexts/TierContext.tsx:47-52 | The tier and its limits change. Storage holds its key, which reads back as the same tier. |
| AddSubscriptionModal.FirstLogoFrom | src/components/dashboard/AddSubscriptionModal.tsx:23-25 | Returns the first table entry from the given position whose key occurs in the lower-cased name. It returns none when no key occurs. |
| AddSubscriptionModal.IconFor | src/components/dashboard/AddSubscriptionModal.tsx:21-27 | The result is empty exactly when no key occurs in the lower-cased name. Otherwise it is one of the table's logos. |
| AddSubscriptionModal.GetIcon | src/components/dashboard/AddSubscriptionModal.tsx:21-27 | The loop with its early return computes the same icon as the search. |
| AddSubscriptionModal.TrimAll | src/components/dashboard/AddSubscriptionModal.tsx:81 | Each piece is trimmed, and the order and count are kept. |
| AddSubscriptionModal.SharedNames | src/components/dashboard/AddSubscriptionModal.tsx:81 | Every name is trimmed and non-empty. |
| AddSubscriptionModal.TrimmedPieces | src/components/dashboard/AddSubscriptionModal.tsx:81 | Trimmed, non-empty names, joined by a comma and blank padding, split and trim back to themselves. |
| AddSubscriptionModal.SharedNamesRoundTrip | src/components/dashboard/AddSubscriptionModal.tsx:61 | Names shown in the edit form as ", "-joined text read back as the same names. |
| AddSubscriptionModal.EditFormKeepsSharing | src/components/dashboard/AddSubscriptionModal.tsx:61 | Opening a record for edit and saving unchanged keeps its list of co-sharers. |
| AddSubscriptionModal.Existing | src/components/dashboard/AddSubscriptionModal.tsx:44 | Returns a record exactly when the dialog is editing an id the list holds. That record is the one with the id. |
| AddSubscriptionModal.InitialForm | src/components/dashboard/AddSubscriptionModal.tsx:54-63 | A new record starts from the blank form, with the Entertainment category and the active status. An edited record shows its name, cost text, renewal date and status. Its category falls back to Entertainment when it is empty, and its co-sharers are joined by ", ". |
| AddSubscriptionModal.SaveDecision | src/components/dashboard/AddSubscriptionModal.tsx:66-78 | The guard chain, in order: a blank name or cost, then a renewal date before today, then the tier ceiling for new records only. Otherwise the record is saved. |
| AddSubscriptionModal.BuildFields | src/components/dashboard/AddSubscriptionModal.tsx:80-93 | The saved record's fields:
- the trimmed name, its logo, the status, the category and the parsed cents;
- "—" as the billing date when paused;
- a list of co-sharers exactly when some trimmed name is non-empty;
- the edited record's last-used marker and monthly usage, kept unless they are empty. |
| AddSubscriptionModal.AddRespectsCeiling | src/components/dashboard/AddSubscriptionModal.tsx:75-78 | An add that succeeds never takes the list past the tier's ceiling. |
| AddSubscriptionModal.EditKeepsShape | src/components/dashboard/AddSubscriptionModal.tsx:95-96 | An edit keeps the list's length, ids and order. |
| AddSubscriptionModal.HandleSave | src/components/dashboard/AddSubscriptionModal.tsx:66-103 | The outcome is the guard chain's decision. The ledger holds the list that decision produces, and it is unchanged when a guard fails. |
| AddSubscriptionModal.HandleDelete | src/components/dashboard/AddSubscriptionModal.tsx:105-111 | The dialog closes exactly when it is editing. The edited record is then removed and the selection is cleared if it was that record. Otherwise nothing changes. |
| VibeCheck.Questions | src/components/dashboard/VibeCheckOverlay.tsx:32 | The questions are exactly the active plans. |
| VibeCheck.QuestionsOrder | src/components/dashboard/VibeCheckOverlay.tsx:32-41 | The questions of a concatenation are those of its first part followed by those of its second, so they follow list order. |
| VibeCheck.QuestionsSingle | src/components/dashboard/VibeCheckOverlay.tsx:32-41 | A single active plan gives one question and a paused plan none. With the concatenation law, each active plan gives one question. |
| VibeCheck.IsLast | src/components/dashboard/VibeCheckOverlay.tsx:49 | A question inside the list is the last one exactly when it is at the final index. An empty list counts as finished. |
| VibeCheck.Overlay.Visible | src/components/dashboard/VibeCheckOverlay.tsx:46 | The overlay shows exactly when the flag is set and some plan is active. |
| VibeCheck.Advance | src/components/dashboard/VibeCheckOverlay.tsx:53-59 | The last question finishes the overlay. Any other question moves to the next one with the slider reset. |
| VibeCheck.StepsVisitEachOnce | src/components/dashboard/VibeCheckOverlay.tsx:49-70 | Stepping from the first question visits every question once, in order, and then finishes. |
| VibeCheck.SliderHours | src/components/dashboard/VibeCheckOverlay.tsx:113 | The hours are non-negative, and at most 8 for every slider position. |
| VibeCheck.Overlay.constructor | src/components/dashboard/VibeCheckOverlay.tsx:32-35 | The overlay starts on the first question with the default hours. It is not finished and has no dismissal pending. |
| VibeCheck.Overlay.SetHours | src/components/dashboard/VibeCheckOverlay.tsx:113 | Only the slider value changes. |
| VibeCheck.Overlay.Step | src/components/dashboard/VibeCheckOverlay.tsx:62-70 | The position advances as `Advance` says. Past the last question the dismissal is scheduled. Otherwise the slider is reset. |
| VibeCheck.Overlay.HandleSkip | src/components/dashboard/VibeCheckOverlay.tsx:62-70 | It advances without logging anything. After the last question the dismissal is scheduled and the slider keeps its value. |
| VibeCheck.Overlay.HandleNext | src/components/dashboard/VibeCheckOverlay.tsx:51-60 | The slider's hours are logged on the current question's plan, then it advances. After the last question the dismissal is scheduled and the slider keeps its value. |
| VibeCheck.Overlay.TimerElapsed | src/components/dashboard/VibeCheckOverlay.tsx:55 | A pending dismissal clears the overlay flag, which hides the overlay, and records today as the dismissal date. |
| VibeCheck.Overlay.Close | src/components/dashboard/VibeCheckOverlay.tsx:91 | Closing at any point clears the overlay flag, which hides the overlay, and records today as the dismissal date. |
| DeepDive.IsWasting | src/components/dashboard/SubscriptionDeepDive.tsx:28 | A plan is flagged as wasting exactly when it was never used or was last used seven or more days ago. "Yesterday" and "Today" are not flagged. |
| DeepDive.DaysInactive | src/components/dashboard/SubscriptionDeepDive.tsx:10-17 | The deep-dive panel's reading of each marker:
- "k days ago" reads as k;
- yesterday as 1;
- never as 999;
- today and other text as 0. |
| DeepDive.CostPerHour | src/components/dashboard/SubscriptionDeepDive.tsx:23-25 | With hours logged, the cost per hour times the logged hours is the cost. Without hours it is zero. |
| DeepDive.CostPerDay | src/components/dashboard/SubscriptionDeepDive.tsx:24-26 | With hours logged, the cost per day times the logged days is the cost. Without hours it is zero. |
| DeepDive.CostPerDayIsDayOfHours | src/components/dashboard/SubscriptionDeepDive.tsx:24-26 | The cost per day is 24 times the cost per hour. |
| DeepDive.LoggingLowersCostPerHour | src/components/dashboard/SubscriptionDeepDive.tsx:25 | Once some hours are logged, logging more never raises the cost per hour. |
| DeepDive.ChartData | src/components/dashboard/SubscriptionDeepDive.tsx:31-34 | The chart shows the last seven log entries, or all of them when there are fewer, in order and labelled D1, D2 and so on. |
| DeepDive.ChartLabelsDistinct | src/components/dashboard/SubscriptionDeepDive.tsx:32 | The chart's labels are pairwise distinct. |
| DeepDive.ChartEndsWithLatest | src/components/dashboard/SubscriptionDeepDive.tsx:31 | The last bar is the latest log entry. |
| DeepDive.RenewalDays | src/components/dashboard/SubscriptionDeepDive.tsx:37-43 | None exactly for "—". An unreadable date is marked as such. A past date counts as zero days. |
| DeepDive.CycleProgress | src/components/dashboard/SubscriptionDeepDive.tsx:44 | The progress lies within 0 to 100. It is 100 with no days left and 0 with thirty or more left. |
| DeepDive.CycleProgressAntitone | src/components/dashboard/SubscriptionDeepDive.tsx:44 | Fewer days left never lowers the progress. |
| DeepDive.RenewalProgress | src/components/dashboard/SubscriptionDeepDive.tsx:44 | Zero without a renewal. The cycle progress for a readable date. Undefined exactly for an unreadable date. |
| SavingsMetrics.DaysInactive | src/components/dashboard/SavingsMetrics.tsx:6-11 | The savings card's reading of each marker: "k days ago" reads as k, never as 999, and everything else as 0. |
| SavingsMetrics.InactivityReadingsAgree | src/components/dashboard/SavingsMetrics.tsx:6-11 | This reading agrees with the deep-dive reading on every marker except yesterday, which reads 0 here and 1 there. |
| SavingsMetrics.Unused | src/components/dashboard/SavingsMetrics.tsx:18 | A plan counts as unused exactly when it was never used or was last used thirty or more days ago. |
| SavingsMetrics.Compute | src/components/dashboard/SavingsMetrics.tsx:17-20 | The card's figures, each the sum over its filter:
- paused savings;
- money at risk from plans unused for thirty days;
- the active total, which with the paused savings makes the total;
- the annual projection, twelve times the active total. |
| SavingsMetrics.ComputePermutation | src/components/dashboard/SavingsMetrics.tsx:17-20 | The three figures do not depend on the order of the list. |
| SavingsMetrics.PotentialWithinTotal | src/components/dashboard/SavingsMetrics.tsx:18 | With non-negative costs, the money at risk is at most the cost of all plans. |
| UpcomingRenewals.DaysUntil | src/components/dashboard/UpcomingRenewals.tsx:8-13 | No renewal exactly for "—". A readable date gives its day difference. |
| UpcomingRenewals.InWindow | src/components/dashboard/UpcomingRenewals.tsx:22 | A day count is in the window exactly when it is between 0 and 7. An unbilled plan and an unreadable date are never in it. |
| UpcomingRenewals.Window | src/components/dashboard/UpcomingRenewals.tsx:19-22 | The window holds exactly the active plans, with their days attached, whose days fall in the week. It is no longer than the list. |
| UpcomingRenewals.Annotate | src/components/dashboard/UpcomingRenewals.tsx:21 | Each plan paired with its days left, in order. |
| UpcomingRenewals.Insert | src/components/dashboard/UpcomingRenewals.tsx:23 | Inserting into a sorted list keeps it sorted and adds exactly the one element. |
| UpcomingRenewals.SortByDays | src/components/dashboard/UpcomingRenewals.tsx:23 | The result is sorted by days left and is a permutation of the input. |
| UpcomingRenewals.Upcoming | src/components/dashboard/UpcomingRenewals.tsx:19-23 | The result is sorted by days left and is a permutation of the window. Its members are exactly the active plans due within 0 to 7 days. |
| UpcomingRenewals.UnbilledNeverListed | src/components/dashboard/UpcomingRenewals.tsx:9 | A plan with "—" as its billing date is never listed. |
| UpcomingRenewals.RendersIffDue | src/components/dashboard/UpcomingRenewals.tsx:25 | The card renders exactly when some active plan is due within the week. |
| UpcomingRenewals.UrgencyOf | src/components/dashboard/UpcomingRenewals.tsx:27-31 | Urgent at one day or less, soon at two or three days, otherwise normal. |
| UpcomingRenewals.DaysLabel | src/components/dashboard/UpcomingRenewals.tsx:33-37 | The translated "Today" or "Tomorrow". From two days on, the numeral followed by the translated "days". |
| UpcomingRenewals.DaysLabelText | src/components/dashboard/UpcomingRenewals.tsx:33-37 | The English and Hindi labels for today and tomorrow, and "N days" in English. |
| UpcomingRenewals.WeekProgress | src/components/dashboard/UpcomingRenewals.tsx:50 | The bar lies within 0 to 100. It is full on the day and empty from seven days out. |
| UpcomingRenewals.WeekProgressAntitone | src/components/dashboard/UpcomingRenewals.tsx:50 | Fewer days left never gives a shorter bar. |
| StatCards.Stats | src/components/dashboard/StatCards.tsx:9-11 | The active count, the active spend and the paused savings are the sizes and sums of the two parts, which together make up the list. |
| StatCards.StatsPermutation | src/components/dashboard/StatCards.tsx:9-11 | The cards do not depend on the order of the list. |
| StatCards.FixtureStats | src/lib/mockData.ts:16-25 | On the fixture, the cards show 8 active plans, 84.97 of spend and 84.98 of paused savings. |
| MockData.LowUsage | src/lib/mockData.ts:55-58 | Only a "k days ago" marker can raise an alert, and it does so exactly when k is thirty or more. |
| MockData.LowUsageAlerts | src/lib/mockData.ts:55-59 | Exactly the plans with a "k days ago" marker of thirty or more. |
| MockData.LowUsageOrder | src/lib/mockData.ts:55 | The alerts of a concatenation are the alerts of each part, in order. |
| MockData.FixtureAlerts | src/lib/mockData.ts:16-25 | On the fixture, the alerts are Adobe CC, LinkedIn Premium and Grammarly, in that order. |
| MockData.FixtureWellFormed | src/lib/mockData.ts:16-25 | The fixture's ids are unique. A record is paused exactly when its billing date is "—". |
| AccountSidebar.Waste | src/components/account/AccountSidebar.tsx:48 | The export's waste is the sum over the low-usage alerts. |
| AccountSidebar.PotentialIsWastePlusNever | src/components/account/AccountSidebar.tsx:48 | The savings card's money at risk is the export's waste plus the cost of plans never used. |
| AccountSidebar.UnusedIsLowOrNever | src/components/account/AccountSidebar.tsx:48 | A plan unused thirty days is either a low-usage alert or never used, and never both. |
| AccountSidebar.FixtureWaste | src/components/account/AccountSidebar.tsx:48 | On the fixture, the waste is 96.98. |
| AccountSidebar.SummaryLine | src/components/account/AccountSidebar.tsx:52 | The line splits at its comma into the caption and the two-decimal amount. |
| AccountSidebar.SummaryLines | src/components/account/AccountSidebar.tsx:52 | A blank line, then spend, paused savings and waste, each splitting back to its caption and amount. |
| AccountSidebar.ExportLines | src/components/account/AccountSidebar.tsx:49-53 | The header, one row per plan in order, then the four summary lines. |
| AccountSidebar.ExportFileRoundTrip | src/components/account/AccountSidebar.tsx:54 | Splitting the file at line feeds gives back its lines when no field holds a line feed. |
| AccountSidebar.SummaryPermutation | src/components/account/AccountSidebar.tsx:46-48 | The summary does not depend on the order of the list. |
| AccountSidebar.SharedSubs | src/components/account/AccountSidebar.tsx:43 | Exactly the shared plans are kept. |
| AccountSidebar.SharedSubsOrder | src/components/account/AccountSidebar.tsx:43 | For a concatenation, the shared plans are those of each part, in order. |
| AccountSidebar.SharedSubsKeepsShared | src/components/account/AccountSidebar.tsx:43 | A list of shared plans is its own shared list. |
| AccountSidebar.MenuListsEveryPage | src/components/account/AccountSidebar.tsx:79-90 | The menu links to every page except itself, each exactly once. |
| AccountSidebar.DefaultsComplete | src/components/account/AccountSidebar.tsx:33-41 | Every switch has a setting when the panel opens, and the setting is its default. |
| AccountSidebar.CardNumber | src/components/account/AccountSidebar.tsx:159 | Both forms of the number show the same last four digits. The masked form hides every other digit. |
| AccountSidebar.AccountPanel.constructor | src/components/account/AccountSidebar.tsx:30-41 | The panel opens on the menu with the card masked and the default switches. |
| AccountSidebar.AccountPanel.Open | src/components/account/AccountSidebar.tsx:105 | A menu entry shows its page. |
| AccountSidebar.AccountPanel.Back | src/components/account/AccountSidebar.tsx:122 | The back arrow returns to the menu. |
| AccountSidebar.AccountPanel.ToggleCard | src/components/account/AccountSidebar.tsx:164 | Reveal and hide flip the card's state. |
| AccountSidebar.AccountPanel.SetSwitch | src/components/account/AccountSidebar.tsx:68-72 | A switch sets its own setting and leaves every other one as it was. |
| CsvExport.HeaderLine | src/components/account/AccountSidebar.tsx:50 | The six column titles, comma-joined. The line splits back into them. |
| CsvExport.StatusText | src/components/account/AccountSidebar.tsx:51 | The status is written as "active" or "paused", and each text stands for its status. |
| CsvExport.RowFields | src/components/account/AccountSidebar.tsx:51 | The six fields in header order: the service, the status, the cost to two decimals, the billing date, the category, and "Yes" exactly when shared, otherwise "No". |
| CsvExport.Row | src/components/layout/AppHeader.tsx:82 | Splitting the line at its commas gives the six fields back when no field holds a comma. The line holds no line feed when no field does. |
| CsvExport.RecordLines | src/components/account/AccountSidebar.tsx:51 | One row per plan, in list order. |
| CsvExport.RowRoundTrip | src/components/account/AccountSidebar.tsx:51 | A row splits back into its six fields when the free-text fields hold no comma. It has as many columns as the header. |
| CsvExport.FileRoundTrip | src/components/account/AccountSidebar.tsx:54 | Lines joined by line feeds split back into themselves. |
| Text.FormatCentsReadsBack | src/components/account/AccountSidebar.tsx:51 | An amount written to two decimals reads back as the same number of cents. |
| Text.Trim | src/components/dashboard/AddSubscriptionModal.tsx:83 | Trimming leaves no surrounding white space and is never longer. |
| Text.TrimDropsSpaceOnly | src/components/dashboard/AddSubscriptionModal.tsx:83 | The trimmed text is a slice of the input, and only white space lies outside it. |
| Text.ToLower | src/components/dashboard/AddSubscriptionModal.tsx:22 | Lower-casing maps every character and keeps the length. |
| AppHeader.ExportLines | src/components/layout/AppHeader.tsx:79-84 | The header line, then one row per plan, and nothing after them. |
| AppHeader.ExportIsSidebarPrefix | src/components/layout/AppHeader.tsx:79-84 | The header's export is the sidebar's export without its four last lines. |
| AppHeader.ExportFileRoundTrip | src/components/layout/AppHeader.tsx:85 | The file splits back into its lines when no field holds a line feed. |
| AppHeader.HeaderMenu.constructor | src/components/layout/AppHeader.tsx:33-40 | The menu starts closed, on its main panel, in the page's scheme. |
| AppHeader.HeaderMenu.ToggleProfile | src/components/layout/AppHeader.tsx:163 | The avatar button opens or closes the menu and keeps its panel. |
| AppHeader.ReopenAfterToggle | src/components/layout/AppHeader.tsx:163 | Closing and reopening with the avatar button shows the panel last shown. |
| AppHeader.HeaderMenu.ShowPanel | src/components/layout/AppHeader.tsx:208 | Only the panel changes. |
| AppHeader.HeaderMenu.HandleClose | src/components/layout/AppHeader.tsx:71-74 | The menu is closed and back on its main panel. |
| AppHeader.HeaderMenu.MouseDown | src/components/layout/AppHeader.tsx:60-69 | A press outside the menu closes it. A press inside changes nothing. |
| AppHeader.HeaderMenu.ToggleDark | src/components/layout/AppHeader.tsx:155 | Only the scheme flips. |
| AppHeader.HeaderMenu.HandleExport | src/components/layout/AppHeader.tsx:78-93 | Gives the export's lines and closes the menu. |
| Auth.GetUsers | src/contexts/AuthContext.tsx:26-28 | The parsed user map, or the empty map when nothing readable is stored. |
| Auth.LoadSession | src/contexts/AuthContext.tsx:32-37 | Someone is signed in exactly when a readable session is stored. |
| Auth.AuthStore.constructor | src/contexts/AuthContext.tsx:32-37 | The store starts from the stored users and the stored session. |
| Auth.ProfileOf | src/contexts/AuthContext.tsx:57 | The profile is the record without its password. |
| Auth.Registered | src/contexts/AuthContext.tsx:47 | A new record holds the address and password given, and no photo. |
| Auth.SignInResult | src/contexts/AuthContext.tsx:53-58 | Signing in succeeds exactly when the address is registered with that password. It yields that record's profile. |
| Auth.PatchProfile | src/contexts/AuthContext.tsx:66 | The fields that are present override, and the rest stay. |
| Auth.PatchRecord | src/contexts/AuthContext.tsx:70 | The stored record takes the same patch and keeps its password. |
| Auth.SignUpThenSignIn | src/contexts/AuthContext.tsx:44-58 | Registering keeps the store keyed by e-mail. Signing in next with the same password yields the profile sign-up set. |
| Auth.PasswordChangeTakesEffect | src/contexts/AuthContext.tsx:77-84 | The new password signs in and the old one no longer does. Other accounts are unaffected. |
| Auth.ProfileEditKeepsSignIn | src/contexts/AuthContext.tsx:63-75 | An edit that keeps the address keeps the store keyed by e-mail and the password valid. |
| Auth.EmailChangeLeavesOldKey | src/contexts/AuthContext.tsx:69-70 | An edit that changes the address leaves the record under the old key. The new address is not a key. |
| Auth.AuthStore.IsAuthenticated | src/contexts/AuthContext.tsx:94 | Someone is authenticated exactly when a profile is signed in. A successful sign-up or sign-in leaves the store authenticated, and sign-out leaves it not. |
| Auth.AuthStore.SignUp | src/contexts/AuthContext.tsx:44-51 | Refused, with nothing changed, when the address is taken. Otherwise the record is stored and its profile signed in. |
| Auth.AuthStore.SignIn | src/contexts/AuthContext.tsx:53-59 | Succeeds exactly as `SignInResult` says. A failure leaves the session unchanged. |
| Auth.AuthStore.SignOut | src/contexts/AuthContext.tsx:61 | Nobody is signed in afterwards. |
| Auth.AuthStore.UpdateProfile | src/contexts/AuthContext.tsx:63-75 | Without a session nothing changes. Otherwise the profile, and the stored record under its address if any, take the patch. |
| Auth.AuthStore.UpdatePassword | src/contexts/AuthContext.tsx:77-84 | Succeeds exactly when signed in, registered and given the right current password. Then only that password changes. |
| Auth.AuthStore.ResetPassword | src/contexts/AuthContext.tsx:86-91 | Reports whether the address is registered. Nothing changes. |
| AuthPage.Links | src/pages/Auth.tsx:149-174 | No view links to itself. Sign-in is reachable from both other views. |
| AuthPage.Page.FollowLink | src/pages/Auth.tsx:149-174 | A link shows its target view. |
| AuthPage.SignInBlocked | src/pages/Auth.tsx:32 | Sign-in is blocked exactly when a field is empty. |
| AuthPage.SignUpBlocked | src/pages/Auth.tsx:41-43 | Each notice, in order: empty field, passwords differ, password shorter than six. The form passes exactly when none applies. |
| AuthPage.Page.constructor | src/pages/Auth.tsx:22-29 | The sign-in view, empty fields, password hidden, and India selected. |
| AuthPage.Page.SetFields | src/pages/Auth.tsx:25-29 | Only the form fields change. |
| AuthPage.Page.ToggleShowPassword | src/pages/Auth.tsx:112 | The password visibility flips. |
| AuthPage.Page.HandleSignIn | src/pages/Auth.tsx:31-38 | A blocked form leaves the session alone. Otherwise it welcomes the user back exactly when the store signs in, and then the session is the signed-in profile. |
| AuthPage.Page.HandleSignUp | src/pages/Auth.tsx:40-49 | A blocked form shows its notice and leaves the store alone. Otherwise the account is created exactly when the address is new. |
| AuthPage.Page.HandleForgot | src/pages/Auth.tsx:51-59 | An empty address is refused. A registered one returns to sign-in, and an unknown one stays. |
| Locale.Lookup | src/contexts/LocaleContext.tsx:15-87 | The translation table: every key it holds translates to non-empty text. |
| Locale.T | src/contexts/LocaleContext.tsx:136 | A known key with non-empty text gives its translation. Any other key is shown as itself. |
| Locale.TranslateKnownKey | src/contexts/LocaleContext.tsx:136 | A key in the table gives its English or Hindi text. An unknown locale shows the key itself. |
| Locale.UnknownKeyIsShown | src/contexts/LocaleContext.tsx:136 | A key missing from the table is shown as itself. |
| Locale.RenewalLabels | src/contexts/LocaleContext.tsx:46-48 | The renewals labels, in English and in Hindi. |
| Locale.Currency | src/contexts/LocaleContext.tsx:146 | The rupee sign exactly for Hindi, and the dollar sign otherwise. |
| Locale.PollQuestions | src/contexts/LocaleContext.tsx:111-112 | Eight questions. The Hindi list is used exactly for Hindi. |
| Locale.DetectLocale | src/contexts/LocaleContext.tsx:114-124 | Hindi exactly when the language starts with "hi" or the time zone names Kolkata or Calcutta. Otherwise English. |
| Locale.DetectedIsKnown | src/contexts/LocaleContext.tsx:114-124 | Without a saved locale, the result is English or Hindi. |
| Locale.InitialLocale | src/contexts/LocaleContext.tsx:127-130 | A non-empty saved locale takes precedence over detection. |
| Locale.LocaleState.constructor | src/contexts/LocaleContext.tsx:127-130 | The state starts from the saved locale or from detection. Storage holds it. |
| Locale.LocaleState.SetLocale | src/contexts/LocaleContext.tsx:131-134 | The locale changes, and storage holds it. A non-empty locale reads back as itself. |
| Locales.FindByCode | src/lib/locales.ts:47 | Returns none exactly when no entry has the code. Otherwise it returns an entry with that code. |
| Locales.CodesUnique | src/lib/locales.ts:11-42 | The table's country codes are unique. |
| Locales.IndiaEntry | src/lib/locales.ts:13 | The "in" entry is found by its code. It has the Hindi language and the rupee sign. |
| Locales.OnlyIndiaIsHindi | src/lib/locales.ts:12-41 | India is the only entry with the Hindi language. |
| Locales.DetectLocaleConfig | src/lib/locales.ts:44-52 | A "hi" language or a Kolkata or Calcutta time zone gives the "in" entry. Otherwise the first entry. The result is Hindi exactly when it is the "in" entry. |

## Left out

- **Rendering.** The JSX, styling, animations and toasts are left out. Only the notice a handler raises is kept.
- **Browser storage.** `localStorage` and JSON are left out. Stored values are parameters or fields, as described at the top. The effect that writes the whole subscription list after every change is left out, because it writes back the `subscriptions` field unchanged, so the field stands for what is stored.
- **The clock.** `new Date()`, `toDateString`, `toISOString` and the millisecond arithmetic with `Math.ceil` become parameters. They are today's date text, and a function from a date text to its day difference, where none stands for an unreadable date.
- **Randomness.** `crypto.randomUUID` becomes a fresh-id parameter. The `Math.random` choice of question wording and tone is left out, because it is random and has no stated property.
- **The two-second timer.** The `setTimeout` delay before the overlay dismisses itself becomes a pending flag, plus `TimerElapsed`.
- **Floating point.** Costs are exact cents.
  - `parseFloat` of the cost field becomes a parameter, the cents read.
  - `toLocaleString`, `formatCurrency`'s conversion at 83.5 and the exchange rates are left out.
  - Hours are real numbers, so the rounding of a JavaScript sum of hours does not appear.
- **The lastUsed regular expression.** Regex matching is replaced by the `LastUsed` datatype. A text that the regular expression matches anywhere, not only as a whole, is written as `DaysAgo`.
- **Case and length.** The model works on Unicode scalar values, not UTF-16.
  - `toLowerCase` is modelled only on ASCII letters.
  - String lengths count characters rather than UTF-16 units. The six-character password minimum counts the same for text in the Basic Multilingual Plane.
- **Text.ToLower:** only the ASCII letters are lowered; every other character is kept as it is, unlike JavaScript's full Unicode `toLowerCase`.
- **UpcomingRenewals.Upcoming:** the order of plans due on the same day is not stated. The array sort is stable, but stability is not proved.
- **Locale.T:** a saved locale named after an `Object.prototype` member, such as `constructor` or `toString`, is not modelled. For such a locale `translations[key]?.[locale]` finds that inherited function, so `t` returns it instead of a string, while `T` returns the key.
- **JavaScript object keys.** A key such as `constructor` counts as present in a JavaScript object through its prototype. That affects the lookup `users[email]`, and it is not modelled.
- **Vibe-check questions.** The question list is fixed when the overlay opens. The component recomputes it when the number of active plans or the locale changes. An edit that keeps that number shows stale questions. A locale switch while the overlay is open rebuilds the list from the current active plans. The model captures neither.
- **Header notification switches.** They are display-only and are left out. The sidebar's switches are modelled.
- **File download.** Building a Blob, creating an object URL and clicking a link are left out. The model stops at the file's lines.
- **Other components.** These hold routing, display or host calls only, and are not part of this model:
  - the daily poll, the usage-alert card and the first-run loader;
  - the share and feedback modals;
  - the page files and the navigation sidebar.
- **Locale.Lookup:** the table's text is carried over entry by entry. The contract states only that the entries are non-empty, and `RenewalLabels` spot-checks some of them.
