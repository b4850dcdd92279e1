/** The interface language: the translation table and its lookup with
    fallback to the key, the currency symbol, the poll questions, and the
    choice of language at start-up. */
module Locale {
  import opened Wrappers
  import opened Text

  /** A language code. The session's value is whatever was saved, so it
      is kept as text; only "en" and "hi" have translations. */
  type Code = string

  /** A key's text in each of the two languages. */
  datatype Entry = Entry(en: string, hi: string)

  /** The `translations` table: the entry stored under each key, looked
      up section by section. No key appears in two sections. */
  function Lookup(key: string): (r: Option<Entry>)
    ensures r.Some? ==> r.value.en != "" && r.value.hi != ""
  {
    if DashboardEntry(key).Some? then DashboardEntry(key)
    else     if PollEntry(key).Some? then PollEntry(key)
    else     if RenewalsEntry(key).Some? then RenewalsEntry(key)
    else     if AnalyticsEntry(key).Some? then AnalyticsEntry(key)
    else     if NavEntry(key).Some? then NavEntry(key)
    else     if HeaderEntry(key).Some? then HeaderEntry(key)
    else AccountEntry(key)
  }

  function DashboardEntry(key: string): (r: Option<Entry>)
    ensures r.Some? ==> r.value.en != "" && r.value.hi != ""
  {
    match key
    case "dashboard.title" => Some(Entry("Dashboard", "डैशबोर्ड"))
    case "dashboard.subtitle" => Some(Entry("Overview of your subscription spending", "आपके सब्सक्रिप्शन खर्चों का अवलोकन"))
    case "stat.totalSpend" => Some(Entry("Total Monthly Spend", "कुल मासिक खर्च"))
    case "stat.activeSubs" => Some(Entry("Active Subscriptions", "सक्रिय सब्सक्रिप्शन"))
    case "stat.moneySaved" => Some(Entry("Money Saved", "बचत"))
    case "stat.fromPaused" => Some(Entry("From paused subs", "रोके गए सब्सक्रिप्शन से"))
    case "stat.newThisMonth" => Some(Entry("2 new this month", "इस महीने 2 नए"))
    case "table.title" => Some(Entry("Your Subscriptions", "आपके सब्सक्रिप्शन"))
    case "table.service" => Some(Entry("Service", "सेवा"))
    case "table.status" => Some(Entry("Status", "स्थिति"))
    case "table.nextBilling" => Some(Entry("Next Billing", "अगली बिलिंग"))
    case "table.cost" => Some(Entry("Cost", "लागत"))
    case "table.lastUsed" => Some(Entry("Last Used", "आखिरी उपयोग"))
    case "table.usage" => Some(Entry("Usage", "उपयोग"))
    case "table.shared" => Some(Entry("Shared", "साझा"))
    case "status.active" => Some(Entry("Active", "सक्रिय"))
    case "status.paused" => Some(Entry("Paused", "रोका गया"))
    case "alerts.title" => Some(Entry("Low Usage Alerts", "कम उपयोग अलर्ट"))
    case "alerts.consider" => Some(Entry("Consider pausing these subscriptions to save", "बचत के लिए इन सब्सक्रिप्शन को रोकने पर विचार करें"))
    case "alerts.lastUsed" => Some(Entry("Last used", "आखिरी बार उपयोग"))
    case _ => None
  }

  function PollEntry(key: string): (r: Option<Entry>)
    ensures r.Some? ==> r.value.en != "" && r.value.hi != ""
  {
    match key
    case "poll.logUsage" => Some(Entry("Log Usage", "उपयोग दर्ज करें"))
    case "poll.hours" => Some(Entry("hours", "घंटे"))
    case "poll.submit" => Some(Entry("Submit", "जमा करें"))
    case "poll.logged" => Some(Entry("Logged!", "दर्ज हो गया!"))
    case _ => None
  }

  function RenewalsEntry(key: string): (r: Option<Entry>)
    ensures r.Some? ==> r.value.en != "" && r.value.hi != ""
  {
    match key
    case "renewals.title" => Some(Entry("Upcoming Renewals", "आगामी नवीनीकरण"))
    case "renewals.days" => Some(Entry("days", "दिन"))
    case "renewals.today" => Some(Entry("Today", "आज"))
    case "renewals.tomorrow" => Some(Entry("Tomorrow", "कल"))
    case _ => None
  }

  function AnalyticsEntry(key: string): (r: Option<Entry>)
    ensures r.Some? ==> r.value.en != "" && r.value.hi != ""
  {
    match key
    case "analytics.title" => Some(Entry("Analytics", "विश्लेषण"))
    case "analytics.subtitle" => Some(Entry("Spending trends and insights", "खर्च के रुझान और अंतर्दृष्टि"))
    case "analytics.spendTrend" => Some(Entry("Spend Trend", "खर्च का रुझान"))
    case "analytics.byCategory" => Some(Entry("Spend by Category", "श्रेणी के अनुसार खर्च"))
    case "analytics.daily" => Some(Entry("Daily", "दैनिक"))
    case "analytics.weekly" => Some(Entry("Weekly", "साप्ताहिक"))
    case "analytics.monthly" => Some(Entry("Monthly", "मासिक"))
    case "analytics.currentSavings" => Some(Entry("Current Savings", "वर्तमान बचत"))
    case "analytics.potentialSavings" => Some(Entry("Potential Savings", "संभावित बचत"))
    case "analytics.annualProjection" => Some(Entry("Annual Projection", "वार्षिक अनुमान"))
    case "analytics.wastedOnUnused" => Some(Entry("Wasted on unused subs", "अप्रयुक्त सब्सक्रिप्शन पर बर्बाद"))
    case "analytics.projectedYearly" => Some(Entry("Projected yearly spend", "अनुमानित वार्षिक खर्च"))
    case _ => None
  }

  function NavEntry(key: string): (r: Option<Entry>)
    ensures r.Some? ==> r.value.en != "" && r.value.hi != ""
  {
    match key
    case "nav.dashboard" => Some(Entry("Dashboard", "डैशबोर्ड"))
    case "nav.analytics" => Some(Entry("Analytics", "विश्लेषण"))
    case "nav.subscriptions" => Some(Entry("Subscriptions", "सब्सक्रिप्शन"))
    case "nav.plans" => Some(Entry("Plans", "योजनाएं"))
    case "nav.shared" => Some(Entry("Shared Accounts", "साझा खाते"))
    case _ => None
  }

  function HeaderEntry(key: string): (r: Option<Entry>)
    ensures r.Some? ==> r.value.en != "" && r.value.hi != ""
  {
    match key
    case "header.search" => Some(Entry("Search subscriptions...", "सब्सक्रिप्शन खोजें..."))
    case "header.addNew" => Some(Entry("Add New", "नया जोड़ें"))
    case _ => None
  }

  function AccountEntry(key: string): (r: Option<Entry>)
    ensures r.Some? ==> r.value.en != "" && r.value.hi != ""
  {
    match key
    case "account.profile" => Some(Entry("Profile", "प्रोफाइल"))
    case "account.usageSummary" => Some(Entry("Usage Summary", "उपयोग सारांश"))
    case "account.virtualCard" => Some(Entry("Virtual Credit Card", "वर्चुअल क्रेडिट कार्ड"))
    case "account.yourPlan" => Some(Entry("Your Plan", "आपकी योजना"))
    case "account.paymentHistory" => Some(Entry("Payment History", "भुगतान इतिहास"))
    case "account.resetPassword" => Some(Entry("Reset Password", "पासवर्ड बदलें"))
    case "account.support" => Some(Entry("Support", "सहायता"))
    case "account.notifications" => Some(Entry("Notification Settings", "सूचना सेटिंग"))
    case "account.familyTeam" => Some(Entry("Family / Team", "परिवार / टीम"))
    case "account.dataExport" => Some(Entry("Data Export", "डेटा निर्यात"))
    case "account.logout" => Some(Entry("Logout", "लॉग आउट"))
    case _ => None
  }

  /** `translations[key]?.[locale]`: the entry's text in that language, or
      `None` when the key or the language has none. */
  function Translated(key: string, locale: Code): Option<string> {
    match Lookup(key)
    case None => None
    case Some(e) => if locale == "en" then Some(e.en) else if locale == "hi" then Some(e.hi) else None
  }

  /** `t(key)`: the translation when there is a non-empty one, and
      otherwise the key itself. */
  function T(key: string, locale: Code): (r: string)
    ensures Translated(key, locale).Some? && Translated(key, locale).value != "" ==> r == Translated(key, locale).value
    ensures (Translated(key, locale).None? || Translated(key, locale).value == "") ==> r == key
  {
    match Translated(key, locale)
    case Some(text) => if text == "" then key else text
    case None => key
  }

  /** Since every stored text is non-empty, on a key in the table `t` gives
      that key's text in English and in Hindi, and the key in any other
      language. */
  lemma TranslateKnownKey(key: string, locale: Code)
    requires Lookup(key).Some?
    ensures locale == "en" ==> T(key, locale) == Lookup(key).value.en
    ensures locale == "hi" ==> T(key, locale) == Lookup(key).value.hi
    ensures locale != "en" && locale != "hi" ==> T(key, locale) == key
  {
  }

  /** A key missing from the table reads as itself in every language. */
  lemma UnknownKeyIsShown(key: string, locale: Code)
    requires Lookup(key).None?
    ensures T(key, locale) == key
  {
  }

  /** The renewal labels in both languages. */
  lemma RenewalLabels()
    ensures T("renewals.today", "en") == "Today" && T("renewals.today", "hi") == "आज"
    ensures T("renewals.tomorrow", "en") == "Tomorrow" && T("renewals.tomorrow", "hi") == "कल"
    ensures T("renewals.days", "en") == "days" && T("renewals.days", "hi") == "दिन"
  {
  }

  /** `currency`. */
  function Currency(locale: Code): (r: string)
    ensures r == "₹" <==> locale == "hi"
    ensures r == "$" <==> locale != "hi"
  {
    if locale == "hi" then "₹" else "$"
  }

  const PollQuestionsEn: seq<string> := [
    "Did you cheat on Netflix today? 😏",
    "How many hours did you binge-watch? 🍿",
    "Did Spotify play your guilty pleasure? 🎵",
    "Was ChatGPT your best friend today? 🤖",
    "Did you actually use that gym app? 💪",
    "How much screen time are we talking? 📱",
    "Did you open Figma or just stare at it? 🎨",
    "Netflix & chill or Netflix & bill? 💸"]

  const PollQuestionsHi: seq<string> := [
    "बाबू, आज Netflix को धोखा दिया? 😏",
    "आज कितने घंटे बिंज-वॉच किया? 🍿",
    "Spotify पे guilty pleasure सुना क्या? 🎵",
    "ChatGPT आज का बेस्ट फ्रेंड रहा? 🤖",
    "जिम ऐप खोला भी या बस icon देखा? 💪",
    "आज कितना स्क्रीन टाइम हुआ? 📱",
    "Figma खोला या बस ताकते रहे? 🎨",
    "Netflix देखा या बस बिल भरा? 💸"]

  /** `getPollQuestions`. */
  function PollQuestions(locale: Code): (r: seq<string>)
    ensures |r| == 8
    ensures r == PollQuestionsHi <==> locale == "hi"
  {
    assert PollQuestionsHi[0] != PollQuestionsEn[0];
    if locale == "hi" then PollQuestionsHi else PollQuestionsEn
  }

  /** `detectLocale`, with the browser language (`""` when it reports none)
      and the time-zone name (`""` when none) as inputs. */
  function DetectLocale(language: string, timeZone: string): (r: Code)
    ensures r == "hi" <==> StartsWith(language, "hi") || Contains(timeZone, "Kolkata") || Contains(timeZone, "Calcutta")
    ensures r == "en" <==> !(r == "hi")
  {
    var lang := if language == "" then "en" else language;
    assert !StartsWith("en", "hi") by { assert "en"[..2][0] == 'e' != "hi"[0]; }
    if StartsWith(lang, "hi") then "hi"
    else if Contains(timeZone, "Kolkata") || Contains(timeZone, "Calcutta") then "hi"
    else "en"
  }

  /** The language a session starts in: the saved one when there is one,
      detected otherwise. The saved text is not checked against the known
      languages. */
  function InitialLocale(saved: Option<string>, language: string, timeZone: string): (r: Code)
    ensures saved.Some? && saved.value != "" ==> r == saved.value
    ensures saved.None? || saved.value == "" ==> r == DetectLocale(language, timeZone)
  {
    if saved.Some? && saved.value != "" then saved.value else DetectLocale(language, timeZone)
  }

  /** A session started with nothing saved is in one of the two known languages. */
  lemma DetectedIsKnown(language: string, timeZone: string)
    ensures InitialLocale(None, language, timeZone) in {"en", "hi"}
  {
  }

  /** The language state and its persisted slot. */
  class LocaleState {
    var locale: Code
    var stored: Option<string>

    constructor (saved: Option<string>, language: string, timeZone: string)
      ensures locale == InitialLocale(saved, language, timeZone) && stored == Some(locale)
    {
      var l := InitialLocale(saved, language, timeZone);
      locale := l;
      stored := Some(l);
    }

    /** Switches language; the effect writes it to storage. */
    method SetLocale(l: Code)
      modifies this
      ensures locale == l && stored == Some(l)
      ensures InitialLocale(stored, "", "") == l || l == ""
    {
      locale := l;
      stored := Some(l);
    }
  }
}
