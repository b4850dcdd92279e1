/** The country table behind the currency picker, and the country chosen
    from the browser's language and time zone. */
module Locales {
  import opened Wrappers
  import opened Text

  datatype Lang = En | Hi

  /** One country: its code, name, flag, currency code and symbol, the
      exchange rate to the US dollar, and its interface language. */
  datatype LocaleConfig = LocaleConfig(
    code: string,
    countryName: string,
    flag: string,
    currency: string,
    currencySymbol: string,
    rate: real,
    lang: Lang)

  /** The `locales` table, in its order. */
  const Table: seq<LocaleConfig> := [
    LocaleConfig("us", "United States", "🇺🇸", "USD", "$", 1.0, En),
    LocaleConfig("in", "India", "🇮🇳", "INR", "₹", 83.5, Hi),
    LocaleConfig("gb", "United Kingdom", "🇬🇧", "GBP", "£", 0.79, En),
    LocaleConfig("eu", "Eurozone", "🇪🇺", "EUR", "€", 0.92, En),
    LocaleConfig("ca", "Canada", "🇨🇦", "CAD", "C$", 1.36, En),
    LocaleConfig("au", "Australia", "🇦🇺", "AUD", "A$", 1.53, En),
    LocaleConfig("jp", "Japan", "🇯🇵", "JPY", "¥", 149.5, En),
    LocaleConfig("kr", "South Korea", "🇰🇷", "KRW", "₩", 1320.0, En),
    LocaleConfig("cn", "China", "🇨🇳", "CNY", "¥", 7.24, En),
    LocaleConfig("br", "Brazil", "🇧🇷", "BRL", "R$", 4.97, En),
    LocaleConfig("mx", "Mexico", "🇲🇽", "MXN", "$", 17.1, En),
    LocaleConfig("de", "Germany", "🇩🇪", "EUR", "€", 0.92, En),
    LocaleConfig("fr", "France", "🇫🇷", "EUR", "€", 0.92, En),
    LocaleConfig("sg", "Singapore", "🇸🇬", "SGD", "S$", 1.34, En),
    LocaleConfig("ae", "UAE", "🇦🇪", "AED", "د.إ", 3.67, En),
    LocaleConfig("sa", "Saudi Arabia", "🇸🇦", "SAR", "﷼", 3.75, En),
    LocaleConfig("za", "South Africa", "🇿🇦", "ZAR", "R", 18.6, En),
    LocaleConfig("ng", "Nigeria", "🇳🇬", "NGN", "₦", 1550.0, En),
    LocaleConfig("eg", "Egypt", "🇪🇬", "EGP", "E£", 30.9, En),
    LocaleConfig("se", "Sweden", "🇸🇪", "SEK", "kr", 10.5, En),
    LocaleConfig("ch", "Switzerland", "🇨🇭", "CHF", "CHF", 0.88, En),
    LocaleConfig("nz", "New Zealand", "🇳🇿", "NZD", "NZ$", 1.64, En),
    LocaleConfig("th", "Thailand", "🇹🇭", "THB", "฿", 35.5, En),
    LocaleConfig("id", "Indonesia", "🇮🇩", "IDR", "Rp", 15700.0, En),
    LocaleConfig("my", "Malaysia", "🇲🇾", "MYR", "RM", 4.72, En),
    LocaleConfig("ph", "Philippines", "🇵🇭", "PHP", "₱", 56.2, En),
    LocaleConfig("pk", "Pakistan", "🇵🇰", "PKR", "₨", 278.0, En),
    LocaleConfig("bd", "Bangladesh", "🇧🇩", "BDT", "৳", 110.0, En),
    LocaleConfig("tr", "Turkey", "🇹🇷", "TRY", "₺", 32.3, En),
    LocaleConfig("pl", "Poland", "🇵🇱", "PLN", "zł", 4.02, En)]

  /** `locales.find(l => l.code === code)`. */
  function FindByCode(code: string): (r: Option<LocaleConfig>)
    ensures r.None? <==> forall i :: 0 <= i < |Table| ==> Table[i].code != code
    ensures r.Some? ==> exists i :: 0 <= i < |Table| && Table[i] == r.value && r.value.code == code
                                   && forall j :: 0 <= j < i ==> Table[j].code != code
  {
    FindFrom(Table, code, 0)
  }

  function FindFrom(table: seq<LocaleConfig>, code: string, from: nat): (r: Option<LocaleConfig>)
    requires from <= |table|
    decreases |table| - from
    ensures r.None? <==> forall i :: from <= i < |table| ==> table[i].code != code
    ensures r.Some? ==> exists i :: from <= i < |table| && table[i] == r.value && r.value.code == code
                                   && forall j :: from <= j < i ==> table[j].code != code
  {
    if from == |table| then None
    else if table[from].code == code then Some(table[from])
    else FindFrom(table, code, from + 1)
  }

  /** The country codes are pairwise distinct. */
  lemma CodesUnique()
    ensures forall i, j :: 0 <= i < j < |Table| ==> Table[i].code != Table[j].code
  {
  }

  /** India is in the table, so the lookup behind detection always finds it. */
  lemma IndiaEntry()
    ensures FindByCode("in") == Some(Table[1])
    ensures Table[1].code == "in" && Table[1].lang == Hi && Table[1].currencySymbol == "₹"
  {
    var t := Table;
    assert t[0].code == "us" && t[1].code == "in";
    assert FindFrom(t, "in", 1) == Some(t[1]);
    assert FindFrom(t, "in", 0) == FindFrom(t, "in", 1);
  }

  /** India is the only country with the Hindi interface. */
  lemma OnlyIndiaIsHindi(i: nat)
    requires i < |Table| && Table[i].lang == Hi
    ensures i == 1
  {
  }

  /** `detectLocaleConfig`, with the browser language (`""` when it
      reports none) and the time-zone name (`""` when none) as inputs. */
  function DetectLocaleConfig(language: string, timeZone: string): (r: LocaleConfig)
    ensures StartsWith(language, "hi") ==> r == Table[1]
    ensures Contains(timeZone, "Kolkata") || Contains(timeZone, "Calcutta") ==> r == Table[1]
    ensures !StartsWith(language, "hi") && !Contains(timeZone, "Kolkata") && !Contains(timeZone, "Calcutta")
            ==> r == Table[0] && r.code == "us" && r.rate == 1.0
    ensures r.lang == Hi <==> r == Table[1]
  {
    IndiaEntry();
    var lang := if language == "" then "en" else language;
    assert !StartsWith("en", "hi") by { assert "en"[..2][0] == 'e' != "hi"[0]; }
    if StartsWith(lang, "hi") then FindByCode("in").value
    else if Contains(timeZone, "Kolkata") || Contains(timeZone, "Calcutta") then FindByCode("in").value
    else Table[0]
  }
}
