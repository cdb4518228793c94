/**
 * The language context of context/language-context.tsx: the two translation tables,
 * the lookup `t` that falls back to the key, the roster chosen by language, and the
 * `useTFT` guard.
 */
module LanguageContext {
  import opened Wrappers
  import opened Tft

  datatype Language = En | Tr

  const EnTable: map<string, string> := map[
    "search" := "Search",
    "team_generator" := "Team Generator",
    "traits" := "Traits",
    "cost" := "Cost",
    "reset" := "Reset"
  ]

  const TrTable: map<string, string> := map[
    "search" := "Ara",
    "team_generator" := "Takım Oluşturucu",
    "traits" := "Özellikler",
    "cost" := "Bedel",
    "reset" := "Sıfırla"
  ]

  /** `translations[language]`. */
  function Table(lang: Language): map<string, string> {
    match lang
    case En => EnTable
    case Tr => TrTable
  }

  /** Both languages translate the same keys. */
  lemma SameKeys()
    ensures Table(En).Keys == Table(Tr).Keys
  {
  }

  /** `t(key)`: `translations[language][key] || key`. */
  function T(lang: Language, key: string): (r: string)
    ensures key in Table(lang) && Table(lang)[key] != "" ==> r == Table(lang)[key]
    ensures key !in Table(lang) ==> r == key
    ensures key != "" ==> r != ""
  {
    var table := Table(lang);
    if key in table && table[key] != "" then table[key] else key
  }

  /** Every key of the tables is translated in both languages, never echoed back. */
  lemma EveryKeyTranslated(lang: Language, key: string)
    requires key in Table(En)
    ensures T(lang, key) == Table(lang)[key] != key
  {
  }

  /** The value the provider passes down. */
  datatype Context = Context(language: Language, champions: seq<Champion>)

  /** `language === 'en' ? enChampions : trChampions`. */
  function Roster(lang: Language, enChampions: seq<Champion>, trChampions: seq<Champion>): (r: seq<Champion>)
    ensures lang == En ==> r == enChampions
    ensures lang != En ==> r == trChampions
  {
    if lang == En then enChampions else trChampions
  }

  /** `LanguageProvider`'s context value for the current language. */
  function Provide(lang: Language, enChampions: seq<Champion>, trChampions: seq<Champion>): Context {
    Context(lang, Roster(lang, enChampions, trChampions))
  }

  const OutsideProvider := "useTFT must be used within a LanguageProvider"

  /** `useTFT()`: the context, or the error thrown outside a provider. */
  function UseTFT(context: Option<Context>): (r: Result<Context, string>)
    ensures context.None? <==> r == Failure(OutsideProvider)
    ensures context.Some? ==> r == Success(context.value)
  {
    match context
    case None => Failure(OutsideProvider)
    case Some(c) => Success(c)
  }

  /** Inside a provider, the hook hands out the roster of the current language. */
  lemma UseTFTInsideProvider(lang: Language, enChampions: seq<Champion>, trChampions: seq<Champion>)
    ensures var r := UseTFT(Some(Provide(lang, enChampions, trChampions)));
      r.Success? && r.value.champions == (if lang == En then enChampions else trChampions)
  {
  }
}
