/**
  The language rule of the cards' translations: the Home Assistant
  language code is lower-cased and cut at its region, German is used for
  `de` and English for everything else. The tables themselves are
  reduced to two of their keys.
 */
module Localization {
  import opened Common

  /** A translation table, reduced to two of its keys. */
  datatype Translations = Translations(energyBalance: string, loading: string)

  datatype Key = EnergyBalance | Loading

  const German := Translations("Energiebilanz", "Lade Daten...")
  const English := Translations("Energy Balance", "Loading Data...")

  /** The tables by normalised language code. */
  const Tables: map<string, Translations> := map["de" := German, "en" := English]

  /** `language.toLowerCase().split('-')[0]`. */
  function NormalizeLanguage(language: string): (r: string)
    ensures '-' !in r && |r| <= |language|
    ensures forall k :: 0 <= k < |r| ==> r[k] == Lower(language[k])
    ensures |r| < |language| ==> language[|r|] == '-'
  {
    var lower := ToLower(language);
    var r := BeforeFirst(lower, '-');
    assert forall k :: 0 <= k < |r| ==> r[k] == lower[k];
    r
  }

  /** `getTranslations`: the table of the normalised code, English when there is none. */
  function GetTranslations(language: string): (r: Translations)
    ensures NormalizeLanguage(language) == "de" ==> r == German
    ensures NormalizeLanguage(language) != "de" ==> r == English
  {
    var lang := NormalizeLanguage(language);
    if lang in Tables then Tables[lang] else Tables["en"]
  }

  function Entry(table: Translations, key: Key): string
  {
    match key
    case EnergyBalance => table.energyBalance
    case Loading => table.loading
  }

  /** `t(language, key)`: the key's text in the language's table. */
  function T(language: string, key: Key): (r: string)
    ensures r == Entry(German, key) || r == Entry(English, key)
    ensures NormalizeLanguage(language) == "de" <==> r == Entry(German, key)
  {
    Entry(GetTranslations(language), key)
  }

  /** The region part of a code does not matter: `de-AT` reads German, `en-GB` English. */
  lemma {:induction false} RegionIgnored(lang: string, region: string)
    requires '-' !in lang
    ensures GetTranslations(lang + "-" + region) == GetTranslations(lang)
  {
    var low := ToLower(lang);
    assert ToLower(lang + "-" + region) == low + ['-'] + ToLower(region);
    assert '-' !in low by {
      forall k | 0 <= k < |low| ensures low[k] != '-' {
        assert lang[k] in lang;
      }
    }
    BeforeFirstPrefix(low, '-', ToLower(region));
    BeforeFirstWhole(low, '-');
  }

  /** Upper and lower case do not matter: `DE` reads German. */
  lemma CaseIgnored(language: string)
    ensures GetTranslations(ToLower(language)) == GetTranslations(language)
  {
    assert NormalizeLanguage(ToLower(language)) == NormalizeLanguage(language);
  }

  /** Only a code that normalises to `de` gets German; every other code falls back to English. */
  lemma GermanOnlyForDe(language: string)
    ensures GetTranslations(language) == German <==> NormalizeLanguage(language) == "de"
  {
    assert German != English;
  }
}
