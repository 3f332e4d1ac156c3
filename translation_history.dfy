/** The caller-facing value of a stored translation history and its
    construction from a stored record. */
module TranslationHistory {
  import opened StringOrder
  import opened RealmTranslationHistory

  datatype BDTranslationHistory = BDTranslationHistory(
    identifier: string,
    sourceWord: string,
    sourceLanguage: string,
    destinationLanguage: string,
    isFavorite: bool,
    translations: seq<string>)

  /** The field copy done by `init(realmTranslationResult:)`: every field as
      stored, except that the translations come out sorted. */
  function MakeHistory(identifier: string, sourceWord: string, sourceLanguage: string,
                       destinationLanguage: string, isFavorite: bool, stored: seq<string>): (h: BDTranslationHistory)
    ensures h.identifier == identifier && h.sourceWord == sourceWord
    ensures h.sourceLanguage == sourceLanguage && h.destinationLanguage == destinationLanguage
    ensures h.isFavorite == isFavorite
    ensures IsSorted(h.translations) && multiset(h.translations) == multiset(stored)
    ensures |h.translations| == |stored|
  {
    BDTranslationHistory(identifier, sourceWord, sourceLanguage, destinationLanguage, isFavorite, Sort(stored))
  }

  /** `init(realmTranslationResult:)` applied to a stored record object; the
      record is only read. */
  function FromRealmTranslationHistory(record: BDRealmTranslationHistory): (h: BDTranslationHistory)
    reads record
    ensures h.identifier == record.identifier && h.sourceWord == record.sourceWord
    ensures h.sourceLanguage == record.sourceLanguage
    ensures h.destinationLanguage == record.destinationLanguage
    ensures h.isFavorite == record.isFavorite
    ensures IsSorted(h.translations) && multiset(h.translations) == multiset(record.translations)
  {
    MakeHistory(record.identifier, record.sourceWord, record.sourceLanguage,
                record.destinationLanguage, record.isFavorite, record.translations)
  }

  /** A record whose translations are already sorted keeps them as they are. */
  lemma SortedTranslationsKept(record: BDRealmTranslationHistory)
    requires IsSorted(record.translations)
    ensures FromRealmTranslationHistory(record).translations == record.translations
  {
    SortSortedIsIdentity(record.translations);
  }

  /** Two records holding the same translations in any order convert to the
      same list. */
  lemma TranslationOrderIsForgotten(a: BDRealmTranslationHistory, b: BDRealmTranslationHistory)
    requires multiset(a.translations) == multiset(b.translations)
    ensures FromRealmTranslationHistory(a).translations == FromRealmTranslationHistory(b).translations
  {
    SortDependsOnlyOnElements(a.translations, b.translations);
  }

  /** A value built by the convenience initializer converts to one whose key
      is derived from its own word and languages. */
  lemma ValidRecordGivesDerivedKey(record: BDRealmTranslationHistory)
    requires record.Valid()
    ensures var h := FromRealmTranslationHistory(record);
            h.identifier == CompoundIdentifier(h.sourceWord, h.sourceLanguage, h.destinationLanguage)
  {
  }
}
