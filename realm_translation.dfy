/** The Realm object `RealmTranslation`: a translation keyed by a
    caller-supplied identifier, with its translations kept sorted and its
    favourite date re-derived whenever the favourite flag is assigned. */
module RealmTranslations {
  import opened Common
  import opened StringOrder

  class RealmTranslation {
    var identifier: string
    var word: string
    var language: string
    var translationLanguage: string
    var soundURL: string
    var isFavorite: bool
    var saveDate: Date
    var favoriteDate: Option<Date>
    var translations: seq<string>

    /** `init()`: empty strings, not a favourite, saved now. */
    constructor (now: Date)
      ensures identifier == "" && word == "" && language == "" && translationLanguage == ""
      ensures soundURL == "" && !isFavorite && translations == []
      ensures saveDate == now && favoriteDate == None
    {
      identifier, word, language, translationLanguage, soundURL := "", "", "", "", "";
      isFavorite, saveDate, favoriteDate, translations := false, now, None, [];
    }

    /** The convenience initializer: copies the descriptive fields, assigns
        the flag through its observer and stores the translations sorted. */
    constructor Create(identifier: string, word: string, language: string, translationLanguage: string,
                       soundURL: string, isFavorite: bool, translations: seq<string>, now: Date)
      ensures this.identifier == identifier && this.word == word && this.language == language
      ensures this.translationLanguage == translationLanguage && this.soundURL == soundURL
      ensures this.isFavorite == isFavorite && FavoriteDateConsistent(this.isFavorite, favoriteDate)
      ensures isFavorite ==> favoriteDate == Some(now)
      ensures saveDate == now
      ensures IsSorted(this.translations) && multiset(this.translations) == multiset(translations)
    {
      this.identifier, this.word, this.language := "", "", "";
      this.translationLanguage, this.soundURL := "", "";
      this.isFavorite, saveDate, favoriteDate, this.translations := false, now, None, [];
      new;
      this.identifier := identifier;
      this.word := word;
      this.language := language;
      this.translationLanguage := translationLanguage;
      this.soundURL := soundURL;
      SetIsFavorite(isFavorite, now);
      this.translations := Sort(translations);
    }

    /** Assigning `isFavorite`: the observer stamps the favourite date with
        the current time when the flag is true, even if it already was, and
        clears it otherwise. Nothing else changes. */
    method SetIsFavorite(value: bool, now: Date)
      modifies this
      ensures isFavorite == value && FavoriteDateConsistent(isFavorite, favoriteDate)
      ensures value ==> favoriteDate == Some(now)
      ensures saveDate == old(saveDate) && translations == old(translations)
      ensures identifier == old(identifier) && word == old(word) && language == old(language)
      ensures translationLanguage == old(translationLanguage) && soundURL == old(soundURL)
    {
      isFavorite := value;
      favoriteDate := FavoriteDateFor(isFavorite, now);
    }
  }
}
