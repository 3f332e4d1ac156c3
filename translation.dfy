/** The Realm object `Translation` and its conversions to and from the
    caller's translation type (`Translatable`). */
module Translations {
  import opened Common
  import opened Words

  /** A caller's translation value: the properties the protocol requires. */
  datatype Translatable = Translatable(
    identifier: string,
    word: string,
    language: string,
    translationLanguage: string,
    soundURL: string,
    isFavorite: bool,
    translations: seq<WordRepresentable>,
    saveDate: Option<Date>,
    favoriteDate: Option<Date>)

  class Translation {
    var identifier: string
    var word: string
    var language: string
    var translationLanguage: string
    var soundURL: string
    var isFavorite: bool
    var saveDate: Option<Date>
    var favoriteDate: Option<Date>
    var translations: seq<Word>

    /** `init()`: empty strings, not a favourite, no dates, no words. */
    constructor ()
      ensures identifier == "" && word == "" && language == "" && translationLanguage == ""
      ensures soundURL == "" && !isFavorite && saveDate == None && favoriteDate == None
      ensures translations == []
    {
      identifier, word, language, translationLanguage, soundURL := "", "", "", "", "";
      isFavorite, saveDate, favoriteDate, translations := false, None, None, [];
    }

    /** `init(translation:)`. The sound URL is not copied and stays empty; the
        favourite date is stamped now for a favourite; the save date is taken
        from the caller's favourite date, not its save date; each caller word
        becomes one stored word, in order. */
    constructor FromTranslatable(t: Translatable, now: Date)
      ensures identifier == t.identifier && word == t.word && language == t.language
      ensures translationLanguage == t.translationLanguage && soundURL == ""
      ensures isFavorite == t.isFavorite && FavoriteDateConsistent(isFavorite, favoriteDate)
      ensures t.isFavorite ==> favoriteDate == Some(now)
      ensures saveDate == t.favoriteDate
      ensures |translations| == |t.translations|
      ensures forall i :: 0 <= i < |translations| ==> translations[i] == WordFrom(t.translations[i])
    {
      identifier, word, language, translationLanguage, soundURL := "", "", "", "", "";
      isFavorite, saveDate, favoriteDate, translations := false, None, None, [];
      new;
      identifier := t.identifier;
      word := t.word;
      language := t.language;
      translationLanguage := t.translationLanguage;
      SetIsFavorite(t.isFavorite, now);
      favoriteDate := FavoriteDateFor(t.isFavorite, now);
      saveDate := t.favoriteDate;
      translations := WordsFrom(t.translations);
    }

    /** Assigning `isFavorite`: the observer re-derives the favourite date;
        nothing else changes. */
    method SetIsFavorite(value: bool, now: Date)
      modifies this
      ensures isFavorite == value && FavoriteDateConsistent(isFavorite, favoriteDate)
      ensures value ==> favoriteDate == Some(now)
      ensures saveDate == old(saveDate) && translations == old(translations)
      ensures identifier == old(identifier) && word == old(word) && language == old(language)
      ensures translationLanguage == old(translationLanguage) && soundURL == old(soundURL)
    {
      isFavorite := value;
      favoriteDate := FavoriteDateFor(isFavorite, now);
    }

    /** `translatableFrom(model:)`: a fresh caller value (`blank`, what the
        caller type's `init()` gives) with identifier, languages, flag, both
        dates and the words copied; its word and sound URL are not set and
        keep the blank value's. */
    function TranslatableFrom(blank: Translatable, wordBlank: WordRepresentable): (r: Translatable)
      reads this
      ensures r.identifier == identifier && r.language == language
      ensures r.translationLanguage == translationLanguage && r.isFavorite == isFavorite
      ensures r.saveDate == saveDate && r.favoriteDate == favoriteDate
      ensures r.word == blank.word && r.soundURL == blank.soundURL
      ensures |r.translations| == |translations|
      ensures forall i :: 0 <= i < |translations| ==>
                r.translations[i] == translations[i].RepresentableFrom(wordBlank)
    {
      blank.(identifier := identifier, language := language,
             translationLanguage := translationLanguage, isFavorite := isFavorite,
             saveDate := saveDate, favoriteDate := favoriteDate,
             translations := RepresentablesFrom(translations, wordBlank))
    }
  }

  /** A caller value stored with `init(translation:)` and read back with
      `translatableFrom(model:)`: identifier, languages, flag and words come
      back unchanged; the word and sound URL are lost to the blank value's; the
      caller's favourite date comes back as the save date. */
  method RoundTrip(t: Translatable, blank: Translatable, wordBlank: WordRepresentable, now: Date)
    returns (r: Translatable)
    ensures r.identifier == t.identifier && r.language == t.language
    ensures r.translationLanguage == t.translationLanguage && r.isFavorite == t.isFavorite
    ensures r.translations == t.translations
    ensures r.word == blank.word && r.soundURL == blank.soundURL
    ensures r.saveDate == t.favoriteDate
    ensures r.favoriteDate == FavoriteDateFor(t.isFavorite, now)
  {
    var stored := new Translation.FromTranslatable(t, now);
    assert stored.translations == WordsFrom(t.translations);
    r := stored.TranslatableFrom(blank, wordBlank);
    RepresentablesRoundTrip(t.translations, wordBlank);
  }
}
