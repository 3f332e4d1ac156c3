/** The value type `BDRealmTranslation`: fixed descriptive fields, a
    favourite flag whose observer maintains a privately set favourite date,
    and a freely assignable save date. */
module BDRealmTranslations {
  import opened Common

  datatype BDRealmTranslation = BDRealmTranslation(
    identifier: string,
    word: string,
    language: string,
    translationLanguage: string,
    soundURL: string,
    isFavorite: bool,
    translations: seq<string>,
    saveDate: Option<Date>,
    favoriteDate: Option<Date>)
  {
    /** The favourite date is present exactly for favourites. */
    predicate Valid()
    {
      FavoriteDateConsistent(isFavorite, favoriteDate)
    }

    /** Assigning `isFavorite` on a copy of the value: the observer re-derives
        the favourite date; every other field is kept. */
    function WithIsFavorite(value: bool, now: Date): (t: BDRealmTranslation)
      ensures t.Valid() && t.isFavorite == value
      ensures value ==> t.favoriteDate == Some(now)
      ensures t.saveDate == saveDate && t.translations == translations
      ensures t.identifier == identifier && t.word == word && t.language == language
      ensures t.translationLanguage == translationLanguage && t.soundURL == soundURL
    {
      this.(isFavorite := value, favoriteDate := FavoriteDateFor(value, now))
    }

    /** Assigning `saveDate` leaves the flag and the favourite date alone. */
    function WithSaveDate(date: Option<Date>): (t: BDRealmTranslation)
      ensures t.saveDate == date
      ensures t.isFavorite == isFavorite && t.favoriteDate == favoriteDate
      ensures t.(saveDate := saveDate) == this
    {
      this.(saveDate := date)
    }
  }

  /** The memberwise initializer: the given fields as they are (translations
      in the given order), no save date, and a favourite date only for a
      favourite. */
  function MakeBDRealmTranslation(identifier: string, word: string, language: string,
                                  translationLanguage: string, soundURL: string, isFavorite: bool,
                                  translations: seq<string>, now: Date): (t: BDRealmTranslation)
    ensures t.Valid()
    ensures t.identifier == identifier && t.word == word && t.language == language
    ensures t.translationLanguage == translationLanguage && t.soundURL == soundURL
    ensures t.isFavorite == isFavorite && t.translations == translations
    ensures t.saveDate == None
    ensures isFavorite ==> t.favoriteDate == Some(now)
  {
    BDRealmTranslation(identifier, word, language, translationLanguage, soundURL, isFavorite,
                       translations, None, FavoriteDateFor(isFavorite, now))
  }

  /** The assignments a client can make to a `BDRealmTranslation` value: the
      favourite date has a private setter, so these are the only two. */
  datatype Assignment =
    | AssignIsFavorite(value: bool, now: Date)
    | AssignSaveDate(date: Option<Date>)

  function Apply(t: BDRealmTranslation, edits: seq<Assignment>): (r: BDRealmTranslation)
    decreases |edits|
  {
    if edits == [] then t
    else
      var next := match edits[0]
        case AssignIsFavorite(v, now) => t.WithIsFavorite(v, now)
        case AssignSaveDate(d) => t.WithSaveDate(d);
      Apply(next, edits[1..])
  }

  /** Every value a client can reach from the initializer keeps the invariant,
      and no assignment touches the descriptive fields. */
  lemma {:induction false} ReachableValuesAreValid(t: BDRealmTranslation, edits: seq<Assignment>)
    requires t.Valid()
    ensures Apply(t, edits).Valid()
    ensures Apply(t, edits).identifier == t.identifier && Apply(t, edits).word == t.word
    ensures Apply(t, edits).language == t.language && Apply(t, edits).translationLanguage == t.translationLanguage
    ensures Apply(t, edits).soundURL == t.soundURL && Apply(t, edits).translations == t.translations
    decreases |edits|
  {
    if edits != [] {
      var next := match edits[0]
        case AssignIsFavorite(v, now) => t.WithIsFavorite(v, now)
        case AssignSaveDate(d) => t.WithSaveDate(d);
      ReachableValuesAreValid(next, edits[1..]);
    }
  }

  /** Un-favouriting a value clears its favourite date, whatever it was. */
  lemma UnfavoriteClearsDate(t: BDRealmTranslation, now: Date)
    ensures t.WithIsFavorite(false, now).favoriteDate == None
  {
  }
}
