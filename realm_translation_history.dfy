/** The stored translation history whose primary key is derived from its
    word and its two languages, and the rule that derives it. */
module RealmTranslationHistory {

  /** `identifierValue`: "word-sourceLanguage-destinationLanguage". */
  function CompoundIdentifier(sourceWord: string, sourceLanguage: string, destinationLanguage: string): (r: string)
    ensures |r| == |sourceWord| + |sourceLanguage| + |destinationLanguage| + 2
    ensures r[..|sourceWord|] == sourceWord && r[|sourceWord|] == '-'
    ensures r[|sourceWord| + 1..|sourceWord| + 1 + |sourceLanguage|] == sourceLanguage
    ensures r[|sourceWord| + 1 + |sourceLanguage|] == '-'
    ensures r[|sourceWord| + |sourceLanguage| + 2..] == destinationLanguage
  {
    sourceWord + "-" + sourceLanguage + "-" + destinationLanguage
  }

  predicate NoHyphen(s: string)
  {
    forall i :: 0 <= i < |s| ==> s[i] != '-'
  }

  /** When the word and the source language hold no '-', the identifier can
      be split back into its three parts, so distinct triples get distinct
      keys. */
  lemma CompoundIdentifierInjective(w1: string, l1: string, d1: string, w2: string, l2: string, d2: string)
    requires NoHyphen(w1) && NoHyphen(l1) && NoHyphen(w2) && NoHyphen(l2)
    requires CompoundIdentifier(w1, l1, d1) == CompoundIdentifier(w2, l2, d2)
    ensures w1 == w2 && l1 == l2 && d1 == d2
  {
    // The first '-' of the key ends the word, the second ends the language.
  }

  /** With a '-' inside the word, two different triples share one key: the
      validators accept such a word (see Validation.HyphenatedWordIsValid). */
  lemma IdentifiersCollideAcrossHyphens()
    ensures CompoundIdentifier("a-b", "c", "d") == CompoundIdentifier("a", "b-c", "d")
  {
  }

  /** The Realm object `BDRealmTranslationHistory`. */
  class BDRealmTranslationHistory {
    var sourceWord: string
    var sourceLanguage: string
    var destinationLanguage: string
    var isFavorite: bool
    var identifier: string
    var translations: seq<string>

    /** The key agrees with the three fields it is derived from. */
    predicate Valid()
      reads this
    {
      identifier == CompoundIdentifier(sourceWord, sourceLanguage, destinationLanguage)
    }

    /** `init()`: every field at its default; the key is "" and therefore not
        yet the derived one (see BareInitIsNotValid). */
    constructor ()
      ensures sourceWord == "" && sourceLanguage == "" && destinationLanguage == ""
      ensures !isFavorite && identifier == "" && translations == []
      ensures !Valid()
    {
      sourceWord, sourceLanguage, destinationLanguage := "", "", "";
      isFavorite, identifier, translations := false, "", [];
    }

    /** The convenience initializer: the three setters in turn, then the flag
        and the translations, kept in the given order. */
    constructor Create(sourceWord: string, sourceLanguage: string, destinationLanguage: string,
                       isFavorite: bool, translations: seq<string>)
      ensures Valid()
      ensures this.sourceWord == sourceWord && this.sourceLanguage == sourceLanguage
      ensures this.destinationLanguage == destinationLanguage
      ensures this.identifier == CompoundIdentifier(sourceWord, sourceLanguage, destinationLanguage)
      ensures this.isFavorite == isFavorite && this.translations == translations
    {
      this.sourceWord, this.sourceLanguage, this.destinationLanguage := "", "", "";
      this.isFavorite, this.identifier, this.translations := false, "", [];
      new;
      SetCompoundSourceWord(sourceWord);
      SetCompoundSourceLanguage(sourceLanguage);
      SetCompoundDestinationLanguage(destinationLanguage);
      this.isFavorite := isFavorite;
      this.translations := translations;
    }

    /** `setCompoundSourceWord`: sets the word and re-derives the key. */
    method SetCompoundSourceWord(sourceWord: string)
      modifies this
      ensures Valid()
      ensures this.sourceWord == sourceWord
      ensures sourceLanguage == old(sourceLanguage) && destinationLanguage == old(destinationLanguage)
      ensures isFavorite == old(isFavorite) && translations == old(translations)
    {
      this.sourceWord := sourceWord;
      identifier := IdentifierValue();
    }

    /** `setCompoundSourceLanguage`: sets the source language and re-derives
        the key. */
    method SetCompoundSourceLanguage(sourceLanguage: string)
      modifies this
      ensures Valid()
      ensures this.sourceLanguage == sourceLanguage
      ensures sourceWord == old(sourceWord) && destinationLanguage == old(destinationLanguage)
      ensures isFavorite == old(isFavorite) && translations == old(translations)
    {
      this.sourceLanguage := sourceLanguage;
      identifier := IdentifierValue();
    }

    /** `setCompoundDestinationLanguage`: sets the target language and
        re-derives the key. */
    method SetCompoundDestinationLanguage(destinationLanguage: string)
      modifies this
      ensures Valid()
      ensures this.destinationLanguage == destinationLanguage
      ensures sourceWord == old(sourceWord) && sourceLanguage == old(sourceLanguage)
      ensures isFavorite == old(isFavorite) && translations == old(translations)
    {
      this.destinationLanguage := destinationLanguage;
      identifier := IdentifierValue();
    }

    /** `identifierValue` on the current fields. */
    function IdentifierValue(): (r: string)
      reads this
      ensures |r| == |sourceWord| + |sourceLanguage| + |destinationLanguage| + 2
      ensures r[..|sourceWord|] == sourceWord && r[|sourceWord|] == '-'
      ensures r[|sourceWord| + 1..|sourceWord| + 1 + |sourceLanguage|] == sourceLanguage
      ensures r[|sourceWord| + 1 + |sourceLanguage|] == '-'
      ensures r[|sourceWord| + |sourceLanguage| + 2..] == destinationLanguage
    {
      CompoundIdentifier(sourceWord, sourceLanguage, destinationLanguage)
    }
  }

  /** A freshly created bare record breaks the key invariant: "" is not "--". */
  lemma BareInitIsNotValid()
    ensures CompoundIdentifier("", "", "") == "--" != ""
  {
  }

  /** Two valid records with the same word and languages have the same key. */
  lemma {:induction false} SameTripleSameKey(a: BDRealmTranslationHistory, b: BDRealmTranslationHistory)
    requires a.Valid() && b.Valid()
    requires a.sourceWord == b.sourceWord && a.sourceLanguage == b.sourceLanguage
    requires a.destinationLanguage == b.destinationLanguage
    ensures a.identifier == b.identifier
  {
  }
}
