/** The validation error type for translations: what is wrong, how it reads,
    and what the caller should do about it. */
module TranslationErrors {
  import opened Common

  datatype TranslationError =
    | InvalidWord(word: string)
    | InvalidLanguage(language: string)
    | InvalidTranslations(translations: seq<string>)
  {
    /** Each case names what was rejected after a fixed prefix. */
    function ErrorDescription(): (r: Option<string>)
      ensures r.Some?
      ensures InvalidWord? ==> r.value == WordPrefix + word
      ensures InvalidLanguage? ==> r.value == LanguagePrefix + language
      ensures InvalidTranslations? ==> r.value == TranslationsPrefix + Rendered(translations)
    {
      match this
      case InvalidWord(w) => Some(WordPrefix + w)
      case InvalidLanguage(l) => Some(LanguagePrefix + l)
      case InvalidTranslations(ts) => Some(TranslationsPrefix + Rendered(ts))
    }

    /** The advice depends on the case alone; see SuggestionIdentifiesCase. */
    function RecoverySuggestion(): (r: Option<string>)
      ensures r.Some?
      ensures InvalidWord? ==> r.value == WordSuggestion
      ensures InvalidLanguage? ==> r.value == LanguageSuggestion
      ensures InvalidTranslations? ==> r.value == TranslationsSuggestion
    {
      match this
      case InvalidWord(_) => Some(WordSuggestion)
      case InvalidLanguage(_) => Some(LanguageSuggestion)
      case InvalidTranslations(_) => Some(TranslationsSuggestion)
    }
  }

  const WordPrefix := "Word is not valid: "
  const LanguagePrefix := "Language is not valid: "
  const TranslationsPrefix := "Translations not valid: "
  const WordSuggestion := "Word should be a non empty alpha string."
  const LanguageSuggestion := "Language should be a valid language code. i.e: 'en', 'fr', 'ge', ..."
  const TranslationsSuggestion := "Translations should be a non empty array of String."

  /** How a list of strings is shown inside a description: `["a", "b"]`. */
  function Rendered(ts: seq<string>): (r: string)
    ensures |r| >= 2 && r[0] == '[' && r[|r| - 1] == ']'
    ensures r[1..|r| - 1] == Joined(ts)
  {
    "[" + Joined(ts) + "]"
  }

  /** The quoted elements separated by ", ". */
  function Joined(ts: seq<string>): (r: string)
    ensures ts == [] <==> r == []
    ensures |ts| == 1 ==> r == Quoted(ts[0])
  {
    if ts == [] then ""
    else if |ts| == 1 then Quoted(ts[0])
    else Quoted(ts[0]) + ", " + Joined(ts[1..])
  }

  /** Appending an element to a non-empty list appends ", " and the quoted
      element to its rendering: the elements appear in order, each quoted,
      separated by ", ". */
  lemma {:induction false} JoinedAppend(ts: seq<string>, t: string)
    requires ts != []
    ensures Joined(ts + [t]) == Joined(ts) + ", " + Quoted(t)
    decreases |ts|
  {
    var q := Quoted(ts[0]);
    var longer := ts + [t];
    assert longer[0] == ts[0] && |longer| > 1;
    assert Joined(longer) == q + ", " + Joined(longer[1..]);
    if |ts| == 1 {
      assert longer[1..] == [t];
      assert Joined(ts) == q;
    } else {
      assert longer[1..] == ts[1..] + [t];
      JoinedAppend(ts[1..], t);
      var rest := Joined(ts[1..]);
      assert Joined(ts) == q + ", " + rest;
      assert Joined(longer) == q + ", " + (rest + ", " + Quoted(t));
    }
  }

  function Quoted(t: string): (r: string)
    ensures |r| == |t| + 2 && r[0] == '"' && r[|r| - 1] == '"'
  {
    "\"" + t + "\""
  }

  /** Errors of the same case get the same advice, whatever they carry. */
  lemma SuggestionIgnoresPayload(a: TranslationError, b: TranslationError)
    requires (a.InvalidWord? && b.InvalidWord?)
          || (a.InvalidLanguage? && b.InvalidLanguage?)
          || (a.InvalidTranslations? && b.InvalidTranslations?)
    ensures a.RecoverySuggestion() == b.RecoverySuggestion()
  {
  }

  /** The three suggestions differ, so the advice tells which case it is. */
  lemma {:induction false} SuggestionIdentifiesCase(a: TranslationError, b: TranslationError)
    requires a.RecoverySuggestion() == b.RecoverySuggestion()
    ensures a.InvalidWord? <==> b.InvalidWord?
    ensures a.InvalidLanguage? <==> b.InvalidLanguage?
    ensures a.InvalidTranslations? <==> b.InvalidTranslations?
  {
    assert |WordSuggestion| != |LanguageSuggestion|;
    assert |WordSuggestion| != |TranslationsSuggestion|;
    assert |LanguageSuggestion| != |TranslationsSuggestion|;
  }

  /** The description of a rejected word or language gives it back. */
  lemma {:induction false} DescriptionDeterminesPayload(a: TranslationError, b: TranslationError)
    requires a.ErrorDescription() == b.ErrorDescription()
    requires (a.InvalidWord? && b.InvalidWord?) || (a.InvalidLanguage? && b.InvalidLanguage?)
    ensures a == b
  {
    var d := a.ErrorDescription().value;
    if a.InvalidWord? {
      assert a.word == d[|WordPrefix|..] == b.word;
    } else {
      assert a.language == d[|LanguagePrefix|..] == b.language;
    }
  }

  /** An empty list of translations is described as "[]". */
  lemma EmptyTranslationsDescription()
    ensures InvalidTranslations([]).ErrorDescription() == Some(TranslationsPrefix + "[]")
  {
    assert Joined([]) == "";
    assert Rendered([]) == "[" + "" + "]" == "[]";
  }
}
