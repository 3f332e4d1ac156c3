# BantuDico translation history store, modelled in Dafny

This project models the core of BantuDicoHistoryRealmStorage. That library keeps a
dictionary app's translation history in a Realm database. It stores words, their
translations, a favourite flag and the dates around it. The model covers five parts:

- **The store and its upsert.** The store is a list of `BDRealmTranslationResult` records
  with no primary key. `createOrUpdateTranslationHistory` looks up the first record that
  matches. It then overwrites that record in place, or appends one new record.
  The lookup is modelled exactly as written: it is given the source language in the
  word's place. So saving a word that differs from its language does not find its own
  earlier save: when no record has the language as its word, every such save adds another
  copy. When some record does have the language as its word, the save overwrites that
  record, which holds a different word, and the store does not grow. Every public save and favourite call writes
  `isFavorite: false`; the flag a caller asks for is ignored. `fetchTranslationResult`
  has the same swapped lookup. A Realm write block calls the completion before the
  transaction commits. So a commit that fails reports success first and the failure second.
- **The compound-identity record** `BDRealmTranslationHistory`. It is a class whose three
  setters re-derive `identifier = word-sourceLanguage-destinationLanguage`. The bare
  initializer leaves the key empty, which breaks that invariant.
- **The favourite-date rule**, shared by `RealmTranslation` (class), `BDRealmTranslation`
  (struct, modelled as a datatype with update functions) and `Translation` (class).
  Assigning the flag stamps the favourite date with `now` or clears it. `RealmTranslation`
  also stores its translations sorted.
- **Conversions** between stored and caller-facing values: `Word` ↔ `WordRepresentable`,
  `Translation` ↔ `Translatable`, and `BDRealmTranslationHistory` → `BDTranslationHistory`.
  The fields each conversion drops or moves are modelled too. `init(translation:)` takes
  the save date from the caller's favourite date. `translatableFrom` leaves the word and
  sound URL at the caller type's defaults.
- **Validators and error types.** The three prefix-anchored regular-expression validators
  are modelled, and so are the texts, suggestions and wrapped causes of both error enums.

Time is an explicit `now: Date` argument. A failing commit is an explicit
`commitError: Option<SystemError>` argument. Each public call runs as one sequential step.

`fetchTranslationResult` passes a `BDRealmTranslationResult` where the converting
initializer expects a `BDRealmTranslationHistory`. The stored record has no identifier.
The model converts it as a `BDRealmTranslationHistory` built by the convenience
initializer would be converted: its key is the compound identifier of its triple.

## Model

| member | source | states |
|---|---|---|
| `Common.FavoriteDateFor` | BantuDicoHistoryRealmStorage/Models/RealmTranslation.swift:31-35 | the observer's rule: a favourite date is present exactly for a favourite, and it is `now` |
| `StringOrder.Sort` | BantuDicoHistoryRealmStorage/Models/BDTranslationHistory.swift:28 | `sorted()` returns an ascending list that is a permutation of its input |
| `StringOrder.SortSortedIsIdentity` | BantuDicoHistoryRealmStorage/Models/BDTranslationHistory.swift:28 | an already sorted list is returned unchanged |
| `StringOrder.SortedPermutationsEqual` | BantuDicoHistoryRealmStorage/Models/BDTranslationHistory.swift:28 | two sorted lists with the same elements are equal, so the sorted result is unique |
| `StringOrder.SortIdempotent` | BantuDicoHistoryRealmStorage/Models/BDTranslationHistory.swift:28 | sorting twice equals sorting once |
| `StringOrder.SortDependsOnlyOnElements` | BantuDicoHistoryRealmStorage/Models/RealmTranslation.swift:71 | the stored order does not depend on the input order |
| `Validation.IsValidWord` | BantuDicoHistoryRealmStorage/Extensions/String+validation.swift:13-15 | holds iff `^[a-zA-Z]+` matches: some non-empty prefix is all ASCII letters |
| `Validation.IsValidLanguage` | BantuDicoHistoryRealmStorage/Extensions/String+validation.swift:17-19 | holds iff `^[a-zA-Z]{2}` matches: the first two characters exist and are letters |
| `Validation.IsValidFileName` | BantuDicoHistoryRealmStorage/Extensions/String+validation.swift:21-23 | holds iff `^[0-9a-zA-Z_]` matches the first character |
| `Validation.EmptyStringIsInvalid` | BantuDicoHistoryRealmStorage/Extensions/String+validation.swift:13-23 | the empty string fails all three validators |
| `Validation.SuffixIsUnconstrained` | BantuDicoHistoryRealmStorage/Extensions/String+validation.swift:13-23 | appending anything to a valid string keeps it valid: only the prefix is checked |
| `Validation.ValidatorsAreNested` | BantuDicoHistoryRealmStorage/Extensions/String+validation.swift:13-23 | a valid language is a valid word, and a valid word is a valid file name |
| `Validation.HyphenatedWordIsValid` | BantuDicoHistoryRealmStorage/Extensions/String+validation.swift:13-15 | "a-b" is a valid word, so a word may contain the identifier separator |
| `Validation.ValidatorExamples` | BantuDicoHistoryRealmStorage/Extensions/String+validation.swift:13-23 | ")oi,7" is not a word, "A32" is not a language, "en" is one, "_store" is a file name |
| `StorageErrors.CreationFailureReason.UnderlyingError` | BantuDicoHistoryRealmStorage/Core/BDRealmStorageError.swift:92-96 | a creation failure wraps no error |
| `StorageErrors.CreationFailureReason.LocalizedDescription` | BantuDicoHistoryRealmStorage/Core/BDRealmStorageError.swift:117-124 | the fixed creation prefix followed by the store name |
| `StorageErrors.AccessFailureReason.UnderlyingError` | BantuDicoHistoryRealmStorage/Core/BDRealmStorageError.swift:98-107 | both access cases wrap their error |
| `StorageErrors.AccessFailureReason.LocalizedDescription` | BantuDicoHistoryRealmStorage/Core/BDRealmStorageError.swift:126-135 | the access or write prefix followed by the cause's description |
| `StorageErrors.OperationFailureReason.UnderlyingError` | BantuDicoHistoryRealmStorage/Core/BDRealmStorageError.swift:109-113 | a not-found failure wraps no error |
| `StorageErrors.OperationFailureReason.LocalizedDescription` | BantuDicoHistoryRealmStorage/Core/BDRealmStorageError.swift:137-144 | the fixed not-found prefix followed by the identifier |
| `StorageErrors.StorageError.UnderlyingError` | BantuDicoHistoryRealmStorage/Core/BDRealmStorageError.swift:79-90 | there is a wrapped error iff the case is an access failure, and it is that failure's cause |
| `StorageErrors.StorageError.ErrorDescription` | BantuDicoHistoryRealmStorage/Core/BDRealmStorageError.swift:53-62 | always present, and equal to the reason's description |
| `StorageErrors.StorageError.RecoverySuggestion` | BantuDicoHistoryRealmStorage/Core/BDRealmStorageError.swift:64-74 | present iff the case is a creation failure, and then the store-name pattern advice |
| `StorageErrors.CreationDescriptionDeterminesName` | BantuDicoHistoryRealmStorage/Core/BDRealmStorageError.swift:117-124 | equal creation descriptions mean equal store names |
| `StorageErrors.NotFoundDescriptionDeterminesIdentifier` | BantuDicoHistoryRealmStorage/Core/BDRealmStorageError.swift:137-144 | equal not-found descriptions mean equal identifiers |
| `StorageErrors.AccessDescriptionsDistinguishCases` | BantuDicoHistoryRealmStorage/Core/BDRealmStorageError.swift:126-135 | a read-failure description never equals a write-failure description |
| `StorageErrors.AccessDescriptionDeterminesCause` | BantuDicoHistoryRealmStorage/Core/BDRealmStorageError.swift:126-135 | within one case, the description determines the cause's text |
| `TranslationErrors.TranslationError.ErrorDescription` | BantuDicoHistoryRealmStorage/Core/BDRealmTranslationError.swift:20-29 | always present: a case prefix followed by the rejected word, language or rendered list |
| `TranslationErrors.TranslationError.RecoverySuggestion` | BantuDicoHistoryRealmStorage/Core/BDRealmTranslationError.swift:31-40 | always present, one fixed text per case |
| `TranslationErrors.Rendered` | BantuDicoHistoryRealmStorage/Core/BDRealmTranslationError.swift:26-27 | a list is shown between '[' and ']', and between them is the joined text of its elements (see JoinedAppend) |
| `TranslationErrors.JoinedAppend` | BantuDicoHistoryRealmStorage/Core/BDRealmTranslationError.swift:26-27 | appending an element to a non-empty list appends ", " and the quoted element: the elements appear in order, each quoted, separated by ", " |
| `TranslationErrors.SuggestionIgnoresPayload` | BantuDicoHistoryRealmStorage/Core/BDRealmTranslationError.swift:31-40 | errors of the same case get the same suggestion whatever they carry |
| `TranslationErrors.SuggestionIdentifiesCase` | BantuDicoHistoryRealmStorage/Core/BDRealmTranslationError.swift:33-38 | equal suggestions mean the same case: the three texts are pairwise distinct |
| `TranslationErrors.DescriptionDeterminesPayload` | BantuDicoHistoryRealmStorage/Core/BDRealmTranslationError.swift:20-25 | equal word (or language) descriptions mean equal rejected values |
| `TranslationErrors.EmptyTranslationsDescription` | BantuDicoHistoryRealmStorage/Core/BDRealmTranslationError.swift:26-27 | an empty translation list is described with "[]" |
| `RealmTranslationHistory.CompoundIdentifier` | BantuDicoHistoryRealmStorage/Models/BDRealmTranslationHistory.swift:55-57 | the key is the word, '-', the source language, '-', the target language, at those positions |
| `RealmTranslationHistory.CompoundIdentifierInjective` | BantuDicoHistoryRealmStorage/Models/BDRealmTranslationHistory.swift:55-57 | when the word and source language hold no '-', equal keys mean equal triples |
| `RealmTranslationHistory.IdentifiersCollideAcrossHyphens` | BantuDicoHistoryRealmStorage/Models/BDRealmTranslationHistory.swift:55-57 | ("a-b","c","d") and ("a","b-c","d") share one key |
| `RealmTranslationHistory.BDRealmTranslationHistory.constructor` | BantuDicoHistoryRealmStorage/Models/BDRealmTranslationHistory.swift:14-19 | `init()` leaves every field at its default, so the key is "" and the invariant does not hold |
| `RealmTranslationHistory.BDRealmTranslationHistory.Create` | BantuDicoHistoryRealmStorage/Models/BDRealmTranslationHistory.swift:21-31 | the convenience init establishes the key invariant and stores the flag and translations as given, order kept |
| `RealmTranslationHistory.BDRealmTranslationHistory.SetCompoundSourceWord` | BantuDicoHistoryRealmStorage/Models/BDRealmTranslationHistory.swift:40-43 | sets the word, re-establishes the key invariant, changes no other field |
| `RealmTranslationHistory.BDRealmTranslationHistory.SetCompoundSourceLanguage` | BantuDicoHistoryRealmStorage/Models/BDRealmTranslationHistory.swift:45-48 | sets the source language, re-establishes the key invariant, changes no other field |
| `RealmTranslationHistory.BDRealmTranslationHistory.SetCompoundDestinationLanguage` | BantuDicoHistoryRealmStorage/Models/BDRealmTranslationHistory.swift:50-53 | sets the target language, re-establishes the key invariant, changes no other field |
| `RealmTranslationHistory.BDRealmTranslationHistory.IdentifierValue` | BantuDicoHistoryRealmStorage/Models/BDRealmTranslationHistory.swift:55-57 | the current word, '-', the current source language, '-' and the current target language, each at its position |
| `RealmTranslationHistory.BareInitIsNotValid` | BantuDicoHistoryRealmStorage/Models/BDRealmTranslationHistory.swift:14-18 | the derived key of three empty fields is "--", not "" |
| `RealmTranslationHistory.SameTripleSameKey` | BantuDicoHistoryRealmStorage/Models/BDRealmTranslationHistory.swift:33-35 | two records that keep the invariant and share a triple share a primary key |
| `TranslationHistory.MakeHistory` | BantuDicoHistoryRealmStorage/Models/BDTranslationHistory.swift:22-29 | copies the five fields and gives the translations sorted, as a permutation of the stored list |
| `TranslationHistory.FromRealmTranslationHistory` | BantuDicoHistoryRealmStorage/Models/BDTranslationHistory.swift:22-29 | the same for a stored record object, which is only read |
| `TranslationHistory.SortedTranslationsKept` | BantuDicoHistoryRealmStorage/Models/BDTranslationHistory.swift:28 | already sorted translations come out unchanged |
| `TranslationHistory.TranslationOrderIsForgotten` | BantuDicoHistoryRealmStorage/Models/BDTranslationHistory.swift:28 | records with the same translations in any order convert to the same list |
| `TranslationHistory.ValidRecordGivesDerivedKey` | BantuDicoHistoryRealmStorage/Models/BDTranslationHistory.swift:23-26 | a record that keeps the key invariant converts to a value whose key is derived from its own fields |
| `RealmTranslations.RealmTranslation.constructor` | BantuDicoHistoryRealmStorage/Models/RealmTranslation.swift:16-42 | `init()`: empty strings, not a favourite, no favourite date, saved now |
| `RealmTranslations.RealmTranslation.Create` | BantuDicoHistoryRealmStorage/Models/RealmTranslation.swift:62-72 | copies the five descriptive fields, keeps the favourite-date rule, saved now, translations sorted and a permutation of the input |
| `RealmTranslations.RealmTranslation.SetIsFavorite` | BantuDicoHistoryRealmStorage/Models/RealmTranslation.swift:31-35 | after any assignment, date present iff favourite; true re-stamps `now`; the save date and every other field are untouched |
| `BDRealmTranslations.MakeBDRealmTranslation` | BantuDicoHistoryRealmStorage/Models/BDRealmTranslation.swift:54-63 | fields copied, translations in the given order, no save date, favourite date iff favourite |
| `BDRealmTranslations.BDRealmTranslation.WithIsFavorite` | BantuDicoHistoryRealmStorage/Models/BDRealmTranslation.swift:30-34 | the new flag with its date re-derived (false clears it); every other field kept |
| `BDRealmTranslations.BDRealmTranslation.WithSaveDate` | BantuDicoHistoryRealmStorage/Models/BDRealmTranslation.swift:39-40 | sets only the save date; the flag and favourite date are unaffected |
| `BDRealmTranslations.ReachableValuesAreValid` | BantuDicoHistoryRealmStorage/Models/BDRealmTranslation.swift:30-43 | since the favourite date is privately set, every value reached by assignments keeps date-iff-favourite, and no assignment changes the descriptive fields |
| `BDRealmTranslations.UnfavoriteClearsDate` | BantuDicoHistoryRealmStorage/Models/BDRealmTranslation.swift:30-34 | setting the flag to false clears the favourite date |
| `Words.WordFrom` | BantuDicoHistoryRealmStorage/Models/Word.swift:31-36 | `init(word:)` copies identifier, word and sound URL |
| `Words.Word.RepresentableFrom` | BantuDicoHistoryRealmStorage/Models/Word.swift:41-48 | `wordRepresentableFrom` copies the same three fields back |
| `Words.RepresentableRoundTrip` | BantuDicoHistoryRealmStorage/Models/Word.swift:31-48 | caller word to stored word and back is the identity |
| `Words.WordRoundTrip` | BantuDicoHistoryRealmStorage/Models/Word.swift:31-48 | stored word to caller word and back is the identity |
| `Words.WordsFrom` | BantuDicoHistoryRealmStorage/Models/Translation.swift:62-63 | one stored word per caller word, same count and order |
| `Words.RepresentablesFrom` | BantuDicoHistoryRealmStorage/Models/Translation.swift:78 | one caller word per stored word, same count and order |
| `Words.RepresentablesRoundTrip` | BantuDicoHistoryRealmStorage/Models/Translation.swift:62-78 | mapping a word list to stored words and back returns the same list |
| `Translations.Translation.constructor` | BantuDicoHistoryRealmStorage/Models/Translation.swift:16-44 | `init()`: empty strings, not a favourite, no dates, no words |
| `Translations.Translation.FromTranslatable` | BantuDicoHistoryRealmStorage/Models/Translation.swift:53-64 | copies identifier, word, languages and flag; date iff favourite; save date := caller's favourite date; sound URL stays ""; words mapped in order |
| `Translations.Translation.SetIsFavorite` | BantuDicoHistoryRealmStorage/Models/Translation.swift:31-35 | after any assignment, date present iff favourite; nothing else changes |
| `Translations.Translation.TranslatableFrom` | BantuDicoHistoryRealmStorage/Models/Translation.swift:69-80 | copies identifier, languages, flag, both dates and the words in order; word and sound URL keep the blank value's |
| `Translations.RoundTrip` | BantuDicoHistoryRealmStorage/Models/Translation.swift:53-80 | storing then reading back keeps identifier, languages, flag and words; loses word and sound URL; the favourite date comes back as the save date |
| `HistoryStorage.FirstMatch` | BantuDicoHistoryRealmStorage/Core/BantuDicoHistoryRealmStorage.swift:145-155 | the index of the first matching record, or none when no record matches |
| `HistoryStorage.WriteIndex` | BantuDicoHistoryRealmStorage/Core/BantuDicoHistoryRealmStorage.swift:173-178 | an existing index iff some record matches (language, language, target); it is then the first such record |
| `HistoryStorage.Upsert` | BantuDicoHistoryRealmStorage/Core/BantuDicoHistoryRealmStorage.swift:177-186 | the written record carries the arguments, translations in input order; it replaces the found record or is appended; all others are kept |
| `HistoryStorage.UpsertGrowsByAtMostOne` | BantuDicoHistoryRealmStorage/Core/BantuDicoHistoryRealmStorage.swift:178-185 | the store grows by at most one record |
| `HistoryStorage.SavingTwiceDuplicates` | BantuDicoHistoryRealmStorage/Core/BantuDicoHistoryRealmStorage.swift:173-185 | with word != language and no earlier match, two saves append two records |
| `HistoryStorage.SavingTwiceWithWordAsLanguageOverwrites` | BantuDicoHistoryRealmStorage/Core/BantuDicoHistoryRealmStorage.swift:173-185 | with word == language the second save overwrites the first |
| `HistoryStorage.SaveOverwritesLanguageNamedRecord` | BantuDicoHistoryRealmStorage/Core/BantuDicoHistoryRealmStorage.swift:173-185 | when a record has the language as its word, saving any word overwrites the first such record and the store does not grow |
| `HistoryStorage.NonFavoriteWritesKeepNoFavorites` | BantuDicoHistoryRealmStorage/Core/BantuDicoHistoryRealmStorage.swift:75-112 | writes with `isFavorite: false` never create a favourite |
| `HistoryStorage.StoreFileName` | BantuDicoHistoryRealmStorage/Core/BantuDicoHistoryRealmStorage.swift:25 | the file name is the store name followed by ".realm" |
| `HistoryStorage.StoreFileNameInjective` | BantuDicoHistoryRealmStorage/Core/BantuDicoHistoryRealmStorage.swift:25 | different store names give different file names |
| `HistoryStorage.HistoryOfResult` | BantuDicoHistoryRealmStorage/Core/BantuDicoHistoryRealmStorage.swift:53 | a fetched record becomes a caller value with a derived key and sorted translations |
| `HistoryStorage.BantuDicoHistoryRealmStorage.constructor` | BantuDicoHistoryRealmStorage/Core/BantuDicoHistoryRealmStorage.swift:22-30 | the store lives in `storeName.realm` and holds what that file holds |
| `HistoryStorage.BantuDicoHistoryRealmStorage.FetchRealmTranslation` | BantuDicoHistoryRealmStorage/Core/BantuDicoHistoryRealmStorage.swift:145-155 | returns the first record matching all three values, or none iff nothing matches |
| `HistoryStorage.BantuDicoHistoryRealmStorage.CreateOrUpdateTranslationHistory` | BantuDicoHistoryRealmStorage/Core/BantuDicoHistoryRealmStorage.swift:165-194 | a commit applies `Upsert`; a failed commit keeps the store and reports (true, nil) then (false, error) |
| `HistoryStorage.BantuDicoHistoryRealmStorage.SaveTranslation` | BantuDicoHistoryRealmStorage/Core/BantuDicoHistoryRealmStorage.swift:68-80 | an upsert with `isFavorite: false`; both completion calls are passed on: (true, nil), then (false, error) when the commit fails |
| `HistoryStorage.BantuDicoHistoryRealmStorage.SaveHistory` | BantuDicoHistoryRealmStorage/Core/BantuDicoHistoryRealmStorage.swift:87-92 | an upsert of the value's triple and translations, never a favourite; the same two reports |
| `HistoryStorage.BantuDicoHistoryRealmStorage.FavoriteTranslation` | BantuDicoHistoryRealmStorage/Core/BantuDicoHistoryRealmStorage.swift:104-117 | the requested flag is ignored: an upsert with `isFavorite: false`; the same two reports |
| `HistoryStorage.BantuDicoHistoryRealmStorage.FavoriteHistory` | BantuDicoHistoryRealmStorage/Core/BantuDicoHistoryRealmStorage.swift:126-131 | forwards the value's fields; the flag is again ignored; the same two reports |
| `HistoryStorage.BantuDicoHistoryRealmStorage.FetchTranslationResult` | BantuDicoHistoryRealmStorage/Core/BantuDicoHistoryRealmStorage.swift:45-57 | none iff no record matches (language, language, target); a result is the conversion of the first such record, so its word equals its language and its translations are its sorted permutation; the store is only read |

## Left out

- Concurrency: the serial `OperationQueue`, the nested operations, `[weak self]` and delivery of completions on a `DispatchQueue`. Each public call is one sequential method, with its lookup and write in one step. A completion invocation is a `Report` value.
- The Realm engine: opening the database (`try! Realm()` traps on failure, so the core never raises an access failure), transactions, `List`, `add(_:update:)` and `primaryKey()`. Stored records are values in a sequence, not live shared objects. Aliasing between a fetched object and the stored one is not modelled.
- The lookup predicate is built by string interpolation without quoting its values. The model reads it as equality on the three fields.
- The global default configuration and file URLs: only the `storeName + ".realm"` file name is modelled. The directory it is placed in is not.
- Wall-clock time: `Date()` is the `now` argument, and no date arithmetic is done.
- String order: Swift compares strings by Unicode canonical equivalence. The model sorts by lexicographic order on character codes.
- Text rendering: an `Error`'s `localizedDescription` is a field of `SystemError`. A `[String]` is rendered as `["a", "b"]` without escaping quotes or backslashes inside the elements.
- The storage class never calls the validators and never raises `BDRealmTranslationError`, a store-name error or a not-found error. The error types are modelled on their own.
- The operations the test files call that the storage class does not have (save by identifier, favourite toggling by identifier, listing, deleting, prefix search) are not part of this model.
- `RealmWord`, `BDRealmWord`, `Persistable` and `Modelable` only declare fields or requirements and are not used by the modelled code.
- `BDRealmTranslation`'s mutating `isFavorite` and `saveDate` setters are modelled as functions that return the updated value, as Swift's value semantics give.
