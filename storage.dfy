/** The history store: a list of stored translation results without a
    primary key, an upsert that overwrites the first record its lookup finds
    or appends a new one, the public save and favourite calls built on it,
    and the fetch that turns a stored record into a caller value. */
module HistoryStorage {
  import opened Common
  import opened StringOrder
  import opened RealmTranslationHistory
  import opened TranslationHistory

  /** A stored record (`BDRealmTranslationResult`): no identifier, no key. */
  datatype BDRealmTranslationResult = BDRealmTranslationResult(
    sourceWord: string,
    sourceLanguage: string,
    destinationLanguage: string,
    isFavorite: bool,
    translations: seq<string>)

  /** One invocation of a completion handler: `(success, error)`. */
  datatype Report = Report(success: bool, error: Option<SystemError>)

  predicate Matches(r: BDRealmTranslationResult, sourceWord: string, sourceLanguage: string, destinationLanguage: string)
  {
    r.sourceWord == sourceWord && r.sourceLanguage == sourceLanguage && r.destinationLanguage == destinationLanguage
  }

  /** The index of the first record matching the three values, if any: the
      lookup's `filter(...).first`. */
  function FirstMatch(records: seq<BDRealmTranslationResult>, sourceWord: string, sourceLanguage: string,
                      destinationLanguage: string): (r: Option<nat>)
    ensures r.Some? ==> r.value < |records| && Matches(records[r.value], sourceWord, sourceLanguage, destinationLanguage)
    ensures r.Some? ==> forall j :: 0 <= j < r.value ==> !Matches(records[j], sourceWord, sourceLanguage, destinationLanguage)
    ensures r.None? ==> forall j :: 0 <= j < |records| ==> !Matches(records[j], sourceWord, sourceLanguage, destinationLanguage)
  {
    if records == [] then None
    else if Matches(records[0], sourceWord, sourceLanguage, destinationLanguage) then Some(0)
    else match FirstMatch(records[1..], sourceWord, sourceLanguage, destinationLanguage)
      case None => None
      case Some(i) => Some(i + 1)
  }

  /** Where an upsert writes: over the record its lookup finds, otherwise at
      the end. The lookup is given the source language in the word's place. */
  function WriteIndex(records: seq<BDRealmTranslationResult>, sourceLanguage: string, destinationLanguage: string): (k: nat)
    ensures k <= |records|
    ensures k < |records| <==> exists j :: 0 <= j < |records| && Matches(records[j], sourceLanguage, sourceLanguage, destinationLanguage)
    ensures k < |records| ==> Matches(records[k], sourceLanguage, sourceLanguage, destinationLanguage)
    ensures forall j :: 0 <= j < k && j < |records| ==> !Matches(records[j], sourceLanguage, sourceLanguage, destinationLanguage)
  {
    match FirstMatch(records, sourceLanguage, sourceLanguage, destinationLanguage)
    case Some(i) => i
    case None => |records|
  }

  /** The store after a successful `createOrUpdateTranslationHistory`: the
      written record carries the arguments (translations in the given order),
      it replaces the looked-up record or is appended, and every other record
      is kept. */
  function Upsert(records: seq<BDRealmTranslationResult>, sourceWord: string, sourceLanguage: string,
                  destinationLanguage: string, isFavorite: bool, translations: seq<string>): (r: seq<BDRealmTranslationResult>)
    ensures var k := WriteIndex(records, sourceLanguage, destinationLanguage);
            && |r| == (if k < |records| then |records| else |records| + 1)
            && r[k] == BDRealmTranslationResult(sourceWord, sourceLanguage, destinationLanguage, isFavorite, translations)
            && forall j :: 0 <= j < |records| && j != k ==> r[j] == records[j]
  {
    var written := BDRealmTranslationResult(sourceWord, sourceLanguage, destinationLanguage, isFavorite, translations);
    var k := WriteIndex(records, sourceLanguage, destinationLanguage);
    if k < |records| then records[k := written] else records + [written]
  }

  /** The store grows by at most one record per upsert. */
  lemma UpsertGrowsByAtMostOne(records: seq<BDRealmTranslationResult>, w: string, l: string, d: string,
                               isFavorite: bool, ts: seq<string>)
    ensures |records| <= |Upsert(records, w, l, d, isFavorite, ts)| <= |records| + 1
  {
  }

  /** Because the lookup asks for a record whose word is the source language,
      saving the same word twice, when the word differs from its language,
      finds nothing the second time and leaves two copies. */
  lemma {:induction false} SavingTwiceDuplicates(records: seq<BDRealmTranslationResult>, w: string, l: string, d: string,
                                                 ts1: seq<string>, ts2: seq<string>)
    requires w != l
    requires forall j :: 0 <= j < |records| ==> !Matches(records[j], l, l, d)
    ensures var twice := Upsert(Upsert(records, w, l, d, false, ts1), w, l, d, false, ts2);
            && |twice| == |records| + 2
            && twice[|records|] == BDRealmTranslationResult(w, l, d, false, ts1)
            && twice[|records| + 1] == BDRealmTranslationResult(w, l, d, false, ts2)
  {
    var once := Upsert(records, w, l, d, false, ts1);
    assert WriteIndex(records, l, d) == |records|;
    assert forall j :: 0 <= j < |once| ==> !Matches(once[j], l, l, d) by {
      forall j | 0 <= j < |once| ensures !Matches(once[j], l, l, d) {
        if j < |records| { assert once[j] == records[j]; }
      }
    }
    assert WriteIndex(once, l, d) == |once|;
  }

  /** When the word equals its language the lookup finds the earlier write,
      so a second save overwrites it and the store does not grow. */
  lemma {:induction false} SavingTwiceWithWordAsLanguageOverwrites(records: seq<BDRealmTranslationResult>, l: string, d: string,
                                                                   ts1: seq<string>, ts2: seq<string>)
    ensures var once := Upsert(records, l, l, d, false, ts1);
            var twice := Upsert(once, l, l, d, false, ts2);
            && |twice| == |once|
            && twice[WriteIndex(records, l, d)] == BDRealmTranslationResult(l, l, d, false, ts2)
  {
    var once := Upsert(records, l, l, d, false, ts1);
    var k := WriteIndex(records, l, d);
    assert Matches(once[k], l, l, d);
    assert WriteIndex(once, l, d) == k by {
      match FirstMatch(records, l, l, d)
      case Some(i) =>
        forall j | 0 <= j < i ensures !Matches(once[j], l, l, d) { assert once[j] == records[j]; }
      case None =>
        forall j | 0 <= j < |records| ensures !Matches(once[j], l, l, d) { assert once[j] == records[j]; }
    }
  }

  /** The swapped lookup also finds a record saved under another word: when
      the store holds a record whose word is the language, saving any word in
      that language overwrites that record, and the store does not grow. */
  lemma SaveOverwritesLanguageNamedRecord(records: seq<BDRealmTranslationResult>, w: string, l: string, d: string,
                                          ts: seq<string>, j: nat)
    requires j < |records| && Matches(records[j], l, l, d)
    ensures var r := Upsert(records, w, l, d, false, ts);
            var k := WriteIndex(records, l, d);
            && k <= j && records[k] == BDRealmTranslationResult(l, l, d, records[k].isFavorite, records[k].translations)
            && |r| == |records|
            && r[k] == BDRealmTranslationResult(w, l, d, false, ts)
  {
  }

  /** No stored record is a favourite. */
  predicate NoFavorites(records: seq<BDRealmTranslationResult>)
  {
    forall j :: 0 <= j < |records| ==> !records[j].isFavorite
  }

  /** The public calls only ever write `isFavorite: false`, so a store without
      favourites never gains one. */
  lemma {:induction false} NonFavoriteWritesKeepNoFavorites(records: seq<BDRealmTranslationResult>, w: string, l: string,
                                                            d: string, ts: seq<string>)
    requires NoFavorites(records)
    ensures NoFavorites(Upsert(records, w, l, d, false, ts))
  {
    var r := Upsert(records, w, l, d, false, ts);
    var k := WriteIndex(records, l, d);
    forall j | 0 <= j < |r| ensures !r[j].isFavorite {
      if j != k { assert r[j] == records[j]; }
    }
  }

  /** The store's file name: the store name with the Realm extension. */
  function StoreFileName(storeName: string): (r: string)
    ensures |r| == |storeName| + 6
    ensures r[..|storeName|] == storeName && r[|storeName|..] == ".realm"
  {
    storeName + ".realm"
  }

  /** Different store names never give the same file name. */
  lemma {:induction false} StoreFileNameInjective(a: string, b: string)
    requires StoreFileName(a) == StoreFileName(b)
    ensures a == b
  {
    assert a == StoreFileName(a)[..|a|];
    assert |a| == |b|;
  }

  /** The caller value a fetch returns for a stored record: its key is the
      one the convenience initializer would derive, its translations sorted. */
  function HistoryOfResult(r: BDRealmTranslationResult): (h: BDTranslationHistory)
    ensures h.identifier == CompoundIdentifier(r.sourceWord, r.sourceLanguage, r.destinationLanguage)
    ensures h.sourceWord == r.sourceWord && h.sourceLanguage == r.sourceLanguage
    ensures h.destinationLanguage == r.destinationLanguage && h.isFavorite == r.isFavorite
    ensures IsSorted(h.translations) && multiset(h.translations) == multiset(r.translations)
  {
    MakeHistory(CompoundIdentifier(r.sourceWord, r.sourceLanguage, r.destinationLanguage),
                r.sourceWord, r.sourceLanguage, r.destinationLanguage, r.isFavorite, r.translations)
  }

  /** The store object `BantuDicoHistoryRealmStorage`. Each public call runs
      as one step: its lookup and its write are not interleaved with others. */
  class BantuDicoHistoryRealmStorage {
    /** The file the store lives in, inside the default configuration's directory. */
    const fileName: string
    var records: seq<BDRealmTranslationResult>

    /** `init(storeName:)`, opening a store whose file already holds `stored`. */
    constructor (storeName: string, stored: seq<BDRealmTranslationResult>)
      ensures fileName == StoreFileName(storeName) && records == stored
    {
      fileName := StoreFileName(storeName);
      records := stored;
    }

    /** `fetchRealmTranslation`: the first record whose three fields equal the
        three arguments, or nothing. The store is only read. */
    method FetchRealmTranslation(sourceWord: string, sourceLanguage: string, destinationLanguage: string)
      returns (r: Option<BDRealmTranslationResult>)
      ensures r.None? <==> forall j :: 0 <= j < |records| ==> !Matches(records[j], sourceWord, sourceLanguage, destinationLanguage)
      ensures r.Some? ==> exists i :: 0 <= i < |records| && records[i] == r.value
                            && Matches(records[i], sourceWord, sourceLanguage, destinationLanguage)
                            && forall j :: 0 <= j < i ==> !Matches(records[j], sourceWord, sourceLanguage, destinationLanguage)
    {
      var found := FirstMatch(records, sourceWord, sourceLanguage, destinationLanguage);
      if found.Some? {
        r := Some(records[found.value]);
      } else {
        r := None;
      }
    }

    /** `createOrUpdateTranslationHistory`. The write block reports success
        before the transaction is committed, so a commit that fails
        (`commitError`) reports twice: first success, then the failure; the
        store then keeps its previous contents. */
    method CreateOrUpdateTranslationHistory(sourceWord: string, sourceLanguage: string, destinationLanguage: string,
                                            isFavorite: bool, translations: seq<string>,
                                            commitError: Option<SystemError>)
      returns (reports: seq<Report>)
      modifies this
      ensures commitError.None? ==> records == Upsert(old(records), sourceWord, sourceLanguage, destinationLanguage, isFavorite, translations)
      ensures commitError.Some? ==> records == old(records)
      ensures reports == if commitError.None? then [Report(true, None)]
                         else [Report(true, None), Report(false, commitError)]
    {
      var k := WriteIndex(records, sourceLanguage, destinationLanguage);
      var translation := BDRealmTranslationResult("", "", "", false, []);
      if k < |records| {
        translation := records[k];
      }
      translation := translation.(sourceWord := sourceWord);
      translation := translation.(sourceLanguage := sourceLanguage);
      translation := translation.(destinationLanguage := destinationLanguage);
      translation := translation.(isFavorite := isFavorite);
      translation := translation.(translations := []);
      translation := translation.(translations := translation.translations + translations);
      assert translation == BDRealmTranslationResult(sourceWord, sourceLanguage, destinationLanguage, isFavorite, translations);
      reports := [Report(true, None)];
      if commitError.None? {
        records := if k < |records| then records[k := translation] else records + [translation];
      } else {
        reports := reports + [Report(false, commitError)];
      }
    }

    /** `saveTranslation(sourceWord:sourceLanguage:destinationLanguage:translations:)`:
        an upsert that is never a favourite. */
    method SaveTranslation(sourceWord: string, sourceLanguage: string, destinationLanguage: string,
                           translations: seq<string>, commitError: Option<SystemError>)
      returns (reports: seq<Report>)
      modifies this
      ensures records == if commitError.None?
                         then Upsert(old(records), sourceWord, sourceLanguage, destinationLanguage, false, translations)
                         else old(records)
      ensures reports == if commitError.None? then [Report(true, None)]
                         else [Report(true, None), Report(false, commitError)]
    {
      reports := CreateOrUpdateTranslationHistory(sourceWord, sourceLanguage, destinationLanguage, false, translations, commitError);
    }

    /** `saveTranslation(_:)`: saves a caller value's word, languages and
        translations; its identifier and flag are not used. */
    method SaveHistory(translation: BDTranslationHistory, commitError: Option<SystemError>)
      returns (reports: seq<Report>)
      modifies this
      ensures records == if commitError.None?
                         then Upsert(old(records), translation.sourceWord, translation.sourceLanguage,
                                     translation.destinationLanguage, false, translation.translations)
                         else old(records)
      ensures reports == if commitError.None? then [Report(true, None)]
                         else [Report(true, None), Report(false, commitError)]
    {
      reports := SaveTranslation(translation.sourceWord, translation.sourceLanguage, translation.destinationLanguage,
                                 translation.translations, commitError);
    }

    /** `favoriteTranslation(sourceWord:...:isFavorite:translations:)`: the
        requested flag is ignored; the record is written as not a favourite. */
    method FavoriteTranslation(sourceWord: string, sourceLanguage: string, destinationLanguage: string,
                               isFavorite: bool, translations: seq<string>, commitError: Option<SystemError>)
      returns (reports: seq<Report>)
      modifies this
      ensures records == if commitError.None?
                         then Upsert(old(records), sourceWord, sourceLanguage, destinationLanguage, false, translations)
                         else old(records)
      ensures reports == if commitError.None? then [Report(true, None)]
                         else [Report(true, None), Report(false, commitError)]
    {
      reports := CreateOrUpdateTranslationHistory(sourceWord, sourceLanguage, destinationLanguage, false, translations, commitError);
    }

    /** `favoriteTranslation(_:isFavorite:)`: forwards the caller value's
        fields; the flag is again ignored. */
    method FavoriteHistory(translation: BDTranslationHistory, isFavorite: bool, commitError: Option<SystemError>)
      returns (reports: seq<Report>)
      modifies this
      ensures records == if commitError.None?
                         then Upsert(old(records), translation.sourceWord, translation.sourceLanguage,
                                     translation.destinationLanguage, false, translation.translations)
                         else old(records)
      ensures reports == if commitError.None? then [Report(true, None)]
                         else [Report(true, None), Report(false, commitError)]
    {
      reports := FavoriteTranslation(translation.sourceWord, translation.sourceLanguage, translation.destinationLanguage,
                                     isFavorite, translation.translations, commitError);
    }

    /** `fetchTranslationResult`: looks up the source language in the word's
        place, so the word argument is not used and any result's word equals
        its language; the record found is converted, the store only read. */
    method FetchTranslationResult(sourceWord: string, sourceLanguage: string, destinationLanguage: string)
      returns (r: Option<BDTranslationHistory>)
      ensures r.None? <==> forall j :: 0 <= j < |records| ==> !Matches(records[j], sourceLanguage, sourceLanguage, destinationLanguage)
      ensures r.Some? ==> r.value.sourceWord == sourceLanguage && r.value.sourceLanguage == sourceLanguage
      ensures r.Some? ==> r.value.destinationLanguage == destinationLanguage
      ensures r.Some? ==> IsSorted(r.value.translations)
      ensures r.Some? ==> exists i :: 0 <= i < |records| && Matches(records[i], sourceLanguage, sourceLanguage, destinationLanguage)
                            && r.value == HistoryOfResult(records[i])
                            && multiset(r.value.translations) == multiset(records[i].translations)
                            && forall j :: 0 <= j < i ==> !Matches(records[j], sourceLanguage, sourceLanguage, destinationLanguage)
    {
      var found := FetchRealmTranslation(sourceLanguage, sourceLanguage, destinationLanguage);
      r := if found.Some? then Some(HistoryOfResult(found.value)) else None;
    }
  }
}
