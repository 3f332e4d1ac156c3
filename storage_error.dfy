/** The store's error type: three failure families, each with its own reason
    enum, plus the texts and the wrapped cause each case exposes. */
module StorageErrors {
  import opened Common

  datatype CreationFailureReason = InvalidStoreName(storeName: string)
  {
    function UnderlyingError(): (r: Option<SystemError>)
      ensures r == None
    {
      None
    }

    function LocalizedDescription(): (r: string)
      ensures |r| >= |CreationPrefix| && r[..|CreationPrefix|] == CreationPrefix
      ensures r[|CreationPrefix|..] == storeName
    {
      CreationPrefix + storeName
    }
  }

  datatype AccessFailureReason = AccessFailed(error: SystemError) | WriteFailed(error: SystemError)
  {
    function UnderlyingError(): (r: Option<SystemError>)
      ensures r == Some(error)
    {
      match this
      case AccessFailed(e) => Some(e)
      case WriteFailed(e) => Some(e)
    }

    function LocalizedDescription(): (r: string)
      ensures AccessFailed? ==> r == AccessPrefix + error.localizedDescription
      ensures WriteFailed? ==> r == WritePrefix + error.localizedDescription
    {
      match this
      case AccessFailed(e) => AccessPrefix + e.localizedDescription
      case WriteFailed(e) => WritePrefix + e.localizedDescription
    }
  }

  datatype OperationFailureReason = TranslationNotFound(identifier: string)
  {
    function UnderlyingError(): (r: Option<SystemError>)
      ensures r == None
    {
      None
    }

    function LocalizedDescription(): (r: string)
      ensures |r| >= |NotFoundPrefix| && r[..|NotFoundPrefix|] == NotFoundPrefix
      ensures r[|NotFoundPrefix|..] == identifier
    {
      NotFoundPrefix + identifier
    }
  }

  datatype StorageError =
    | DataBaseCreationFailed(creation: CreationFailureReason)
    | DataBaseAccessFailed(access: AccessFailureReason)
    | DataBaseOperationFailed(operation: OperationFailureReason)
  {
    /** The error a failure wraps: only access failures carry one. */
    function UnderlyingError(): (r: Option<SystemError>)
      ensures r.Some? <==> DataBaseAccessFailed?
      ensures DataBaseAccessFailed? ==> r == Some(access.error)
    {
      match this
      case DataBaseCreationFailed(reason) => reason.UnderlyingError()
      case DataBaseAccessFailed(reason) => reason.UnderlyingError()
      case _ => None
    }

    /** Every case describes itself by its reason's description. */
    function ErrorDescription(): (r: Option<string>)
      ensures r.Some?
      ensures DataBaseCreationFailed? ==> r.value == creation.LocalizedDescription()
      ensures DataBaseAccessFailed? ==> r.value == access.LocalizedDescription()
      ensures DataBaseOperationFailed? ==> r.value == operation.LocalizedDescription()
    {
      match this
      case DataBaseCreationFailed(reason) => Some(reason.LocalizedDescription())
      case DataBaseAccessFailed(reason) => Some(reason.LocalizedDescription())
      case DataBaseOperationFailed(reason) => Some(reason.LocalizedDescription())
    }

    /** Only an invalid store name comes with advice. */
    function RecoverySuggestion(): (r: Option<string>)
      ensures r.Some? <==> DataBaseCreationFailed?
      ensures r.Some? ==> r.value == StoreNameSuggestion
    {
      match this
      case DataBaseCreationFailed(InvalidStoreName(_)) => Some(StoreNameSuggestion)
      case _ => None
    }
  }

  const CreationPrefix := "Data base creation failed due to invalid store name: "
  const AccessPrefix := "Data base access failed. Error: "
  const WritePrefix := "Data base write failed. Error: "
  const NotFoundPrefix := "Translation not found. Translation identifier: "
  const StoreNameSuggestion := "Store name should match pattern: [0-9a-zA-Z_]"

  /** The description of an invalid store name gives the name back. */
  lemma {:induction false} CreationDescriptionDeterminesName(a: string, b: string)
    requires InvalidStoreName(a).LocalizedDescription() == InvalidStoreName(b).LocalizedDescription()
    ensures a == b
  {
    var d := InvalidStoreName(a).LocalizedDescription();
    assert a == d[|CreationPrefix|..];
  }

  /** The description of a missing translation gives the identifier back. */
  lemma {:induction false} NotFoundDescriptionDeterminesIdentifier(a: string, b: string)
    requires TranslationNotFound(a).LocalizedDescription() == TranslationNotFound(b).LocalizedDescription()
    ensures a == b
  {
    var d := TranslationNotFound(a).LocalizedDescription();
    assert a == d[|NotFoundPrefix|..];
  }

  /** A read failure and a write failure never read alike, whatever their
      causes say. */
  lemma {:induction false} AccessDescriptionsDistinguishCases(e: SystemError, f: SystemError)
    ensures AccessFailed(e).LocalizedDescription() != WriteFailed(f).LocalizedDescription()
  {
    var a := AccessFailed(e).LocalizedDescription();
    var w := WriteFailed(f).LocalizedDescription();
    assert a[10] == AccessPrefix[10] == 'a';
    assert w[10] == WritePrefix[10] == 'w';
  }

  /** Within one access case the description determines the cause's text. */
  lemma {:induction false} AccessDescriptionDeterminesCause(r1: AccessFailureReason, r2: AccessFailureReason)
    requires r1.AccessFailed? == r2.AccessFailed?
    requires r1.LocalizedDescription() == r2.LocalizedDescription()
    ensures r1.error.localizedDescription == r2.error.localizedDescription
  {
    var p := if r1.AccessFailed? then AccessPrefix else WritePrefix;
    assert r1.error.localizedDescription == r1.LocalizedDescription()[|p|..];
    assert r2.error.localizedDescription == r2.LocalizedDescription()[|p|..];
  }
}
