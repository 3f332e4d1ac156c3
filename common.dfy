/** Shared vocabulary of the history store: optional values, timestamps,
    errors raised by code outside the model, and the favourite-date rule that
    every translation record shape applies when its `isFavorite` flag is set. */
module Common {

  datatype Option<+T> = None | Some(value: T)

  /** A point in time. Wall-clock reads (`Date()`) become an explicit `now`
      argument; no date arithmetic is modelled. */
  type Date = int

  /** An error thrown by code outside the model (the storage engine), reduced
      to the text Swift would show as its `localizedDescription`. */
  datatype SystemError = SystemError(localizedDescription: string)

  /** The invariant every `isFavorite` observer maintains: a favourite date is
      present exactly when the record is a favourite. */
  predicate FavoriteDateConsistent(isFavorite: bool, favoriteDate: Option<Date>)
  {
    favoriteDate.Some? <==> isFavorite
  }

  /** The `didSet` observer shared by RealmTranslation, BDRealmTranslation and
      Translation: `favoriteDate = isFavorite ? Date() : nil`. */
  function FavoriteDateFor(isFavorite: bool, now: Date): (d: Option<Date>)
    ensures FavoriteDateConsistent(isFavorite, d)
    ensures isFavorite ==> d == Some(now)
  {
    if isFavorite then Some(now) else None
  }
}
