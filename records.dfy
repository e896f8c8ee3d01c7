/** Records the three user-facing components receive from the backend.
    Both are values: the client never updates them in place. */
module Records {

  datatype Option<+T> = None | Some(value: T)

  /** One of the current user's ratings, as returned by `GET /ratings/user`.
      `createdAt` is kept as the backend's text; it is only ever displayed. */
  datatype UserRating = UserRating(
    id: int,
    storeId: int,
    rating: int,
    createdAt: string,
    storeName: string)

  /** A store, as returned by `GET /stores`. `averageRating` and
      `totalRatings` are computed by the backend, never on the client. */
  datatype Store = Store(
    id: int,
    name: string,
    address: string,
    email: string,
    averageRating: real,
    totalRatings: int)

  /** True when no two ratings refer to the same store: the backend keeps at
      most one rating per (user, store) pair. */
  predicate UniqueStores(s: seq<UserRating>)
  {
    forall i, j :: 0 <= i < j < |s| ==> s[i].storeId != s[j].storeId
  }
}
