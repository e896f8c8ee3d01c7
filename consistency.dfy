/** How the listing and the rating dialog read the same rating records. The
    listing indexes them with a last-write-wins fold, the dialog takes the
    first record for the store. They always agree on whether the user has
    rated a store; they agree on the rating itself when each store has at
    most one record, which the backend guarantees. */
module Consistency {
  import opened Records
  import StoreList
  import RatingModal

  /** A store's card says "Update Rating" exactly when the dialog prefilled
      from the same records is titled "Update Rating". */
  lemma ModalTitleMatchesCard(ratings: seq<UserRating>, storeId: int)
    ensures RatingModal.ModalTitle(RatingModal.FindFirst(ratings, storeId))
            == StoreList.RateButtonLabel(StoreList.RatingIndex(ratings), storeId)
  {
  }

  /** With one record per store, the dialog prefills the rating the card shows. */
  lemma PrefillMatchesIndex(ratings: seq<UserRating>, storeId: int)
    requires UniqueStores(ratings)
    requires storeId in StoreList.RatingIndex(ratings)
    ensures RatingModal.FindFirst(ratings, storeId).Some?
    ensures RatingModal.FindFirst(ratings, storeId).value.rating == StoreList.RatingIndex(ratings)[storeId]
  {
    var found := RatingModal.FindFirst(ratings, storeId);
    var i :| 0 <= i < |ratings| && ratings[i] == found.value && found.value.storeId == storeId
             && forall j :: 0 <= j < i ==> ratings[j].storeId != storeId;
    StoreList.IndexHoldsLastRating(ratings, i);
  }

  /** Two records for one store and none other: the card shows the later
      rating, the dialog prefills the earlier one. */
  lemma DuplicatesDiverge(s: seq<UserRating>, i: int, j: int)
    requires 0 <= i < j < |s| && s[i].storeId == s[j].storeId
    requires forall m :: 0 <= m < |s| && m != i && m != j ==> s[m].storeId != s[i].storeId
    ensures RatingModal.FindFirst(s, s[i].storeId) == Some(s[i])
    ensures StoreList.RatingIndex(s)[s[i].storeId] == s[j].rating
  {
    StoreList.IndexHoldsLastRating(s, j);
    var found := RatingModal.FindFirst(s, s[i].storeId);
    assert found.Some? by { assert s[i].storeId == s[i].storeId; }
    var k :| 0 <= k < |s| && s[k] == found.value && found.value.storeId == s[i].storeId
             && forall m :: 0 <= m < k ==> s[m].storeId != s[i].storeId;
    assert k == i;
  }
}
