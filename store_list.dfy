/** The store listing view (`UserStoreList`): the user's rating index, the
    search/sort filters and the query they produce, the per-store labels,
    the star rows, and the component state updated by its handlers. */
module StoreList {
  import opened Records
  import Stars

  // ---------------------------------------------------------------------------
  // Rating index: store id -> the user's own rating
  // ---------------------------------------------------------------------------

  /** The index the listing builds from the user's ratings: a left fold that
      writes each record's rating under its store id, so a later record
      overwrites an earlier one for the same store. A store id is a key iff
      some record refers to it. */
  function RatingIndex(s: seq<UserRating>): (index: map<int, int>)
    ensures forall k :: k in index <==> exists i :: 0 <= i < |s| && s[i].storeId == k
  {
    if s == [] then map[]
    else
      var last := s[|s| - 1];
      var earlier := RatingIndex(s[..|s| - 1]);
      assert forall i :: 0 <= i < |s| - 1 ==> s[..|s| - 1][i] == s[i];
      earlier[last.storeId := last.rating]
  }

  /** Last write wins: the last record for a store decides its indexed rating. */
  lemma {:induction false} IndexHoldsLastRating(s: seq<UserRating>, i: int)
    requires 0 <= i < |s|
    requires forall j :: i < j < |s| ==> s[j].storeId != s[i].storeId
    ensures s[i].storeId in RatingIndex(s)
    ensures RatingIndex(s)[s[i].storeId] == s[i].rating
  {
    if i < |s| - 1 {
      var init := s[..|s| - 1];
      assert init[i] == s[i];
      IndexHoldsLastRating(init, i);
    }
  }

  /** Every indexed rating is the rating of the last record for that store. */
  lemma IndexValueIsLastWrite(s: seq<UserRating>, k: int)
    requires k in RatingIndex(s)
    ensures exists i :: 0 <= i < |s| && s[i].storeId == k && RatingIndex(s)[k] == s[i].rating
                        && forall j :: i < j < |s| ==> s[j].storeId != k
  {
    var i :| 0 <= i < |s| && s[i].storeId == k;
    while exists j :: i < j < |s| && s[j].storeId == k
      invariant 0 <= i < |s| && s[i].storeId == k
      decreases |s| - i
    {
      var later :| i < later < |s| && s[later].storeId == k;
      i := later;
    }
    IndexHoldsLastRating(s, i);
  }

  /** The loop that fills the listing's index, one record at a time. */
  method BuildRatingIndex(ratings: seq<UserRating>) returns (index: map<int, int>)
    ensures index == RatingIndex(ratings)
    ensures forall k :: k in index <==> exists i :: 0 <= i < |ratings| && ratings[i].storeId == k
  {
    index := map[];
    for n := 0 to |ratings|
      invariant index == RatingIndex(ratings[..n])
    {
      assert ratings[..n + 1][..n] == ratings[..n];
      index := index[ratings[n].storeId := ratings[n].rating];
    }
    assert ratings[..|ratings|] == ratings;
  }

  // ---------------------------------------------------------------------------
  // Filters and the query they produce
  // ---------------------------------------------------------------------------

  datatype Filters = Filters(search: string, sortBy: string, sortOrder: string)

  /** The keys `handleFilterChange` is called with. */
  datatype FilterKey = Search | SortBy | SortOrder

  function Get(f: Filters, key: FilterKey): string
  {
    match key
    case Search => f.search
    case SortBy => f.sortBy
    case SortOrder => f.sortOrder
  }

  /** The filters the listing opens with: no search, sorted by name ascending. */
  function InitialFilters(): (f: Filters)
    ensures Get(f, Search) == "" && Get(f, SortBy) == "name" && Get(f, SortOrder) == "ASC"
  {
    Filters("", "name", "ASC")
  }

  /** The filters the Clear Filters button installs. */
  function ClearedFilters(): (f: Filters)
    ensures f == InitialFilters()
  {
    Filters("", "name", "ASC")
  }

  /** `handleFilterChange(key, value)`: a copy of the filters with one field replaced. */
  function WithFilter(f: Filters, key: FilterKey, value: string): (g: Filters)
    ensures Get(g, key) == value
    ensures forall other :: other != key ==> Get(g, other) == Get(f, other)
  {
    match key
    case Search => f.(search := value)
    case SortBy => f.(sortBy := value)
    case SortOrder => f.(sortOrder := value)
  }

  /** The query parameters of `GET /stores`, in the order they are appended:
      `search` only for a non-empty search text, then `sortBy`, then `sortOrder`. */
  function QueryParams(f: Filters): (q: seq<(string, string)>)
    ensures |q| == if f.search == "" then 2 else 3
    ensures q[|q| - 2] == ("sortBy", f.sortBy) && q[|q| - 1] == ("sortOrder", f.sortOrder)
    ensures (exists i :: 0 <= i < |q| && q[i].0 == "search") <==> f.search != ""
    ensures f.search != "" ==> q[0] == ("search", f.search)
  {
    assert "sortBy"[1] != "search"[1] && "sortOrder"[1] != "search"[1];
    var sorting := [("sortBy", f.sortBy), ("sortOrder", f.sortOrder)];
    if f.search != "" then
      var q := [("search", f.search)] + sorting;
      assert q[0].0 == "search";
      q
    else
      sorting
  }

  // ---------------------------------------------------------------------------
  // The sort select: its value is `sortBy-sortOrder`, split back on '-'
  // ---------------------------------------------------------------------------

  /** The values of the sort select's four options. */
  const SortOptions: seq<string> := ["name-ASC", "name-DESC", "average_rating-DESC", "average_rating-ASC"]

  /** String split on one separator character, keeping empty parts. */
  function Split(s: string, sep: char): (parts: seq<string>)
    ensures |parts| >= 1
    ensures forall i :: 0 <= i < |parts| ==> sep !in parts[i]
  {
    if s == [] then [[]]
    else
      var rest := Split(s[1..], sep);
      if s[0] == sep then [[]] + rest
      else [[s[0]] + rest[0]] + rest[1..]
  }

  /** The parts joined with the separator between consecutive ones. */
  function Join(parts: seq<string>, sep: char): string
    requires |parts| >= 1
  {
    if |parts| == 1 then parts[0] else parts[0] + [sep] + Join(parts[1..], sep)
  }

  lemma {:induction false} JoinSplit(s: string, sep: char)
    ensures Join(Split(s, sep), sep) == s
  {
    if s != [] {
      var rest := Split(s[1..], sep);
      JoinSplit(s[1..], sep);
      if s[0] == sep {
        assert ([[]] + rest)[1..] == rest;
      } else if |rest| > 1 {
        assert ([[s[0]] + rest[0]] + rest[1..])[1..] == rest[1..];
      }
    }
  }

  lemma {:induction false} SplitNoSeparator(s: string, sep: char)
    requires sep !in s
    ensures Split(s, sep) == [s]
  {
    if s != [] {
      SplitNoSeparator(s[1..], sep);
      assert [s[0]] + s[1..] == s;
    }
  }

  lemma {:induction false} SplitAfterFirst(a: string, b: string, sep: char)
    requires sep !in a
    ensures Split(a + [sep] + b, sep) == [a] + Split(b, sep)
  {
    var s := a + [sep] + b;
    if a == [] {
      assert s[1..] == b;
    } else {
      assert s[1..] == a[1..] + [sep] + b;
      SplitAfterFirst(a[1..], b, sep);
      assert [s[0]] + a[1..] == a;
    }
  }

  /** A string holding the separator splits into at least two parts. */
  lemma {:induction false} SplitAtSeparator(s: string, sep: char)
    requires sep in s
    ensures |Split(s, sep)| >= 2
  {
    if s[0] != sep {
      SplitAtSeparator(s[1..], sep);
    }
  }

  /** The value the sort select shows for the current filters. */
  function SortOptionValue(f: Filters): (value: string)
    ensures |value| == |f.sortBy| + 1 + |f.sortOrder|
    ensures value[..|f.sortBy|] == f.sortBy && value[|f.sortBy|] == '-'
    ensures value[|f.sortBy| + 1..] == f.sortOrder
  {
    f.sortBy + "-" + f.sortOrder
  }

  /** The select's change handler: split the value on '-' and store the first
      two parts as `sortBy` and `sortOrder`, one filter change after the other. */
  function ApplySortOption(f: Filters, value: string): (g: Filters)
    requires '-' in value
    ensures g.search == f.search
    ensures '-' !in g.sortBy && '-' !in g.sortOrder
    ensures SortOptionValue(g) == value <==> |Split(value, '-')| == 2
  {
    SplitAtSeparator(value, '-');
    var parts := Split(value, '-');
    var g := WithFilter(WithFilter(f, SortBy, parts[0]), SortOrder, parts[1]);
    JoinSplit(value, '-');
    assert parts[1..][1..] == parts[2..];
    if SortOptionValue(g) == value then
      SplitNoSeparator(parts[1], '-');
      SplitAfterFirst(parts[0], parts[1], '-');
      g
    else
      g
  }

  /** A value `a-b` with no '-' in `a` or `b` splits back into `a` and `b`. */
  lemma SortPairRoundTrip(f: Filters, a: string, b: string)
    requires '-' !in a && '-' !in b
    ensures Split(a + "-" + b, '-') == [a, b]
    ensures SortOptionValue(ApplySortOption(f, a + "-" + b)) == a + "-" + b
  {
    SplitNoSeparator(b, '-');
    SplitAfterFirst(a, b, '-');
  }

  /** Picking any of the four options stores a sort the select shows as that option. */
  lemma SortOptionsRoundTrip(f: Filters, value: string)
    requires value in SortOptions
    ensures '-' in value
    ensures SortOptionValue(ApplySortOption(f, value)) == value
  {
    if value == "name-ASC" {
      assert value == "name" + "-" + "ASC";
      SortPairRoundTrip(f, "name", "ASC");
    } else if value == "name-DESC" {
      assert value == "name" + "-" + "DESC";
      SortPairRoundTrip(f, "name", "DESC");
    } else if value == "average_rating-DESC" {
      assert value == "average_rating" + "-" + "DESC";
      SortPairRoundTrip(f, "average_rating", "DESC");
    } else {
      assert value == "average_rating" + "-" + "ASC";
      SortPairRoundTrip(f, "average_rating", "ASC");
    }
  }

  /** Re-selecting the shown option leaves filters without '-' in their sort fields unchanged. */
  lemma SortValueRoundTrip(f: Filters)
    requires '-' !in f.sortBy && '-' !in f.sortOrder
    ensures Split(SortOptionValue(f), '-') == [f.sortBy, f.sortOrder]
    ensures ApplySortOption(f, SortOptionValue(f)) == f
  {
    SplitNoSeparator(f.sortOrder, '-');
    SplitAfterFirst(f.sortBy, f.sortOrder, '-');
  }

  // ---------------------------------------------------------------------------
  // Star rows and per-store labels
  // ---------------------------------------------------------------------------

  /** `renderStarIcons`: always five stars, star i (1 to 5) filled iff
      `i <= filledTo`; the `count` argument is ignored. */
  method RenderStarIcons(count: int, filledTo: int) returns (stars: seq<bool>)
    ensures stars == Stars.Row(filledTo)
    ensures Stars.Filled(stars) == Stars.Clamp(filledTo)
  {
    stars := [];
    for i := 1 to Stars.Width + 1
      invariant |stars| == i - 1
      invariant forall k :: 0 <= k < i - 1 ==> (stars[k] <==> k + 1 <= filledTo)
    {
      stars := stars + [i <= filledTo];
    }
    Stars.RowShape(filledTo);
  }

  /** `renderStarRating`: the average rounded down; star i is filled iff the
      average is at least i. */
  method RenderStarRating(average: real) returns (stars: seq<bool>)
    ensures |stars| == Stars.Width
    ensures forall k :: 0 <= k < Stars.Width ==> (stars[k] <==> (k + 1) as real <= average)
  {
    stars := RenderStarIcons(5, average.Floor);
  }

  /** "review" for exactly one rating, "reviews" otherwise (zero included). */
  function ReviewWord(totalRatings: int): (word: string)
    ensures word == "review" <==> totalRatings == 1
    ensures word == "reviews" <==> totalRatings != 1
  {
    if totalRatings == 1 then "review" else "reviews"
  }

  /** What the card says about the user's own rating of a store. */
  datatype OwnRating = YourRating(value: int) | NotRatedYet(message: string)

  function OwnRatingLine(index: map<int, int>, storeId: int): (line: OwnRating)
    ensures line.YourRating? <==> storeId in index
    ensures line.YourRating? ==> line.value == index[storeId]
    ensures line.NotRatedYet? ==> line.message == "You haven't rated this store yet"
  {
    if storeId in index then YourRating(index[storeId])
    else NotRatedYet("You haven't rated this store yet")
  }

  /** The card's button label. */
  function RateButtonLabel(index: map<int, int>, storeId: int): (caption: string)
    ensures caption == "Update Rating" <==> storeId in index
    ensures caption == "Rate Store" <==> storeId !in index
  {
    if storeId in index then "Update Rating" else "Rate Store"
  }

  /** A store the user has rated shows "Update Rating" with its own rating,
      one the user has not rated shows "Rate Store" with the not-rated message,
      and which of the two is decided by the user's rating records alone. */
  lemma CardMatchesRatings(ratings: seq<UserRating>, storeId: int)
    ensures var index := RatingIndex(ratings);
            (RateButtonLabel(index, storeId) == "Update Rating" && OwnRatingLine(index, storeId).YourRating?)
            || (RateButtonLabel(index, storeId) == "Rate Store"
                && OwnRatingLine(index, storeId) == NotRatedYet("You haven't rated this store yet"))
    ensures RateButtonLabel(RatingIndex(ratings), storeId) == "Update Rating"
            <==> exists i :: 0 <= i < |ratings| && ratings[i].storeId == storeId
  {
  }

  // ---------------------------------------------------------------------------
  // Component state
  // ---------------------------------------------------------------------------

  /** What the two parallel requests of one fetch produced: both lists, or a failure. */
  datatype ListResponse = Loaded(stores: seq<Store>, ratings: seq<UserRating>) | LoadFailed

  const LoadError := "Failed to load stores"

  class Listing {
    var stores: seq<Store>
    var userRatings: map<int, int>
    var loading: bool
    var error: string
    var selectedStore: Option<Store>
    var isRatingModalOpen: bool
    var filters: Filters

    constructor ()
      ensures stores == [] && userRatings == map[] && loading && error == ""
      ensures selectedStore == None && !isRatingModalOpen && filters == InitialFilters()
    {
      stores := [];
      userRatings := map[];
      loading := true;
      error := "";
      selectedStore := None;
      isRatingModalOpen := false;
      filters := InitialFilters();
    }

    /** The rating modal is drawn only while open with a store selected. */
    function ModalShown(): (shown: bool)
      reads this
      ensures shown <==> isRatingModalOpen && selectedStore.Some?
    {
      isRatingModalOpen && selectedStore.Some?
    }

    /** `fetchStoresAndRatings`: returns the query it requests the stores with.
        On success the stores and the rebuilt index replace the old ones and the
        error is cleared; on failure both are kept and the error is set.
        Loading ends false either way. */
    method FetchStoresAndRatings(response: ListResponse) returns (query: seq<(string, string)>)
      modifies this
      ensures query == QueryParams(filters)
      ensures filters == old(filters) && selectedStore == old(selectedStore)
      ensures isRatingModalOpen == old(isRatingModalOpen)
      ensures !loading
      ensures response.Loaded? ==>
        stores == response.stores && userRatings == RatingIndex(response.ratings) && error == ""
      ensures response.LoadFailed? ==>
        stores == old(stores) && userRatings == old(userRatings) && error == LoadError
    {
      loading := true;
      query := QueryParams(filters);
      match response {
        case Loaded(fetchedStores, fetchedRatings) =>
          stores := fetchedStores;
          var index := BuildRatingIndex(fetchedRatings);
          userRatings := index;
          error := "";
        case LoadFailed =>
          error := LoadError;
      }
      loading := false;
    }

    /** `handleFilterChange`: one filter field set, nothing else touched. */
    method HandleFilterChange(key: FilterKey, value: string)
      modifies this
      ensures filters == WithFilter(old(filters), key, value)
      ensures stores == old(stores) && userRatings == old(userRatings) && loading == old(loading)
      ensures error == old(error) && selectedStore == old(selectedStore)
      ensures isRatingModalOpen == old(isRatingModalOpen)
    {
      filters := WithFilter(filters, key, value);
    }

    /** The sort select's change handler: two filter changes in a row. */
    method SelectSort(value: string)
      requires '-' in value
      modifies this
      ensures filters == ApplySortOption(old(filters), value)
      ensures stores == old(stores) && userRatings == old(userRatings) && loading == old(loading)
      ensures error == old(error) && selectedStore == old(selectedStore)
      ensures isRatingModalOpen == old(isRatingModalOpen)
    {
      SplitAtSeparator(value, '-');
      var parts := Split(value, '-');
      HandleFilterChange(SortBy, parts[0]);
      HandleFilterChange(SortOrder, parts[1]);
    }

    /** The Clear Filters button: back to the filters the view opened with. */
    method ClearFilters()
      modifies this
      ensures filters == InitialFilters()
      ensures stores == old(stores) && userRatings == old(userRatings) && loading == old(loading)
      ensures error == old(error) && selectedStore == old(selectedStore)
      ensures isRatingModalOpen == old(isRatingModalOpen)
    {
      filters := ClearedFilters();
    }

    /** `handleRateStore`: select the store and open the modal. */
    method HandleRateStore(store: Store)
      modifies this
      ensures selectedStore == Some(store) && isRatingModalOpen && ModalShown()
      ensures stores == old(stores) && userRatings == old(userRatings) && loading == old(loading)
      ensures error == old(error) && filters == old(filters)
    {
      selectedStore := Some(store);
      isRatingModalOpen := true;
    }

    /** The modal's close button. */
    method CloseModal()
      modifies this
      ensures !isRatingModalOpen && !ModalShown()
      ensures stores == old(stores) && userRatings == old(userRatings) && loading == old(loading)
      ensures error == old(error) && filters == old(filters) && selectedStore == old(selectedStore)
    {
      isRatingModalOpen := false;
    }

    /** `handleRatingSubmitted`: close the modal, clear the selection and fetch again. */
    method HandleRatingSubmitted(response: ListResponse) returns (query: seq<(string, string)>)
      modifies this
      ensures !isRatingModalOpen && selectedStore == None && !ModalShown()
      ensures query == QueryParams(filters) && filters == old(filters)
      ensures !loading
      ensures response.Loaded? ==>
        stores == response.stores && userRatings == RatingIndex(response.ratings) && error == ""
      ensures response.LoadFailed? ==>
        stores == old(stores) && userRatings == old(userRatings) && error == LoadError
    {
      isRatingModalOpen := false;
      selectedStore := None;
      query := FetchStoresAndRatings(response);
    }
  }
}
