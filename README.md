# Store ratings: user-side views

A Dafny model of the three user-facing components of a store-rating web
front end:

- the **store listing** (`UserStoreList`), which fetches the stores and the
  user's own ratings, folds the ratings into an index from store id to rating,
  keeps the search/sort filters, builds the query for `GET /stores`, and labels
  each store card by whether the user has rated it;
- the **dashboard** (`UserDashboard`), which derives the number of ratings
  given, their mean, the number of stores and the first five ratings in the
  order the backend returns them;
- the **rating dialog** (`RatingModal`), a small state machine over `rating`,
  `hoverRating`, `loading`, `error` and `existingRating`, driven by the prefill
  from an existing rating, star clicks and hovers, and the submit handler with
  its validation gate.

Network requests are not performed: a fetch is an input (`ListResponse`,
`DashboardResponse`, or an optional rating list for the dialog's prefill) and
a post is an outcome (`Accepted`, or `Rejected` with the backend's optional
message). A row of star icons is a sequence of five booleans (`true` = filled).

Modules: `Records` (the backend's records), `Stars` (the five-star row),
`StoreList`, `Dashboard`, `RatingModal` (one per component), and
`Consistency` (how the listing and the dialog read the same records).

Behaviour of the code worth noting:

- The listing's index is a last-write-wins fold over the rating records, while
  the dialog's prefill takes the *first* record for the store. The two agree
  on whether a store is rated for any input (`Consistency.ModalTitleMatchesCard`),
  and on the rating value only when each store has at most one record
  (`Consistency.PrefillMatchesIndex`); `Consistency.DuplicatesDiverge` shows
  that with two records for one store the listing shows the later record's
  rating and the dialog prefills the earlier one, so the two shown ratings
  differ whenever those two records' ratings differ.
- The index is built from the rating records alone; the store list is not
  consulted.
- A successful dashboard fetch does not clear a previous error (only the
  listing clears it).
- A rejected post whose `message` is the empty string shows the fallback text,
  because the code takes the message with `||`.

## Model

| member | source | states |
|---|---|---|
| `Stars.RowShape` | frontend/src/components/user/StoreList.jsx:78-90 | every star row has five stars, filled ones first, and fills exactly the level clamped to 0..5 |
| `StoreList.RatingIndex` | frontend/src/components/user/StoreList.jsx:45-48 | a store id is a key of the index iff some rating record has that store id |
| `StoreList.IndexHoldsLastRating` | frontend/src/components/user/StoreList.jsx:45-48 | the last record for a store decides that store's indexed rating (later records overwrite earlier ones) |
| `StoreList.IndexValueIsLastWrite` | frontend/src/components/user/StoreList.jsx:45-48 | every indexed value is the rating of a record for that store with no later record for the same store |
| `StoreList.BuildRatingIndex` | frontend/src/components/user/StoreList.jsx:45-49 | the loop yields the fold's index: keys are exactly the rated store ids |
| `StoreList.InitialFilters` | frontend/src/components/user/StoreList.jsx:14-18 | the listing opens with an empty search, sorted by name ascending |
| `StoreList.ClearedFilters` | frontend/src/components/user/StoreList.jsx:157 | Clear Filters installs exactly the initial filters |
| `StoreList.WithFilter` | frontend/src/components/user/StoreList.jsx:60-65 | a filter change sets the named field to the value and leaves the other two fields unchanged |
| `StoreList.QueryParams` | frontend/src/components/user/StoreList.jsx:33-36 | `search` is present iff the search text is non-empty and then comes first; `sortBy` then `sortOrder` always close the query |
| `StoreList.Split` | frontend/src/components/user/StoreList.jsx:144 | splitting yields at least one part and no part contains the separator |
| `StoreList.JoinSplit` | frontend/src/components/user/StoreList.jsx:144 | joining the parts of a split with the separator gives back the original string |
| `StoreList.SplitNoSeparator` | frontend/src/components/user/StoreList.jsx:144 | a string without the separator splits into itself alone |
| `StoreList.SplitAfterFirst` | frontend/src/components/user/StoreList.jsx:144 | a separator after a separator-free prefix ends the first part there |
| `StoreList.SplitAtSeparator` | frontend/src/components/user/StoreList.jsx:144 | a string containing the separator splits into at least two parts |
| `StoreList.SortOptionValue` | frontend/src/components/user/StoreList.jsx:142 | the select's value is `sortBy`, then one '-', then `sortOrder` |
| `StoreList.ApplySortOption` | frontend/src/components/user/StoreList.jsx:143-147 | the sort select's handler keeps the search and stores separator-free sort fields, which re-render as the chosen value iff it has exactly one '-' |
| `StoreList.SortPairRoundTrip` | frontend/src/components/user/StoreList.jsx:142-147 | a value `a-b` without '-' in `a` or `b` splits into `[a, b]` and re-renders as itself |
| `StoreList.SortOptionsRoundTrip` | frontend/src/components/user/StoreList.jsx:142-153 | picking any of the four options stores a sort that the select shows as that same option |
| `StoreList.SortValueRoundTrip` | frontend/src/components/user/StoreList.jsx:142-147 | re-applying the value the select shows leaves the filters unchanged |
| `StoreList.RenderStarIcons` | frontend/src/components/user/StoreList.jsx:78-90 | the loop draws five stars whatever `count` is, star i filled iff `i <= filledTo`, so it fills the clamped `filledTo` |
| `StoreList.RenderStarRating` | frontend/src/components/user/StoreList.jsx:92-96 | with `floor(avg)` as the level, star i (1 to 5) is filled iff `i <= avg` |
| `StoreList.ReviewWord` | frontend/src/components/user/StoreList.jsx:200-201 | "review" iff the store has exactly one rating, "reviews" otherwise |
| `StoreList.OwnRatingLine` | frontend/src/components/user/StoreList.jsx:208-218 | the card shows the user's own rating iff the store id is indexed, else "You haven't rated this store yet" |
| `StoreList.RateButtonLabel` | frontend/src/components/user/StoreList.jsx:245 | "Update Rating" iff the store id is indexed, "Rate Store" iff it is not |
| `StoreList.CardMatchesRatings` | frontend/src/components/user/StoreList.jsx:183-245 | each card shows either the update label with the own rating or the rate label with the not-rated message, the first iff some record names the store |
| `StoreList.Listing.constructor` | frontend/src/components/user/StoreList.jsx:8-18 | the listing starts empty, loading, without error, with no dialog and the initial filters |
| `StoreList.Listing.ModalShown` | frontend/src/components/user/StoreList.jsx:256 | the dialog is drawn iff it is open and a store is selected |
| `StoreList.Listing.FetchStoresAndRatings` | frontend/src/components/user/StoreList.jsx:30-58 | requests with the current filters' query; success replaces stores and index and clears the error; failure keeps both and sets "Failed to load stores"; loading ends false |
| `StoreList.Listing.HandleFilterChange` | frontend/src/components/user/StoreList.jsx:60-65 | only the filters change, by exactly one field |
| `StoreList.Listing.SelectSort` | frontend/src/components/user/StoreList.jsx:143-147 | two filter changes in a row store the split sort value; nothing else changes |
| `StoreList.Listing.ClearFilters` | frontend/src/components/user/StoreList.jsx:157 | the filters return to the initial ones; nothing else changes |
| `StoreList.Listing.HandleRateStore` | frontend/src/components/user/StoreList.jsx:67-70 | selects the store and opens the dialog |
| `StoreList.Listing.CloseModal` | frontend/src/components/user/StoreList.jsx:260 | closes the dialog, nothing else changes |
| `StoreList.Listing.HandleRatingSubmitted` | frontend/src/components/user/StoreList.jsx:72-76 | closes the dialog, clears the selection, then fetches again with the fetch's outcome |
| `Dashboard.Sum` | frontend/src/components/user/Dashboard.jsx:37 | the left-to-right `reduce` sum equals the sum accumulated from the other end |
| `Dashboard.SumConcat` | frontend/src/components/user/Dashboard.jsx:37 | the sum of two lists joined is the sum of their sums |
| `Dashboard.SumRemove` | frontend/src/components/user/Dashboard.jsx:37 | taking one record out of a list takes exactly its rating out of the sum |
| `Dashboard.SumPermutation` | frontend/src/components/user/Dashboard.jsx:37 | any reordering of the ratings (same multiset) gives the same `reduce` sum, so the mean does not depend on the order the backend returns |
| `Dashboard.SumBounds` | frontend/src/components/user/Dashboard.jsx:37 | the sum of n ratings within [lo, hi] lies within [n*lo, n*hi] |
| `Dashboard.Average` | frontend/src/components/user/Dashboard.jsx:36-38 | the mean is 0 with no ratings, otherwise exactly the sum divided by the count, unrounded |
| `Dashboard.AverageWithin` | frontend/src/components/user/Dashboard.jsx:36-38 | the mean of a non-empty list lies within any bounds of its rating values |
| `Dashboard.AverageBetweenMinAndMax` | frontend/src/components/user/Dashboard.jsx:36-38 | the mean lies between the smallest and the largest rating |
| `Dashboard.AverageOfValidRatings` | frontend/src/components/user/Dashboard.jsx:36-38 | with ratings in 1..5 the mean of a non-empty list lies in [1, 5] |
| `Dashboard.ComputeStats` | frontend/src/components/user/Dashboard.jsx:34-40 | the ratings count is the list length, the store count is the store list length, the mean is `Average` |
| `Dashboard.RecentRatings` | frontend/src/components/user/Dashboard.jsx:42 | the recent list is the prefix of length min(5, n) of the ratings, in their order |
| `Dashboard.RenderStars` | frontend/src/components/user/Dashboard.jsx:51-60 | the 0-based rule `i < rating` draws the same five-star row as the listing's 1-based `i <= rating`, filling the clamped rating |
| `Dashboard.InitialState` | frontend/src/components/user/Dashboard.jsx:10-17 | the dashboard mounts with zero statistics, no recent ratings, loading and no error |
| `Dashboard.FetchDashboard` | frontend/src/components/user/Dashboard.jsx:24-49 | success recomputes statistics and recent list and keeps the error; failure keeps both and sets "Failed to load dashboard data"; loading ends false |
| `Dashboard.LoadedDashboardConsistent` | frontend/src/components/user/Dashboard.jsx:34-42 | after a successful load the recent list is empty iff the count is 0, never longer than the count, and, with every rating in 1..5, the mean is 0 with no ratings and within [1, 5] otherwise |
| `RatingModal.FindFirst` | frontend/src/components/user/RatingModal.jsx:22 | a record is found iff one has the store's id, and it is the first such record |
| `RatingModal.SubmitErrorMessage` | frontend/src/components/user/RatingModal.jsx:51-52 | the backend's message when present and non-empty, else "Failed to submit rating"; never empty |
| `RatingModal.RatingLabel` | frontend/src/components/user/RatingModal.jsx:137-143 | 0 reads "Click on stars to rate", 1 to 5 read Poor, Fair, Good, Very Good, Excellent; no other rating has a caption |
| `RatingModal.ActiveLevel` | frontend/src/components/user/RatingModal.jsx:60 | the shown level is the hovered star when one is hovered (non-zero), else the chosen rating |
| `RatingModal.RatingLabelsDistinct` | frontend/src/components/user/RatingModal.jsx:137-143 | the six captions for 0..5 are pairwise different |
| `RatingModal.SubmitDisabled` | frontend/src/components/user/RatingModal.jsx:150 | the submit button is disabled iff loading or no star is chosen |
| `RatingModal.ModalTitle` | frontend/src/components/user/RatingModal.jsx:95 | "Update Rating" iff an existing rating was found, "Rate Store" otherwise |
| `RatingModal.SubmitButtonText` | frontend/src/components/user/RatingModal.jsx:153-160 | while loading "Updating..."/"Submitting...", otherwise "Update Rating"/"Submit Rating", by whether a rating exists |
| `RatingModal.Modal.constructor` | frontend/src/components/user/RatingModal.jsx:6-10 | the dialog starts with no rating, no hover, not loading, no error, no existing rating |
| `RatingModal.Modal.Prefill` | frontend/src/components/user/RatingModal.jsx:18-30 | the first record for the store sets the existing rating and the chosen rating; no record or a failed request changes nothing |
| `RatingModal.Modal.ClickStar` | frontend/src/components/user/RatingModal.jsx:70 | clicking star i chooses i; nothing else changes |
| `RatingModal.Modal.HoverStar` | frontend/src/components/user/RatingModal.jsx:68 | hovering star i shows level i |
| `RatingModal.Modal.LeaveStar` | frontend/src/components/user/RatingModal.jsx:69 | leaving the stars shows the chosen rating again |
| `RatingModal.Modal.BeginSubmit` | frontend/src/components/user/RatingModal.jsx:32-47 | with rating 0: "Please select a rating", no post, loading untouched; otherwise error cleared, loading set and exactly one post `{storeId, rating}` |
| `RatingModal.Modal.EndSubmit` | frontend/src/components/user/RatingModal.jsx:49-55 | acceptance calls `onRatingSubmitted` once; rejection never calls it and shows the message or fallback; loading ends false |
| `RatingModal.Modal.HandleSubmit` | frontend/src/components/user/RatingModal.jsx:32-56 | the whole handler: the validation gate, one post, one completion call on success only, loading false after any post |
| `RatingModal.Modal.RenderStars` | frontend/src/components/user/RatingModal.jsx:58-84 | five stars, star i filled iff `i` is at most the hovered level, or the chosen rating when nothing is hovered |
| `Consistency.ModalTitleMatchesCard` | frontend/src/components/user/RatingModal.jsx:95 | the dialog prefilled from the user's records is titled "Update Rating" exactly when the store's card says "Update Rating" |
| `Consistency.PrefillMatchesIndex` | frontend/src/components/user/RatingModal.jsx:22-25 | with one record per store, the dialog prefills the rating the listing's index holds |
| `Consistency.DuplicatesDiverge` | frontend/src/components/user/StoreList.jsx:45-48 | for any list with exactly two records for one store, the listing indexes the later record's rating and the dialog finds the earlier record |

## Left out

- HTTP requests (`api.get`, `api.post`) and the `Promise.all` pairing: a fetch is an input that either carries both lists or failed; which request failed is not distinguished, as in the code.
- The 600 ms debounced refetch of the listing (`setTimeout`/`clearTimeout` in the effect) and the stale-response race it allows: timer and event-loop behaviour. The model's fetch is triggered explicitly.
- The dashboard's and the dialog's mount effects (`useEffect`) and the dialog's `isOpen` prop: they only decide when a fetch or a prefill runs.
- StoreList.Listing.FetchStoresAndRatings: states the state after the request settles; the `loading = true` phase while it is pending is set and cleared inside the one method and is not part of the contract.
- Serialising the query parameters into the URL (`${params}` with percent-encoding): `QueryParams` gives the ordered name/value pairs.
- Dashboard.Average: divides exactly over the reals, while the code divides JavaScript numbers (IEEE doubles), so the displayed mean may differ from the exact one by floating-point rounding.
- `toFixed(1)` display rounding and `parseFloat(store.average_rating || 0)`: floating-point formatting and parsing; the average arrives as a `real`.
- `typeof myRating === 'number'` and `total_ratings === 1`: ratings and counts are integers in the model, so presence of the key decides the first and integer equality the second; values of another JavaScript type are not modelled.
- Store ids as object keys are coerced to strings in JavaScript; ids are integers here, so the coercion changes nothing.
- JSX markup, CSS classes, icons, router links, the authenticated user's name, `Date.toLocaleDateString`, `e.preventDefault()` and `console.error` logging.
- The dialog's "You previously rated this store" note: display text drawn under the same condition as `RatingModal.ModalTitle`.
- `RatingModal.Modal.HandleSubmit` reads the current `rating` field; the closure over the rendered value is the same value between a render and its submit.
