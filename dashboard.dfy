/** The user dashboard (`UserDashboard`): summary statistics over the user's
    ratings, the first five ratings in the backend's order, and their star rows. The component
    assigns its state once per fetch, so the model is a set of pure functions
    and one state transition. */
module Dashboard {
  import opened Records
  import Stars

  datatype Stats = Stats(totalRatings: nat, averageRating: real, totalStores: nat)

  /** The rating values added from the last one back to the first. */
  function SumFromEnd(s: seq<UserRating>): int
  {
    if s == [] then 0 else s[0].rating + SumFromEnd(s[1..])
  }

  lemma {:induction false} SumFromEndAppend(s: seq<UserRating>, r: UserRating)
    ensures SumFromEnd(s + [r]) == SumFromEnd(s) + r.rating
  {
    if s != [] {
      assert (s + [r])[1..] == s[1..] + [r];
      SumFromEndAppend(s[1..], r);
    }
  }

  /** Sum of the rating values, accumulated left to right as `reduce` does.
      It equals the sum accumulated from the other end; `SumPermutation`
      shows that no reordering changes it. */
  function Sum(s: seq<UserRating>): (total: int)
    ensures total == SumFromEnd(s)
  {
    if s == [] then 0
    else
      var init := s[..|s| - 1];
      SumFromEndAppend(init, s[|s| - 1]);
      assert init + [s[|s| - 1]] == s;
      Sum(init) + s[|s| - 1].rating
  }

  /** The sum of a concatenation is the sum of its parts. */
  lemma {:induction false} SumConcat(s: seq<UserRating>, t: seq<UserRating>)
    ensures SumFromEnd(s + t) == SumFromEnd(s) + SumFromEnd(t)
  {
    if s == [] {
      assert s + t == t;
    } else {
      assert (s + t)[1..] == s[1..] + t;
      SumConcat(s[1..], t);
    }
  }

  /** Taking the record at `k` out of a list takes its rating out of the sum. */
  lemma SumRemove(t: seq<UserRating>, k: int)
    requires 0 <= k < |t|
    ensures SumFromEnd(t) == t[k].rating + SumFromEnd(t[..k] + t[k + 1..])
  {
    var tail := t[k + 1..];
    assert t == t[..k] + ([t[k]] + tail);
    assert ([t[k]] + tail)[1..] == tail;
    SumConcat(t[..k], [t[k]] + tail);
    SumConcat(t[..k], tail);
  }

  lemma {:induction false} SumFromEndPermutation(s: seq<UserRating>, t: seq<UserRating>)
    requires multiset(s) == multiset(t)
    ensures SumFromEnd(s) == SumFromEnd(t)
    decreases |s|
  {
    if s == [] {
      assert |t| == |multiset(t)| == 0;
    } else {
      assert s[0] in multiset(t);
      var k :| 0 <= k < |t| && t[k] == s[0];
      var rest := t[..k] + t[k + 1..];
      assert s == [s[0]] + s[1..];
      assert t == t[..k] + [t[k]] + t[k + 1..];
      assert multiset(s[1..]) == multiset(s) - multiset{s[0]};
      assert multiset(rest) == multiset(t) - multiset{t[k]};
      SumFromEndPermutation(s[1..], rest);
      SumRemove(t, k);
    }
  }

  /** Any reordering of the ratings has the same `reduce` sum. */
  lemma SumPermutation(s: seq<UserRating>, t: seq<UserRating>)
    requires multiset(s) == multiset(t)
    ensures Sum(s) == Sum(t)
  {
    SumFromEndPermutation(s, t);
  }

  /** Every rating value lies between `lo` and `hi`. */
  predicate RatingsWithin(s: seq<UserRating>, lo: int, hi: int)
  {
    forall i :: 0 <= i < |s| ==> lo <= s[i].rating <= hi
  }

  lemma {:induction false} SumBounds(s: seq<UserRating>, lo: int, hi: int)
    requires RatingsWithin(s, lo, hi)
    ensures |s| * lo <= Sum(s) <= |s| * hi
  {
    if s != [] {
      var init := s[..|s| - 1];
      assert RatingsWithin(init, lo, hi) by {
        forall i | 0 <= i < |init| ensures lo <= init[i].rating <= hi {
          assert init[i] == s[i];
        }
      }
      SumBounds(init, lo, hi);
      assert |s| * lo == |init| * lo + lo && |s| * hi == |init| * hi + hi;
    }
  }

  /** The mean rating: zero when there are no ratings (the division is guarded),
      otherwise the exact quotient of the sum by the count, unrounded. */
  function Average(s: seq<UserRating>): (avg: real)
    ensures |s| == 0 ==> avg == 0.0
    ensures |s| > 0 ==> avg * (|s| as real) == Sum(s) as real
  {
    if |s| > 0 then Sum(s) as real / |s| as real else 0.0
  }

  /** The mean of a non-empty list lies between any bounds of its values. */
  lemma AverageWithin(s: seq<UserRating>, lo: int, hi: int)
    requires |s| > 0
    requires RatingsWithin(s, lo, hi)
    ensures lo as real <= Average(s) <= hi as real
  {
    SumBounds(s, lo, hi);
    MeanWithin(Sum(s), |s|, Average(s), lo, hi);
  }

  /** A mean `avg` of `n` values totalling `total` lies between `lo` and `hi`
      when the total lies between `n * lo` and `n * hi`. */
  lemma MeanWithin(total: int, n: int, avg: real, lo: int, hi: int)
    requires n > 0 && avg * (n as real) == total as real
    requires n * lo <= total <= n * hi
    ensures lo as real <= avg <= hi as real
  {
    var r := n as real;
    assert (n * lo) as real == r * (lo as real);
    assert (n * hi) as real == r * (hi as real);
    assert (avg - lo as real) * r >= 0.0;
    assert (hi as real - avg) * r >= 0.0;
  }

  /** The smallest rating value of a non-empty list. */
  function MinRating(s: seq<UserRating>): (m: int)
    requires |s| > 0
    ensures exists i :: 0 <= i < |s| && s[i].rating == m
    ensures forall i :: 0 <= i < |s| ==> m <= s[i].rating
  {
    if |s| == 1 then s[0].rating
    else
      var rest := MinRating(s[1..]);
      assert forall i :: 1 <= i < |s| ==> s[i] == s[1..][i - 1];
      if s[0].rating <= rest then s[0].rating else rest
  }

  /** The largest rating value of a non-empty list. */
  function MaxRating(s: seq<UserRating>): (m: int)
    requires |s| > 0
    ensures exists i :: 0 <= i < |s| && s[i].rating == m
    ensures forall i :: 0 <= i < |s| ==> s[i].rating <= m
  {
    if |s| == 1 then s[0].rating
    else
      var rest := MaxRating(s[1..]);
      assert forall i :: 1 <= i < |s| ==> s[i] == s[1..][i - 1];
      if s[0].rating >= rest then s[0].rating else rest
  }

  /** The mean lies between the smallest and the largest rating. */
  lemma AverageBetweenMinAndMax(s: seq<UserRating>)
    requires |s| > 0
    ensures MinRating(s) as real <= Average(s) <= MaxRating(s) as real
  {
    AverageWithin(s, MinRating(s), MaxRating(s));
  }

  /** With every rating in 1..5 the mean of a non-empty list is in [1, 5]. */
  lemma AverageOfValidRatings(s: seq<UserRating>)
    requires |s| > 0
    requires RatingsWithin(s, 1, 5)
    ensures 1.0 <= Average(s) <= 5.0
  {
    AverageWithin(s, 1, 5);
  }

  /** The three statistic cards: ratings given, their mean, stores available. */
  function ComputeStats(ratings: seq<UserRating>, stores: seq<Store>): (st: Stats)
    ensures st.totalRatings == |ratings|
    ensures st.totalStores == |stores|
    ensures st.averageRating == Average(ratings)
  {
    Stats(|ratings|, Average(ratings), |stores|)
  }

  /** The "Recent Ratings" list: the first five ratings (fewer if there are
      fewer), in the order the backend returned them. */
  function RecentRatings(s: seq<UserRating>): (recent: seq<UserRating>)
    ensures |recent| == if |s| < 5 then |s| else 5
    ensures recent <= s
  {
    if |s| < 5 then s else s[..5]
  }

  /** `renderStars`: the 0-based rule, star i (0 to 4) filled iff `i < rating`.
      It draws the same row as the listing's 1-based rule. */
  function RenderStars(rating: int): (stars: seq<bool>)
    ensures stars == Stars.Row(rating)
    ensures Stars.Filled(stars) == Stars.Clamp(rating)
  {
    Stars.RowShape(rating);
    seq(5, i => i < rating)
  }

  // ---------------------------------------------------------------------------
  // Component state
  // ---------------------------------------------------------------------------

  datatype DashboardState = DashboardState(
    stats: Stats,
    recentRatings: seq<UserRating>,
    loading: bool,
    error: string)

  /** What the two parallel requests produced: both lists, or a failure. */
  datatype DashboardResponse = DashboardLoaded(ratings: seq<UserRating>, stores: seq<Store>) | DashboardFailed

  const LoadError := "Failed to load dashboard data"

  /** The state the dashboard mounts with. */
  function InitialState(): (st: DashboardState)
    ensures st.stats.totalRatings == 0 && st.stats.averageRating == 0.0 && st.stats.totalStores == 0
    ensures st.recentRatings == [] && st.loading && st.error == ""
  {
    DashboardState(Stats(0, 0.0, 0), [], true, "")
  }

  /** `fetchDashboardData`: on success the statistics and the recent list are
      recomputed and the error is left as it was; on failure they are kept and
      the error is set. Loading ends false either way. */
  function FetchDashboard(st: DashboardState, response: DashboardResponse): (next: DashboardState)
    ensures !next.loading
    ensures response.DashboardLoaded? ==>
      next.stats == ComputeStats(response.ratings, response.stores)
      && next.recentRatings == RecentRatings(response.ratings)
      && next.error == st.error
    ensures response.DashboardFailed? ==>
      next.stats == st.stats && next.recentRatings == st.recentRatings && next.error == LoadError
  {
    match response
    case DashboardLoaded(ratings, stores) =>
      st.(stats := ComputeStats(ratings, stores), recentRatings := RecentRatings(ratings), loading := false)
    case DashboardFailed =>
      st.(error := LoadError, loading := false)
  }

  /** After a successful load of valid ratings the dashboard agrees with itself:
      the recent list is empty iff no rating was counted, it never shows more
      ratings than were counted, and the mean is 0 with no ratings and in
      [1, 5] otherwise. */
  lemma LoadedDashboardConsistent(st: DashboardState, ratings: seq<UserRating>, stores: seq<Store>)
    requires RatingsWithin(ratings, 1, 5)
    ensures var next := FetchDashboard(st, DashboardLoaded(ratings, stores));
            && next.stats.totalRatings == |ratings|
            && |next.recentRatings| <= next.stats.totalRatings
            && (next.recentRatings == [] <==> next.stats.totalRatings == 0)
            && (next.stats.totalRatings == 0 ==> next.stats.averageRating == 0.0)
            && (next.stats.totalRatings > 0 ==> 1.0 <= next.stats.averageRating <= 5.0)
  {
    if |ratings| > 0 {
      AverageOfValidRatings(ratings);
    }
  }
}
