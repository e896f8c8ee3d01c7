/** The rating dialog (`RatingModal`): prefill from the user's existing
    rating, star click and hover, the validation gate and the submission,
    and the labels and star row it draws from that state. */
module RatingModal {
  import opened Records
  import Stars

  /** `userRatings.find(r => r.store_id === store.id)`: the first record for
      the store, if there is one. */
  function FindFirst(s: seq<UserRating>, storeId: int): (found: Option<UserRating>)
    ensures found.Some? <==> exists i :: 0 <= i < |s| && s[i].storeId == storeId
    ensures found.Some? ==>
      exists i :: 0 <= i < |s| && s[i] == found.value && found.value.storeId == storeId
                  && forall j :: 0 <= j < i ==> s[j].storeId != storeId
  {
    if s == [] then None
    else if s[0].storeId == storeId then Some(s[0])
    else
      var found := FindFirst(s[1..], storeId);
      assert forall i :: 1 <= i < |s| ==> s[i] == s[1..][i - 1];
      if found.Some? then
        var k :| 0 <= k < |s[1..]| && s[1..][k] == found.value && found.value.storeId == storeId
                 && forall j :: 0 <= j < k ==> s[1..][j].storeId != storeId;
        assert s[k + 1] == found.value;
        found
      else
        found
  }

  /** The request body of `POST /ratings`. */
  datatype RatingPost = RatingPost(storeId: int, rating: int)

  /** How the post ended: accepted, or rejected with the backend's `message`
      field when the error response carried one. */
  datatype SubmitOutcome = Accepted | Rejected(message: Option<string>)

  const ValidationError := "Please select a rating"
  const SubmitFallback := "Failed to submit rating"

  /** The error shown after a rejected post: the backend's message when it is
      present and non-empty, the generic fallback otherwise. Never empty, so
      the error box is always drawn. */
  function SubmitErrorMessage(message: Option<string>): (text: string)
    ensures text != ""
    ensures message.Some? && message.value != "" ==> text == message.value
    ensures message.None? || message.value == "" ==> text == SubmitFallback
  {
    if message.Some? && message.value != "" then message.value else SubmitFallback
  }

  /** `hoverRating || rating`: the hovered star while the pointer is over one,
      the chosen rating otherwise. */
  function ActiveLevel(hoverRating: int, rating: int): (level: int)
    ensures hoverRating != 0 ==> level == hoverRating
    ensures hoverRating == 0 ==> level == rating
  {
    if hoverRating != 0 then hoverRating else rating
  }

  /** The caption under the stars. Only 0 to 5 have a caption; each of them a
      different one. */
  function RatingLabel(rating: int): (text: string)
    ensures text == "" <==> rating < 0 || rating > 5
    ensures text == "Click on stars to rate" <==> rating == 0
    ensures 1 <= rating <= 5 ==> text == ["Poor", "Fair", "Good", "Very Good", "Excellent"][rating - 1]
  {
    if rating == 0 then "Click on stars to rate"
    else if rating == 1 then "Poor"
    else if rating == 2 then "Fair"
    else if rating == 3 then "Good"
    else if rating == 4 then "Very Good"
    else if rating == 5 then "Excellent"
    else ""
  }

  /** Each of the ratings 0 to 5 has its own caption. */
  lemma RatingLabelsDistinct(a: int, b: int)
    requires 0 <= a <= 5 && 0 <= b <= 5 && a != b
    ensures RatingLabel(a) != RatingLabel(b)
  {
  }

  /** The submit button is disabled while a post is in flight or no star is chosen. */
  function SubmitDisabled(loading: bool, rating: int): (disabled: bool)
    ensures !disabled ==> !loading && rating != 0
    ensures disabled ==> loading || rating == 0
  {
    loading || rating == 0
  }

  /** The dialog's title. */
  function ModalTitle(existing: Option<UserRating>): (title: string)
    ensures title == "Update Rating" <==> existing.Some?
    ensures title == "Rate Store" <==> existing.None?
  {
    if existing.Some? then "Update Rating" else "Rate Store"
  }

  /** The submit button's text: a progress text while loading, an action
      text otherwise, each worded for an update or a first rating. */
  function SubmitButtonText(loading: bool, existing: Option<UserRating>): (text: string)
    ensures loading ==> (text == "Updating..." <==> existing.Some?) && (text == "Submitting..." <==> existing.None?)
    ensures !loading ==> (text == "Update Rating" <==> existing.Some?) && (text == "Submit Rating" <==> existing.None?)
  {
    if loading then (if existing.Some? then "Updating..." else "Submitting...")
    else (if existing.Some? then "Update Rating" else "Submit Rating")
  }

  /** The dialog's state for one store. `posts` records the requests sent to
      `POST /ratings`, `submittedCalls` the calls of `onRatingSubmitted`. */
  class Modal {
    const storeId: int
    var rating: int
    var hoverRating: int
    var loading: bool
    var error: string
    var existingRating: Option<UserRating>
    var posts: seq<RatingPost>
    var submittedCalls: nat

    /** The hover level is 0 or a star; the prefilled record belongs to this
        store; every post went to this store with a chosen rating. */
    ghost predicate Valid()
      reads this
    {
      && 0 <= hoverRating <= Stars.Width
      && (existingRating.Some? ==> existingRating.value.storeId == storeId)
      && forall p :: p in posts ==> p.storeId == storeId && p.rating != 0
    }

    constructor (id: int)
      ensures Valid() && storeId == id
      ensures rating == 0 && hoverRating == 0 && !loading && error == "" && existingRating == None
      ensures posts == [] && submittedCalls == 0
    {
      storeId := id;
      rating := 0;
      hoverRating := 0;
      loading := false;
      error := "";
      existingRating := None;
      posts := [];
      submittedCalls := 0;
    }

    /** `checkExistingRating`: `response` is the user's ratings, or None when
        the request failed. A record for this store sets the existing rating
        and the chosen rating; otherwise nothing changes. */
    method Prefill(response: Option<seq<UserRating>>)
      requires Valid()
      modifies this
      ensures Valid()
      ensures response.Some? && FindFirst(response.value, storeId).Some? ==>
        existingRating == FindFirst(response.value, storeId) && rating == existingRating.value.rating
      ensures response.None? || FindFirst(response.value, storeId).None? ==>
        existingRating == old(existingRating) && rating == old(rating)
      ensures hoverRating == old(hoverRating) && loading == old(loading) && error == old(error)
      ensures posts == old(posts) && submittedCalls == old(submittedCalls)
    {
      if response.Some? {
        var existing := FindFirst(response.value, storeId);
        if existing.Some? {
          existingRating := existing;
          rating := existing.value.rating;
        }
      }
    }

    /** Clicking star `i` chooses it. */
    method ClickStar(i: int)
      requires Valid() && 1 <= i <= Stars.Width
      modifies this
      ensures Valid() && rating == i
      ensures hoverRating == old(hoverRating) && loading == old(loading) && error == old(error)
      ensures existingRating == old(existingRating) && posts == old(posts)
      ensures submittedCalls == old(submittedCalls)
    {
      rating := i;
    }

    /** The pointer entering star `i` shows that level. */
    method HoverStar(i: int)
      requires Valid() && 1 <= i <= Stars.Width
      modifies this
      ensures Valid() && hoverRating == i && ActiveLevel(hoverRating, rating) == i
      ensures rating == old(rating) && loading == old(loading) && error == old(error)
      ensures existingRating == old(existingRating) && posts == old(posts)
      ensures submittedCalls == old(submittedCalls)
    {
      hoverRating := i;
    }

    /** The pointer leaving a star shows the chosen rating again. */
    method LeaveStar()
      requires Valid()
      modifies this
      ensures Valid() && hoverRating == 0 && ActiveLevel(hoverRating, rating) == rating
      ensures rating == old(rating) && loading == old(loading) && error == old(error)
      ensures existingRating == old(existingRating) && posts == old(posts)
      ensures submittedCalls == old(submittedCalls)
    {
      hoverRating := 0;
    }

    /** `handleSubmit` up to its `await`: with no star chosen, set the
        validation error and stop, posting nothing and leaving `loading` as it
        was; otherwise set `loading`, clear the error and post the store and
        the rating. */
    method BeginSubmit() returns (post: Option<RatingPost>)
      requires Valid()
      modifies this
      ensures Valid()
      ensures post.Some? <==> old(rating) != 0
      ensures !SubmitDisabled(old(loading), old(rating)) ==> post.Some?
      ensures post.None? ==> error == ValidationError && loading == old(loading) && posts == old(posts)
      ensures post.Some? ==>
        post.value == RatingPost(storeId, rating) && loading && error == "" && posts == old(posts) + [post.value]
      ensures rating == old(rating) && hoverRating == old(hoverRating)
      ensures existingRating == old(existingRating) && submittedCalls == old(submittedCalls)
    {
      if rating == 0 {
        error := ValidationError;
        return None;
      }
      loading := true;
      error := "";
      post := Some(RatingPost(storeId, rating));
      posts := posts + [post.value];
    }

    /** `handleSubmit` after its `await`: on acceptance call `onRatingSubmitted`
        once; on rejection show the backend's message or the fallback. Loading
        ends false either way. */
    method EndSubmit(outcome: SubmitOutcome)
      requires Valid()
      modifies this
      ensures Valid() && !loading
      ensures outcome.Accepted? ==> submittedCalls == old(submittedCalls) + 1 && error == old(error)
      ensures outcome.Rejected? ==>
        submittedCalls == old(submittedCalls) && error == SubmitErrorMessage(outcome.message)
      ensures rating == old(rating) && hoverRating == old(hoverRating)
      ensures existingRating == old(existingRating) && posts == old(posts)
    {
      match outcome {
        case Accepted =>
          submittedCalls := submittedCalls + 1;
        case Rejected(message) =>
          error := SubmitErrorMessage(message);
      }
      loading := false;
    }

    /** The whole `handleSubmit`, with `outcome` standing for the post's result. */
    method HandleSubmit(outcome: SubmitOutcome) returns (post: Option<RatingPost>)
      requires Valid()
      modifies this
      ensures Valid()
      ensures old(rating) == 0 ==>
        post == None && error == ValidationError && loading == old(loading)
        && posts == old(posts) && submittedCalls == old(submittedCalls)
      ensures old(rating) != 0 ==>
        post == Some(RatingPost(storeId, old(rating))) && posts == old(posts) + [post.value] && !loading
      ensures old(rating) != 0 && outcome.Accepted? ==> submittedCalls == old(submittedCalls) + 1 && error == ""
      ensures old(rating) != 0 && outcome.Rejected? ==>
        submittedCalls == old(submittedCalls) && error == SubmitErrorMessage(outcome.message)
      ensures rating == old(rating) && hoverRating == old(hoverRating) && existingRating == old(existingRating)
    {
      post := BeginSubmit();
      if post.Some? {
        EndSubmit(outcome);
      }
    }

    /** `renderStars`: five stars, star i (1 to 5) filled iff `i` is at most
        the hovered level, or the chosen rating when nothing is hovered. */
    method RenderStars() returns (stars: seq<bool>)
      ensures stars == Stars.Row(ActiveLevel(hoverRating, rating))
      ensures Stars.Filled(stars) == Stars.Clamp(ActiveLevel(hoverRating, rating))
    {
      var activeRating := if hoverRating != 0 then hoverRating else rating;
      stars := [];
      for i := 1 to Stars.Width + 1
        invariant |stars| == i - 1
        invariant forall k :: 0 <= k < i - 1 ==> (stars[k] <==> k + 1 <= activeRating)
      {
        stars := stars + [i <= activeRating];
      }
      Stars.RowShape(activeRating);
    }
  }
}
