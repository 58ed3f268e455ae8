/** The review screen: a five-star rating with hover preview, a comment,
    and the submit handler that rejects a missing rating or user and saves
    the review only when it knows the appointment and the establishment. */
module ReviewSystem {
  import opened Wrappers
  import opened Records

  /** The stars drawn on the screen, numbered 1 to 5. */
  type Star = i: int | 1 <= i <= 5 witness 1

  /** `rating` and `hoveredRating` are 0 when unset. */
  datatype ReviewState = ReviewState(rating: int, comment: string, hovered: int)

  const Initial: ReviewState := ReviewState(0, "", 0)

  /** The values the two counters can hold. */
  predicate InRange(s: ReviewState) {
    0 <= s.rating <= 5 && 0 <= s.hovered <= 5
  }

  /** The screen's event handlers. */
  datatype ReviewEvent = ClickStar(star: Star) | EnterStar(star: Star) | LeaveStar | TypeComment(text: string)

  function Handle(s: ReviewState, e: ReviewEvent): (r: ReviewState)
    ensures e.ClickStar? ==> r == s.(rating := e.star)
    ensures e.EnterStar? ==> r == s.(hovered := e.star)
    ensures e.LeaveStar? ==> r == s.(hovered := 0)
    ensures e.TypeComment? ==> r == s.(comment := e.text)
  {
    match e
    case ClickStar(star) => s.(rating := star)
    case EnterStar(star) => s.(hovered := star)
    case LeaveStar => s.(hovered := 0)
    case TypeComment(text) => s.(comment := text)
  }

  function Run(s: ReviewState, events: seq<ReviewEvent>): ReviewState
    decreases |events|
  {
    if events == [] then s else Run(Handle(s, events[0]), events[1..])
  }

  /** `star <= (hoveredRating || rating)`: the hover preview wins over the
      chosen rating while the mouse is over a star. */
  function StarFilled(s: ReviewState, star: Star): (b: bool)
    ensures s.hovered == 0 && s.rating == 0 ==> !b
    ensures s.hovered != 0 ==> (b <==> star <= s.hovered)
    ensures InRange(s) && star == 1 ==> (b <==> s.hovered != 0 || s.rating != 0)
  {
    star <= (if s.hovered != 0 then s.hovered else s.rating)
  }

  /** The label under the stars, shown for a rating above zero. */
  function RatingLabel(rating: int): (r: Option<string>)
    ensures r.Some? <==> 1 <= rating <= 5
  {
    if rating == 1 then Some("Muito ruim")
    else if rating == 2 then Some("Ruim")
    else if rating == 3 then Some("Regular")
    else if rating == 4 then Some("Bom")
    else if rating == 5 then Some("Excelente")
    else None
  }

  /** `disabled={rating === 0 || loading}`: when nothing is in flight, the
      button is enabled exactly while a rating label is shown under the stars. */
  function SubmitDisabled(s: ReviewState, loading: bool): (b: bool)
    ensures loading ==> b
    ensures InRange(s) && !loading ==> (b <==> RatingLabel(s.rating).None?)
  {
    s.rating == 0 || loading
  }

  /** The outcome of `handleSubmit`. `Submitted` means `onSubmitReview` was
      called, with the review row that was saved first if there was one. */
  datatype SubmitResult =
    | RatingRequired
    | LoginRequired
    | Submitted(rating: int, comment: string, saved: Option<Review>)
    | SaveFailed(attempted: Review)

  /** `handleSubmit`. `user` is the signed-in user's id and `insert` the
      backend's answer to the insert, used only when one is made. */
  function Submit(s: ReviewState, user: Option<string>, appointmentId: Option<string>,
                  establishmentId: Option<string>, insert: Outcome<()>): (r: SubmitResult)
    ensures r.RatingRequired? <==> s.rating == 0
    ensures r.LoginRequired? <==> s.rating != 0 && user.None?
    ensures (r.SaveFailed? || (r.Submitted? && r.saved.Some?)) <==>
      s.rating != 0 && user.Some? && Truthy(appointmentId) && Truthy(establishmentId)
    ensures r.SaveFailed? <==> s.rating != 0 && user.Some? && Truthy(appointmentId) && Truthy(establishmentId) && insert.Err?
    ensures r.Submitted? ==> r.rating == s.rating && r.comment == s.comment
    ensures r.SaveFailed? || (r.Submitted? && r.saved.Some?) ==>
      var row := if r.SaveFailed? then r.attempted else r.saved.value;
      && row.userId == user.value && row.appointmentId == appointmentId.value
      && row.establishmentId == establishmentId.value
      && row.nota == s.rating
      && (row.comentario.None? <==> s.comment == "")
      && (row.comentario.Some? ==> row.comentario.value == s.comment)
  {
    if s.rating == 0 then RatingRequired
    else if user.None? then LoginRequired
    else if Truthy(appointmentId) && Truthy(establishmentId) then
      var row := Review(user.value, appointmentId.value, establishmentId.value, s.rating, NonEmpty(s.comment));
      match insert
      case Err => SaveFailed(row)
      case Ok(_) => Submitted(s.rating, s.comment, Some(row))
    else Submitted(s.rating, s.comment, None)
  }

  // ---------------------------------------------------------------- lemmas

  /** Every sequence of clicks, hovers and typing keeps the rating and the
      hover value within 0..5, starting from the initial state or any other
      state in range. */
  lemma {:induction false} RunStaysInRange(s: ReviewState, events: seq<ReviewEvent>)
    requires InRange(s)
    ensures InRange(Run(s, events))
    decreases |events|
  {
    if events != [] {
      RunStaysInRange(Handle(s, events[0]), events[1..]);
    }
  }

  /** Once a star has been clicked, no later event brings the rating back to
      zero, so the submit button stays enabled while nothing is in flight. */
  lemma {:induction false} RatingNeverCleared(s: ReviewState, events: seq<ReviewEvent>)
    requires s.rating != 0
    ensures Run(s, events).rating != 0
    decreases |events|
  {
    if events != [] {
      RatingNeverCleared(Handle(s, events[0]), events[1..]);
    }
  }

  /** The filled stars are a prefix of the row: star `i` is filled exactly
      when it is at most the hovered star, or the rating when none is hovered. */
  lemma FilledStarsArePrefix(s: ReviewState, i: Star, j: Star)
    requires i <= j && StarFilled(s, j)
    ensures StarFilled(s, i)
  {
  }

  /** Clicking a star and leaving it fills exactly the stars up to it. */
  lemma ClickFillsUpTo(s: ReviewState, star: Star, i: Star)
    ensures StarFilled(Run(s, [ClickStar(star), LeaveStar]), i) <==> i <= star
  {
    var events := [ClickStar(star), LeaveStar];
    var s1 := Handle(s, ClickStar(star));
    assert events[1..] == [LeaveStar];
    assert Run(s1, [LeaveStar]) == Run(Handle(s1, LeaveStar), []);
    assert Run(s, events) == s.(rating := star, hovered := 0);
  }

  /** Whatever the user clicks, hovers or types after the screen opens, a
      review that reaches the backend carries a rating from 1 to 5. */
  lemma SavedRatingInRange(events: seq<ReviewEvent>, user: Option<string>, appointmentId: Option<string>,
                           establishmentId: Option<string>, insert: Outcome<()>)
    ensures var r := Submit(Run(Initial, events), user, appointmentId, establishmentId, insert);
      && (r.SaveFailed? ==> 1 <= r.attempted.nota <= 5)
      && (r.Submitted? && r.saved.Some? ==> 1 <= r.saved.value.nota <= 5)
  {
    RunStaysInRange(Initial, events);
  }

  /** The review screen as the application opens it, without appointment or
      establishment, never writes to the backend: a rated review by a
      signed-in user is handed to the callback unsaved whatever the backend
      would answer. */
  lemma OpenedWithoutIdsNeverSaves(s: ReviewState, user: string, insert: Outcome<()>)
    requires s.rating != 0
    ensures Submit(s, Some(user), None, None, insert) == Submitted(s.rating, s.comment, None)
  {
  }
}
