/**
 * The review form on a product page: a star rating chosen by clicking one of
 * five stars, a comment, a name or the anonymous switch, and a submission
 * that checks them in order and hands a trimmed review to the reviews hook.
 */
module ReviewFormComponent {
  import opened Wrappers
  import opened Text
  import opened Numerals
  import opened Storage
  import opened ReviewsHook

  /** What submitting the form led to: the first failed check, or the review added. */
  datatype Outcome = RatingMissing | CommentTooShort | NameMissing | Submitted

  const MinCommentLength: nat := 10
  const MinNameLength: nat := 2

  /**
   * The checks of `handleSubmit`, in order: a rating, a trimmed comment of at
   * least 10 UTF-16 code units, and unless anonymous a trimmed name of at least 2.
   */
  function Validate(rating: int, comment: string, userName: string, isAnonymous: bool): Outcome {
    if rating == 0 then RatingMissing
    else if Utf16Length(Trim(comment)) < MinCommentLength then CommentTooShort
    else if !isAnonymous && Utf16Length(Trim(userName)) < MinNameLength then NameMissing
    else Submitted
  }

  /** A comment of whitespace only is too short, whatever its length before trimming. */
  lemma BlankCommentRejected(rating: int, comment: string, userName: string, isAnonymous: bool)
    requires rating != 0 && IsBlank(comment)
    ensures Validate(rating, comment, userName, isAnonymous) == CommentTooShort
  {
  }

  /** An anonymous review does not depend on what was typed as the name. */
  lemma AnonymousIgnoresName(rating: int, comment: string, name1: string, name2: string)
    ensures Validate(rating, comment, name1, true) == Validate(rating, comment, name2, true)
  {
  }

  /** An accepted comment keeps at least 5 characters after trimming, even when every one is outside the BMP. */
  lemma AcceptedCommentLength(rating: int, comment: string, userName: string, isAnonymous: bool)
    requires Validate(rating, comment, userName, isAnonymous) == Submitted
    ensures |Trim(comment)| >= MinCommentLength / 2 && !IsBlank(comment)
  {
    var t := Trim(comment);
    assert Utf16Length(t) >= MinCommentLength;
    assert Utf16Length(t) <= 2 * |t|;
    assert t != [];
  }

  /** The review the hook is asked to add: trimmed comment, trimmed name unless anonymous. */
  function Submission(productId: string, rating: int, comment: string, userName: string, isAnonymous: bool,
                      now: nat, suffix: string, isoDate: string): Review
  {
    Review("review-" + NatToString(now, 10) + "-" + suffix, productId, rating, Trim(comment),
           if isAnonymous then None else Some(Trim(userName)), isoDate, isAnonymous)
  }

  /** The state of one review form. */
  class ReviewForm {
    const reviews: Reviews
    var rating: int
    var comment: string
    var userName: string
    var isAnonymous: bool
    var isSubmitting: bool

    /** The rating is 0 (none) or a star; the hook is consistent; no submission is under way. */
    predicate Valid()
      reads this, reviews
    {
      0 <= rating <= 5 && reviews.Valid() && !isSubmitting
    }

    /** A fresh form over `useReviews(productId)`. */
    constructor (store: KeyValueStore, productId: string)
      ensures Valid() && fresh(reviews)
      ensures reviews.store == store && reviews.productId == Some(productId)
      ensures rating == 0 && comment == "" && userName == "" && !isAnonymous
    {
      reviews := new Reviews.Load(store, Some(productId));
      rating, comment, userName, isAnonymous, isSubmitting := 0, "", "", false, false;
    }

    /** A click on star `star` of the five. */
    method SelectRating(star: int)
      requires Valid() && 1 <= star <= 5
      modifies this
      ensures Valid() && rating == star
      ensures comment == old(comment) && userName == old(userName) && isAnonymous == old(isAnonymous)
    {
      rating := star;
    }

    /**
     * `handleSubmit`: a failed check changes nothing; otherwise the hook adds
     * the trimmed review (for a product id that is not empty) and the form is
     * reset. A review that is added always carries a rating from 1 to 5.
     */
    method HandleSubmit(now: nat, suffix: string, isoDate: string) returns (outcome: Outcome)
      requires Valid()
      modifies this, reviews, reviews.store
      ensures Valid()
      ensures outcome == Validate(old(rating), old(comment), old(userName), old(isAnonymous))
      ensures outcome != Submitted ==>
        rating == old(rating) && comment == old(comment) && userName == old(userName) && isAnonymous == old(isAnonymous) &&
        reviews.reviews == old(reviews.reviews) && reviews.store.entries == old(reviews.store.entries)
      ensures outcome == Submitted ==> rating == 0 && comment == "" && userName == "" && !isAnonymous
      ensures outcome == Submitted && Bound(reviews.productId) ==>
        var added := Submission(reviews.productId.value, old(rating), old(comment), old(userName), old(isAnonymous),
                                now, suffix, isoDate);
        reviews.reviews == old(reviews.reviews) + [added] &&
        1 <= added.rating <= 5 &&
        reviews.store.entries == old(reviews.store.entries)[ReviewsKey :=
          ReviewsJson(ScopedWrite(StoredReviews(old(reviews.store.entries)), reviews.productId, reviews.reviews))]
      ensures outcome == Submitted && !Bound(reviews.productId) ==>
        reviews.reviews == old(reviews.reviews) && reviews.store.entries == old(reviews.store.entries)
    {
      outcome := Validate(rating, comment, userName, isAnonymous);
      if outcome == Submitted {
        Submit(now, suffix, isoDate);
      }
    }

    /** The accepted path of `handleSubmit`: add the trimmed review, reset the form. */
    method Submit(now: nat, suffix: string, isoDate: string)
      requires Valid() && Validate(rating, comment, userName, isAnonymous) == Submitted
      modifies this, reviews, reviews.store
      ensures Valid()
      ensures rating == 0 && comment == "" && userName == "" && !isAnonymous
      ensures Bound(reviews.productId) ==>
        var added := Submission(reviews.productId.value, old(rating), old(comment), old(userName), old(isAnonymous),
                                now, suffix, isoDate);
        reviews.reviews == old(reviews.reviews) + [added] &&
        1 <= added.rating <= 5 &&
        reviews.store.entries == old(reviews.store.entries)[ReviewsKey :=
          ReviewsJson(ScopedWrite(StoredReviews(old(reviews.store.entries)), reviews.productId, reviews.reviews))]
      ensures !Bound(reviews.productId) ==>
        reviews.reviews == old(reviews.reviews) && reviews.store.entries == old(reviews.store.entries)
    {
      var r, c, u, a := rating, comment, userName, isAnonymous;
      isSubmitting := true;
      reviews.AddReview(r, Trim(c), if a then None else Some(Trim(u)), a, now, suffix, isoDate);
      rating, comment, userName, isAnonymous := 0, "", "", false;
      isSubmitting := false;
    }
  }
}
