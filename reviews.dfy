/** Reviews (reviews/models.py) and the review form's validation (reviews/forms.py). */
module Reviews {
  import opened Common

  const RatingChoices: seq<int> := [1, 2, 3, 4, 5]
  const TitleMaxLength := 200
  const TitleMinLength := 5
  const ContentMinLength := 20

  datatype Review = Review(
    id: nat,
    product: nat,
    user: nat,
    rating: int,
    title: string,
    content: string,
    helpfulCount: int,
    unhelpfulCount: int,
    isVerifiedPurchase: bool,
    isApproved: bool)

  /** What a ReviewForm can set: Meta.fields = ('rating', 'title', 'content'). */
  datatype ReviewForm = ReviewForm(rating: int, title: string, content: string)

  /** The outcome of a clean_<field> method: the value, or the ValidationError message. */
  datatype Cleaned = Accepted(value: string) | Rejected(message: string)

  /** ReviewForm.clean_title. */
  function CleanTitle(title: string): (r: Cleaned)
    ensures r.Accepted? <==> |title| >= TitleMinLength
    ensures r.Accepted? ==> r.value == title
  {
    if |title| < 5 then Rejected("Review title must be at least 5 characters long.") else Accepted(title)
  }

  /** ReviewForm.clean_content. */
  function CleanContent(content: string): (r: Cleaned)
    ensures r.Accepted? <==> |content| >= ContentMinLength
    ensures r.Accepted? ==> r.value == content
  {
    if |content| < 20 then Rejected("Review content must be at least 20 characters long.") else Accepted(content)
  }

  /** form.is_valid(): the rating is one of RATING_CHOICES, the title fits the model's
      max_length, and both clean methods accept. */
  predicate FormIsValid(f: ReviewForm) {
    && f.rating in RatingChoices
    && |f.title| <= TitleMaxLength
    && CleanTitle(f.title).Accepted?
    && CleanContent(f.content).Accepted?
  }

  /** The model's field constraints: rating 1..5 (validators and choices), title max_length,
      vote counters not negative. */
  predicate ReviewFieldsValid(r: Review) {
    && 1 <= r.rating <= 5
    && |r.title| <= TitleMaxLength
    && r.helpfulCount >= 0
    && r.unhelpfulCount >= 0
  }

  /** A valid form has a rating in 1..5, a title of 5 to 200 characters and content of at
      least 20 characters; any form meeting those bounds is valid. */
  lemma FormValidityBounds(f: ReviewForm)
    ensures FormIsValid(f) <==>
      1 <= f.rating <= 5 && TitleMinLength <= |f.title| <= TitleMaxLength && |f.content| >= ContentMinLength
  {
    if 1 <= f.rating <= 5 {
      assert f.rating == RatingChoices[f.rating - 1];
    }
  }

  /** `form.save(commit=False)` plus the view's assignments: the posted fields, the given
      product, user and verified flag, and the model defaults for the rest. */
  function NewReview(id: nat, product: nat, user: nat, f: ReviewForm, verified: bool): (r: Review)
    requires FormIsValid(f)
    ensures ReviewFieldsValid(r)
    ensures r.helpfulCount == 0 && r.unhelpfulCount == 0 && !r.isApproved
    ensures r.id == id && r.product == product && r.user == user && r.isVerifiedPurchase == verified
    ensures r.rating == f.rating && r.title == f.title && r.content == f.content
  {
    Review(id, product, user, f.rating, f.title, f.content, 0, 0, verified, false)
  }

  /** Saving a ReviewForm bound to an existing review: only rating, title and content change;
      the counters and the verified and approved flags cannot be set through the form. */
  function ApplyForm(r: Review, f: ReviewForm): (r': Review)
    requires FormIsValid(f)
    ensures r'.id == r.id && r'.product == r.product && r'.user == r.user
    ensures r'.helpfulCount == r.helpfulCount && r'.unhelpfulCount == r.unhelpfulCount
    ensures r'.isVerifiedPurchase == r.isVerifiedPurchase && r'.isApproved == r.isApproved
    ensures r'.rating == f.rating && r'.title == f.title && r'.content == f.content
    ensures ReviewFieldsValid(r) ==> ReviewFieldsValid(r')
  {
    r.(rating := f.rating, title := f.title, content := f.content)
  }

  /** mark_helpful on POST: one more helpful vote, nothing else changes. */
  function MarkedHelpful(r: Review): (r': Review)
    ensures r'.helpfulCount == r.helpfulCount + 1
    ensures r' == r.(helpfulCount := r'.helpfulCount)
    ensures ReviewFieldsValid(r) ==> ReviewFieldsValid(r')
  {
    r.(helpfulCount := r.helpfulCount + 1)
  }

  /** Review.helpful_percentage, with exact integer arithmetic in place of the source's float
      division (which can come out one lower); only its bounds are claimed. */
  function HelpfulPercentage(helpful: int, unhelpful: int): (r: int)
    ensures helpful + unhelpful <= 0 ==> r == 0
    ensures helpful >= 0 && unhelpful >= 0 ==> 0 <= r <= 100
    ensures helpful >= 0 && unhelpful == 0 && helpful > 0 ==> r == 100
  {
    var total := helpful + unhelpful;
    if total > 0 then
      var r := TruncDiv(100 * helpful, total);
      if helpful >= 0 && unhelpful >= 0 then
        HelpfulBound(helpful, total, r);
        r
      else r
    else 0
  }

  lemma HelpfulBound(helpful: int, total: int, r: int)
    requires 0 <= helpful <= total && total > 0
    requires r == TruncDiv(100 * helpful, total)
    ensures 0 <= r <= 100
    ensures helpful == total ==> r == 100
  {
    var a := 100 * helpful;
    assert 0 <= a <= 100 * total;
    assert r >= 0 && r * total <= a < (r + 1) * total;
    FactorBelow(r, 100, total);
    if helpful == total {
      FactorBelow(100, r + 1, total);
    }
  }

  /** x * t <= y * t with t positive gives x <= y. */
  lemma FactorBelow(x: int, y: int, t: int)
    requires t > 0 && x * t <= y * t
    ensures x <= y
  {
  }
}
