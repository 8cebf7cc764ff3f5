/**
 * The post-session rating dialog: a star rating from 0 (none chosen) to 5 and
 * a submitted flag. While picking, the stars and a Submit button (disabled at
 * rating 0) are shown; once submitted, a thank-you note and a Close button.
 * A dialog that is not visible renders nothing, so no control can be pressed,
 * but it keeps its state.
 */
module ChatRatingModal {

  /** An invocation of the parent's `onClose` callback. */
  datatype DialogCall = OnClose

  /** Which of its two faces the dialog shows. */
  datatype Phase = Picking | Submitted

  class RatingDialog {
    var rating: int
    var ratingSubmitted: bool

    /** The rating stays in 0..5, and a submitted rating is at least one star. */
    predicate Valid()
      reads this
    {
      0 <= rating <= 5 && (ratingSubmitted ==> 1 <= rating)
    }

    /** The face shown: the thank-you face exactly when the rating was submitted. */
    function CurrentPhase(): (p: Phase)
      reads this
      ensures p == Submitted <==> ratingSubmitted
    {
      if ratingSubmitted then Submitted else Picking
    }

    /** Star `n` is drawn filled. */
    predicate StarFilled(n: int)
      reads this
    {
      n <= rating
    }

    /** How many of the stars 1..`n` are drawn filled. */
    function FilledCount(n: nat): nat
      reads this
    {
      if n == 0 then 0 else FilledCount(n - 1) + (if StarFilled(n) then 1 else 0)
    }

    /** Among the first `n` stars, the filled ones number `min(n, rating)`. */
    lemma {:induction false} FilledCountUpTo(n: nat)
      requires 0 <= rating
      ensures FilledCount(n) == if n <= rating then n else rating
    {
      if n > 0 {
        FilledCountUpTo(n - 1);
      }
    }

    /** The five stars show the rating: exactly `rating` of them are filled, and they come first. */
    lemma FilledStarsShowRating()
      requires Valid()
      ensures FilledCount(5) == rating
      ensures forall k :: 1 <= k < 5 && StarFilled(k + 1) ==> StarFilled(k)
    {
      FilledCountUpTo(5);
    }

    /** The Submit button's `disabled` flag: set exactly while no star is filled. */
    function SubmitDisabled(): (r: bool)
      reads this
      ensures Valid() ==> (r <==> !StarFilled(1))
    {
      rating == 0
    }

    /** A fresh dialog: no stars, not submitted. */
    constructor ()
      ensures Valid() && rating == 0 && !ratingSubmitted
    {
      rating, ratingSubmitted := 0, false;
    }

    /** Pressing star `n`, which exists only while the visible dialog is picking, sets the rating to `n`. */
    method PressStar(visible: bool, n: int)
      requires Valid() && 1 <= n <= 5
      modifies this
      ensures Valid() && ratingSubmitted == old(ratingSubmitted)
      ensures rating == if visible && !old(ratingSubmitted) then n else old(rating)
      ensures visible && !old(ratingSubmitted) ==> forall k :: 1 <= k <= 5 ==> (StarFilled(k) <==> k <= n)
    {
      if visible && !ratingSubmitted {
        rating := n;
      }
    }

    /** `handleSubmit`: the dialog switches to its thank-you face; the rating is kept. */
    method HandleSubmit()
      requires Valid() && !SubmitDisabled()
      modifies this
      ensures Valid() && ratingSubmitted && rating == old(rating)
    {
      ratingSubmitted := true;
    }

    /** Pressing Submit: only the enabled button of a visible, picking dialog submits. */
    method PressSubmit(visible: bool)
      requires Valid()
      modifies this
      ensures Valid() && rating == old(rating)
      ensures ratingSubmitted == (old(ratingSubmitted) || (visible && old(rating) != 0))
    {
      if visible && !ratingSubmitted && !SubmitDisabled() {
        HandleSubmit();
      }
    }

    /** `handleClose`: back to no stars and picking, then one `onClose` call. */
    method HandleClose() returns (calls: seq<DialogCall>)
      requires Valid()
      modifies this
      ensures Valid() && rating == 0 && !ratingSubmitted
      ensures calls == [OnClose]
    {
      rating := 0;
      ratingSubmitted := false;
      calls := [OnClose];
    }

    /** Pressing Close, which exists only on the thank-you face of a visible dialog. */
    method PressClose(visible: bool) returns (calls: seq<DialogCall>)
      requires Valid()
      modifies this
      ensures Valid()
      ensures visible && old(ratingSubmitted) ==> rating == 0 && !ratingSubmitted && calls == [OnClose]
      ensures !(visible && old(ratingSubmitted)) ==>
        rating == old(rating) && ratingSubmitted == old(ratingSubmitted) && calls == []
    {
      calls := [];
      if visible && ratingSubmitted {
        calls := HandleClose();
      }
    }

    /** `onRequestClose` (the system back button): `onClose` without the reset. */
    method RequestClose(visible: bool) returns (calls: seq<DialogCall>)
      ensures calls == if visible then [OnClose] else []
    {
      calls := if visible then [OnClose] else [];
    }
  }

  /** Four stars, Submit, Close: submitted on the way, back to an empty picking dialog at the end. */
  method RatingScenario()
    returns (calls: seq<DialogCall>, submittedRating: int, submittedPhase: Phase, finalRating: int, finalPhase: Phase)
    ensures calls == [OnClose]
    ensures submittedRating == 4 && submittedPhase == Submitted
    ensures finalRating == 0 && finalPhase == Picking
  {
    var dialog := new RatingDialog();
    dialog.PressStar(true, 4);
    dialog.PressSubmit(true);
    submittedRating, submittedPhase := dialog.rating, dialog.CurrentPhase();
    calls := dialog.PressClose(true);
    finalRating, finalPhase := dialog.rating, dialog.CurrentPhase();
  }
}
