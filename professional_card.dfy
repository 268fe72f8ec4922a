/**
 * components/ProfessionalCard.tsx: the row of five stars a card draws for a professional's
 * rating. Star `i` (0 to 4) is drawn filled exactly when `i < rating`, so a fractional
 * rating rounds up: 4.2 shows five filled stars.
 */
module ProfessionalCard {
  const StarCount: nat := 5

  /** One star of the row: its React key and whether it is drawn filled (yellow). */
  datatype Star = Star(key: nat, filled: bool)

  /** `stars` is the row the card draws for `rating`. */
  predicate IsStarRow(stars: seq<Star>, rating: real) {
    |stars| == StarCount && forall i :: 0 <= i < |stars| ==> stars[i] == Star(i, (i as real) < rating)
  }

  /** `renderStars`: five stars, keyed 0 to 4, the first ones filled. */
  method RenderStars(rating: real) returns (stars: seq<Star>)
    ensures IsStarRow(stars, rating)
  {
    stars := [];
    for i := 0 to StarCount
      invariant |stars| == i
      invariant forall j :: 0 <= j < i ==> stars[j] == Star(j, (j as real) < rating)
    {
      stars := stars + [Star(i, (i as real) < rating)];
    }
  }

  function CountFilled(stars: seq<Star>): nat {
    if stars == [] then 0 else CountFilled(stars[..|stars| - 1]) + (if stars[|stars| - 1].filled then 1 else 0)
  }

  function Clamp(x: int, lo: int, hi: int): int
    requires lo <= hi
  {
    if x < lo then lo else if x > hi then hi else x
  }

  /** The least integer at or above `x`. */
  function Ceiling(x: real): int {
    -((-x).Floor)
  }

  /** Filled stars come first: no empty star precedes a filled one. */
  lemma FilledStarsFirst(stars: seq<Star>, rating: real, i: int, j: int)
    requires IsStarRow(stars, rating)
    requires 0 <= j < i < |stars| && stars[i].filled
    ensures stars[j].filled
  {
  }

  lemma {:induction false} FilledCountOfPrefix(stars: seq<Star>, rating: real, n: nat)
    requires IsStarRow(stars, rating) && n <= |stars|
    ensures CountFilled(stars[..n]) == Clamp(Ceiling(rating), 0, n)
  {
    if n > 0 {
      FilledCountOfPrefix(stars, rating, n - 1);
      assert stars[..n][..n - 1] == stars[..n - 1];
      assert stars[..n][n - 1] == Star(n - 1, ((n - 1) as real) < rating);
      assert ((n - 1) as real) < rating <==> n - 1 < Ceiling(rating);
    }
  }

  /**
   * The row shows the rating rounded up and clamped to 0..5 filled stars; an integral
   * rating from 0 to 5 shows exactly that many.
   */
  lemma FilledCount(stars: seq<Star>, rating: real)
    requires IsStarRow(stars, rating)
    ensures CountFilled(stars) == Clamp(Ceiling(rating), 0, StarCount)
    ensures rating == rating.Floor as real && 0.0 <= rating <= StarCount as real ==> CountFilled(stars) == rating.Floor
  {
    FilledCountOfPrefix(stars, rating, |stars|);
    assert stars[..|stars|] == stars;
  }
}
