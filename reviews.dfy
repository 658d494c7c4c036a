/** Reviews and the rating summary kept on each listing: creating or deleting
    a review updates the listing's list of review ids and then recomputes the
    listing's review count and mean rating from the reviews it references;
    deleting a listing deletes the reviews it references. */
module Reviews {
  import opened Wrappers
  import opened Seqs
  import opened ListingModel

  datatype Review = Review(rating: real, comment: string, author: Option<Id>)

  function Sum(xs: seq<real>): real {
    if xs == [] then 0.0 else xs[0] + Sum(xs[1..])
  }

  lemma {:induction false} SumBounds(xs: seq<real>, lo: real, hi: real)
    requires forall i :: 0 <= i < |xs| ==> lo <= xs[i] <= hi
    ensures lo * |xs| as real <= Sum(xs) <= hi * |xs| as real
  {
    if xs != [] {
      SumBounds(xs[1..], lo, hi);
      assert |xs| as real == 1.0 + |xs[1..]| as real;
      assert lo * |xs| as real == lo + lo * |xs[1..]| as real;
      assert hi * |xs| as real == hi + hi * |xs[1..]| as real;
    }
  }

  /** The ids `$match: { _id: { $in: refs } }` selects: the referenced ids that
      name a stored review, each once. */
  function RatedIds(reviews: map<Id, Review>, refs: seq<Id>): (r: seq<Id>)
    ensures NoDuplicates(r)
    ensures forall id :: id in r <==> id in refs && id in reviews
  {
    Distinct(Filter(refs, id => id in reviews))
  }

  function Ratings(reviews: map<Id, Review>, ids: seq<Id>): (r: seq<real>)
    requires forall id :: id in ids ==> id in reviews
    ensures |r| == |ids|
    ensures forall i :: 0 <= i < |ids| ==> r[i] == reviews[ids[i]].rating
  {
    if ids == [] then [] else [reviews[ids[0]].rating] + Ratings(reviews, ids[1..])
  }

  /** `recalcListingRating`'s figures for a listing referencing `refs`: the
      mean rating and the number of the referenced reviews, or 0 and 0 when
      the listing references none or none of them exists. */
  function RatingOf(reviews: map<Id, Review>, refs: seq<Id>): (r: (real, nat))
    ensures r.1 == |RatedIds(reviews, refs)|
    ensures r.1 == 0 ==> r.0 == 0.0
    ensures r.1 > 0 ==> r.0 == Sum(Ratings(reviews, RatedIds(reviews, refs))) / (r.1 as real)
  {
    if refs == [] then (0.0, 0)
    else
      var ids := RatedIds(reviews, refs);
      if ids == [] then (0.0, 0)
      else (Sum(Ratings(reviews, ids)) / |ids| as real, |ids|)
  }

  /** A total between `lo * n` and `hi * n` has its mean between `lo` and `hi`. */
  lemma MeanBetween(n: nat, total: real, lo: real, hi: real)
    requires n > 0 && lo * n as real <= total <= hi * n as real
    ensures lo <= total / n as real <= hi
  {
    var avg := total / n as real;
    assert avg * (n as real) == total;
  }

  lemma RatingSumBounds(reviews: map<Id, Review>, ids: seq<Id>)
    requires forall id :: id in ids ==> id in reviews && 1.0 <= reviews[id].rating <= 5.0
    ensures |ids| as real <= Sum(Ratings(reviews, ids)) <= 5.0 * |ids| as real
  {
    var rs := Ratings(reviews, ids);
    forall i | 0 <= i < |rs| ensures 1.0 <= rs[i] <= 5.0 {
      assert ids[i] in ids;
    }
    SumBounds(rs, 1.0, 5.0);
  }

  /** With every rating between 1 and 5, the mean is between 1 and 5. */
  lemma MeanWithinRatings(reviews: map<Id, Review>, refs: seq<Id>)
    requires forall id :: id in reviews ==> 1.0 <= reviews[id].rating <= 5.0
    ensures RatingOf(reviews, refs).1 > 0 ==> 1.0 <= RatingOf(reviews, refs).0 <= 5.0
  {
    var ids := RatedIds(reviews, refs);
    if ids != [] {
      RatingSumBounds(reviews, ids);
      MeanBetween(|ids|, Sum(Ratings(reviews, ids)), 1.0, 5.0);
    }
  }

  function Elements(xs: seq<Id>): set<Id> {
    set x | x in xs
  }

  /** The stored reviews a listing referencing `refs` points to. */
  function Referenced(reviews: map<Id, Review>, refs: seq<Id>): set<Id> {
    set id | id in refs && id in reviews
  }

  lemma {:induction false} NoDuplicatesCardinality(xs: seq<Id>)
    requires NoDuplicates(xs)
    ensures |Elements(xs)| == |xs|
  {
    if xs != [] {
      var rest := xs[1..];
      assert NoDuplicates(rest) by {
        forall i, j | 0 <= i < j < |rest| ensures rest[i] != rest[j] {
          assert rest[i] == xs[i + 1] && rest[j] == xs[j + 1];
        }
      }
      NoDuplicatesCardinality(rest);
      assert xs[0] !in Elements(rest) by {
        forall k | 0 <= k < |rest| ensures rest[k] != xs[0] {
          assert rest[k] == xs[k + 1];
        }
      }
      assert Elements(xs) == {xs[0]} + Elements(rest) by {
        forall x | x in Elements(xs) ensures x in {xs[0]} + Elements(rest) {
          var k :| 0 <= k < |xs| && xs[k] == x;
          if k > 0 { assert rest[k - 1] == x; }
        }
        forall x | x in Elements(rest) ensures x in Elements(xs) {
          var k :| 0 <= k < |rest| && rest[k] == x;
          assert xs[k + 1] == x;
        }
      }
    }
  }

  /** The review count is the number of distinct stored reviews the listing
      references, however often an id is repeated or left dangling. */
  lemma RatingCountIsReferencedReviews(reviews: map<Id, Review>, refs: seq<Id>)
    ensures RatingOf(reviews, refs).1 == |Referenced(reviews, refs)|
  {
    var ids := RatedIds(reviews, refs);
    NoDuplicatesCardinality(ids);
    assert Elements(ids) == Referenced(reviews, refs);
  }

  /** The listings and reviews collections. */
  class Catalog {
    var listings: map<Id, Listing>
    var reviews: map<Id, Review>

    constructor ()
      ensures listings == map[] && reviews == map[]
    {
      listings := map[];
      reviews := map[];
    }

    /** `recalcListingRating(listingId)`: a missing listing changes nothing;
        otherwise its rating fields are set from the reviews it references. */
    method RecalcListingRating(listingId: Id)
      modifies this`listings
      ensures listingId !in old(listings) ==> listings == old(listings)
      ensures listingId in old(listings) ==>
        var l := old(listings)[listingId];
        var stats := RatingOf(reviews, l.reviews);
        listings == old(listings)[listingId := l.(ratingAvg := stats.0, ratingCount := stats.1)]
    {
      if listingId !in listings {
        return;
      }
      var l := listings[listingId];
      if l.reviews == [] {
        listings := listings[listingId := l.(ratingAvg := 0.0, ratingCount := 0)];
        return;
      }
      var stats := RatingOf(reviews, l.reviews);
      listings := listings[listingId := l.(ratingAvg := stats.0, ratingCount := stats.1)];
    }

    /** `createReview`: the review is stored with the current user as author,
        its id appended to the listing's reviews, and the rating recomputed.
        A missing listing fails before anything is stored. */
    method CreateReview(listingId: Id, reviewId: Id, rating: real, comment: string, user: Id)
      returns (ok: bool)
      requires reviewId !in reviews
      modifies this
      ensures ok <==> listingId in old(listings)
      ensures !ok ==> listings == old(listings) && reviews == old(reviews)
      ensures ok ==>
        reviews == old(reviews)[reviewId := Review(rating, comment, Some(user))] &&
        var l := old(listings)[listingId];
        var refs := l.reviews + [reviewId];
        var stats := RatingOf(reviews, refs);
        listings == old(listings)[listingId := l.(reviews := refs, ratingAvg := stats.0, ratingCount := stats.1)]
    {
      if listingId !in listings {
        return false;
      }
      var review := Review(rating, comment, Some(user));
      var l := listings[listingId];
      l := l.(reviews := l.reviews + [reviewId]);
      reviews := reviews[reviewId := review];
      listings := listings[listingId := l];
      RecalcListingRating(listingId);
      ok := true;
    }

    /** `destroyReview`: every occurrence of the id leaves the listing's
        reviews, the review is deleted, and the rating recomputed. */
    method DestroyReview(listingId: Id, reviewId: Id)
      modifies this
      ensures reviews == old(reviews) - {reviewId}
      ensures listingId !in old(listings) ==> listings == old(listings)
      ensures listingId in old(listings) ==>
        var l := old(listings)[listingId];
        var refs := Filter(l.reviews, id => id != reviewId);
        var stats := RatingOf(reviews, refs);
        listings == old(listings)[listingId := l.(reviews := refs, ratingAvg := stats.0, ratingCount := stats.1)]
    {
      if listingId in listings {
        var l := listings[listingId];
        listings := listings[listingId := l.(reviews := Filter(l.reviews, id => id != reviewId))];
      }
      reviews := reviews - {reviewId};
      RecalcListingRating(listingId);
    }

    /** Deleting a listing (`findOneAndDelete` and its hook): the listing goes,
        and so does every review it references. */
    method DeleteListing(listingId: Id)
      modifies this
      ensures listings == old(listings) - {listingId}
      ensures listingId !in old(listings) ==> reviews == old(reviews)
      ensures listingId in old(listings) ==>
        reviews == map id | id in old(reviews) && id !in old(listings)[listingId].reviews :: old(reviews)[id]
    {
      if listingId !in listings {
        return;
      }
      var gone := listings[listingId];
      listings := listings - {listingId};
      reviews := map id | id in reviews && id !in gone.reviews :: reviews[id];
    }
  }

  /** A new review counts in its listing's summary, and a destroyed one no
      longer does. */
  lemma CreatedCountsDestroyedDoesNot(reviews: map<Id, Review>, refs: seq<Id>, rid: Id, r: Review)
    ensures rid in RatedIds(reviews[rid := r], refs + [rid])
    ensures rid !in RatedIds(reviews - {rid}, Filter(refs, id => id != rid))
    ensures rid !in RatedIds(reviews - {rid}, refs)
  {
  }

  /** Adding a review not referenced before raises the count by one. */
  lemma CreateAddsOne(reviews: map<Id, Review>, refs: seq<Id>, rid: Id, r: Review)
    requires rid !in reviews && rid !in refs
    ensures RatingOf(reviews[rid := r], refs + [rid]).1 == RatingOf(reviews, refs).1 + 1
  {
    var after := reviews[rid := r];
    RatingCountIsReferencedReviews(reviews, refs);
    RatingCountIsReferencedReviews(after, refs + [rid]);
    assert Referenced(after, refs + [rid]) == Referenced(reviews, refs) + {rid} by {
      forall id | id in Referenced(after, refs + [rid]) ensures id in Referenced(reviews, refs) + {rid} {
        if id != rid {
          assert id in refs;
        }
      }
      forall id | id in Referenced(reviews, refs) + {rid} ensures id in Referenced(after, refs + [rid]) {
        if id != rid {
          assert id in refs + [rid];
        } else {
          assert (refs + [rid])[|refs|] == rid;
        }
      }
    }
  }
}
