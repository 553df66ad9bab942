/**
 * The reviews hook. All reviews of all products live in one stored collection
 * under `ReviewsKey`; a hook bound to a product id sees and rewrites only that
 * product's share of it.
 */
module ReviewsHook {
  import opened Wrappers
  import opened Lists
  import opened Storage
  import opened Numerals

  function ProductOf(r: Review): string {
    r.productId
  }

  /** `if (productId)`: an id that is given and is not the empty string. */
  predicate Bound(productId: Option<string>) {
    productId.Some? && productId.value != ""
  }

  /** Every review in `rs` is about product `id`. */
  predicate AllAbout(rs: seq<Review>, id: string) {
    forall i :: 0 <= i < |rs| ==> rs[i].productId == id
  }

  /**
   * The collection `saveReviews` writes back: bound to a product, the stored
   * reviews of every other product followed by the new list; unbound, the new
   * list alone.
   */
  function ScopedWrite(stored: seq<Review>, productId: Option<string>, newReviews: seq<Review>): seq<Review>
  {
    if Bound(productId) then Without(stored, ProductOf, productId.value) + newReviews else newReviews
  }

  /**
   * A bound write leaves the reviews of every other product exactly as they
   * were, and the bound product's reviews become exactly the new list.
   */
  lemma ScopedWriteSeparates(stored: seq<Review>, id: string, newReviews: seq<Review>, other: string)
    requires id != "" && AllAbout(newReviews, id)
    ensures var all := ScopedWrite(stored, Some(id), newReviews);
      Only(all, ProductOf, id) == newReviews &&
      (other != id ==> Only(all, ProductOf, other) == Only(stored, ProductOf, other))
  {
    var rest := Without(stored, ProductOf, id);
    OnlyAppend(rest, newReviews, ProductOf, id);
    OnlyAppend(rest, newReviews, ProductOf, other);
    OnlyWithout(stored, ProductOf, id, id);
    OnlyWithout(stored, ProductOf, id, other);
    OnlyAll(newReviews, ProductOf, id);
    if other != id {
      OnlyNone(newReviews, ProductOf, other);
    }
  }

  /** An unbound write replaces the whole collection. */
  lemma UnboundWriteReplaces(stored: seq<Review>, productId: Option<string>, newReviews: seq<Review>)
    requires !Bound(productId)
    ensures ScopedWrite(stored, productId, newReviews) == newReviews
  {
  }

  function RatingSum(rs: seq<Review>): int {
    if rs == [] then 0 else rs[0].rating + RatingSum(rs[1..])
  }

  /**
   * `getAverageRating` in tenths: 0 without reviews, otherwise ten times the
   * mean rounded half up, as `Math.round(total / n * 10)` does.
   */
  function AverageTenths(rs: seq<Review>): (t: int)
    ensures |rs| == 0 ==> t == 0
    ensures |rs| > 0 ==> 2 * |rs| * t - |rs| <= 20 * RatingSum(rs) < 2 * |rs| * t + |rs|
  {
    if |rs| == 0 then 0 else (20 * RatingSum(rs) + |rs|) / (2 * |rs|)
  }

  /** Ratings of 5, 5 and 4 average 4.7. */
  lemma AverageExample(a: Review, b: Review, c: Review)
    requires a.rating == 5 && b.rating == 5 && c.rating == 4
    ensures AverageTenths([a, b, c]) == 47
  {
    var rs := [a, b, c];
    assert rs[1..] == [b, c] && [b, c][1..] == [c] && [c][1..] == [];
    assert RatingSum([c]) == 4;
    assert RatingSum([b, c]) == 9;
    assert RatingSum(rs) == 14;
  }

  /** With star ratings from 1 to 5 the average lies between 1.0 and 5.0. */
  lemma AverageBounds(rs: seq<Review>)
    requires |rs| > 0
    requires forall i :: 0 <= i < |rs| ==> 1 <= rs[i].rating <= 5
    ensures 10 <= AverageTenths(rs) <= 50
  {
    RatingSumBounds(rs);
    var n, t := |rs|, AverageTenths(rs);
    if t < 10 {
      assert 2 * n * t <= 2 * n * 9 by { MulLe(2 * n, t, 9); }
    }
    if t > 50 {
      assert 2 * n * t >= 2 * n * 51 by { MulLe(2 * n, 51, t); }
    }
  }

  lemma MulLe(k: nat, a: int, b: int)
    requires a <= b
    ensures k * a <= k * b
  {
  }

  lemma {:induction false} RatingSumBounds(rs: seq<Review>)
    requires forall i :: 0 <= i < |rs| ==> 1 <= rs[i].rating <= 5
    ensures |rs| <= RatingSum(rs) <= 5 * |rs|
  {
    if rs != [] {
      RatingSumBounds(rs[1..]);
    }
  }

  /** The number of reviews with rating `k`. */
  function RatingCount(rs: seq<Review>, k: int): nat {
    if rs == [] then 0
    else RatingCount(rs[..|rs| - 1], k) + (if rs[|rs| - 1].rating == k then 1 else 0)
  }

  /** With every rating between 1 and 5, the five counts add up to the number of reviews. */
  lemma {:induction false} CountsAddUp(rs: seq<Review>)
    requires forall i :: 0 <= i < |rs| ==> 1 <= rs[i].rating <= 5
    ensures RatingCount(rs, 1) + RatingCount(rs, 2) + RatingCount(rs, 3) + RatingCount(rs, 4) + RatingCount(rs, 5) == |rs|
  {
    if rs != [] {
      CountsAddUp(rs[..|rs| - 1]);
    }
  }

  /** A histogram entry: `distribution[rating]++` on a missing key gives `NaN`, which stays `NaN`. */
  datatype Tally = Count(n: nat) | NotANumber

  function Increment(t: Option<Tally>): Tally {
    match t
    case Some(Count(n)) => Count(n + 1)
    case _ => NotANumber
  }

  /** The state of one `useReviews(productId)` instance. */
  class Reviews {
    const store: KeyValueStore
    const productId: Option<string>
    var reviews: seq<Review>

    /** A bound hook holds only reviews of its product. */
    predicate Valid()
      reads this
    {
      Bound(productId) ==> AllAbout(reviews, productId.value)
    }

    /** The load effect: the stored reviews of the bound product, in stored order, or all of them when unbound. */
    constructor Load(store: KeyValueStore, productId: Option<string>)
      ensures this.store == store && this.productId == productId
      ensures Bound(productId) ==> reviews == Only(StoredReviews(store.entries), ProductOf, productId.value)
      ensures !Bound(productId) ==> reviews == StoredReviews(store.entries)
      ensures ReviewsKey !in store.entries || store.entries[ReviewsKey] == Malformed ==> reviews == []
      ensures Valid()
    {
      this.store := store;
      this.productId := productId;
      var all := StoredReviews(store.entries);
      if Bound(productId) {
        var mine := Only(all, ProductOf, productId.value);
        assert forall i :: 0 <= i < |mine| ==> mine[i] in mine;
        reviews := mine;
      } else {
        reviews := all;
      }
    }

    /**
     * `saveReviews`: read the stored collection (nothing when unreadable),
     * replace this product's share by `newReviews`, write it back, and hold
     * `newReviews`.
     */
    method SaveReviews(newReviews: seq<Review>)
      modifies this, store
      ensures reviews == newReviews
      ensures store.entries ==
        old(store.entries)[ReviewsKey := ReviewsJson(ScopedWrite(StoredReviews(old(store.entries)), productId, newReviews))]
    {
      var allReviews := StoredReviews(store.entries);
      if Bound(productId) {
        allReviews := Without(allReviews, ProductOf, productId.value);
        allReviews := allReviews + newReviews;
      } else {
        allReviews := newReviews;
      }
      store.SetItem(ReviewsKey, ReviewsJson(allReviews));
      reviews := newReviews;
    }

    /**
     * `addReview`: without a bound product nothing happens; otherwise one review
     * for the bound product is appended and saved. The clock reading `now`, the
     * random suffix `suffix` and the ISO date `isoDate` are inputs.
     */
    method AddReview(rating: int, comment: string, userName: Option<string>, isAnonymous: bool,
                     now: nat, suffix: string, isoDate: string)
      requires Valid()
      modifies this, store
      ensures Valid()
      ensures !Bound(productId) ==> reviews == old(reviews) && store.entries == old(store.entries)
      ensures Bound(productId) ==>
        var added := Review("review-" + NatToString(now, 10) + "-" + suffix, productId.value, rating, comment,
                            if isAnonymous then None else userName, isoDate, isAnonymous);
        reviews == old(reviews) + [added] &&
        store.entries == old(store.entries)[ReviewsKey :=
          ReviewsJson(ScopedWrite(StoredReviews(old(store.entries)), productId, reviews))]
    {
      if !Bound(productId) {
        return;
      }
      var added := Review("review-" + NatToString(now, 10) + "-" + suffix, productId.value, rating, comment,
                          if isAnonymous then None else userName, isoDate, isAnonymous);
      SaveReviews(reviews + [added]);
    }

    /**
     * `getRatingDistribution`: keys 1 to 5 start at 0 and count the reviews with
     * that rating; any other rating met becomes a `NaN` entry.
     */
    method RatingDistribution() returns (d: map<int, Tally>)
      ensures forall k :: 1 <= k <= 5 ==> k in d && d[k] == Count(RatingCount(reviews, k))
      ensures forall k :: k in d && !(1 <= k <= 5) ==> d[k] == NotANumber
      ensures forall k :: k in d && !(1 <= k <= 5) ==> exists i :: 0 <= i < |reviews| && reviews[i].rating == k
      ensures forall i :: 0 <= i < |reviews| ==> reviews[i].rating in d
    {
      d := map[5 := Count(0), 4 := Count(0), 3 := Count(0), 2 := Count(0), 1 := Count(0)];
      for i := 0 to |reviews|
        invariant forall k :: 1 <= k <= 5 ==> k in d && d[k] == Count(RatingCount(reviews[..i], k))
        invariant forall k :: k in d && !(1 <= k <= 5) ==> d[k] == NotANumber
        invariant forall k :: k in d && !(1 <= k <= 5) ==> exists j :: 0 <= j < i && reviews[j].rating == k
        invariant forall j :: 0 <= j < i ==> reviews[j].rating in d
      {
        var r := reviews[i].rating;
        assert reviews[..i + 1][..i] == reviews[..i];
        d := d[r := Increment(if r in d then Some(d[r]) else None)];
      }
      assert reviews[..|reviews|] == reviews;
    }
  }
}
