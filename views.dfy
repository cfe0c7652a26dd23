/**
 * The read side of products/views.py: the per-product aggregates that
 * `get_queryset` annotates, the optional `min_rating` filter, the lookup every
 * product detail route goes through, and the `rating` and `reviews` actions.
 *
 * A snapshot of the two tables is passed in as sequences in insertion order,
 * which is oldest first because timestamps come from a counter.
 */
module Views {
  import opened Wrappers
  import opened Sequences
  import opened Models
  import opened Serializers

  // ---------------------------------------------------------------------------
  // Aggregates grouped over the whole review table (the bulk annotation)

  /** `Count("reviews")` for product `pid`. */
  function Count(reviews: seq<Review>, pid: ProductId): (n: nat)
    ensures n <= |reviews|
    ensures n == 0 <==> forall i :: 0 <= i < |reviews| ==> reviews[i].product != pid
  {
    if reviews == [] then 0
    else Count(reviews[..|reviews| - 1], pid) + (if reviews[|reviews| - 1].product == pid then 1 else 0)
  }

  /** Sum of the ratings of product `pid`'s reviews. */
  function Sum(reviews: seq<Review>, pid: ProductId): (s: int)
    ensures (forall i :: 0 <= i < |reviews| ==> reviews[i].product != pid) ==> s == 0
  {
    if reviews == [] then 0
    else Sum(reviews[..|reviews| - 1], pid) + (if reviews[|reviews| - 1].product == pid then reviews[|reviews| - 1].rating else 0)
  }

  /** `Coalesce(Avg("reviews__rating"), 0.0)`: the mean rating, 0.0 without reviews. */
  function Avg(reviews: seq<Review>, pid: ProductId): (a: real)
    ensures Count(reviews, pid) == 0 ==> a == 0.0
  {
    var n := Count(reviews, pid);
    if n == 0 then 0.0 else Sum(reviews, pid) as real / n as real
  }

  lemma {:induction false} SumBounds(reviews: seq<Review>, pid: ProductId)
    requires forall i :: 0 <= i < |reviews| ==> MinRating <= reviews[i].rating <= MaxRating
    ensures MinRating * Count(reviews, pid) <= Sum(reviews, pid) <= MaxRating * Count(reviews, pid)
  {
    if reviews != [] {
      SumBounds(reviews[..|reviews| - 1], pid);
    }
  }

  /** The average times the number of reviews is the sum of their ratings. */
  lemma {:induction false} AvgIsMean(reviews: seq<Review>, pid: ProductId)
    ensures Avg(reviews, pid) * Count(reviews, pid) as real == Sum(reviews, pid) as real
  {
    if Count(reviews, pid) > 0 {
      ReviewedAvgIsMean(reviews, pid);
    } else {
      UnreviewedFigures(reviews, pid);
    }
  }

  lemma {:induction false} ReviewedAvgIsMean(reviews: seq<Review>, pid: ProductId)
    requires Count(reviews, pid) > 0
    ensures Avg(reviews, pid) * Count(reviews, pid) as real == Sum(reviews, pid) as real
  {
    QuotientTimesDivisor(Sum(reviews, pid) as real, Count(reviews, pid) as real, Avg(reviews, pid));
  }

  /** A product without reviews has rating sum 0 and average 0.0. */
  lemma {:induction false} UnreviewedFigures(reviews: seq<Review>, pid: ProductId)
    requires Count(reviews, pid) == 0
    ensures Sum(reviews, pid) == 0 && Avg(reviews, pid) == 0.0
  {
    assert forall i :: 0 <= i < |reviews| ==> reviews[i].product != pid;
  }

  lemma QuotientTimesDivisor(s: real, n: real, q: real)
    requires n > 0.0 && q == s / n
    ensures q * n == s
  {
  }

  lemma QuotientBounds(s: real, n: real, lo: real, hi: real)
    requires n > 0.0 && lo * n <= s <= hi * n
    ensures lo <= s / n <= hi
  {
  }

  /** With stored ratings in 1..5, a reviewed product's average lies in 1.0..5.0. */
  lemma {:induction false} AvgInRange(reviews: seq<Review>, pid: ProductId)
    requires forall i :: 0 <= i < |reviews| ==> MinRating <= reviews[i].rating <= MaxRating
    ensures Count(reviews, pid) > 0 ==> 1.0 <= Avg(reviews, pid) <= 5.0
  {
    var n := Count(reviews, pid);
    if n > 0 {
      SumBounds(reviews, pid);
      QuotientBounds(Sum(reviews, pid) as real, n as real, 1.0, 5.0);
    }
  }

  /** A new review adds its rating to its own product's figures and to no other's. */
  lemma {:induction false} NewReviewAggregates(reviews: seq<Review>, r: Review, pid: ProductId)
    ensures Count(reviews + [r], pid) == Count(reviews, pid) + (if r.product == pid then 1 else 0)
    ensures Sum(reviews + [r], pid) == Sum(reviews, pid) + (if r.product == pid then r.rating else 0)
  {
    assert (reviews + [r])[..|reviews|] == reviews;
  }

  /** Deleting product `pid` with its reviews leaves every other product's figures as they were. */
  lemma {:induction false} CascadeKeepsOtherAggregates(reviews: seq<Review>, pid: ProductId, other: ProductId)
    requires other != pid
    ensures Count(Filter(reviews, OfOtherProduct(pid)), other) == Count(reviews, other)
    ensures Sum(Filter(reviews, OfOtherProduct(pid)), other) == Sum(reviews, other)
    ensures Avg(Filter(reviews, OfOtherProduct(pid)), other) == Avg(reviews, other)
  {
    if reviews != [] {
      var init, last := reviews[..|reviews| - 1], reviews[|reviews| - 1];
      CascadeKeepsOtherAggregates(init, pid, other);
      var f := Filter(init, OfOtherProduct(pid));
      if last.product != pid {
        assert Filter(reviews, OfOtherProduct(pid)) == f + [last];
        NewReviewAggregates(f, last, other);
      } else {
        assert Filter(reviews, OfOtherProduct(pid)) == f;
      }
    }
  }

  // ---------------------------------------------------------------------------
  // One product's reviews and the aggregate computed from them alone

  /** Whether a review belongs to product `pid`. */
  function IsOf(pid: ProductId): Review -> bool {
    (x: Review) => x.product == pid
  }

  /** `product.reviews.all()`: the reviews of product `pid`, in table order. */
  function ReviewsOf(reviews: seq<Review>, pid: ProductId): (r: seq<Review>)
    ensures forall i :: 0 <= i < |r| ==> r[i] in reviews && r[i].product == pid
    ensures forall i :: 0 <= i < |reviews| && reviews[i].product == pid ==> reviews[i] in r
  {
    Filter(reviews, IsOf(pid))
  }

  function SumRatings(rs: seq<Review>): int {
    if rs == [] then 0 else SumRatings(rs[..|rs| - 1]) + rs[|rs| - 1].rating
  }

  /** `aggregate(avg_rating=Coalesce(Avg("rating"), 0.0))` over one product's reviews. */
  function Mean(rs: seq<Review>): (m: real)
    ensures |rs| == 0 ==> m == 0.0
    ensures |rs| > 0 ==> m * |rs| as real == SumRatings(rs) as real
  {
    if |rs| == 0 then 0.0
    else
      QuotientTimesDivisor(SumRatings(rs) as real, |rs| as real, SumRatings(rs) as real / |rs| as real);
      SumRatings(rs) as real / |rs| as real
  }

  /**
   * Aggregating one product's reviews gives the same figures as the grouped
   * annotation over the whole table, the empty case included.
   */
  lemma {:induction false} AnnotationAgrees(reviews: seq<Review>, pid: ProductId)
    ensures |ReviewsOf(reviews, pid)| == Count(reviews, pid)
    ensures SumRatings(ReviewsOf(reviews, pid)) == Sum(reviews, pid)
    ensures Mean(ReviewsOf(reviews, pid)) == Avg(reviews, pid)
  {
    TotalsAgree(reviews, pid);
  }

  lemma {:induction false} TotalsAgree(reviews: seq<Review>, pid: ProductId)
    ensures |ReviewsOf(reviews, pid)| == Count(reviews, pid)
    ensures SumRatings(ReviewsOf(reviews, pid)) == Sum(reviews, pid)
  {
    if reviews != [] {
      var init, last := reviews[..|reviews| - 1], reviews[|reviews| - 1];
      TotalsAgree(init, pid);
      var f := Filter(init, IsOf(pid));
      assert f == ReviewsOf(init, pid);
      if last.product == pid {
        assert ReviewsOf(reviews, pid) == f + [last];
        assert (f + [last])[..|f|] == f;
      } else {
        assert ReviewsOf(reviews, pid) == f;
      }
    }
  }

  // ---------------------------------------------------------------------------
  // get_queryset: annotate, order newest first, optionally filter

  /** A product with the two annotations `get_queryset` attaches. */
  datatype Row = Row(product: Product, avgRating: real, reviewsCount: nat)

  function RowStamp(x: Row): int { x.product.createdAt }

  function RowOf(reviews: seq<Review>, p: Product): Row {
    Row(p, Avg(reviews, p.id), Count(reviews, p.id))
  }

  /**
   * `annotate(avg_rating=..., reviews_count=...)`: one row per product, in the
   * same order, carrying the size and mean of that product's own reviews.
   */
  function Annotate(products: seq<Product>, reviews: seq<Review>): (rows: seq<Row>)
    ensures |rows| == |products|
    ensures forall i :: 0 <= i < |rows| ==>
      && rows[i].product == products[i]
      && rows[i].reviewsCount == |ReviewsOf(reviews, products[i].id)|
      && rows[i].avgRating == Mean(ReviewsOf(reviews, products[i].id))
  {
    var rows := seq(|products|, i requires 0 <= i < |products| => RowOf(reviews, products[i]));
    assert forall i :: 0 <= i < |rows| ==>
      rows[i].reviewsCount == |ReviewsOf(reviews, products[i].id)| && rows[i].avgRating == Mean(ReviewsOf(reviews, products[i].id))
    by {
      forall i | 0 <= i < |rows|
        ensures rows[i].reviewsCount == |ReviewsOf(reviews, products[i].id)|
        ensures rows[i].avgRating == Mean(ReviewsOf(reviews, products[i].id))
      {
        AnnotationAgrees(reviews, products[i].id);
      }
    }
    rows
  }

  /**
   * The `min_rating` query parameter: absent, or given as raw text together
   * with what `float()` makes of it (`None` where it raises `ValueError`).
   */
  datatype MinRatingParam = Absent | Given(raw: string, parsed: Option<real>)

  /** The threshold actually applied: none for an absent, empty or unparseable parameter. */
  function Threshold(q: MinRatingParam): Option<real> {
    if q.Given? && q.raw != "" && q.parsed.Some? then Some(q.parsed.value) else None
  }

  /** Whether a row's average reaches `m`. */
  function AtLeast(m: real): Row -> bool {
    (x: Row) => x.avgRating >= m
  }

  /** `qs.filter(avg_rating__gte=...)`, applied only when a threshold was given. */
  function FilterMinRating(rows: seq<Row>, q: MinRatingParam): (r: seq<Row>)
    ensures Threshold(q).None? ==> r == rows
    ensures Threshold(q).Some? ==>
      && (forall i :: 0 <= i < |r| ==> r[i] in rows && r[i].avgRating >= Threshold(q).value)
      && (forall i :: 0 <= i < |rows| && rows[i].avgRating >= Threshold(q).value ==> rows[i] in r)
  {
    match Threshold(q)
    case None => rows
    case Some(m) => Filter(rows, AtLeast(m))
  }

  /**
   * `ProductViewSet.get_queryset` over the default `-created_at` ordering: each
   * row is a stored product with its own figures, and a product is listed
   * exactly when it meets the threshold (every product when none applies).
   * This is the annotated queryset; the serialized list shows only each
   * product's own fields.
   */
  function ListProducts(products: seq<Product>, reviews: seq<Review>, q: MinRatingParam): (list: seq<Row>)
    ensures forall i :: 0 <= i < |list| ==> list[i].product in products && list[i] == RowOf(reviews, list[i].product)
    ensures forall p :: p in products ==>
      (RowOf(reviews, p) in list <==> Threshold(q).None? || Avg(reviews, p.id) >= Threshold(q).value)
    ensures Threshold(q).None? ==> |list| == |products|
  {
    var rows := Annotate(Reverse(products), reviews);
    assert forall p :: p in products ==> RowOf(reviews, p) in rows by {
      forall p | p in products ensures RowOf(reviews, p) in rows {
        var i :| 0 <= i < |products| && products[i] == p;
        assert rows[|products| - 1 - i] == RowOf(reviews, p);
      }
    }
    FilterMinRating(rows, q)
  }

  /**
   * Over a table kept oldest first, the product list is newest first; a
   * positive threshold lists only products that have reviews.
   */
  lemma {:induction false} ListProductsNewestFirst(products: seq<Product>, reviews: seq<Review>, q: MinRatingParam)
    requires Ascending(products, ProductStamp)
    ensures var list := ListProducts(products, reviews, q);
      && Descending(list, RowStamp)
      && (Threshold(q).Some? && Threshold(q).value > 0.0 ==>
            forall i :: 0 <= i < |list| ==> list[i].reviewsCount > 0)
  {
    var rows := Annotate(Reverse(products), reviews);
    AnnotatedNewestFirst(products, reviews);
    if Threshold(q).Some? {
      FilterKeepsDescending(rows, AtLeast(Threshold(q).value), RowStamp);
    }
  }

  /** Before filtering, the annotated rows are newest first. */
  lemma {:induction false} AnnotatedNewestFirst(products: seq<Product>, reviews: seq<Review>)
    requires Ascending(products, ProductStamp)
    ensures Descending(Annotate(Reverse(products), reviews), RowStamp)
  {
    var newest := Reverse(products);
    ReverseIsNewestFirst(products, ProductStamp);
    var rows := Annotate(newest, reviews);
    forall i, j | 0 <= i < j < |rows| ensures RowStamp(rows[i]) > RowStamp(rows[j]) {
      assert rows[i].product == newest[i] && rows[j].product == newest[j];
    }
  }

  /** Finds the row of product `pid` in a listing. */
  function FindRow(rows: seq<Row>, pid: ProductId): (r: Option<Row>)
    ensures r.Some? ==> r.value in rows && r.value.product.id == pid
    ensures r.None? ==> forall i :: 0 <= i < |rows| ==> rows[i].product.id != pid
  {
    if rows == [] then None
    else if rows[|rows| - 1].product.id == pid then Some(rows[|rows| - 1])
    else FindRow(rows[..|rows| - 1], pid)
  }

  /** The primary-key lookup of `get_object()` on a product route: the position of product `id`, if any. */
  function ProductIndex(products: seq<Product>, id: ProductId): (r: Option<nat>)
    ensures r.Some? ==> r.value < |products| && products[r.value].id == id
    ensures r.None? ==> !HasProduct(products, id)
  {
    if products == [] then None
    else if products[|products| - 1].id == id then Some(|products| - 1)
    else ProductIndex(products[..|products| - 1], id)
  }

  /** The primary-key lookup of `get_object()` on a review route: the position of review `id`, if any. */
  function ReviewIndex(reviews: seq<Review>, id: ReviewId): (r: Option<nat>)
    ensures r.Some? ==> r.value < |reviews| && reviews[r.value].id == id
    ensures r.None? ==> forall x :: x in reviews ==> x.id != id
  {
    if reviews == [] then None
    else if reviews[|reviews| - 1].id == id then Some(|reviews| - 1)
    else ReviewIndex(reviews[..|reviews| - 1], id)
  }

  /** Whether the lookup of a product route finds product `pid`. */
  predicate Visible(products: seq<Product>, reviews: seq<Review>, q: MinRatingParam, pid: ProductId) {
    HasProduct(products, pid) && (Threshold(q).None? || Avg(reviews, pid) >= Threshold(q).value)
  }

  /**
   * `get_object()` on a product route: the lookup runs over `get_queryset`,
   * so a `min_rating` in the query also hides products below it (404).
   */
  function GetObject(products: seq<Product>, reviews: seq<Review>, q: MinRatingParam, pid: ProductId): (r: Option<Row>)
    ensures r.Some? <==> Visible(products, reviews, q, pid)
    ensures r.Some? ==> r.value.product in products && r.value.product.id == pid && r.value == RowOf(reviews, r.value.product)
  {
    var list := ListProducts(products, reviews, q);
    var r := FindRow(list, pid);
    assert Visible(products, reviews, q, pid) ==> r.Some? by {
      if Visible(products, reviews, q, pid) {
        var p :| p in products && p.id == pid;
        assert RowOf(reviews, p) in list;
      }
    }
    r
  }

  /** `ReviewViewSet` list: every review, in the model's default `-created_at` order. */
  function ListReviews(reviews: seq<Review>): (r: seq<Review>)
    requires Ascending(reviews, ReviewStamp)
    ensures Descending(r, ReviewStamp)
    ensures multiset(r) == multiset(reviews)
  {
    ReverseIsNewestFirst(reviews, ReviewStamp);
    Reverse(reviews)
  }

  // ---------------------------------------------------------------------------
  // The detail actions

  /** The body of `GET /products/{id}/rating/`. */
  datatype RatingData = RatingData(productId: ProductId, avgRating: real, count: nat)

  /** The object an action works on: annotated by `get_queryset`, or a bare product. */
  datatype ProductObject = Plain(product: Product) | Annotated(row: Row) {
    function Target(): Product {
      if Plain? then product else row.product
    }
  }

  /**
   * The body of `ProductViewSet.rating` once it has its object: read the
   * annotations and, when they are missing, aggregate the product's own reviews.
   * Either way the answer is the product's mean rating and review count.
   */
  method RatingOf(obj: ProductObject, reviews: seq<Review>) returns (data: RatingData)
    requires obj.Annotated? ==> obj.row == RowOf(reviews, obj.row.product)
    ensures data.productId == obj.Target().id
    ensures data.count == |ReviewsOf(reviews, data.productId)|
    ensures data.count == 0 ==> data.avgRating == 0.0
    ensures data == RatingData(data.productId, Avg(reviews, data.productId), Count(reviews, data.productId))
  {
    var product := obj.Target();
    var avg: Option<real> := None;
    var count: Option<nat> := None;
    if obj.Annotated? {
      avg, count := Some(obj.row.avgRating), Some(obj.row.reviewsCount);
    }
    AnnotationAgrees(reviews, product.id);
    if avg.None? {
      var own := ReviewsOf(reviews, product.id);
      avg, count := Some(Mean(own)), Some(|own|);
    }
    data := RatingData(product.id, avg.value, count.value);
  }

  /** `GET /products/{id}/rating/`: 404 when the lookup fails, else the product's figures. */
  method Rating(products: seq<Product>, reviews: seq<Review>, q: MinRatingParam, pid: ProductId)
    returns (r: Result<RatingData, Error>)
    ensures r.Err? <==> !HasProduct(products, pid) || (Threshold(q).Some? && Avg(reviews, pid) < Threshold(q).value)
    ensures r.Err? ==> r.error == NotFound
    ensures r.Ok? ==> r.value == RatingData(pid, Avg(reviews, pid), Count(reviews, pid))
  {
    var obj := GetObject(products, reviews, q, pid);
    if obj.None? {
      return Err(NotFound);
    }
    var data := RatingOf(Annotated(obj.value), reviews);
    r := Ok(data);
  }

  /**
   * `GET /products/{id}/reviews/`: 404 when the lookup fails, else exactly the
   * product's reviews, newest first.
   */
  function ProductReviews(products: seq<Product>, reviews: seq<Review>, q: MinRatingParam, pid: ProductId)
    : (r: Result<seq<Review>, Error>)
    requires Ascending(reviews, ReviewStamp)
    ensures r.Err? <==> !HasProduct(products, pid) || (Threshold(q).Some? && Avg(reviews, pid) < Threshold(q).value)
    ensures r.Err? ==> r.error == NotFound
    ensures r.Ok? ==> forall x :: x in r.value <==> x in reviews && x.product == pid
    ensures r.Ok? ==> Descending(r.value, ReviewStamp)
  {
    match GetObject(products, reviews, q, pid)
    case None => Err(NotFound)
    case Some(_) =>
      OwnReviewsNewestFirst(reviews, pid);
      Ok(Reverse(ReviewsOf(reviews, pid)))
  }

  lemma {:induction false} OwnReviewsNewestFirst(reviews: seq<Review>, pid: ProductId)
    requires Ascending(reviews, ReviewStamp)
    ensures var r := Reverse(ReviewsOf(reviews, pid));
      && Descending(r, ReviewStamp)
      && multiset(r) == multiset(ReviewsOf(reviews, pid))
      && forall x :: x in r <==> x in reviews && x.product == pid
  {
    var own := ReviewsOf(reviews, pid);
    FilterKeepsAscending(reviews, IsOf(pid), ReviewStamp);
    ReverseIsNewestFirst(own, ReviewStamp);
    forall x ensures x in Reverse(own) <==> x in own {
      assert x in multiset(Reverse(own)) <==> x in multiset(own);
    }
  }

  /** No other newest-first listing of the product's reviews exists: this is `order_by("-created_at")`. */
  lemma {:induction false} ProductReviewsIsOrderBy(
    products: seq<Product>, reviews: seq<Review>, q: MinRatingParam, pid: ProductId, t: seq<Review>)
    requires Ascending(reviews, ReviewStamp)
    requires ProductReviews(products, reviews, q, pid).Ok?
    requires Descending(t, ReviewStamp) && multiset(t) == multiset(ReviewsOf(reviews, pid))
    ensures t == ProductReviews(products, reviews, q, pid).value
  {
    OwnReviewsNewestFirst(reviews, pid);
    DescendingUnique(t, Reverse(ReviewsOf(reviews, pid)), ReviewStamp);
  }
}
