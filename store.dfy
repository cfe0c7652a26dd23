/**
 * The catalogue's two tables and the operations of products/views.py that
 * change them: create, update and delete a product; create (with
 * `perform_create`), update and delete a review. Every operation validates
 * first and leaves the tables untouched when it fails; deleting a product
 * cascades to its reviews.
 */
module Store {
  import opened Wrappers
  import opened Sequences
  import opened Models
  import opened Serializers
  import Views

  class Catalogue {
    /** The product table, in insertion order. */
    var products: seq<Product>
    /** The review table, in insertion order. */
    var reviews: seq<Review>
    /** The next creation timestamp. */
    var clock: Timestamp
    /** The next primary keys. */
    var nextProduct: ProductId
    var nextReview: ReviewId

    ghost predicate Valid()
      reads this
    {
      StoreInvariant(products, reviews, clock, nextProduct, nextReview)
    }

    constructor ()
      ensures Valid()
      ensures products == [] && reviews == []
      ensures clock == 0 && nextProduct == 1 && nextReview == 1
    {
      products, reviews := [], [];
      clock, nextProduct, nextReview := 0, 1, 1;
    }

    /** `POST /products/`: validate, then insert under a fresh key, stamped now. */
    method CreateProduct(payload: ProductPayload) returns (r: Result<Product, Error>)
      requires Valid()
      modifies this
      ensures Valid()
      ensures r.Err? <==> ProductDeserialize(payload, false).Err?
      ensures r.Err? ==> r.error == ProductDeserialize(payload, false).error && unchanged(this)
      ensures r.Ok? ==>
        && r.value == Product(old(nextProduct), payload.name.value, payload.price.value, old(clock))
        && !HasProduct(old(products), r.value.id)
        && products == old(products) + [r.value]
        && reviews == old(reviews)
        && nextProduct == old(nextProduct) + 1 && clock == old(clock) + 1 && nextReview == old(nextReview)
    {
      var v := ProductDeserialize(payload, false);
      if v.Err? {
        return Err(v.error);
      }
      var p := Product(nextProduct, v.value.name.value, v.value.price.value, clock);
      NewProductKeepsInvariant(products, reviews, clock, nextProduct, nextReview, p);
      products := products + [p];
      nextProduct, clock := nextProduct + 1, clock + 1;
      r := Ok(p);
    }

    /**
     * `PUT`/`PATCH /products/{id}/` (`partial` for PATCH): look the product up
     * through the annotated, optionally filtered list (`Views.GetObject` finds
     * exactly the products `Views.Visible` admits), validate, copy the
     * validated fields onto it.
     */
    method UpdateProduct(pid: ProductId, q: Views.MinRatingParam, payload: ProductPayload, partial: bool)
      returns (r: Result<Product, Error>)
      requires Valid()
      modifies this
      ensures Valid()
      ensures clock == old(clock) && nextProduct == old(nextProduct) && nextReview == old(nextReview)
      ensures !Views.Visible(old(products), old(reviews), q, pid) ==> r == Err(NotFound) && unchanged(this)
      ensures Views.Visible(old(products), old(reviews), q, pid) && ProductDeserialize(payload, partial).Err? ==>
        r == Err(ProductDeserialize(payload, partial).error) && unchanged(this)
      ensures r.Ok? <==> Views.Visible(old(products), old(reviews), q, pid) && ProductDeserialize(payload, partial).Ok?
      ensures r.Ok? ==>
        && Views.ProductIndex(old(products), pid).Some?
        && var i := Views.ProductIndex(old(products), pid).value;
           && r.value == ApplyProduct(old(products)[i], ProductDeserialize(payload, partial).value)
           && products == old(products)[i := r.value]
           && reviews == old(reviews)
    {
      if !Views.Visible(products, reviews, q, pid) {
        return Err(NotFound);
      }
      var v := ProductDeserialize(payload, partial);
      if v.Err? {
        return Err(v.error);
      }
      var i := Views.ProductIndex(products, pid).value;
      var p := ApplyProduct(products[i], v.value);
      ProductEditKeepsInvariant(products, reviews, clock, nextProduct, nextReview, i, p);
      products := products[i := p];
      r := Ok(p);
    }

    /**
     * `DELETE /products/{id}/`: look the product up as for an update, then
     * remove it and, by the foreign key's cascade, every review of it.
     */
    method DeleteProduct(pid: ProductId, q: Views.MinRatingParam) returns (r: Result<Product, Error>)
      requires Valid()
      modifies this
      ensures Valid()
      ensures clock == old(clock) && nextProduct == old(nextProduct) && nextReview == old(nextReview)
      ensures r.Err? <==> !Views.Visible(old(products), old(reviews), q, pid)
      ensures r.Err? ==> r.error == NotFound && unchanged(this)
      ensures r.Ok? ==>
        && r.value in old(products) && r.value.id == pid
        && products == Filter(old(products), OtherProduct(pid))
        && reviews == Filter(old(reviews), OfOtherProduct(pid))
        && !HasProduct(products, pid)
        && (forall p :: p in products <==> p in old(products) && p.id != pid)
        && (forall x :: x in reviews <==> x in old(reviews) && x.product != pid)
    {
      if !Views.Visible(products, reviews, q, pid) {
        return Err(NotFound);
      }
      r := Ok(products[Views.ProductIndex(products, pid).value]);
      CascadeKeepsInvariant(products, reviews, clock, nextProduct, nextReview, pid);
      CascadeRemovesExactly(products, reviews, pid);
      products := Filter(products, OtherProduct(pid));
      reviews := Filter(reviews, OfOtherProduct(pid));
    }

    /**
     * `POST /reviews/`: validate (field checks, then the duplicate pre-check for
     * the caller), then `perform_create` saves the review with the caller as
     * its author, whatever the client sent as `user`.
     */
    method CreateReview(caller: UserId, payload: ReviewPayload) returns (r: Result<Review, Error>)
      requires Valid()
      modifies this
      ensures Valid()
      ensures var v := ReviewDeserialize(old(products), old(reviews), Some(Request(POST, caller)), payload, false);
        && (r.Err? <==> v.Err?)
        && (r.Err? ==> r.error == v.error && unchanged(this))
      ensures payload.product.Some? && HasReview(old(reviews), payload.product.value, caller) ==> r.Err?
      ensures r.Ok? ==>
        && r.value == Review(old(nextReview), payload.product.value, caller, payload.rating.value,
                             payload.comment.GetOr(""), old(clock))
        && reviews == old(reviews) + [r.value]
        && products == old(products)
        && nextReview == old(nextReview) + 1 && clock == old(clock) + 1 && nextProduct == old(nextProduct)
    {
      var v := ReviewDeserialize(products, reviews, Some(Request(POST, caller)), payload, false);
      if v.Err? {
        return Err(v.error);
      }
      var review := Review(nextReview, v.value.product.value, caller, v.value.rating.value,
                           v.value.comment.GetOr(""), clock);
      NewReviewKeepsInvariant(products, reviews, clock, nextProduct, nextReview, review);
      reviews := reviews + [review];
      nextReview, clock := nextReview + 1, clock + 1;
      r := Ok(review);
    }

    /**
     * `PUT`/`PATCH /reviews/{id}/`: validate (the duplicate pre-check does not
     * run), copy the validated fields onto the review, and let the pair
     * constraint refuse a product change that would give its author two
     * reviews of one product.
     */
    method UpdateReview(caller: UserId, id: ReviewId, payload: ReviewPayload, partial: bool)
      returns (r: Result<Review, Error>)
      requires Valid()
      modifies this
      ensures Valid()
      ensures clock == old(clock) && nextProduct == old(nextProduct) && nextReview == old(nextReview)
      ensures Views.ReviewIndex(old(reviews), id).None? ==> r == Err(NotFound) && unchanged(this)
      ensures Views.ReviewIndex(old(reviews), id).Some? ==>
        var i := Views.ReviewIndex(old(reviews), id).value;
        var v := ReviewDeserialize(old(products), old(reviews), Some(Request(if partial then PATCH else PUT, caller)), payload, partial);
        && (v.Err? ==> r == Err(v.error) && unchanged(this))
        && (v.Ok? && Collides(old(reviews), ApplyReview(old(reviews)[i], v.value)) ==>
              r == Err(IntegrityError) && unchanged(this))
        && (v.Ok? && !Collides(old(reviews), ApplyReview(old(reviews)[i], v.value)) ==>
              && r == Ok(ApplyReview(old(reviews)[i], v.value))
              && reviews == old(reviews)[i := r.value]
              && products == old(products))
    {
      var found := Views.ReviewIndex(reviews, id);
      if found.None? {
        return Err(NotFound);
      }
      var i := found.value;
      var request := Request(if partial then PATCH else PUT, caller);
      var v := ReviewDeserialize(products, reviews, Some(request), payload, partial);
      if v.Err? {
        return Err(v.error);
      }
      var updated := ApplyReview(reviews[i], v.value);
      if Collides(reviews, updated) {
        return Err(IntegrityError);
      }
      assert reviews[i] in reviews;
      ReviewEditKeepsInvariant(products, reviews, clock, nextProduct, nextReview, i, updated);
      reviews := reviews[i := updated];
      r := Ok(updated);
    }

    /** `DELETE /reviews/{id}/` */
    method DeleteReview(id: ReviewId) returns (r: Result<Review, Error>)
      requires Valid()
      modifies this
      ensures Valid()
      ensures clock == old(clock) && nextProduct == old(nextProduct) && nextReview == old(nextReview)
      ensures r.Err? <==> Views.ReviewIndex(old(reviews), id).None?
      ensures r.Err? ==> r.error == NotFound && unchanged(this)
      ensures r.Ok? ==>
        && r.value in old(reviews) && r.value.id == id
        && reviews == Filter(old(reviews), OtherReview(id))
        && (forall x :: x in reviews <==> x in old(reviews) && x.id != id)
        && products == old(products)
    {
      var found := Views.ReviewIndex(reviews, id);
      if found.None? {
        return Err(NotFound);
      }
      r := Ok(reviews[found.value]);
      FilterKeepsReviewTable(reviews, clock, nextReview, OtherReview(id));
      reviews := Filter(reviews, OtherReview(id));
    }
  }

  /** The boundary values the validators refuse and accept (price 0, ratings 0 and 6). */
  lemma ValidatorBoundaries()
    ensures ProductDeserialize(ProductPayload(Some("Pencil"), Some(0), None), false) == Err(ValidationError({PriceField}))
    ensures ProductDeserialize(ProductPayload(Some("Pencil"), Some(199), None), false).Ok?
    ensures ValidateRating(0).Err? && ValidateRating(6).Err? && ValidateRating(1).Ok? && ValidateRating(5).Ok?
  {
    assert NameErrors(Some("Pencil"), false) + PriceErrors(Some(0), false) == {PriceField};
  }

  /**
   * A product, then a review of it by one user who names another as author,
   * in vain; the rating figures are then 5.0 over one review.
   */
  method PencilFirstReview() returns (first: Result<Review, Error>, rating: Result<Views.RatingData, Error>)
    ensures first == Ok(Review(1, 1, 7, 5, "", 1))
    ensures rating == Ok(Views.RatingData(1, 5.0, 1))
  {
    var c := new Catalogue();
    var pencil := c.CreateProduct(ProductPayload(Some("Pencil"), Some(199), Some(42)));
    assert pencil == Ok(Product(1, "Pencil", 199, 0));
    assert HasProduct(c.products, 1) by { assert c.products[0].id == 1; }
    assert c.reviews == [];

    var alice, bob := 7, 8;
    var five := ReviewPayload(Some(1), Some(5), None, Some(bob), None);
    assert ReviewFieldErrors(c.products, five, false) == {};
    first := c.CreateReview(alice, five);
    assert first == Ok(Review(1, 1, alice, 5, "", 1));
    assert c.reviews == [first.value];
    OneReviewFigures(first.value);
    rating := Views.Rating(c.products, c.reviews, Views.Absent, 1);
  }

  lemma OneReviewFigures(a: Review)
    requires a.product == 1 && a.rating == 5
    ensures Views.Count([a], 1) == 1 && Views.Avg([a], 1) == 5.0
  {
    var one := [a];
    assert one[..0] == [];
    assert Views.Sum(one, 1) == 5;
  }

  /** Continued from the state the previous scenario leaves: the same user's second review is refused. */
  method PencilDuplicateRefused(c: Catalogue) returns (again: Result<Review, Error>)
    requires c.Valid()
    requires c.products == [Product(1, "Pencil", 199, 0)]
    requires c.reviews == [Review(1, 1, 7, 5, "", 1)]
    modifies c
    ensures again == Err(ValidationError({NonField}))
    ensures c.reviews == old(c.reviews)
  {
    var alice := 7;
    var three := ReviewPayload(Some(1), Some(3), None, None, None);
    assert HasProduct(c.products, 1) by { assert c.products[0].id == 1; }
    assert ReviewFieldErrors(c.products, three, false) == {};
    assert HasReview(c.reviews, 1, alice) by { assert c.reviews[0].product == 1 && c.reviews[0].user == alice; }
    again := c.CreateReview(alice, three);
  }

  lemma TwoReviewsFigures(a: Review, b: Review)
    requires a.product == 1 && a.rating == 5 && b.product == 1 && b.rating == 3
    ensures Views.Count([a, b], 1) == 2 && Views.Avg([a, b], 1) == 4.0
  {
    TwoReviewsTotals(a, b);
    assert 8 as real / 2 as real == 4.0;
  }

  lemma TwoReviewsTotals(a: Review, b: Review)
    requires a.product == 1 && a.rating == 5 && b.product == 1 && b.rating == 3
    ensures Views.Count([a, b], 1) == 2 && Views.Sum([a, b], 1) == 8
  {
    var one, two := [a], [a, b];
    assert one[..0] == [] && two[..1] == one;
    assert Views.Count(one, 1) == 1 && Views.Sum(one, 1) == 5;
  }

  /**
   * Continued from the same state: a second user's review of the product
   * moves its average to 4.0 over two reviews.
   */
  method PencilSecondReviewer(c: Catalogue) returns (second: Result<Review, Error>, rating: Result<Views.RatingData, Error>)
    requires c.Valid()
    requires c.products == [Product(1, "Pencil", 199, 0)]
    requires c.reviews == [Review(1, 1, 7, 5, "", 1)]
    modifies c
    ensures second.Ok? && second.value.user == 8 && second.value.rating == 3
    ensures rating == Ok(Views.RatingData(1, 4.0, 2))
  {
    var bob := 8;
    var three := ReviewPayload(Some(1), Some(3), None, None, None);
    assert HasProduct(c.products, 1) by { assert c.products[0].id == 1; }
    assert ReviewFieldErrors(c.products, three, false) == {};
    assert !HasReview(c.reviews, 1, bob);
    second := c.CreateReview(bob, three);
    assert second.Ok? && second.value.rating == 3;
    assert c.reviews == [Review(1, 1, 7, 5, "", 1), second.value];
    TwoReviewsFigures(Review(1, 1, 7, 5, "", 1), second.value);
    rating := Views.Rating(c.products, c.reviews, Views.Absent, 1);
  }
}
