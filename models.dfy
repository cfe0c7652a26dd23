/**
 * The two stored entities of products/models.py and the integrity rules the
 * database enforces on them: field bounds, the (product, user) uniqueness
 * constraint, foreign keys, and creation timestamps that never move.
 *
 * Timestamps are a counter that every creation advances, so insertion order
 * and `created_at` order coincide.
 */
module Models {
  import opened Wrappers
  import opened Sequences

  type ProductId = nat
  type ReviewId = nat
  type UserId = nat
  type Timestamp = nat

  /** `name = CharField(max_length=120)` */
  const MaxNameLength := 120
  /** `comment = CharField(max_length=500, blank=True)` */
  const MaxCommentLength := 500
  /** `DecimalField(max_digits=10, decimal_places=2)`: at most 10 digits in cents. */
  const PriceBound := 10_000_000_000
  /** The rating range the review serializer admits. */
  const MinRating := 1
  const MaxRating := 5

  /** A product; `priceCents` is the price in hundredths of the currency unit. */
  datatype Product = Product(id: ProductId, name: string, priceCents: int, createdAt: Timestamp)

  datatype Review = Review(
    id: ReviewId,
    product: ProductId,
    user: UserId,
    rating: int,
    comment: string,
    createdAt: Timestamp)

  /** The field an error is reported against; `NonField` is the form-level slot. */
  datatype Field = NameField | PriceField | ProductField | RatingField | CommentField | NonField

  /** The ways a request can fail: a refused payload, a missing object, a refused write. */
  datatype Error =
    | ValidationError(fields: set<Field>)   // 400: field or form errors
    | NotFound                              // 404: no object with that key
    | IntegrityError                        // the database refused a write

  function ProductKey(p: Product): int { p.id }
  function ProductStamp(p: Product): int { p.createdAt }
  function ReviewKey(r: Review): int { r.id }
  function ReviewStamp(r: Review): int { r.createdAt }

  /** Field bounds of a stored product. */
  predicate ProductFieldsValid(p: Product) {
    0 < |p.name| <= MaxNameLength && 0 < p.priceCents < PriceBound
  }

  /** Field bounds of a stored review. */
  predicate ReviewFieldsValid(r: Review) {
    MinRating <= r.rating <= MaxRating && |r.comment| <= MaxCommentLength
  }

  predicate HasProduct(products: seq<Product>, id: ProductId) {
    exists p :: p in products && p.id == id
  }

  /** The existence query `Review.objects.filter(product=..., user=...).exists()`. */
  predicate HasReview(reviews: seq<Review>, product: ProductId, user: UserId) {
    exists x :: x in reviews && x.product == product && x.user == user
  }

  /** `unique_together = ("product", "user")`: a pair identifies at most one review. */
  predicate OnePerPair(reviews: seq<Review>) {
    forall x, y :: x in reviews && y in reviews && x.product == y.product && x.user == y.user ==> x == y
  }

  /** Saving `r` over the row with its primary key would break the pair constraint. */
  predicate Collides(reviews: seq<Review>, r: Review) {
    exists x :: x in reviews && x.id != r.id && x.product == r.product && x.user == r.user
  }

  /**
   * Everything the database and the serializers together keep true of the
   * stored tables: field bounds, keys and timestamps handed out in insertion
   * order and below the next ones (`nextProduct`, `nextReview`, `clock`),
   * every review pointing at a stored product, one review per pair.
   */
  predicate StoreInvariant(
    products: seq<Product>, reviews: seq<Review>,
    clock: Timestamp, nextProduct: ProductId, nextReview: ReviewId)
  {
    && ProductTable(products, clock, nextProduct)
    && ReviewTable(reviews, clock, nextReview)
    && ReferencesExist(products, reviews)
  }

  /** Valid products under keys and timestamps already handed out, in insertion order. */
  predicate ProductTable(products: seq<Product>, clock: Timestamp, nextProduct: ProductId) {
    && (forall p :: p in products ==> ProductFieldsValid(p) && p.id < nextProduct && p.createdAt < clock)
    && Ascending(products, ProductKey)
    && Ascending(products, ProductStamp)
  }

  /** Valid reviews under keys and timestamps already handed out, in insertion order, one per pair. */
  predicate ReviewTable(reviews: seq<Review>, clock: Timestamp, nextReview: ReviewId) {
    && (forall r :: r in reviews ==> ReviewFieldsValid(r) && r.id < nextReview && r.createdAt < clock)
    && Ascending(reviews, ReviewKey)
    && Ascending(reviews, ReviewStamp)
    && OnePerPair(reviews)
  }

  /** Every review names a stored product. */
  predicate ReferencesExist(products: seq<Product>, reviews: seq<Review>) {
    forall r :: r in reviews ==> HasProduct(products, r.product)
  }

  /** Dropping products from the table keeps it well formed. */
  lemma {:induction false} FilterKeepsProductTable(
    products: seq<Product>, clock: Timestamp, nextProduct: ProductId, keep: Product -> bool)
    requires ProductTable(products, clock, nextProduct)
    ensures ProductTable(Filter(products, keep), clock, nextProduct)
  {
    var ps := Filter(products, keep);
    FilterKeepsAscending(products, keep, ProductKey);
    FilterKeepsAscending(products, keep, ProductStamp);
    forall p | p in ps ensures p in products {
      var k :| 0 <= k < |ps| && ps[k] == p;
    }
  }

  /** Dropping reviews from the table keeps it well formed. */
  lemma {:induction false} FilterKeepsReviewTable(
    reviews: seq<Review>, clock: Timestamp, nextReview: ReviewId, keep: Review -> bool)
    requires ReviewTable(reviews, clock, nextReview)
    ensures ReviewTable(Filter(reviews, keep), clock, nextReview)
  {
    var rs := Filter(reviews, keep);
    FilterKeepsAscending(reviews, keep, ReviewKey);
    FilterKeepsAscending(reviews, keep, ReviewStamp);
    forall x | x in rs ensures x in reviews {
      var k :| 0 <= k < |rs| && rs[k] == x;
    }
  }

  /**
   * Inserting a valid product under the next key, stamped with the current
   * clock, keeps the invariant once both counters move on; the key was free.
   */
  lemma {:induction false} NewProductKeepsInvariant(
    products: seq<Product>, reviews: seq<Review>, clock: Timestamp, nextProduct: ProductId, nextReview: ReviewId,
    p: Product)
    requires StoreInvariant(products, reviews, clock, nextProduct, nextReview)
    requires p.id == nextProduct && p.createdAt == clock && ProductFieldsValid(p)
    ensures !HasProduct(products, p.id)
    ensures StoreInvariant(products + [p], reviews, clock + 1, nextProduct + 1, nextReview)
  {
    var s := products + [p];
    forall x | x in reviews ensures HasProduct(s, x.product) {
      var w :| w in products && w.id == x.product;
      assert w in s;
    }
  }

  /**
   * Inserting a valid review of an existing product under the next key,
   * stamped with the current clock, keeps the invariant when its author has
   * no review of that product yet.
   */
  lemma {:induction false} NewReviewKeepsInvariant(
    products: seq<Product>, reviews: seq<Review>, clock: Timestamp, nextProduct: ProductId, nextReview: ReviewId,
    r: Review)
    requires StoreInvariant(products, reviews, clock, nextProduct, nextReview)
    requires r.id == nextReview && r.createdAt == clock && ReviewFieldsValid(r)
    requires HasProduct(products, r.product) && !HasReview(reviews, r.product, r.user)
    ensures StoreInvariant(products, reviews + [r], clock + 1, nextProduct, nextReview + 1)
  {
    forall k | 0 <= k < |reviews| ensures reviews[k].id < r.id && reviews[k].createdAt < r.createdAt {
      assert reviews[k] in reviews;
    }
    AppendAscending(reviews, r, ReviewKey);
    AppendAscending(reviews, r, ReviewStamp);
  }

  /**
   * An update that the pair constraint lets through keeps one review per pair:
   * the row keeps its key, and no other row holds its new pair.
   */
  lemma {:induction false} UpdateKeepsOnePerPair(reviews: seq<Review>, i: nat, r: Review)
    requires i < |reviews| && reviews[i].id == r.id
    requires Ascending(reviews, ReviewKey) && OnePerPair(reviews)
    requires !Collides(reviews, r)
    ensures OnePerPair(reviews[i := r])
  {
    var s := reviews[i := r];
    forall x, y | x in s && y in s && x.product == y.product && x.user == y.user ensures x == y {
      var a :| 0 <= a < |s| && s[a] == x;
      var b :| 0 <= b < |s| && s[b] == y;
    }
  }

  /**
   * Editing a review in place keeps the invariant when the row keeps its key
   * and creation time, its new fields are valid, its product exists and no
   * other row holds its new pair.
   */
  lemma {:induction false} ReviewEditKeepsInvariant(
    products: seq<Product>, reviews: seq<Review>, clock: Timestamp, nextProduct: ProductId, nextReview: ReviewId,
    i: nat, r: Review)
    requires StoreInvariant(products, reviews, clock, nextProduct, nextReview)
    requires i < |reviews| && r.id == reviews[i].id && r.createdAt == reviews[i].createdAt
    requires ReviewFieldsValid(r) && HasProduct(products, r.product)
    requires !Collides(reviews, r)
    ensures StoreInvariant(products, reviews[i := r], clock, nextProduct, nextReview)
  {
    UpdateKeepsOnePerPair(reviews, i, r);
    assert reviews[i] in reviews;
  }

  /** Filters that keep every product but one, every review but those of one product, every review but one. */
  function OtherProduct(pid: ProductId): Product -> bool {
    (p: Product) => p.id != pid
  }

  function OfOtherProduct(pid: ProductId): Review -> bool {
    (r: Review) => r.product != pid
  }

  function OtherReview(id: ReviewId): Review -> bool {
    (r: Review) => r.id != id
  }

  /** Editing a product's fields in place, keeping its key and timestamp, keeps the invariant. */
  lemma {:induction false} ProductEditKeepsInvariant(
    products: seq<Product>, reviews: seq<Review>, clock: Timestamp, nextProduct: ProductId, nextReview: ReviewId,
    i: nat, p: Product)
    requires StoreInvariant(products, reviews, clock, nextProduct, nextReview)
    requires i < |products| && p.id == products[i].id && p.createdAt == products[i].createdAt
    requires ProductFieldsValid(p)
    ensures StoreInvariant(products[i := p], reviews, clock, nextProduct, nextReview)
  {
    var s := products[i := p];
    forall x | x in reviews ensures HasProduct(s, x.product) {
      var w :| w in products && w.id == x.product;
      var k :| 0 <= k < |products| && products[k] == w;
      assert s[k].id == w.id;
    }
  }

  /**
   * `on_delete=CASCADE`: removing a product together with its reviews keeps
   * the invariant, in particular no review is left pointing at nothing.
   */
  lemma {:induction false} CascadeKeepsInvariant(
    products: seq<Product>, reviews: seq<Review>, clock: Timestamp, nextProduct: ProductId, nextReview: ReviewId,
    pid: ProductId)
    requires StoreInvariant(products, reviews, clock, nextProduct, nextReview)
    ensures StoreInvariant(Filter(products, OtherProduct(pid)), Filter(reviews, OfOtherProduct(pid)),
                           clock, nextProduct, nextReview)
  {
    FilterKeepsProductTable(products, clock, nextProduct, OtherProduct(pid));
    FilterKeepsReviewTable(reviews, clock, nextReview, OfOtherProduct(pid));
    CascadeKeepsReferences(products, reviews, pid);
  }

  /** After the cascade every remaining review still names a remaining product. */
  lemma {:induction false} CascadeKeepsReferences(products: seq<Product>, reviews: seq<Review>, pid: ProductId)
    requires ReferencesExist(products, reviews)
    ensures ReferencesExist(Filter(products, OtherProduct(pid)), Filter(reviews, OfOtherProduct(pid)))
  {
    var ps, rs := Filter(products, OtherProduct(pid)), Filter(reviews, OfOtherProduct(pid));
    forall x | x in rs ensures HasProduct(ps, x.product) {
      var w :| w in products && w.id == x.product;
      var k :| 0 <= k < |products| && products[k] == w;
      assert OfOtherProduct(pid)(x);
      assert OtherProduct(pid)(products[k]);
    }
  }

  /** The cascade removes exactly the product and exactly its reviews. */
  lemma CascadeRemovesExactly(products: seq<Product>, reviews: seq<Review>, pid: ProductId)
    ensures !HasProduct(Filter(products, OtherProduct(pid)), pid)
    ensures forall p :: p in Filter(products, OtherProduct(pid)) <==> p in products && p.id != pid
    ensures forall x :: x in Filter(reviews, OfOtherProduct(pid)) <==> x in reviews && x.product != pid
  {
    var ps, rs := Filter(products, OtherProduct(pid)), Filter(reviews, OfOtherProduct(pid));
    forall p ensures p in ps <==> p in products && p.id != pid {
      if p in products && p.id != pid {
        var k :| 0 <= k < |products| && products[k] == p;
        assert OtherProduct(pid)(products[k]);
      }
      if p in ps {
        var k :| 0 <= k < |ps| && ps[k] == p;
      }
    }
    forall x ensures x in rs <==> x in reviews && x.product != pid {
      if x in reviews && x.product != pid {
        var k :| 0 <= k < |reviews| && reviews[k] == x;
        assert OfOtherProduct(pid)(reviews[k]);
      }
      if x in rs {
        var k :| 0 <= k < |rs| && rs[k] == x;
      }
    }
  }
}
