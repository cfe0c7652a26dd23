/**
 * The checks products/serializers.py applies to incoming product and review
 * data before anything is saved: per-field checks (DRF collects the errors of
 * every field), then the review serializer's cross-field `validate`, which only
 * runs when every field passed. Read-only fields never reach the validated data.
 */
module Serializers {
  import opened Wrappers
  import opened Models

  datatype HttpMethod = GET | POST | PUT | PATCH | DELETE

  /** The request in the serializer context: its HTTP method (verb) and the authenticated user. */
  datatype Request = Request(verb: HttpMethod, user: UserId)

  /** A product as a client sends it; `createdAt` is read-only. */
  datatype ProductPayload = ProductPayload(name: Option<string>, price: Option<int>, createdAt: Option<Timestamp>)

  /** The validated data of a product: only its writable fields. */
  datatype ProductAttrs = ProductAttrs(name: Option<string>, price: Option<int>)

  /** A review as a client sends it; `user` and `createdAt` are read-only. */
  datatype ReviewPayload = ReviewPayload(
    product: Option<ProductId>,
    rating: Option<int>,
    comment: Option<string>,
    user: Option<UserId>,
    createdAt: Option<Timestamp>)

  /** The validated data of a review: only its writable fields. */
  datatype ReviewAttrs = ReviewAttrs(product: Option<ProductId>, rating: Option<int>, comment: Option<string>)

  /** `ProductSerializer.validate_price` */
  function ValidatePrice(value: int): (r: Result<int, Error>)
    ensures r.Ok? <==> value > 0
    ensures r.Ok? ==> r.value == value
    ensures r.Err? ==> r.error == ValidationError({PriceField})
  {
    if value <= 0 then Err(ValidationError({PriceField})) else Ok(value)
  }

  /** `ReviewSerializer.validate_rating` */
  function ValidateRating(value: int): (r: Result<int, Error>)
    ensures r.Ok? <==> value in {1, 2, 3, 4, 5}
    ensures r.Ok? ==> r.value == value
    ensures r.Err? ==> r.error == ValidationError({RatingField})
  {
    if value < 1 || value > 5 then Err(ValidationError({RatingField})) else Ok(value)
  }

  /**
   * `ReviewSerializer.validate`: on a POST carrying a product, refuse a second
   * review by the requesting user; otherwise hand the data back untouched.
   */
  function Validate(reviews: seq<Review>, request: Option<Request>, attrs: ReviewAttrs): (r: Result<ReviewAttrs, Error>)
    ensures r.Err? <==>
      request.Some? && request.value.verb == POST && attrs.product.Some?
      && exists x :: x in reviews && x.product == attrs.product.value && x.user == request.value.user
    ensures r.Err? ==> r.error == ValidationError({NonField})
    ensures r.Ok? ==> r.value == attrs
    ensures request.None? || request.value.verb != POST ==> r == Ok(attrs)
    ensures attrs.product.None? ==> r == Ok(attrs)
  {
    if request.Some? && request.value.verb == POST
       && attrs.product.Some? && HasReview(reviews, attrs.product.value, request.value.user)
    then Err(ValidationError({NonField}))
    else Ok(attrs)
  }

  /** A field absent from the data is an error only when the update is not partial. */
  function Required(present: bool, partial: bool, f: Field): set<Field> {
    if present || partial then {} else {f}
  }

  /**
   * The model's `CharField`: not blank, at most `max_length` characters, and
   * no NUL character (the validator every `CharField` carries).
   */
  function NameErrors(name: Option<string>, partial: bool): set<Field> {
    match name
    case None => Required(false, partial, NameField)
    case Some(n) => if |n| == 0 || |n| > MaxNameLength || '\0' in n then {NameField} else {}
  }

  /** The decimal field's digit limit, then `validate_price`. */
  function PriceErrors(price: Option<int>, partial: bool): set<Field> {
    match price
    case None => Required(false, partial, PriceField)
    case Some(c) =>
      if c <= -PriceBound || PriceBound <= c then {PriceField}
      else if ValidatePrice(c).Err? then {PriceField}
      else {}
  }

  /**
   * `ProductSerializer.is_valid()`: the validated data of a product, or the
   * fields that failed. `partial` is a PATCH, where absent fields are allowed.
   */
  function ProductDeserialize(payload: ProductPayload, partial: bool): (r: Result<ProductAttrs, Error>)
    ensures r.Ok? <==>
      && (partial || (payload.name.Some? && payload.price.Some?))
      && (payload.name.Some? ==> 0 < |payload.name.value| <= MaxNameLength && '\0' !in payload.name.value)
      && (payload.price.Some? ==> 0 < payload.price.value < PriceBound)
    ensures r.Ok? ==> r.value == ProductAttrs(payload.name, payload.price)
    ensures r.Err? ==> r.error.ValidationError? && r.error.fields != {}
    ensures r.Err? ==> (PriceField in r.error.fields <==>
      if payload.price.Some? then payload.price.value <= 0 || PriceBound <= payload.price.value else !partial)
  {
    var errors := NameErrors(payload.name, partial) + PriceErrors(payload.price, partial);
    if errors != {} then Err(ValidationError(errors))
    else Ok(ProductAttrs(payload.name, payload.price))
  }

  /** The related-field lookup: the referenced product must exist. */
  function ProductFieldErrors(products: seq<Product>, product: Option<ProductId>, partial: bool): set<Field> {
    match product
    case None => Required(false, partial, ProductField)
    case Some(id) => if HasProduct(products, id) then {} else {ProductField}
  }

  function RatingErrors(rating: Option<int>, partial: bool): set<Field> {
    match rating
    case None => Required(false, partial, RatingField)
    case Some(v) => if ValidateRating(v).Err? then {RatingField} else {}
  }

  /** The model's optional `CharField`: at most `max_length` characters and no NUL character. */
  function CommentErrors(comment: Option<string>): set<Field> {
    match comment
    case None => {}
    case Some(c) => if |c| > MaxCommentLength || '\0' in c then {CommentField} else {}
  }

  /** The errors of every writable review field, collected together. */
  function ReviewFieldErrors(products: seq<Product>, payload: ReviewPayload, partial: bool): set<Field> {
    ProductFieldErrors(products, payload.product, partial)
    + RatingErrors(payload.rating, partial)
    + CommentErrors(payload.comment)
  }

  /**
   * `ReviewSerializer.is_valid()`: field checks first; `validate` runs only
   * when they all pass. Read-only `user` and `createdAt` are dropped.
   */
  function ReviewDeserialize(
    products: seq<Product>, reviews: seq<Review>, request: Option<Request>,
    payload: ReviewPayload, partial: bool): (r: Result<ReviewAttrs, Error>)
    ensures r.Ok? ==> r.value == ReviewAttrs(payload.product, payload.rating, payload.comment)
    ensures r.Ok? ==>
      && (partial || (payload.product.Some? && payload.rating.Some?))
      && (payload.product.Some? ==> HasProduct(products, payload.product.value))
      && (payload.rating.Some? ==> MinRating <= payload.rating.value <= MaxRating)
      && (payload.comment.Some? ==> |payload.comment.value| <= MaxCommentLength && '\0' !in payload.comment.value)
    ensures r.Err? ==> r.error.ValidationError? && r.error.fields != {}
    // outside a POST only the field checks can fail
    ensures request.None? || request.value.verb != POST ==>
      (r.Ok? <==>
        && (partial || (payload.product.Some? && payload.rating.Some?))
        && (payload.product.Some? ==> HasProduct(products, payload.product.value))
        && (payload.rating.Some? ==> MinRating <= payload.rating.value <= MaxRating)
        && (payload.comment.Some? ==> |payload.comment.value| <= MaxCommentLength && '\0' !in payload.comment.value))
    // with every field acceptable, a POST fails exactly on a duplicate (product, user) pair
    ensures
      && payload.product.Some? && HasProduct(products, payload.product.value)
      && payload.rating.Some? && 1 <= payload.rating.value <= 5
      && (payload.comment.Some? ==> |payload.comment.value| <= MaxCommentLength && '\0' !in payload.comment.value)
      && request.Some? && request.value.verb == POST
      ==> (r.Err? <==> HasReview(reviews, payload.product.value, request.value.user))
  {
    var errors := ReviewFieldErrors(products, payload, partial);
    if errors != {} then Err(ValidationError(errors))
    else Validate(reviews, request, ReviewAttrs(payload.product, payload.rating, payload.comment))
  }

  /**
   * `ModelSerializer.update`: copy the validated fields onto the stored product;
   * its key and creation time stay as they were.
   */
  function ApplyProduct(cur: Product, attrs: ProductAttrs): (p: Product)
    ensures p.id == cur.id && p.createdAt == cur.createdAt
    // a submitted field is written, an omitted one (PATCH) keeps its value
    ensures p.name == (if attrs.name.Some? then attrs.name.value else cur.name)
    ensures p.priceCents == (if attrs.price.Some? then attrs.price.value else cur.priceCents)
    ensures attrs == ProductAttrs(None, None) ==> p == cur
  {
    cur.(name := attrs.name.GetOr(cur.name), priceCents := attrs.price.GetOr(cur.priceCents))
  }

  /**
   * `ModelSerializer.update`: copy the validated fields onto the stored review;
   * its key, author and creation time stay as they were.
   */
  function ApplyReview(cur: Review, attrs: ReviewAttrs): (r: Review)
    ensures r.id == cur.id && r.user == cur.user && r.createdAt == cur.createdAt
    // a submitted field is written, an omitted one (PATCH) keeps its value
    ensures r.product == (if attrs.product.Some? then attrs.product.value else cur.product)
    ensures r.rating == (if attrs.rating.Some? then attrs.rating.value else cur.rating)
    ensures r.comment == (if attrs.comment.Some? then attrs.comment.value else cur.comment)
    ensures attrs == ReviewAttrs(None, None, None) ==> r == cur
  {
    cur.(product := attrs.product.GetOr(cur.product),
         rating := attrs.rating.GetOr(cur.rating),
         comment := attrs.comment.GetOr(cur.comment))
  }

  /** Whatever a client puts in the read-only fields of a review, the validated data is the same. */
  lemma {:induction false} ReviewReadOnlyIgnored(
    products: seq<Product>, reviews: seq<Review>, request: Option<Request>,
    payload: ReviewPayload, partial: bool, user: Option<UserId>, createdAt: Option<Timestamp>)
    ensures ReviewDeserialize(products, reviews, request, payload.(user := user, createdAt := createdAt), partial)
         == ReviewDeserialize(products, reviews, request, payload, partial)
  {
  }

  /** Whatever a client puts in the read-only `createdAt` of a product, the validated data is the same. */
  lemma {:induction false} ProductReadOnlyIgnored(payload: ProductPayload, partial: bool, createdAt: Option<Timestamp>)
    ensures ProductDeserialize(payload.(createdAt := createdAt), partial) == ProductDeserialize(payload, partial)
  {
  }
}
