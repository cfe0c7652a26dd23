# Product reviews API — a Dafny model

The repository is a Django REST Framework service with two resources:
products (a name, a price and a creation time) and reviews (a product, an
author, a rating and an optional comment). Each user may review a product at
most once, and reviews are deleted along with their product. The product
queryset is annotated with each product's average rating and review count.
A `min_rating` query parameter filters on that average, and the `rating`
route reads both figures. The serialized product list shows only `id`,
`name`, `price` and `created_at`: `Views.ListProducts` models the annotated
queryset, not the response body. Two extra product routes return one
product's rating figures and its reviews, newest first.

This project models that core:

- `models.dfy` (module `Models`) holds the two records and the store
  invariant the database keeps. That invariant covers:
  - valid fields;
  - every review pointing at an existing product;
  - one review per (product, user) pair;
  - keys and creation times increasing in insertion order.
  
  Lemmas show that each kind of write keeps the invariant.
- `serializers.dfy` (module `Serializers`) holds the serializers. Each field
  check reports against its own field. The cross-field `validate` runs only
  when every field passed. Read-only fields never reach the validated data.
- `views.dfy` (module `Views`) covers the views:
  - the grouped `Avg`/`Count` annotation, with 0.0 for a product without
    reviews;
  - the `min_rating` filter and the newest-first listing;
  - `get_object` through that filtered list;
  - the `rating` and `reviews` actions.
- `store.dfy` (module `Store`) holds a class `Catalogue`: the two tables,
  the clock and the key counters. It has one method per write route. A
  review is always created with the caller as its author. Some short
  scenarios work through a product's first reviews.
- `sequences.dfy` (module `Sequences`) holds the generic ordering and
  filtering helpers. `wrappers.dfy` (module `Wrappers`) holds `Option` and
  `Result`.

Creation times come from a counter that every insert increments, so the
stored order is oldest first. "Newest first" (`order_by("-created_at")`) is
the reverse of the stored order. `Sequences.DescendingUnique` shows that
this reversal is the only newest-first order of the same records.

## Model

| member | source | states |
|---|---|---|
| Serializers.ValidatePrice | products/serializers.py:18-22 | accepts exactly the positive prices and returns them unchanged; otherwise a price-field error |
| Serializers.ValidateRating | products/serializers.py:35-38 | accepts exactly the ratings 1 to 5 and returns them unchanged; otherwise a rating-field error |
| Serializers.Validate | products/serializers.py:40-51 | fails (a non-field error) exactly on a POST that names a product the requesting user has already reviewed; otherwise returns the data untouched, in particular on every other method and without a product |
| Serializers.ProductDeserialize | products/serializers.py:5-22 | valid exactly when the required fields are present (unless partial), the name has 1 to 120 characters and no NUL character, and the price is positive and within 10 digits; the validated data is the writable fields only; the price field is in the error set exactly when the price is out of range or missing |
| Serializers.ReviewDeserialize | products/serializers.py:25-51 | valid data names an existing product, a rating 1 to 5 and a comment of at most 500 characters without a NUL character; outside POST it is valid exactly when the required fields are present (unless partial) and each present field meets those conditions; on a POST with every field acceptable it fails exactly when the pair is taken |
| Serializers.ApplyProduct | products/serializers.py:13-16 | an update writes each submitted name and price and keeps each omitted one (partial update); the key and creation time stay; empty validated data changes nothing |
| Serializers.ApplyReview | products/serializers.py:28-33 | an update writes each submitted product, rating and comment and keeps each omitted one (partial update); the key, author and creation time stay; empty validated data changes nothing |
| Serializers.ReviewReadOnlyIgnored | products/serializers.py:28-33 | whatever the client sends as `user` or `created_at`, the outcome of review validation is the same |
| Serializers.ProductReadOnlyIgnored | products/serializers.py:16 | whatever the client sends as `created_at`, the outcome of product validation is the same |
| Models.NewProductKeepsInvariant | products/models.py:5-8 | inserting a valid product under the next key, stamped now, keeps the store invariant, and that key was free |
| Models.NewReviewKeepsInvariant | products/models.py:18-35 | inserting a valid review of an existing product, by an author without one for it, keeps the store invariant |
| Models.UpdateKeepsOnePerPair | products/models.py:34 | an in-place review edit that no other row's pair collides with keeps one review per (product, user) |
| Models.ReviewEditKeepsInvariant | products/models.py:18-35 | a review edit with valid fields, an existing product and no pair collision keeps the store invariant |
| Models.ProductEditKeepsInvariant | products/models.py:5-8 | editing a product's name and price in place keeps the store invariant |
| Models.FilterKeepsProductTable | products/models.py:5-8 | removing any products keeps the product table well formed: valid rows, issued keys, insertion order |
| Models.FilterKeepsReviewTable | products/models.py:18-35 | removing any reviews keeps the review table well formed, one review per (product, user) included |
| Models.CascadeKeepsInvariant | products/models.py:19-21 | removing a product together with its reviews keeps the store invariant; no review is left dangling |
| Models.CascadeKeepsReferences | products/models.py:19-21 | after the cascade every remaining review still names a remaining product |
| Models.CascadeRemovesExactly | products/models.py:19-21 | the cascade removes exactly the product with that key and exactly the reviews naming it; nothing else is removed |
| Views.ProductIndex | products/views.py:174 | the primary-key lookup of `get_object()`: finds the position of a product with the given key, or reports that none exists |
| Views.ReviewIndex | products/views.py:215 | the primary-key lookup of `get_object()` over the review queryset: finds the position of a review with the given key, or reports that none exists |
| Sequences.ReverseIsNewestFirst | products/models.py:35 | reversing an oldest-first list gives a newest-first list of the same elements |
| Sequences.DescendingUnique | products/models.py:35 | two newest-first lists of the same elements are equal, so the newest-first order is unique |
| Sequences.FilterKeepsDescending | products/views.py:141-146 | filtering a newest-first list leaves it newest first |
| Sequences.FilterKeepsAscending | products/views.py:198 | filtering an oldest-first list leaves it oldest first |
| Views.Count | products/views.py:139 | a product's review count is at most the table size, and is zero exactly when no review names the product |
| Views.Sum | products/views.py:137-138 | the rating sum is 0 for a product that no review names |
| Views.Avg | products/views.py:138 | the average is 0.0 for a product without reviews |
| Views.UnreviewedFigures | products/views.py:138 | a product without reviews has rating sum 0 and average 0.0 |
| Views.ReviewedAvgIsMean | products/views.py:138 | for a reviewed product the average times the count is the rating sum |
| Views.SumBounds | products/views.py:137-140 | with ratings 1 to 5, the rating sum lies between the count and five times the count |
| Views.AvgIsMean | products/views.py:138 | the average times the review count is the rating sum |
| Views.AvgInRange | products/views.py:138 | with ratings 1 to 5, a reviewed product's average lies in 1.0 to 5.0 |
| Views.NewReviewAggregates | products/views.py:137-140 | a new review adds one to its own product's count and its rating to that product's sum, and leaves other products' figures unchanged |
| Views.CascadeKeepsOtherAggregates | products/models.py:19-21 | deleting a product with its reviews leaves every other product's count, sum and average unchanged |
| Views.ReviewsOf | products/views.py:198 | a product's reviews are exactly the table's reviews naming it |
| Views.Mean | products/views.py:181-184 | the mean of no reviews is 0.0; otherwise the mean times the number of reviews is their rating sum |
| Views.Annotate | products/views.py:137-140 | one row per product, in the same order, whose count is the number of the product's own reviews and whose average is their mean |
| Views.AnnotationAgrees | products/views.py:180-186 | aggregating one product's own reviews gives the same count and average as the grouped annotation, the empty case included |
| Views.FilterMinRating | products/views.py:141-146 | without a usable threshold (absent, empty or not a number) the list is unchanged; with one, the result holds exactly the rows whose average reaches it |
| Views.ListProducts | products/views.py:135-147 | the annotated queryset (not the serialized body, which shows only the model's own fields): each listed row is a stored product with its own figures; a product appears exactly when it meets the threshold (every product when no threshold applies, so the list is then as long as the table) |
| Views.ListProductsNewestFirst | products/views.py:121-147 | over a table kept oldest first, the product list is newest first; a positive threshold lists only products that have reviews |
| Views.FindRow | products/views.py:174 | finds the row of a product in a listing, or reports that none is there |
| Views.GetObject | products/views.py:174 | a product route finds its object exactly when the product exists and meets the `min_rating` threshold; the object is that product with its own figures |
| Views.ListReviews | products/views.py:215-216 | the review list holds every review, newest first |
| Views.RatingOf | products/views.py:175-188 | whether the figures come from the annotations or from aggregating the product's own reviews, the answer is the product's key, average and review count; the average is 0.0 when the count is zero |
| Views.Rating | products/views.py:173-188 | 404 exactly when the product is missing or below the threshold; otherwise the product's key, average and review count |
| Views.ProductReviews | products/views.py:196-200 | 404 exactly as for `rating`; otherwise exactly the product's reviews, newest first |
| Views.ProductReviewsIsOrderBy | products/views.py:198 | every newest-first list of the product's reviews equals the returned one |
| Store.Catalogue.constructor | products/models.py:5-35 | a new catalogue is empty, with the clock at 0 and both counters at 1 |
| Store.Catalogue.CreateProduct | products/views.py:120-123 | fails exactly on invalid data and then changes nothing; otherwise appends the product under the next key, stamped now; the invariant is kept |
| Store.Catalogue.UpdateProduct | products/views.py:135-147 | 404 when the lookup fails, a validation error on invalid data (no change in either case); it succeeds exactly when the product is found and the data is valid, and then the product's fields are replaced in place; the invariant is kept |
| Store.Catalogue.DeleteProduct | products/models.py:19-21 | 404 exactly when the lookup fails; otherwise the product and exactly its reviews are removed, every other product and review stays; the invariant is kept |
| Store.Catalogue.CreateReview | products/views.py:220-221 | the outcome is the POST validation's; on success the review is appended with the caller as its author, whatever the payload says; a caller who already reviewed the product is refused |
| Store.Catalogue.UpdateReview | products/models.py:34 | 404 for an unknown key, a validation error on invalid data, an integrity error when the edit would give the author two reviews of one product; otherwise the review is replaced in place, and its author and key are kept |
| Store.Catalogue.DeleteReview | products/views.py:215-216 | 404 exactly for an unknown key; otherwise exactly that review is removed |
| Store.ValidatorBoundaries | products/serializers.py:18-38 | price 0 is refused with a price-field error and 199 accepted; ratings 0 and 6 are refused, 1 and 5 accepted |
| Store.PencilFirstReview | products/views.py:220-221 | a first review whose payload names another author is stored under the caller; the product then rates 5.0 over one review |
| Store.PencilDuplicateRefused | products/serializers.py:40-51 | the same user's second review of the product is refused with a non-field error and nothing is stored |
| Store.OneReviewFigures | products/views.py:137-140 | a single rating of 5 gives a count of 1 and an average of 5.0 |
| Store.TwoReviewsFigures | products/views.py:137-140 | ratings 5 and 3 give a count of 2 and an average of 4.0 |
| Store.TwoReviewsTotals | products/views.py:137-140 | ratings 5 and 3 give a count of 2 and a sum of 8 |
| Store.PencilSecondReviewer | products/views.py:173-188 | a second user's review with rating 3 moves the figures to 4.0 over two reviews |

## Left out

- Ownership checks are not modelled: editing or deleting a review only by its author. products/permissions.py is not part of this model.
- Authentication (`IsAuthenticatedOrReadOnly`) is left out: every caller is taken to be an authenticated user, identified by a number.
- The JSON and XML parsers and renderers are left out, and so is the OpenAPI schema decoration. They concern the wire format only.
- The `name`/`price` equality filters, the `ordering` query parameter and pagination are left out. They come from library backends whose code is not part of this model.
- `float(min_rating)` is a parameter: `MinRatingParam.Given` carries the raw text and what parsing makes of it.
- Averages are exact reals, not floating point.
- The race between two concurrent creates of the same pair is left out. The model's calls are sequential.
- `__str__` of both models is left out.
- The user table is not modelled, and neither is the cascade from deleting a user.
- Whitespace trimming of text fields is left out. A name is checked as given: 1 to 120 characters, no NUL character.
- Prices are whole cents in an `int`. The decimal parsing and the two-decimal-places check are left out, but the 10-digit limit is kept.
- The positive-small-integer range of `rating` is left out. The 1 to 5 check lies inside it.
- `created_at` comes from a counter that every insert increments, not from the wall clock.
- Store.Catalogue.UpdateReview: the database's refusal of a pair collision is `Err(IntegrityError)` in the model. In the service it surfaces as a server error (500), not as a validation error.
- Store.PencilDuplicateRefused: the scenarios start from stated states and are not chained into one run.
