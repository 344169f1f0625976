/** ModProductsByRating: the best (or worst) rated products, filtered by
    universe, category and brand. */
module ProductsByRating {
  import opened Php
  import opened Listing
  import ProductsByDate

  const PopularityOrder := "ORDER BY pop_score DESC "
  const WorstOrder := "ORDER BY prd.rating ASC, prd.rating_num ASC   "

  /** `$orderby`: 'worst' sorts by rating, then by number of ratings, both
      ascending; 'best' and every unknown or missing mode sort by the
      popularity score, descending. */
  function OrderBy(mode: Value): (r: string)
    ensures r == WorstOrder <==> mode == Str("worst")
    ensures r == PopularityOrder <==> mode != Str("worst")
  {
    if SwitchMatches(mode, "best") then PopularityOrder
    else if SwitchMatches(mode, "worst") then WorstOrder
    else PopularityOrder
  }

  /** The text the prepared query carries after its joins: the WHERE
      fragment, the ORDER BY fragment, then the LIMIT clause. */
  function QueryTail(o: Options): string {
    Where(o) + OrderBy(o.mode) + " \n      " + LimitClause(o.nb)
  }

  /** The query is the filter, then the ordering, in that order, and its row
      limit reads back as `nb`. */
  lemma QueryTailReading(o: Options)
    ensures Where(o) + OrderBy(o.mode) <= QueryTail(o)
    ensures EndsWith(QueryTail(o), LimitClause(o.nb))
    ensures ParseInt(LastWord(QueryTail(o))) == Some(o.nb)
  {
    LimitAfter(Where(o) + OrderBy(o.mode), " \n      ", o.nb);
  }

  // ---------------------------------------------------------------------
  // Per-row derivations of genProductsByRating.

  /** `$stockColor`: red and bold when fewer than 5 items are left. */
  function StockColor(stock: int): (r: string)
    ensures r == "text-danger fw-bold" <==> stock < 5
    ensures r == "text-dark" <==> stock >= 5
  {
    if stock < 5 then "text-danger fw-bold" else "text-dark"
  }

  /** `$imgsrc`: the product image, or the book placeholder whatever the
      universe. */
  function ProductImage(image: Value): (r: string)
    ensures ProductsByDate.ProductImageDir <= r
    ensures Truthy(image) ==> r == ProductsByDate.ProductImageDir + Text(image)
    ensures !Truthy(image) ==> r == ProductsByDate.ProductImageDir + "image_BOOK_empty.svg"
  {
    ProductsByDate.ProductImageDir + if Truthy(image) then Text(image) else "image_BOOK_empty.svg"
  }

  /** The rating module's image path is the date module's for universe 1,
      and differs from it for a product without an image in any other
      universe. */
  lemma ProductImageIsBookFallback(image: Value, universeId: int)
    requires !Truthy(image) ==> 1 <= universeId <= 4
    ensures ProductImage(image) == ProductsByDate.ProductImage(image, 1)
    ensures !Truthy(image) && universeId != 1 ==> ProductImage(image) != ProductsByDate.ProductImage(image, universeId)
  {
    assert ProductsByDate.Placeholder("BOOK") == "image_BOOK_empty.svg";
    assert ProductImage(image) == ProductsByDate.ProductImage(image, 1);
    if !Truthy(image) && universeId != 1 {
      if ProductImage(image) == ProductsByDate.ProductImage(image, universeId) {
        ProductsByDate.PlaceholderIdentifiesUniverse(image, 1, image, universeId);
      }
    }
  }

  /** `$imgcatsrc`: always under the categories directory, even when the
      category has no image (the path is then the bare directory). */
  function CategoryImage(image: Value): (r: string)
    ensures ProductsByDate.CategoryImageDir <= r
    ensures r == ProductsByDate.CategoryImageDir <==> !Truthy(image)
    ensures Truthy(image) ==> r == ProductsByDate.CategoryImageDir + Text(image)
  {
    ProductsByDate.CategoryImageDir + if Truthy(image) then Text(image) else ""
  }

  /** The two modules agree on a category with an image; without one the
      date module shows no icon and this one points at the directory. */
  lemma CategoryImageAgainstDate(image: Value)
    ensures Truthy(image) ==> CategoryImage(image) == ProductsByDate.CategoryImage(image)
    ensures !Truthy(image) ==> ProductsByDate.CategoryImage(image) == "" && CategoryImage(image) != ""
  {
  }

  /** The rating line of a card: the rating and the number of ratings when
      the rating is truthy, otherwise "Pas de note". */
  function RatingLabel(rating: Value, ratingNum: Value): (r: string)
    ensures r == "Pas de note" <==> !Truthy(rating)
    ensures Truthy(rating) ==> r == "Note : " + Text(rating) + " (#" + Text(ratingNum) + ")"
  {
    if Truthy(rating) then "Note : " + Text(rating) + " (#" + Text(ratingNum) + ")"
    else "Pas de note"
  }
}
