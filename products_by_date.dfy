/** ModProductsByDate: the newest (or most recently modified) products,
    filtered by universe, category and brand. */
module ProductsByDate {
  import opened Php
  import opened Listing

  /** `$mode`: the timestamp the listing is sorted on. 'created' and every
      unknown or missing mode give the creation date. */
  function SortColumn(mode: Value): (col: string)
    ensures col == "created_on" || col == "modified_on"
    ensures col == "modified_on" <==> mode == Str("modified")
  {
    if SwitchMatches(mode, "created") then "created_on"
    else if SwitchMatches(mode, "modified") then "modified_on"
    else "created_on"
  }

  const OrderPrefix := " \n      ORDER BY prd."

  /** The text the prepared query carries after its joins: the WHERE
      fragment, the ORDER BY clause, then the LIMIT clause. */
  function QueryTail(o: Options): string {
    Where(o) + OrderPrefix + SortColumn(o.mode) + " DESC " + "\n      " + LimitClause(o.nb)
  }

  /** The query starts with the filter, always sorts descending on the
      chosen timestamp, and its row limit reads back as `nb`. */
  lemma QueryTailReading(o: Options)
    ensures Where(o) + OrderPrefix + SortColumn(o.mode) + " DESC " <= QueryTail(o)
    ensures EndsWith(QueryTail(o), LimitClause(o.nb))
    ensures ParseInt(LastWord(QueryTail(o))) == Some(o.nb)
  {
    LimitAfter(Where(o) + OrderPrefix + SortColumn(o.mode) + " DESC ", "\n      ", o.nb);
  }

  // ---------------------------------------------------------------------
  // Per-row derivations of genProductsByDate.

  const ProductImageDir := "../../../../images/products/"
  const CategoryImageDir := "../../../../images/categories/"

  /** The universe a placeholder tag stands for. */
  function TagUniverse(tag: string): Option<int> {
    if tag == "BOOK" then Some(1)
    else if tag == "CD" then Some(2)
    else if tag == "DVD" then Some(3)
    else if tag == "GAME" then Some(4)
    else None
  }

  /** `$unvImg`: the placeholder tag of a universe (books, CDs, DVDs, games). */
  function UniverseTag(universeId: int): (tag: string)
    requires 1 <= universeId <= 4
    ensures TagUniverse(tag) == Some(universeId)
  {
    match universeId
    case 1 => "BOOK"
    case 2 => "CD"
    case 3 => "DVD"
    case 4 => "GAME"
  }

  /** The placeholder file shown for a product without an image. */
  function Placeholder(tag: string): string {
    "image_" + tag + "_empty.svg"
  }

  /** `$imgsrc`: the product image when it has one, otherwise the
      placeholder of its universe, always under the products directory. */
  function ProductImage(image: Value, universeId: int): (r: string)
    requires !Truthy(image) ==> 1 <= universeId <= 4
    ensures ProductImageDir <= r
    ensures Truthy(image) ==> r == ProductImageDir + Text(image)
    ensures !Truthy(image) ==> r == ProductImageDir + Placeholder(UniverseTag(universeId))
  {
    ProductImageDir + if Truthy(image) then Text(image) else Placeholder(UniverseTag(universeId))
  }

  /** Distinct tags give distinct placeholder files. */
  lemma PlaceholderInjective(t1: string, t2: string)
    requires Placeholder(t1) == Placeholder(t2)
    ensures t1 == t2
  {
    var p1, p2 := Placeholder(t1), Placeholder(t2);
    assert t1 == p1[6..|p1| - 10];
    assert t2 == p2[6..|p2| - 10];
  }

  /** Products without an image of different universes get different
      placeholders: the path determines the universe. */
  lemma PlaceholderIdentifiesUniverse(image1: Value, u1: int, image2: Value, u2: int)
    requires 1 <= u1 <= 4 && 1 <= u2 <= 4
    requires !Truthy(image1) && !Truthy(image2)
    requires ProductImage(image1, u1) == ProductImage(image2, u2)
    ensures u1 == u2
  {
    var p1, p2 := Placeholder(UniverseTag(u1)), Placeholder(UniverseTag(u2));
    assert p1 == ProductImage(image1, u1)[|ProductImageDir|..];
    assert p2 == ProductImage(image2, u2)[|ProductImageDir|..];
    PlaceholderInjective(UniverseTag(u1), UniverseTag(u2));
  }

  /** `$imgcatsrc`: the category icon path, or "" when the category has no
      image (the icon is then not shown). */
  function CategoryImage(image: Value): (r: string)
    ensures r == "" <==> !Truthy(image)
    ensures Truthy(image) ==> r == CategoryImageDir + Text(image)
  {
    if Truthy(image) then CategoryImageDir + Text(image) else ""
  }
}
