# Product listing modules of the mindfood catalogue, in Dafny

The mindfood site has two listing modules. `ModProductsByDate` shows the newest or most recently modified products. `ModProductsByRating` shows the best or worst rated ones. Both read an `$options` array and use it to build three SQL fragments:

- a WHERE fragment from the optional universe, category and brand ids;
- an ORDER BY fragment from the `mode`;
- a LIMIT clause from `nb`.

For display, both derive a few values: a normalised display mode, the number of grid columns, and, for each product row, image paths, a stock colour and a rating label. This project models those string and integer derivations and proves what they produce.

Modules:

- `Php` (php.dfy) covers the PHP semantics the code relies on. `Value` is null, an integer or a string. `Truthy` is conversion to boolean: null, 0, "" and "0" are false. `Text` is the string conversion done by `.` and `echo`. `IntToString` and `ParseInt` are decimal numerals, and there is a round-trip lemma between them.
- `Listing` (listing.dfy) holds what both modules share line for line. The two files contain identical copies of the WHERE builder: products_by_date.php:28-34 and products_by_rating.php:30-36. The display switch and `nbH` are also identical: lines 90-99 in the date file, 84-93 in the rating file. Each is defined once here.
  - The WHERE builder follows the source step by step: `Condition` gives `$whereUnv`, `$whereCat` and `$whereBrd`; `Extend` is one `.=` line; `Wrap` is line 34.
  - It keeps the source's brand step as written: that step appends `$whereCat`, not `$whereBrd`.
  - A reference reading, `ParseWhere`, turns a fragment back into its list of equality clauses. It states what a fragment means. It shows that the corrected builder yields exactly one clause per present id, and exactly what the as-written builder yields instead.
- `ProductsByDate` (products_by_date.dfy) has the sort column, the part of the query after the joins, the universe placeholder tags and the image paths.
- `ProductsByRating` (products_by_rating.dfy) has the ORDER BY fragment, the query after the joins, the stock colour, the image paths and the rating label.

The brand step is a defect (see "## Findings"). The `QueryTail` members keep it, because they model the text the code sends to the database. `Listing.WhereIntended` is the corrected fragment.

The three switches on `display` and `mode` use PHP's loose `==` against non-numeric string literals. In PHP 8 only the equal string matches such a literal (`Php.SwitchMatchesIsLoose`). In PHP 7 the integer 0 also matches the first case. In all three switches the first case gives the same result as the default, so the integer 0 behaves the same under both versions. `SwitchMatches` therefore matches the equal string only. The universe switch at products_by_date.php:111-116 compares against the integer literals 1 to 4 instead, so a row's "3" matches `case 3`; the model takes that universe id as an integer.

## Model

| member | source | states |
|---|---|---|
| `Php.Truthy` | mindfood/classes/module/products_by_date/products_by_date.php:28-34 | Conversion to boolean behind every `?:` and `if` of both modules: null, 0, "" and "0" are false, everything else is true. Its partner `Php.TruthyText` shows that a value and its `.` text are judged alike. |
| `Php.TruthyText` | mindfood/classes/module/products_by_rating/products_by_rating.php:125 | A value is truthy exactly when its string conversion is: the only integer whose text is "0" is 0, and no integer prints as "". |
| `Php.SwitchMatches` | mindfood/classes/module/products_by_date/products_by_date.php:36-40 | A `case 'lit'` of a switch on a mode or display matches only the string equal to the literal. Its partner `Php.SwitchMatchesIsLoose` ties it to PHP 8's loose `==`. |
| `Php.SwitchMatchesIsLoose` | mindfood/classes/module/products_by_rating/products_by_rating.php:38-42 | For a non-empty literal that is not numeric, PHP 8's loose `==` (`Php.LooseEquals`) holds exactly when the value is that very string; null and every integer fail it. |
| `Php.Text` | mindfood/classes/module/products_by_date/products_by_date.php:28-30 | The `.` conversion of an id: an integer becomes a decimal numeral, a string is inserted raw, null becomes "". A truthy value never converts to "". |
| `Php.IntToString` | mindfood/classes/module/products_by_date/products_by_date.php:28 | Printing an integer always gives a numeral: digits, optionally after one minus sign. |
| `Php.ParseInt` | mindfood/classes/module/products_by_date/products_by_date.php:28 | Partner of IntToString: reading succeeds exactly on numerals. |
| `Php.IntToStringRoundTrip` | mindfood/classes/module/products_by_date/products_by_date.php:28 | Reading back the printed form of any integer gives that integer. |
| `Php.IntToStringInjective` | mindfood/classes/module/products_by_date/products_by_date.php:28 | Distinct ids print as distinct numerals. |
| `Listing.Condition` | mindfood/classes/module/products_by_date/products_by_date.php:28-30 | `$whereUnv`/`$whereCat`/`$whereBrd` is truthy exactly when its id is truthy, and is then the column test followed by the id's text; for a falsy id it is null. |
| `Listing.Extend` | mindfood/classes/module/products_by_date/products_by_date.php:32-33 | One `.=` step: nothing is appended when the condition is falsy. Otherwise the clause is appended, after " AND " when `$where` is already non-empty. |
| `Listing.Wrap` | mindfood/classes/module/products_by_date/products_by_date.php:34 | The result is empty exactly when the conjunction is empty; otherwise it is "WHERE " + conjunction + one space. |
| `Listing.Where` | mindfood/classes/module/products_by_date/products_by_date.php:28-34 | The as-written fragment is "" exactly when neither the universe nor the category id is truthy, so a brand id alone yields "". Otherwise it is "WHERE " + a non-empty conjunction + " ". (Identical at products_by_rating.php:30-36.) |
| `Listing.Conjunction` | mindfood/classes/module/products_by_date/products_by_date.php:31-33 | `$where` after the three `.=` steps, as written, is "" exactly when neither the universe nor the category id is truthy. Its exact text per case is `Listing.ConjunctionCases`. |
| `Listing.ConjunctionCases` | mindfood/classes/module/products_by_date/products_by_date.php:31-33 | `$where` before wrapping, for each of the eight truthiness combinations. |
| `Listing.WhereCases` | mindfood/classes/module/products_by_rating/products_by_rating.php:30-36 | The exact fragment for every combination, for any id values. Universe only gives "WHERE prd.universe_id = u ". The universe clause comes before the category clause. Brand alone gives "". Universe and brand end in " AND " before the closing space. Category and brand repeat the category clause. |
| `Listing.WhereIgnoresBrandValue` | mindfood/classes/module/products_by_date/products_by_date.php:30-33 | Changing the brand id without changing its truthiness leaves the fragment unchanged. |
| `Listing.WhereNeverTestsBrand` | mindfood/classes/module/products_by_rating/products_by_rating.php:32-35 | With numeric or absent universe and category ids, the fragment contains no 'b' at all, so "prd.brand_id = " occurs at no position. |
| `Listing.WrittenClauses` | mindfood/classes/module/products_by_date/products_by_date.php:31-33 | The clause list the as-written builder states never contains a brand clause. |
| `Listing.RenderRoundTrip` | mindfood/classes/module/products_by_date/products_by_date.php:31-34 | For any list of equality clauses, reading "WHERE c1 AND … AND cn " back gives exactly that list, and reading "" gives the empty list. |
| `Listing.WhereAsWrittenReading` | mindfood/classes/module/products_by_date/products_by_date.php:31-34 | For numeric ids, the as-written fragment reads back as follows. With universe and brand but no category it is not a WHERE fragment (None). Otherwise it reads as the universe clause, then the category clause, then the category clause again when a brand is given. |
| `Listing.WhereIntended` | mindfood/classes/module/products_by_date/products_by_date.php:28-34 | The corrected fragment is "" exactly when no id is truthy. |
| `Listing.IntendedConjunction` | mindfood/classes/module/products_by_rating/products_by_rating.php:33-35 | `$where` with the brand step appending `$whereBrd`: "" exactly when no id is truthy. What it holds is stated by `Listing.WhereIntendedRoundTrip`. |
| `Listing.WhereIntendedRoundTrip` | mindfood/classes/module/products_by_date/products_by_date.php:28-34 | For numeric ids, the corrected fragment reads back as exactly one clause per truthy id, in the order universe, category, brand. |
| `Listing.LimitClause` | mindfood/classes/module/products_by_rating/products_by_rating.php:57 | The clause starts with "LIMIT 0, " (the offset is always 0) and the rest reads back as nb. (Identical at products_by_date.php:63.) |
| `Listing.LimitReadBack` | mindfood/classes/module/products_by_date/products_by_date.php:63 | Any text that ends with "LIMIT 0, " + nb gives back nb from its last word. |
| `Listing.DisplayMode` | mindfood/classes/module/products_by_date/products_by_date.php:90-95 | The display is always one of 'H-Blocks', 'V-Blocks' and 'table'. 'V-Blocks' and 'table' come out exactly when they go in; anything else, unknown or missing, gives 'H-Blocks'. (Identical at products_by_rating.php:84-89.) |
| `Listing.DisplayModeIdempotent` | mindfood/classes/module/products_by_rating/products_by_rating.php:84-89 | Normalising an already normalised display changes nothing. |
| `Listing.GridColumns` | mindfood/classes/module/products_by_date/products_by_date.php:98-99 | `$nbH` is at most 6 and at most nb, and it is nb or 6. (Identical at products_by_rating.php:92-93.) |
| `ProductsByDate.SortColumn` | mindfood/classes/module/products_by_date/products_by_date.php:36-40 | The sort column is 'modified_on' exactly when the mode is 'modified'. Otherwise it is 'created_on', including for unknown or missing modes. |
| `ProductsByDate.QueryTail` | mindfood/classes/module/products_by_date/products_by_date.php:60-63 | The query text after the joins: the as-written WHERE fragment, "ORDER BY prd." + the sort column + " DESC ", then the LIMIT clause. What it promises is stated by `ProductsByDate.QueryTailReading`. |
| `ProductsByDate.QueryTailReading` | mindfood/classes/module/products_by_date/products_by_date.php:60-63 | The query text after the joins starts with the WHERE fragment, followed by "ORDER BY prd." + column + " DESC " whatever the mode. It ends with the LIMIT clause, and its last word reads back as nb. |
| `ProductsByDate.UniverseTag` | mindfood/classes/module/products_by_date/products_by_date.php:111-116 | Universe ids 1 to 4 map to the tags BOOK, CD, DVD and GAME; each tag identifies its universe. |
| `ProductsByDate.ProductImage` | mindfood/classes/module/products_by_date/products_by_date.php:117 | The path is always under '../../../../images/products/'. It points at the product's image when that is truthy, otherwise at 'image_' + tag + '_empty.svg'. |
| `ProductsByDate.Placeholder` | mindfood/classes/module/products_by_date/products_by_date.php:117 | The placeholder file 'image_' + tag + '_empty.svg'. Its partner `ProductsByDate.PlaceholderInjective` shows distinct tags give distinct files. |
| `ProductsByDate.PlaceholderInjective` | mindfood/classes/module/products_by_date/products_by_date.php:117 | Two tags with the same placeholder file are the same tag. |
| `ProductsByDate.PlaceholderIdentifiesUniverse` | mindfood/classes/module/products_by_date/products_by_date.php:111-117 | Two image-less products with the same placeholder path belong to the same universe. |
| `ProductsByDate.CategoryImage` | mindfood/classes/module/products_by_date/products_by_date.php:118 | The category icon path is '' exactly when the category image is falsy; otherwise it is the categories directory followed by the image name. |
| `ProductsByRating.OrderBy` | mindfood/classes/module/products_by_rating/products_by_rating.php:38-42 | The mode 'worst' gives "ORDER BY prd.rating ASC, prd.rating_num ASC   ". Every other mode, including 'best', unknown and missing ones, gives "ORDER BY pop_score DESC ". |
| `ProductsByRating.QueryTail` | mindfood/classes/module/products_by_rating/products_by_rating.php:54-57 | The query text after the joins: the as-written WHERE fragment, the ORDER BY fragment, then the LIMIT clause. What it promises is stated by `ProductsByRating.QueryTailReading`. |
| `ProductsByRating.QueryTailReading` | mindfood/classes/module/products_by_rating/products_by_rating.php:54-57 | The query text after the joins is the WHERE fragment followed by the ORDER BY fragment, in that order. It ends with the LIMIT clause, and its last word reads back as nb. |
| `ProductsByRating.StockColor` | mindfood/classes/module/products_by_rating/products_by_rating.php:105 | The colour is 'text-danger fw-bold' exactly when stock < 5, and 'text-dark' exactly when stock >= 5. |
| `ProductsByRating.ProductImage` | mindfood/classes/module/products_by_rating/products_by_rating.php:106 | The path is always under the products directory. It is the image when that is truthy, otherwise 'image_BOOK_empty.svg'. |
| `ProductsByRating.ProductImageIsBookFallback` | mindfood/classes/module/products_by_rating/products_by_rating.php:106 | The path equals the date module's path for universe 1. For an image-less product of any other universe it differs from the date module's path. |
| `ProductsByRating.CategoryImage` | mindfood/classes/module/products_by_rating/products_by_rating.php:107 | The path always starts with '../../../../images/categories/'. It is exactly that directory when the image is falsy; otherwise the image name follows it. |
| `ProductsByRating.CategoryImageAgainstDate` | mindfood/classes/module/products_by_rating/products_by_rating.php:107 | For a truthy image both modules give the same path. For a falsy one the date module gives '' while this module gives a non-empty path. |
| `ProductsByRating.RatingLabel` | mindfood/classes/module/products_by_rating/products_by_rating.php:125-129 | The label is "Pas de note" exactly when the rating is falsy; otherwise it is "Note : " + rating + " (#" + rating_num + ")". |

## Left out

- Database access is not modelled: the connection, `prepare`, `execute` and `fetchAll` (products_by_date.php:51-68, products_by_rating.php:44-62). The database performs the actual filtering, sorting and limiting, so no property of result rows is stated.
- The fixed SELECT … INNER JOIN head of each prepared query is not modelled. The model starts at the text that follows the joins (`QueryTail`).
- The unused `$sql` string at products_by_date.php:42-49 is not modelled. It is never executed.
- HTML output is not modelled: markup, titles, `echo`, the cart links and the loops over `$products` that emit cards. Only the per-row values those loops compute are modelled.
- Date formatting (`new DateTime`, `format('F Y')`) is a library call and is not modelled.
- The `pop_score` product is computed in SQL over possibly fractional ratings and is not modelled.
- `Php.Value` has no float and no boolean case. Options and row fields holding floats or booleans are not modelled. Row fields are modelled as strings. Whether PDO returns native integers and floats instead depends on the driver and the PHP version (pdo_mysql does from PHP 8.1), and native fields are not modelled. This matters for a float rating 0.0: it is falsy, so the source prints "Pas de note", while the model's `Str("0.0")` is truthy.
- `Php.LooseEquals` takes only integer numerals as numeric strings. Leading whitespace, fractions and exponents are not modelled; the literals it is used with are not numeric in any of these forms.
- `nb`, `stock` and a row's `universe_id` are modelled as integers. The source compares database strings such as "3" numerically, with the same outcome. A missing or non-integer `nb` is not modelled: the source would pass it to `min` and into "LIMIT 0, ".
- PHP's 64-bit integer width is not modelled: integers are unbounded.
- `ProductsByDate.UniverseTag` requires a universe id from 1 to 4. The source's `switch` has no default, so for any other id `$unvImg` keeps the previous row's tag or is undefined. That leftover state is not modelled.
- `ProductsByDate.ProductImage` requires a universe id from 1 to 4 only for rows without an image, for the same reason. A row with an image never reads `$unvImg`, and any universe id is accepted for it.
- `Listing.WhereAsWrittenReading`, `Listing.WhereIntendedRoundTrip` and `Listing.WhereNeverTestsBrand` are stated only for ids that are integers or falsy. A string id is concatenated into the SQL raw and need not read back as a clause. `Listing.WhereCases` gives the exact text for every value.
- The doc comment at products_by_rating.php:77 names the modes 'created'/'modified'. The model follows the code, whose modes are 'best'/'worst'.

## Findings

| source | as written | input that shows it | evidently intended | confidence | as-written member | corrected member |
|---|---|---|---|---|---|---|
| mindfood/classes/module/products_by_date/products_by_date.php:33 | The brand step tests `$whereBrd` but appends `$whereCat` (the same line is at products_by_rating.php:35) | universe_id = 1, brand_id = 2, no category: the fragment is "WHERE prd.universe_id = 1 AND  ", which is not valid SQL and does not constrain the brand | The step appends `$whereBrd`, giving "WHERE prd.universe_id = 1 AND prd.brand_id = 2 " | high, not executed | `Listing.WhereAsWrittenReading` | `Listing.WhereIntendedRoundTrip` |
