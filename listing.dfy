/** What the two product-listing modules share, line for line: the `$options`
    array, the WHERE fragment built from its three optional ids, the display
    mode and the number of grid columns.  ModProductsByDate and
    ModProductsByRating carry identical copies of this code. */
module Listing {
  import opened Php

  /** The `$options` array. A key the caller leaves out reads as Null. */
  datatype Options = Options(
    universeId: Value,
    categoryId: Value,
    brandId: Value,
    mode: Value,
    nb: int,
    display: Value)

  const UniverseTest := "prd.universe_id = "
  const CategoryTest := "prd.category_id = "
  const BrandTest := "prd.brand_id = "

  /** `$whereUnv`, `$whereCat`, `$whereBrd`: the clause text of a truthy id,
      otherwise null. */
  function Condition(test: string, id: Value): (r: Value)
    requires test != ""
    ensures Truthy(r) <==> Truthy(id)
    ensures Truthy(id) ==> r == Str(test + Text(id))
    ensures !Truthy(id) ==> r == Null
  {
    if Truthy(id) then Str(test + Text(id)) else Null
  }

  /** One `$where .= $cond ? ($where !== '' ? ' AND ' : '') . $clause : ''`
      step: when `cond` is truthy, append `clause`, after " AND " unless
      nothing is there yet. */
  function Extend(w: string, cond: Value, clause: Value): (r: string)
    ensures !Truthy(cond) ==> r == w
    ensures Truthy(cond) && w == "" ==> r == Text(clause)
    ensures Truthy(cond) && w != "" ==> r == w + " AND " + Text(clause)
  {
    w + if Truthy(cond) then (if w != "" then " AND " else "") + Text(clause) else ""
  }

  /** `$where = $where !== '' ? 'WHERE ' . $where . ' ' : ''`. */
  function Wrap(w: string): (r: string)
    ensures r == "" <==> w == ""
    ensures w != "" ==> r == "WHERE " + w + " "
  {
    if w != "" then "WHERE " + w + " " else ""
  }

  /** `$where` after the brand step, as the source writes it: the brand step
      tests `$whereBrd` but appends `$whereCat`. */
  function Conjunction(o: Options): (r: string)
    ensures r == "" <==> !Truthy(o.universeId) && !Truthy(o.categoryId)
  {
    var whereUnv := Condition(UniverseTest, o.universeId);
    var whereCat := Condition(CategoryTest, o.categoryId);
    var whereBrd := Condition(BrandTest, o.brandId);
    var w0 := if Truthy(whereUnv) then Text(whereUnv) else "";
    Extend(Extend(w0, whereCat, whereCat), whereBrd, whereCat)
  }

  /** The WHERE fragment of the query, as written. Empty exactly when neither
      the universe nor the category id is truthy: a brand id on its own is
      dropped. Otherwise "WHERE " + a non-empty conjunction + one space. */
  function Where(o: Options): (r: string)
    ensures r == "" <==> !Truthy(o.universeId) && !Truthy(o.categoryId)
    ensures r != "" ==> r == "WHERE " + Conjunction(o) + " " && Conjunction(o) != ""
  {
    Wrap(Conjunction(o))
  }

  /** The brand step as evidently intended: it appends `$whereBrd`. */
  function IntendedConjunction(o: Options): (r: string)
    ensures r == "" <==> !Truthy(o.universeId) && !Truthy(o.categoryId) && !Truthy(o.brandId)
  {
    var whereUnv := Condition(UniverseTest, o.universeId);
    var whereCat := Condition(CategoryTest, o.categoryId);
    var whereBrd := Condition(BrandTest, o.brandId);
    var w0 := if Truthy(whereUnv) then Text(whereUnv) else "";
    Extend(Extend(w0, whereCat, whereCat), whereBrd, whereBrd)
  }

  /** The WHERE fragment with the brand step corrected. Empty exactly when no
      id is truthy. */
  function WhereIntended(o: Options): (r: string)
    ensures r == "" <==> !Truthy(o.universeId) && !Truthy(o.categoryId) && !Truthy(o.brandId)
  {
    Wrap(IntendedConjunction(o))
  }

  // ---------------------------------------------------------------------
  // A reference reading of a WHERE fragment: the list of equality clauses
  // it holds.

  datatype Column = UniverseCol | CategoryCol | BrandCol

  datatype Clause = Clause(column: Column, id: int)

  function ColumnTest(c: Column): string {
    match c
    case UniverseCol => UniverseTest
    case CategoryCol => CategoryTest
    case BrandCol => BrandTest
  }

  function ClauseText(cl: Clause): string {
    ColumnTest(cl.column) + IntToString(cl.id)
  }

  function JoinAnd(cls: seq<Clause>): (r: string)
    requires |cls| > 0
    ensures |r| > |ColumnTest(cls[0].column)|
  {
    if |cls| == 1 then ClauseText(cls[0])
    else ClauseText(cls[0]) + " AND " + JoinAnd(cls[1..])
  }

  /** The clauses joined by " AND ", or "" when there are none. */
  function Joined(cls: seq<Clause>): string {
    if cls == [] then "" else JoinAnd(cls)
  }

  /** The fragment that states exactly the clauses `cls`, in order. */
  function Render(cls: seq<Clause>): string {
    Wrap(Joined(cls))
  }

  /** Ids whose text is a numeral, or that are absent. */
  predicate NumericOrAbsent(v: Value) {
    v.Int? || !Truthy(v)
  }

  /** The clause a numeric or absent id stands for, if any. */
  function ClausesFor(c: Column, v: Value): (r: seq<Clause>)
    requires NumericOrAbsent(v)
    ensures |r| <= 1
    ensures r != [] <==> Truthy(v)
  {
    if Truthy(v) then [Clause(c, v.i)] else []
  }

  /** The clauses a filter is meant to impose: one per truthy id, universe
      first, then category, then brand. */
  function IntendedClauses(o: Options): seq<Clause>
    requires NumericOrAbsent(o.universeId) && NumericOrAbsent(o.categoryId) && NumericOrAbsent(o.brandId)
  {
    ClausesFor(UniverseCol, o.universeId) + ClausesFor(CategoryCol, o.categoryId) + ClausesFor(BrandCol, o.brandId)
  }

  /** Recognises "prd.<column>_id = " at the start of `s`. */
  function ParseColumn(s: string): (r: Option<(Column, string)>)
    ensures r.Some? ==> s == ColumnTest(r.value.0) + r.value.1
  {
    if UniverseTest <= s then Some((UniverseCol, s[|UniverseTest|..]))
    else if CategoryTest <= s then Some((CategoryCol, s[|CategoryTest|..]))
    else if BrandTest <= s then Some((BrandCol, s[|BrandTest|..]))
    else None
  }

  /** Index of the first space of `s`, or |s| when there is none. */
  function FirstSpace(s: string): (k: nat)
    ensures k <= |s|
    ensures k < |s| ==> s[k] == ' '
  {
    if s == [] || s[0] == ' ' then 0 else 1 + FirstSpace(s[1..])
  }

  /** Reads one "prd.<column>_id = <numeral> " off the front of `s` and
      returns the clause with what follows the space. */
  function ParseClause(s: string): (r: Option<(Clause, string)>)
    ensures r.Some? ==> |r.value.1| < |s|
  {
    match ParseColumn(s)
    case None => None
    case Some((col, rest)) =>
      var k := FirstSpace(rest);
      if k == |rest| then None
      else
        match ParseInt(rest[..k])
        case None => None
        case Some(n) => Some((Clause(col, n), rest[k + 1..]))
  }

  /** Reads "c1 AND c2 AND ... cn " (with the closing space). */
  function ParseClauses(s: string): Option<seq<Clause>>
    decreases |s|
  {
    match ParseClause(s)
    case None => None
    case Some((cl, after)) =>
      if after == "" then Some([cl])
      else if "AND " <= after then
        match ParseClauses(after[4..])
        case None => None
        case Some(more) => Some([cl] + more)
      else None
  }

  /** Reads a WHERE fragment back into its clauses; None when it is not one. */
  function ParseWhere(s: string): Option<seq<Clause>> {
    if s == "" then Some([])
    else if "WHERE " <= s then ParseClauses(s[6..])
    else None
  }

  /** The first space after a space-free prefix is the one that ends it. */
  lemma {:induction false} FirstSpaceAfter(t: string, x: string)
    requires ' ' !in t && |x| > 0 && x[0] == ' '
    ensures FirstSpace(t + x) == |t|
    decreases |t|
  {
    if t == [] {
      assert t + x == x;
    } else {
      assert (t + x)[1..] == t[1..] + x;
      FirstSpaceAfter(t[1..], x);
    }
  }

  lemma FirstSpaceAfterNumeral(t: string, x: string)
    requires IsNumeral(t) && |x| > 0 && x[0] == ' '
    ensures FirstSpace(t + x) == |t|
  {
    NumeralChars(t, ' ');
    FirstSpaceAfter(t, x);
  }

  lemma ParseColumnTest(c: Column, r: string)
    ensures ParseColumn(ColumnTest(c) + r) == Some((c, r))
  {
    var s := ColumnTest(c) + r;
    assert s[..|ColumnTest(c)|] == ColumnTest(c);
    assert s[|ColumnTest(c)|..] == r;
    match c
    case UniverseCol =>
    case CategoryCol =>
      assert s[4] == 'c';
    case BrandCol =>
      assert s[4] == 'b';
  }

  /** The clause for `col` and the id `n`, followed by `x`, which starts with
      a space, reads back as that clause with the rest of `x`. */
  lemma ParseClauseHead(col: Column, n: int, x: string)
    requires |x| > 0 && x[0] == ' '
    ensures ParseClause(ColumnTest(col) + IntToString(n) + x) == Some((Clause(col, n), x[1..]))
  {
    var t := IntToString(n);
    NumeralHead(t, x);
    assert ColumnTest(col) + t + x == ColumnTest(col) + (t + x);
    ParseColumnTest(col, t + x);
    IntToStringRoundTrip(n);
  }

  lemma NumeralHead(t: string, x: string)
    requires IsNumeral(t) && |x| > 0 && x[0] == ' '
    ensures FirstSpace(t + x) == |t|
    ensures (t + x)[..|t|] == t
    ensures (t + x)[|t| + 1..] == x[1..]
  {
    FirstSpaceAfterNumeral(t, x);
    assert (t + x)[..|t|] == t;
    assert (t + x)[|t| + 1..] == x[1..];
  }

  lemma ParseClausesCons(s: string, cl: Clause, more: string, tail: seq<Clause>)
    requires ParseClause(s) == Some((cl, "AND " + more))
    requires ParseClauses(more) == Some(tail)
    ensures ParseClauses(s) == Some([cl] + tail)
  {
    assert ("AND " + more)[4..] == more;
  }

  lemma ParseClauseBeforeAnd(cl: Clause, more: string, s: string)
    requires s == ColumnTest(cl.column) + IntToString(cl.id) + (" " + ("AND " + more))
    ensures ParseClause(s) == Some((cl, "AND " + more))
  {
    ParseClauseHead(cl.column, cl.id, " " + ("AND " + more));
    assert (" " + ("AND " + more))[1..] == "AND " + more;
  }

  lemma ParseSingle(cls: seq<Clause>)
    requires |cls| == 1
    ensures ParseClauses(JoinAnd(cls) + " ") == Some(cls)
  {
    var cl := cls[0];
    assert JoinAnd(cls) + " " == ColumnTest(cl.column) + IntToString(cl.id) + " ";
    ParseClauseHead(cl.column, cl.id, " ");
    assert cls == [cl];
  }

  lemma RegroupAnd(a: string, d: string)
    ensures a + " AND " + d + " " == a + (" " + ("AND " + (d + " ")))
  {
    assert " AND " == " " + "AND ";
  }

  lemma ParseJoinAndStep(cl: Clause, j: string, tail: seq<Clause>)
    requires ParseClauses(j + " ") == Some(tail)
    ensures ParseClauses(ClauseText(cl) + " AND " + j + " ") == Some([cl] + tail)
  {
    var s := ClauseText(cl) + " AND " + j + " ";
    RegroupAnd(ClauseText(cl), j);
    ParseClauseBeforeAnd(cl, j + " ", s);
    ParseClausesCons(s, cl, j + " ", tail);
  }

  lemma HeadTail(s: seq<Clause>)
    requires |s| > 0
    ensures [s[0]] + s[1..] == s
  {
  }

  lemma JoinAndCons(cls: seq<Clause>)
    requires |cls| > 1
    ensures JoinAnd(cls) + " " == ClauseText(cls[0]) + " AND " + JoinAnd(cls[1..]) + " "
  {
  }

  lemma {:induction false} ParseJoinAnd(cls: seq<Clause>)
    requires |cls| > 0
    ensures ParseClauses(JoinAnd(cls) + " ") == Some(cls)
    decreases |cls|
  {
    if |cls| == 1 {
      ParseSingle(cls);
    } else {
      ParseJoinAnd(cls[1..]);
      ParseJoinAndStep(cls[0], JoinAnd(cls[1..]), cls[1..]);
      JoinAndCons(cls);
      HeadTail(cls);
    }
  }

  lemma ParseWrap(w: string)
    requires w != ""
    ensures ParseWhere(Wrap(w)) == ParseClauses(w + " ")
  {
    var s := "WHERE " + w + " ";
    assert s[..6] == "WHERE ";
    assert s[6..] == w + " ";
  }

  /** The reference reading recovers the clauses of any rendered fragment. */
  lemma RenderRoundTrip(cls: seq<Clause>)
    ensures ParseWhere(Render(cls)) == Some(cls)
  {
    if cls != [] {
      ParseWrap(JoinAnd(cls));
      ParseJoinAnd(cls);
    }
  }

  lemma {:induction false} JoinAndSnoc(cls: seq<Clause>, cl: Clause)
    requires |cls| > 0
    ensures JoinAnd(cls + [cl]) == JoinAnd(cls) + " AND " + ClauseText(cl)
    decreases |cls|
  {
    if |cls| == 1 {
      assert (cls + [cl])[1..] == [cl];
    } else {
      assert (cls + [cl])[1..] == cls[1..] + [cl];
      JoinAndSnoc(cls[1..], cl);
    }
  }

  /** One `.=` step over a rendered conjunction appends the clause of the
      appended id, provided that id is numeric and, when something is there
      already, present. */
  lemma ExtendJoined(cls: seq<Clause>, cond: Value, col: Column, v: Value)
    requires NumericOrAbsent(v)
    requires Truthy(cond) && cls != [] ==> Truthy(v)
    ensures Extend(Joined(cls), cond, Condition(ColumnTest(col), v))
         == Joined(cls + if Truthy(cond) then ClausesFor(col, v) else [])
  {
    var add := if Truthy(cond) then ClausesFor(col, v) else [];
    if add == [] {
      assert cls + add == cls;
    } else if cls != [] {
      JoinAndSnoc(cls, Clause(col, v.i));
    } else {
      assert cls + add == add;
    }
  }

  lemma FirstStepJoined(o: Options)
    requires NumericOrAbsent(o.universeId)
    ensures (var whereUnv := Condition(UniverseTest, o.universeId);
             if Truthy(whereUnv) then Text(whereUnv) else "")
         == Joined(ClausesFor(UniverseCol, o.universeId))
  {
  }

  lemma IntendedIsRender(o: Options)
    requires NumericOrAbsent(o.universeId) && NumericOrAbsent(o.categoryId) && NumericOrAbsent(o.brandId)
    ensures WhereIntended(o) == Render(IntendedClauses(o))
  {
    var u := ClausesFor(UniverseCol, o.universeId);
    var c := ClausesFor(CategoryCol, o.categoryId);
    FirstStepJoined(o);
    ExtendJoined(u, Condition(CategoryTest, o.categoryId), CategoryCol, o.categoryId);
    ExtendJoined(u + c, Condition(BrandTest, o.brandId), BrandCol, o.brandId);
  }

  /** The corrected fragment holds exactly one equality clause per truthy id,
      in the order universe, category, brand, and nothing else. */
  lemma WhereIntendedRoundTrip(o: Options)
    requires NumericOrAbsent(o.universeId) && NumericOrAbsent(o.categoryId) && NumericOrAbsent(o.brandId)
    ensures ParseWhere(WhereIntended(o)) == Some(IntendedClauses(o))
  {
    IntendedIsRender(o);
    RenderRoundTrip(IntendedClauses(o));
  }

  /** The clauses the as-written fragment states, when it is well formed:
      the brand step repeats the category clause instead of adding a brand
      clause. */
  function WrittenClauses(o: Options): (r: seq<Clause>)
    requires NumericOrAbsent(o.universeId) && NumericOrAbsent(o.categoryId)
    ensures forall i :: 0 <= i < |r| ==> r[i].column != BrandCol
  {
    var c := ClausesFor(CategoryCol, o.categoryId);
    ClausesFor(UniverseCol, o.universeId) + c + (if Truthy(o.brandId) then c else [])
  }

  lemma WrittenIsRender(o: Options)
    requires NumericOrAbsent(o.universeId) && NumericOrAbsent(o.categoryId)
    requires !(Truthy(o.universeId) && !Truthy(o.categoryId) && Truthy(o.brandId))
    ensures Where(o) == Render(WrittenClauses(o))
  {
    var u := ClausesFor(UniverseCol, o.universeId);
    var c := ClausesFor(CategoryCol, o.categoryId);
    FirstStepJoined(o);
    ExtendJoined(u, Condition(CategoryTest, o.categoryId), CategoryCol, o.categoryId);
    ExtendJoined(u + c, Condition(BrandTest, o.brandId), CategoryCol, o.categoryId);
  }

  /** "WHERE <universe clause> AND  " is not a WHERE fragment. */
  lemma ParseClausesDangling(s: string, cl: Clause)
    requires ParseClause(s) == Some((cl, "AND  "))
    ensures ParseClauses(s) == None
  {
    assert "AND  "[4..] == " ";
    assert ParseColumn(" ") == None;
  }

  lemma DanglingAndUnreadable(n: int)
    ensures ParseWhere(Wrap(UniverseTest + IntToString(n) + " AND ")) == None
  {
    var w := UniverseTest + IntToString(n) + " AND ";
    var x := " AND  ";
    ParseWrap(w);
    assert w + " " == ColumnTest(UniverseCol) + IntToString(n) + x;
    ParseClauseHead(UniverseCol, n, x);
    assert x[1..] == "AND  ";
    ParseClausesDangling(w + " ", Clause(UniverseCol, n));
  }

  /** What the as-written fragment means, for numeric ids. With a universe
      and a brand but no category it ends in a dangling " AND " and is not a
      WHERE fragment at all; otherwise it states the universe clause, the
      category clause, and the category clause a second time for a brand.
      In no case does it constrain the brand. */
  lemma WhereAsWrittenReading(o: Options)
    requires NumericOrAbsent(o.universeId) && NumericOrAbsent(o.categoryId)
    ensures ParseWhere(Where(o)) ==
      if Truthy(o.universeId) && !Truthy(o.categoryId) && Truthy(o.brandId) then None
      else Some(WrittenClauses(o))
  {
    if Truthy(o.universeId) && !Truthy(o.categoryId) && Truthy(o.brandId) {
      ConjunctionCases(o);
      assert Where(o) == Wrap(Conjunction(o));
      DanglingAndUnreadable(o.universeId.i);
    } else {
      WrittenIsRender(o);
      RenderRoundTrip(WrittenClauses(o));
    }
  }

  /** `$where` before wrapping, for each combination of truthy ids. */
  lemma ConjunctionCases(o: Options)
    ensures var u, c, b := Truthy(o.universeId), Truthy(o.categoryId), Truthy(o.brandId);
      var tu, tc := UniverseTest + Text(o.universeId), CategoryTest + Text(o.categoryId);
      Conjunction(o) ==
        if !u && !c then ""
        else if u && !c then (if b then tu + " AND " else tu)
        else if !u then (if b then tc + " AND " + tc else tc)
        else if b then tu + " AND " + tc + " AND " + tc
        else tu + " AND " + tc
  {
  }

  /** The as-written fragment for each combination of truthy ids, whatever
      their values: a brand alone vanishes, universe and brand leave a
      dangling " AND ", and category and brand repeat the category test. */
  lemma WhereCases(o: Options)
    ensures var u, c, b := Truthy(o.universeId), Truthy(o.categoryId), Truthy(o.brandId);
      var tu, tc := UniverseTest + Text(o.universeId), CategoryTest + Text(o.categoryId);
      && (!u && !c ==> Where(o) == "")
      && (u && !c && !b ==> Where(o) == "WHERE " + tu + " ")
      && (u && !c && b ==> Where(o) == "WHERE " + (tu + " AND ") + " ")
      && (!u && c && !b ==> Where(o) == "WHERE " + tc + " ")
      && (!u && c && b ==> Where(o) == "WHERE " + (tc + " AND " + tc) + " ")
      && (u && c && !b ==> Where(o) == "WHERE " + (tu + " AND " + tc) + " ")
      && (u && c && b ==> Where(o) == "WHERE " + (tu + " AND " + tc + " AND " + tc) + " ")
  {
    ConjunctionCases(o);
  }

  /** The brand id's value never reaches the fragment: only its truthiness
      matters. */
  lemma WhereIgnoresBrandValue(o: Options, brand: Value)
    requires Truthy(brand) == Truthy(o.brandId)
    ensures Where(o.(brandId := brand)) == Where(o)
  {
  }

  /** `pat` occurs in `s` at position `i`. */
  predicate OccursAt(pat: string, s: string, i: nat) {
    i <= |s| && pat <= s[i..]
  }

  lemma NoOccurrenceWithoutLetter(pat: string, s: string, c: char)
    requires c in pat && c !in s
    ensures forall i: nat :: !OccursAt(pat, s, i)
  {
  }

  lemma ConditionLacks(test: string, v: Value, c: char)
    requires test != "" && NumericOrAbsent(v) && c !in test && c != '-' && !IsDigit(c)
    ensures c !in Text(Condition(test, v))
  {
    if Truthy(v) {
      NumeralChars(IntToString(v.i), c);
    }
  }

  lemma ExtendLacks(w: string, cond: Value, clause: Value, c: char)
    requires c !in w && c !in Text(clause) && c !in " AND "
    ensures c !in Extend(w, cond, clause)
  {
  }

  lemma ConjunctionLacks(o: Options, c: char)
    requires NumericOrAbsent(o.universeId) && NumericOrAbsent(o.categoryId)
    requires c !in UniverseTest && c !in CategoryTest && c !in " AND " && c != '-' && !IsDigit(c)
    ensures c !in Conjunction(o)
  {
    var wu := Condition(UniverseTest, o.universeId);
    var wc := Condition(CategoryTest, o.categoryId);
    ConditionLacks(UniverseTest, o.universeId, c);
    ConditionLacks(CategoryTest, o.categoryId, c);
    var w0 := if Truthy(wu) then Text(wu) else "";
    ExtendLacks(w0, wc, wc, c);
    ExtendLacks(Extend(w0, wc, wc), Condition(BrandTest, o.brandId), wc, c);
  }

  /** With numeric or absent universe and category ids the as-written
      fragment contains no letter 'b', so no "prd.brand_id = " test, whatever
      the brand id is. */
  lemma WhereNeverTestsBrand(o: Options)
    requires NumericOrAbsent(o.universeId) && NumericOrAbsent(o.categoryId)
    ensures 'b' !in Where(o)
    ensures forall i: nat :: !OccursAt(BrandTest, Where(o), i)
  {
    ConjunctionLacks(o, 'b');
    assert 'b' !in "WHERE " + Conjunction(o) + " ";
    assert 'b' == BrandTest[4];
    NoOccurrenceWithoutLetter(BrandTest, Where(o), 'b');
  }

  // ---------------------------------------------------------------------
  // The LIMIT clause that ends both queries.

  /** `"LIMIT 0, " . $options['nb']`: the offset is always 0 and the text
      after "LIMIT 0, " reads back as `nb`. */
  function LimitClause(nb: int): (r: string)
    ensures "LIMIT 0, " <= r
    ensures ParseInt(r[9..]) == Some(nb)
  {
    IntToStringRoundTrip(nb);
    var r := "LIMIT 0, " + IntToString(nb);
    assert r[9..] == IntToString(nb);
    r
  }

  /** The characters after the last space of `s` (all of `s` if it has none). */
  function LastWord(s: string): (r: string)
    ensures |r| <= |s| && r == s[|s| - |r|..]
    ensures ' ' !in r
    ensures |r| < |s| ==> s[|s| - |r| - 1] == ' '
    decreases |s|
  {
    if s == [] || s[|s| - 1] == ' ' then []
    else LastWord(s[..|s| - 1]) + [s[|s| - 1]]
  }

  lemma LastWordAfterSpace(p: string, t: string)
    requires ' ' !in t
    ensures LastWord(p + " " + t) == t
  {
    var s := p + " " + t;
    assert s[|s| - |t| - 1] == ' ';
    assert t == s[|s| - |t|..];
  }

  /** `t` is a suffix of `s`. */
  predicate EndsWith(s: string, t: string) {
    |t| <= |s| && s[|s| - |t|..] == t
  }

  /** Whatever precedes it, a LIMIT clause ends the text and its row count
      reads back as `nb`. */
  lemma LimitAfter(head: string, gap: string, nb: int)
    ensures head <= head + gap + LimitClause(nb)
    ensures EndsWith(head + gap + LimitClause(nb), LimitClause(nb))
    ensures ParseInt(LastWord(head + gap + LimitClause(nb))) == Some(nb)
  {
    LimitReadBack(head + gap, nb);
  }

  lemma LimitSplit(p: string, t: string)
    ensures p + ("LIMIT 0, " + t) == (p + "LIMIT 0,") + " " + t
  {
    assert "LIMIT 0, " == "LIMIT 0," + " ";
  }

  /** The row limit can be read back from the end of any query that closes
      with the LIMIT clause. */
  lemma LimitReadBack(p: string, nb: int)
    ensures ParseInt(LastWord(p + LimitClause(nb))) == Some(nb)
  {
    var t := IntToString(nb);
    assert LimitClause(nb) == "LIMIT 0, " + t;
    LimitSplit(p, t);
    NumeralChars(t, ' ');
    LastWordAfterSpace(p + "LIMIT 0,", t);
    IntToStringRoundTrip(nb);
  }

  // ---------------------------------------------------------------------
  // Display settings of genProductsBy*.

  /** `$display`: one of the three known layouts, 'H-Blocks' by default. */
  function DisplayMode(v: Value): (r: string)
    ensures r == "H-Blocks" || r == "V-Blocks" || r == "table"
    ensures r == "V-Blocks" <==> v == Str("V-Blocks")
    ensures r == "table" <==> v == Str("table")
  {
    if SwitchMatches(v, "H-Blocks") then "H-Blocks"
    else if SwitchMatches(v, "V-Blocks") then "V-Blocks"
    else if SwitchMatches(v, "table") then "table"
    else "H-Blocks"
  }

  /** Normalising a normalised display mode changes nothing. */
  lemma DisplayModeIdempotent(v: Value)
    ensures DisplayMode(Str(DisplayMode(v))) == DisplayMode(v)
  {
  }

  /** `$nbH = min($nb, 6)`: the column count of the grid on large screens. */
  function GridColumns(nb: int): (r: int)
    ensures r <= 6 && r <= nb
    ensures r == nb || r == 6
  {
    if nb < 6 then nb else 6
  }
}
