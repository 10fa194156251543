/** The product list query builder (modules/products/productPatterns/findProducts.go). A builder
    accumulates the text of one statement, the values bound to its placeholders and the index of
    the last placeholder used; the engineer calls its steps in a fixed order. The main result is
    that on a fresh builder the list statement numbers its placeholders exactly $1..$n for its n
    values, and the count statement does the same for its filter values. */
module FindProducts {
  import opened Wrappers
  import opened Models
  import opened Text
  import opened Sql
  import opened Transactions
  import Configs

  // ---------------------------------------------------------------- statement fragments

  const OpenJson: Query := [Text("SELECT array_to_json(array_agg(\"t\")) FROM (")]

  const CloseJson: Query := [Text(") AS \"t\";")]

  /** The product columns, with the category and the images aggregated as JSON; one literal per
      line of the statement. */
  const SelectSql: string :=
    "SELECT" +
    " \"p\".\"id\"," +
    " \"p\".\"title\"," +
    " \"p\".\"description\"," +
    " \"p\".\"price\"," +
    " (" +
    " SELECT" +
    " to_jsonb(\"ct\")" +
    " FROM (" +
    " SELECT" +
    " \"c\".\"id\"," +
    " \"c\".\"title\"" +
    " FROM \"categories\" \"c\"" +
    " LEFT JOIN \"products_categories\" \"pc\" ON \"pc\".\"category_id\" = \"c\".\"id\"" +
    " WHERE \"pc\".\"product_id\" = \"p\".\"id\"" +
    " ) AS \"ct\"" +
    " ) AS \"category\"," +
    " \"p\".\"created_at\"," +
    " \"p\".\"updated_at\"," +
    " (" +
    " SELECT" +
    " COALESCE(array_to_json(array_agg(\"it\")), '[]'::json)" +
    " FROM (" +
    " SELECT" +
    " \"i\".\"id\"," +
    " \"i\".\"filename\"," +
    " \"i\".\"url\"" +
    " FROM \"images\" \"i\"" +
    " WHERE \"i\".\"product_id\" = \"p\".\"id\"" +
    " ) AS \"it\"" +
    " ) AS \"images\"" +
    " FROM \"products\" \"p\"" +
    " WHERE 1 = 1"

  const SelectProducts: Query := [Text(SelectSql)]

  const CountProducts: Query := [Text("SELECT COUNT(*) AS \"count\" FROM \"products\" \"p\" WHERE 1=1")]

  const IdPrefix: string := " AND \"p\".\"id\" = "
  const SearchPrefix: string := " AND (LOWER(\"p\".\"title\") LIKE "
  const SearchMiddle: string := " OR LOWER(\"p\".\"description\") LIKE "

  /** The id predicate before numbering. */
  const IdHole: Query := [Text(IdPrefix), Hole]

  /** The search predicate before numbering. */
  const SearchHole: Query := [Text(SearchPrefix), Hole, Text(SearchMiddle), Hole, Text(")")]

  function IdClause(n: nat): Query {
    [Text(IdPrefix), Param(n)]
  }

  function SearchClause(a: nat, b: nat): Query {
    [Text(SearchPrefix), Param(a), Text(SearchMiddle), Param(b), Text(")")]
  }

  function OrderText(k: nat, direction: string): Query {
    [Text(" ORDER BY "), Param(k), Text(" " + direction)]
  }

  function PageText(k: nat): Query {
    [Text(" OFFSET "), Param(k), Text(" LIMIT "), Param(k + 1)]
  }

  // ---------------------------------------------------------------- the filter, by cases

  /** The LIKE pattern bound (twice) for a search. */
  function SearchPattern(search: string): string {
    "%" + ToLower(search) + "%"
  }

  /** The values the filter binds: the id when it is set, then the search pattern twice when a
      search is set. */
  function WhereValues(f: ProductFilter): seq<Value> {
    (if f.id != "" then [VText(f.id)] else []) +
    (if f.search != "" then [VText(SearchPattern(f.search)), VText(SearchPattern(f.search))] else [])
  }

  /** The text the filter appends. With both filters the id predicate is appended twice, because
      each round of the numbering loop appends everything accumulated so far; numbering always
      starts at $1. */
  function WhereText(f: ProductFilter): Query {
    if f.id != "" && f.search != "" then IdClause(1) + IdClause(1) + SearchClause(2, 3)
    else if f.id != "" then IdClause(1)
    else if f.search != "" then SearchClause(1, 2)
    else []
  }

  // ---------------------------------------------------------------- sort keys

  const ColumnId: string := "\"p\".\"id\""
  const ColumnTitle: string := "\"p\".\"title\""
  const ColumnPrice: string := "\"p\".\"price\""

  /** `orderByMap[key]`: the allowed sort keys and their columns; "" for any other key. */
  const OrderByMap: map<string, string> := map["id" := ColumnId, "title" := ColumnTitle, "price" := ColumnPrice]

  function OrderByLookup(key: string): string {
    if key in OrderByMap then OrderByMap[key] else ""
  }

  /** The column `sort` writes back into `OrderBy`: the mapped column, or the title column for a
      key outside the allow-list. */
  function OrderColumn(key: string): string {
    if OrderByLookup(key) == "" then ColumnTitle else OrderByLookup(key)
  }

  /** Only allow-listed columns reach the statement; any other key sorts by title. */
  lemma OrderColumnAllowed(key: string)
    ensures OrderColumn(key) in {ColumnId, ColumnTitle, ColumnPrice}
    ensures key !in {"id", "title", "price"} ==> OrderColumn(key) == ColumnTitle
  {
  }

  /** `sortMap[s]`. */
  const SortMap: map<string, string> := map["DESC" := "DESC", "ASC" := "ASC"]

  function SortLookup(s: string): string {
    if s in SortMap then SortMap[s] else ""
  }

  /** The map knows exactly the two directions, each mapped to itself. */
  lemma SortLookupKnown(s: string)
    ensures SortLookup(s) != "" <==> s in {"DESC", "ASC"}
    ensures SortLookup(s) != "" ==> SortLookup(s) == s
    ensures |s| > 4 ==> SortLookup(s) == ""
  {
  }

  /** The direction `sort` writes back into `Sort`, as written: "ASC" for an unknown direction;
      for a known one the map is looked up with the upper-cased column instead of the direction. */
  function Direction(sort: string, column: string): string {
    if SortLookup(sort) == "" then "ASC" else SortLookup(ToUpper(column))
  }

  /** No upper-cased column is a direction, so a recognised direction always becomes "", and
      anything else becomes "ASC". */
  lemma DirectionOfColumn(sort: string, key: string)
    ensures Direction(sort, OrderColumn(key)) == if sort in {"DESC", "ASC"} then "" else "ASC"
  {
    var c := OrderColumn(key);
    OrderColumnAllowed(key);
    assert |c| >= 8 by {
      assert |ColumnId| == 8 && |ColumnTitle| == 11 && |ColumnPrice| == 11;
    }
    var u := ToUpper(c);
    assert |u| == |c|;
    SortLookupKnown(u);
    SortLookupKnown(sort);
  }

  /** A descending sort by price reaches the statement with no direction at all. */
  lemma DescIsDropped()
    ensures Direction("DESC", OrderColumn("price")) == ""
  {
    DirectionOfColumn("DESC", "price");
  }

  /** The direction as evidently intended: the requested direction itself looked up in the map,
      so a recognised direction is kept and anything else becomes "ASC". */
  function CorrectedDirection(sort: string): (d: string)
    ensures d in {"DESC", "ASC"}
    ensures sort in {"DESC", "ASC"} ==> d == sort
    ensures sort !in {"DESC", "ASC"} ==> d == "ASC"
  {
    SortLookupKnown(sort);
    if SortLookup(sort) == "" then "ASC" else SortLookup(sort)
  }

  /** A recognised direction is already upper case, so looking up its upper-cased form, as the
      corrected `sort` does, finds it. */
  lemma UpperDirection(sort: string)
    requires SortLookup(sort) != ""
    ensures SortLookup(ToUpper(sort)) == CorrectedDirection(sort)
  {
    ToUpperChars(sort);
    assert ToUpper(sort) == sort;
  }

  /** The request after `sort` has overwritten its OrderBy and Sort, as the source is written: the
      direction is looked up with the upper-cased column. */
  function Sorted(f: ProductFilter): ProductFilter {
    f.(orderBy := OrderColumn(f.orderBy), sort := Direction(f.sort, OrderColumn(f.orderBy)))
  }

  /** So the statement orders by an allow-listed column, with no direction at all for a
      recognised one ("ASC" included) and "ASC" for anything else. */
  lemma SortedDirection(f: ProductFilter)
    ensures Sorted(f).orderBy in {ColumnId, ColumnTitle, ColumnPrice}
    ensures Sorted(f).sort == if f.sort in {"DESC", "ASC"} then "" else "ASC"
  {
    OrderColumnAllowed(f.orderBy);
    DirectionOfColumn(f.sort, f.orderBy);
  }

  // ---------------------------------------------------------------- paging

  /** The offset `(page-1)*limit` as Go's 64-bit `int` computes it: wrapped into the int64 range. */
  function Offset(page: int, limit: int): (r: int)
    ensures Int64Min <= r <= Int64Max
    ensures Int64Min <= (page - 1) * limit <= Int64Max ==> r == (page - 1) * limit
  {
    Configs.Wrap64((page - 1) * limit)
  }

  /** A page far enough out wraps the offset around to a negative number. */
  lemma OffsetWraps()
    ensures Offset(0x2000_0000_0000_0001, 5) == 5 * 0x2000_0000_0000_0000 - 0x1_0000_0000_0000_0000
    ensures Offset(0x2000_0000_0000_0001, 5) < 0
  {
  }

  // ---------------------------------------------------------------- whole statements

  /** The index of the last placeholder after the filter step: unchanged when no filter is set,
      since the numbering loop then never runs. */
  function AfterWhere(f: ProductFilter, lastIndex: nat, held: nat): nat {
    if f.id == "" && f.search == "" then lastIndex else held + |WhereValues(f)|
  }

  /** The shape of a list statement: filter text `w`, sort placeholder `order`, offset and limit
      placeholders `page` and `page + 1`. */
  function ListText(w: Query, order: nat, direction: string, page: nat): Query {
    OpenJson + SelectProducts + w + OrderText(order, direction) + PageText(page) + CloseJson
  }

  // Proof helpers. The lemmas from here to `Regroup` only regroup concatenations and pass equal
  // terms along, so that each step of the proofs of FindSteps stays small; they state nothing
  // about the source.

  lemma ListTextShape(q0: Query, w: Query, order: nat, direction: string, page: nat)
    ensures q0 + ListText(w, order, direction, page) ==
      q0 + OpenJson + SelectProducts + w + OrderText(order, direction) + PageText(page) + CloseJson
  {
  }

  /** The builder's steps, appended one after another, add up to the list statement: `q3` is
      the text after the filter step, `q4` after the sort step, `fs` the sorted request. */
  lemma FindQueryShape(q0: Query, q3: Query, q4: Query, q: Query, f: ProductFilter, fs: ProductFilter,
                       l0: nat, held: nat, l3: nat, held3: nat, l4: nat)
    requires q3 == q0 + OpenJson + SelectProducts + WhereText(f)
    requires l3 == AfterWhere(f, l0, held) && held3 == held + |WhereValues(f)|
    requires fs == Sorted(f) && q4 == q3 + OrderText(l3 + 1, fs.sort) && l4 == held3 + 1
    requires q == q4 + PageText(l4 + 1) + CloseJson
    ensures q == q0 + FindText(f, l0, held)
  {
    TailShape(q3, q4, q, OrderText(l3 + 1, fs.sort), l4 + 1, held3 + 2);
    FindTextIsList(f, l0, held, l3, held3);
    ListShape(q0, q3, q, WhereText(f), l3 + 1, Sorted(f).sort, held3 + 2);
  }

  lemma TailShape(q3: Query, q4: Query, q: Query, order: Query, p1: nat, p2: nat)
    requires q4 == q3 + order && q == q4 + PageText(p1) + CloseJson && p1 == p2
    ensures q == q3 + order + PageText(p2) + CloseJson
  {
  }

  lemma FindTextIsList(f: ProductFilter, l0: nat, held: nat, l3: nat, held3: nat)
    requires l3 == AfterWhere(f, l0, held) && held3 == held + |WhereValues(f)|
    ensures FindText(f, l0, held) == ListText(WhereText(f), l3 + 1, Sorted(f).sort, held3 + 2)
  {
    FindTextUnfold(f, l0, held);
    ListTextCongruent(WhereText(f), AfterWhere(f, l0, held) + 1, l3 + 1, Sorted(f).sort,
                      held + |WhereValues(f)| + 2, held3 + 2);
    Transitive(FindText(f, l0, held),
               ListText(WhereText(f), AfterWhere(f, l0, held) + 1, Sorted(f).sort, held + |WhereValues(f)| + 2),
               ListText(WhereText(f), l3 + 1, Sorted(f).sort, held3 + 2));
  }

  lemma ListTextCongruent(w: Query, o1: nat, o2: nat, direction: string, p1: nat, p2: nat)
    requires o1 == o2 && p1 == p2
    ensures ListText(w, o1, direction, p1) == ListText(w, o2, direction, p2)
  {
  }

  lemma Transitive(a: Query, b: Query, c: Query)
    requires a == b && b == c
    ensures a == c
  {
  }

  lemma FindTextUnfold(f: ProductFilter, l0: nat, held: nat)
    ensures FindText(f, l0, held) == ListText(WhereText(f), AfterWhere(f, l0, held) + 1, Sorted(f).sort, held + |WhereValues(f)| + 2)
  {
  }

  lemma ListShape(q0: Query, q3: Query, q: Query, w: Query, order: nat, direction: string, page: nat)
    requires q3 == q0 + OpenJson + SelectProducts + w
    requires q == q3 + OrderText(order, direction) + PageText(page) + CloseJson
    ensures q == q0 + ListText(w, order, direction, page)
  {
    Regroup(q0, OpenJson, SelectProducts, w, OrderText(order, direction), PageText(page), CloseJson, q3, q);
  }

  lemma Regroup(q0: Query, a: Query, b: Query, c: Query, d: Query, e: Query, g: Query, q3: Query, q: Query)
    requires q3 == q0 + a + b + c && q == q3 + d + e + g
    ensures q == q0 + (a + b + c + d + e + g)
  {
  }

  /** A builder's fields at one moment. */
  datatype Snapshot = Snapshot(req: ProductFilter, query: Query, values: seq<Value>, lastStackIndex: nat)

  /** The six steps of FindProduct, each as its method's contract states it, compose to the list
      statement. */
  lemma FindSteps(s0: Snapshot, s1: Snapshot, s2: Snapshot, s3: Snapshot, s4: Snapshot, s5: Snapshot,
                  s6: Snapshot)
    requires s1.query == s0.query + OpenJson
    requires s1.values == s0.values && s1.lastStackIndex == s0.lastStackIndex && s1.req == s0.req
    requires s2.query == s1.query + SelectProducts
    requires s2.values == s1.values && s2.lastStackIndex == s1.lastStackIndex && s2.req == s1.req
    requires s3.req == s2.req && s3.values == s2.values + WhereValues(s3.req)
    requires s3.query == s2.query + WhereText(s3.req)
    requires s3.lastStackIndex == AfterWhere(s3.req, s2.lastStackIndex, |s2.values|)
    requires s4.req == Sorted(s3.req) && s4.values == s3.values + [VText(s4.req.orderBy)]
    requires s4.query == s3.query + OrderText(s3.lastStackIndex + 1, s4.req.sort)
    requires s4.lastStackIndex == |s4.values|
    requires s5.values == s4.values + [VInt(Offset(s4.req.page, s4.req.limit)), VInt(s4.req.limit)]
    requires s5.query == s4.query + PageText(s4.lastStackIndex + 1)
    requires s5.lastStackIndex == |s5.values| && s5.req == s4.req
    requires s6.query == s5.query + CloseJson
    requires s6.values == s5.values && s6.lastStackIndex == s5.lastStackIndex && s6.req == s5.req
    ensures s6.req == Sorted(s0.req)
    ensures s6.query == s0.query + FindText(s0.req, s0.lastStackIndex, |s0.values|)
    ensures s6.values == s0.values + FindValues(s0.req)
    ensures s6.lastStackIndex == |s6.values|
  {
    var f := s0.req;
    assert s1.query + SelectProducts == s0.query + OpenJson + SelectProducts;
    assert s3.query == s0.query + OpenJson + SelectProducts + WhereText(f);
    assert s3.values == s0.values + WhereValues(f);
    FindQueryShape(s0.query, s3.query, s4.query, s6.query, f, s4.req, s0.lastStackIndex, |s0.values|,
                   s3.lastStackIndex, |s3.values|, s4.lastStackIndex);
    FindValuesShape(s0.values, s3.values, s4.values, s6.values, f, s4.req);
  }

  /** The builder's values, appended one after another, add up to the list statement's. */
  lemma FindValuesShape(v0: seq<Value>, v3: seq<Value>, v4: seq<Value>, v: seq<Value>, f: ProductFilter,
                        fs: ProductFilter)
    requires v3 == v0 + WhereValues(f) && fs == Sorted(f) && v4 == v3 + [VText(fs.orderBy)]
    requires v == v4 + [VInt(Offset(fs.page, fs.limit)), VInt(fs.limit)]
    ensures v == v0 + FindValues(f)
  {
  }

  /** The text FindProduct appends, starting from last index `lastIndex` with `held` values. */
  function FindText(f: ProductFilter, lastIndex: nat, held: nat): Query {
    ListText(WhereText(f), AfterWhere(f, lastIndex, held) + 1, Sorted(f).sort,
             held + |WhereValues(f)| + 2)
  }

  /** The values FindProduct appends: filter values, the sort column, offset and limit. */
  function FindValues(f: ProductFilter): seq<Value> {
    WhereValues(f) + [VText(OrderColumn(f.orderBy))] + [VInt(Offset(f.page, f.limit)), VInt(f.limit)]
  }

  function CountText(f: ProductFilter): Query {
    CountProducts + WhereText(f)
  }

  // ---------------------------------------------------------------- placeholder bookkeeping

  /** The filter's placeholders are exactly $1..$k for its k values. */
  lemma WhereInStep(f: ProductFilter)
    ensures InStep(WhereText(f), |WhereValues(f)|)
    ensures Params(WhereText(f)) == [] <==> WhereValues(f) == []
  {
    var w := WhereText(f);
    IdClauseNumbers(1);
    SearchClauseNumbers(1, 2);
    SearchClauseNumbers(2, 3);
    if f.id != "" && f.search != "" {
      HolesAppend(IdClause(1), IdClause(1));
      HolesAppend(IdClause(1) + IdClause(1), SearchClause(2, 3));
      ParamsAppend(IdClause(1), IdClause(1));
      ParamsAppend(IdClause(1) + IdClause(1), SearchClause(2, 3));
      assert Params(w) == [1, 1, 2, 3];
    }
  }

  lemma IdClauseNumbers(n: nat)
    ensures Holes(IdClause(n)) == 0 && Params(IdClause(n)) == [n]
  {
    Cons(Param(n), [], 0);
    Cons(Text(IdPrefix), [Param(n)], 0);
  }

  lemma SearchClauseNumbers(a: nat, b: nat)
    ensures Holes(SearchClause(a, b)) == 0 && Params(SearchClause(a, b)) == [a, b]
  {
    Cons(Text(")"), [], 0);
    Cons(Param(b), [Text(")")], 0);
    Cons(Text(SearchMiddle), [Param(b), Text(")")], 0);
    Cons(Param(a), [Text(SearchMiddle), Param(b), Text(")")], 0);
    Cons(Text(SearchPrefix), [Param(a), Text(SearchMiddle), Param(b), Text(")")], 0);
  }

  lemma OrderTextNumbers(k: nat, direction: string)
    ensures Holes(OrderText(k, direction)) == 0 && Params(OrderText(k, direction)) == [k]
  {
    Cons(Text(" " + direction), [], 0);
    Cons(Param(k), [Text(" " + direction)], 0);
    Cons(Text(" ORDER BY "), [Param(k), Text(" " + direction)], 0);
  }

  lemma PageTextNumbers(k: nat)
    ensures Holes(PageText(k)) == 0 && Params(PageText(k)) == [k, k + 1]
  {
    Cons(Param(k + 1), [], 0);
    Cons(Text(" LIMIT "), [Param(k + 1)], 0);
    Cons(Param(k), [Text(" LIMIT "), Param(k + 1)], 0);
    Cons(Text(" OFFSET "), [Param(k), Text(" LIMIT "), Param(k + 1)], 0);
  }

  lemma FixedNumbers()
    ensures Holes(OpenJson) == 0 && Params(OpenJson) == []
    ensures Holes(CloseJson) == 0 && Params(CloseJson) == []
    ensures Holes(SelectProducts) == 0 && Params(SelectProducts) == []
    ensures Holes(CountProducts) == 0 && Params(CountProducts) == []
  {
    Cons(OpenJson[0], [], 0);
    Cons(CloseJson[0], [], 0);
    Cons(SelectProducts[0], [], 0);
    Cons(CountProducts[0], [], 0);
  }

  /** The placeholders of a list statement: the filter's, then the sort column's, then offset
      and limit. */
  lemma ListTextNumbers(w: Query, order: nat, direction: string, page: nat)
    ensures Holes(ListText(w, order, direction, page)) == Holes(w)
    ensures Params(ListText(w, order, direction, page)) == Params(w) + [order, page, page + 1]
  {
    var o := OrderText(order, direction);
    var p := PageText(page);
    var head := OpenJson + SelectProducts;
    FixedNumbers();
    OrderTextNumbers(order, direction);
    PageTextNumbers(page);
    HolesAppend(OpenJson, SelectProducts);
    ParamsAppend(OpenJson, SelectProducts);
    HolesAppend(head, w);
    ParamsAppend(head, w);
    HolesAppend(head + w, o);
    ParamsAppend(head + w, o);
    HolesAppend(head + w + o, p);
    ParamsAppend(head + w + o, p);
    HolesAppend(head + w + o + p, CloseJson);
    ParamsAppend(head + w + o + p, CloseJson);
  }

  /** A list statement around a filter text in step with its k values is in step with k + 3:
      the sort column is $k+1, offset and limit $k+2 and $k+3. */
  lemma ListInStep(w: Query, k: nat, direction: string)
    requires InStep(w, k)
    ensures InStep(ListText(w, k + 1, direction, k + 2), k + 3)
    ensures Params(ListText(w, k + 1, direction, k + 2)) == Params(w) + [k + 1, k + 2, k + 3]
  {
    ListTextNumbers(w, k + 1, direction, k + 2);
    var all := Params(w) + [k + 1, k + 2, k + 3];
    forall n | n in all ensures 1 <= n <= k + 3 {
      if n !in Params(w) {
        assert n in [k + 1, k + 2, k + 3];
      }
    }
    forall j | 1 <= j <= k + 3 ensures j in all {
      if j <= k {
        assert j in Params(w);
      } else {
        assert all[|Params(w)| + (j - k - 1)] == j;
      }
    }
  }

  /** On a fresh builder the list statement numbers its placeholders exactly $1..$n for its n
      values: filter values first, then the sort column, then offset and limit. */
  lemma FreshFindInStep(f: ProductFilter)
    ensures InStep(FindText(f, 0, 0), |FindValues(f)|)
    ensures Params(FindText(f, 0, 0)) ==
      Params(WhereText(f)) + [|WhereValues(f)| + 1, |WhereValues(f)| + 2, |WhereValues(f)| + 3]
  {
    var k := |WhereValues(f)|;
    WhereInStep(f);
    assert AfterWhere(f, 0, 0) == k;
    assert FindText(f, 0, 0) == ListText(WhereText(f), k + 1, Sorted(f).sort, k + 2);
    ListInStep(WhereText(f), k, Sorted(f).sort);
    assert |FindValues(f)| == k + 3;
  }

  /** The count statement numbers its placeholders exactly $1..$k for its k filter values. */
  lemma CountInStep(f: ProductFilter)
    ensures InStep(CountText(f), |WhereValues(f)|)
  {
    WhereInStep(f);
    FixedNumbers();
    HolesAppend(CountProducts, WhereText(f));
    ParamsAppend(CountProducts, WhereText(f));
  }

  // ---------------------------------------------------------------- the numbering loop

  /** The predicates collected by the filter step, before numbering. */
  function WhereStack(f: ProductFilter): seq<Query> {
    (if f.id != "" then [IdHole] else []) + (if f.search != "" then [SearchHole] else [])
  }

  /** One round of the numbering loop on the accumulated text `acc`: number the round's predicate
      with $i+1, and in the last round also number the first hole still left with $i+2. */
  ghost function Round(stack: seq<Query>, i: nat, acc: Query): Query
    requires i < |stack|
  {
    if i != |stack| - 1 then acc + ReplaceFirst(stack[i], i + 1)
    else ReplaceFirst(acc + ReplaceFirst(stack[i], i + 1), i + 2)
  }

  /** The accumulated predicate text after `i` rounds. */
  ghost function Accumulated(stack: seq<Query>, i: nat): Query
    requires i <= |stack|
  {
    if i == 0 then [] else Round(stack, i - 1, Accumulated(stack, i - 1))
  }

  /** Everything appended to the statement after `i` rounds (each round appends all of the
      accumulated text). */
  ghost function Appended(stack: seq<Query>, i: nat): Query
    requires i <= |stack|
  {
    if i == 0 then [] else Appended(stack, i - 1) + Accumulated(stack, i)
  }

  /** One more round appends its accumulated text: from `q0 + Appended(stack, i)` to
      `q0 + Appended(stack, i + 1)`. */
  lemma AppendedStep(q0: Query, q: Query, stack: seq<Query>, i: nat)
    requires i < |stack| && q == q0 + Appended(stack, i)
    ensures q + Accumulated(stack, i + 1) == q0 + Appended(stack, i + 1)
  {
    assert Appended(stack, i + 1) == Appended(stack, i) + Accumulated(stack, i + 1);
  }

  lemma IdHoleNumbered(n: nat)
    ensures ReplaceFirst(IdHole, n) == IdClause(n)
  {
    Cons(Hole, [], n);
    Cons(Text(IdPrefix), [Hole], n);
  }

  lemma SearchHoleNumbered(a: nat, b: nat)
    ensures ReplaceFirst(ReplaceFirst(SearchHole, a), b) == SearchClause(a, b)
  {
    FirstOfTwoHoles(SearchPrefix, SearchMiddle, ")", a);
    SecondOfTwoHoles(SearchPrefix, SearchMiddle, ")", a, b);
  }

  /** Numbering a text with two holes numbers the first one. */
  lemma FirstOfTwoHoles(x: string, y: string, z: string, a: nat)
    ensures ReplaceFirst([Text(x), Hole, Text(y), Hole, Text(z)], a) ==
            [Text(x), Param(a), Text(y), Hole, Text(z)]
  {
    var tail := [Text(y), Hole, Text(z)];
    Cons(Hole, tail, a);
    Cons(Text(x), [Hole] + tail, a);
    assert [Text(x), Hole, Text(y), Hole, Text(z)] == [Text(x)] + ([Hole] + tail);
  }

  /** Numbering it again numbers the second one. */
  lemma SecondOfTwoHoles(x: string, y: string, z: string, a: nat, b: nat)
    ensures ReplaceFirst([Text(x), Param(a), Text(y), Hole, Text(z)], b) ==
            [Text(x), Param(a), Text(y), Param(b), Text(z)]
  {
    var tail := [Text(y), Hole, Text(z)];
    Cons(Hole, [Text(z)], b);
    Cons(Text(y), [Hole, Text(z)], b);
    Cons(Param(a), tail, b);
    Cons(Text(x), [Param(a)] + tail, b);
    assert [Text(x), Param(a), Text(y), Hole, Text(z)] == [Text(x)] + ([Param(a)] + tail);
  }

  /** The numbering loop appends exactly `WhereText`. */
  lemma WhereLoopText(f: ProductFilter)
    ensures Appended(WhereStack(f), |WhereStack(f)|) == WhereText(f)
  {
    var st := WhereStack(f);
    if f.id != "" && f.search != "" {
      IdHoleNumbered(1);
      assert Accumulated(st, 1) == IdClause(1);
      assert Accumulated(st, 2) == ReplaceFirst(IdClause(1) + ReplaceFirst(SearchHole, 2), 3);
      SearchHoleNumbered(2, 3);
      ReplaceFirstSkips(IdClause(1), ReplaceFirst(SearchHole, 2), 3);
      assert Accumulated(st, 2) == IdClause(1) + SearchClause(2, 3);
    } else if f.id != "" {
      IdHoleNumbered(1);
      IdClauseNumbers(1);
      assert st == [IdHole];
      assert ReplaceFirst(IdClause(1), 2) == IdClause(1) by {
        ReplaceFirstSkips(IdClause(1), [], 2);
        assert IdClause(1) + [] == IdClause(1);
      }
      assert [] + IdClause(1) == IdClause(1);
      assert Accumulated(st, 1) == IdClause(1);
      assert Appended(st, 1) == [] + Accumulated(st, 1);
    } else if f.search != "" {
      SearchHoleNumbered(1, 2);
      assert st == [SearchHole];
      assert [] + ReplaceFirst(SearchHole, 1) == ReplaceFirst(SearchHole, 1);
      assert Accumulated(st, 1) == SearchClause(1, 2);
      assert Appended(st, 1) == [] + Accumulated(st, 1);
    }
  }

  // ---------------------------------------------------------------- the builder

  class FindProductBuilder {
    /** The request; `sort` overwrites its OrderBy and Sort. */
    var req: ProductFilter
    var query: Query
    var lastStackIndex: nat
    var values: seq<Value>

    /** `FindProductBuilder(db, req)`: an empty statement. */
    constructor (req: ProductFilter)
      ensures this.req == req && query == [] && values == [] && lastStackIndex == 0
    {
      this.req := req;
      query := [];
      values := [];
      lastStackIndex := 0;
    }

    method OpenJsonQuery()
      modifies this
      ensures query == old(query) + OpenJson
      ensures values == old(values) && lastStackIndex == old(lastStackIndex) && req == old(req)
    {
      query := query + OpenJson;
    }

    method CloseJsonQuery()
      modifies this
      ensures query == old(query) + CloseJson
      ensures values == old(values) && lastStackIndex == old(lastStackIndex) && req == old(req)
    {
      query := query + CloseJson;
    }

    method InitQuery()
      modifies this
      ensures query == old(query) + SelectProducts
      ensures values == old(values) && lastStackIndex == old(lastStackIndex) && req == old(req)
    {
      query := query + SelectProducts;
    }

    method CountQuery()
      modifies this
      ensures query == old(query) + CountProducts
      ensures values == old(values) && lastStackIndex == old(lastStackIndex) && req == old(req)
    {
      query := query + CountProducts;
    }

    /** Adds the id and search predicates the request asks for, numbering their holes. */
    method WhereQuery()
      modifies this
      ensures req == old(req)
      ensures values == old(values) + WhereValues(req)
      ensures query == old(query) + WhereText(req)
      ensures lastStackIndex == AfterWhere(req, old(lastStackIndex), |old(values)|)
    {
      var queryWhere: Query := [];
      var stack: seq<Query> := [];
      if req.id != "" {
        values := values + [VText(req.id)];
        stack := stack + [IdHole];
      }
      if req.search != "" {
        var pattern := SearchPattern(req.search);
        values := values + [VText(pattern), VText(pattern)];
        stack := stack + [SearchHole];
      }
      assert stack == WhereStack(req);
      var i := 0;
      while i < |stack|
        invariant 0 <= i <= |stack|
        invariant queryWhere == Accumulated(stack, i)
        invariant query == old(query) + Appended(stack, i)
        invariant lastStackIndex == if i == 0 then old(lastStackIndex) else |values|
        invariant req == old(req) && values == old(values) + WhereValues(req)
        invariant stack == WhereStack(req)
      {
        if i != |stack| - 1 {
          queryWhere := queryWhere + ReplaceFirst(stack[i], i + 1);
        } else {
          queryWhere := queryWhere + ReplaceFirst(stack[i], i + 1);
          queryWhere := ReplaceFirst(queryWhere, i + 2);
        }
        lastStackIndex := |values|;
        AppendedStep(old(query), query, stack, i);
        query := query + queryWhere;
        i := i + 1;
      }
      WhereLoopText(req);
    }

    /** Maps the sort key through the allow-list, binds the column and orders by it; a recognised
        direction is then replaced by the map's entry for the upper-cased column. */
    method Sort()
      modifies this
      ensures req == Sorted(old(req))
      ensures values == old(values) + [VText(req.orderBy)]
      ensures query == old(query) + OrderText(old(lastStackIndex) + 1, req.sort)
      ensures lastStackIndex == |values|
    {
      if OrderByLookup(req.orderBy) == "" {
        req := req.(orderBy := OrderByLookup("title"));
      } else {
        req := req.(orderBy := OrderByLookup(req.orderBy));
      }
      if SortLookup(req.sort) == "" {
        req := req.(sort := SortLookup("ASC"));
      } else {
        req := req.(sort := SortLookup(ToUpper(req.orderBy)));
      }
      values := values + [VText(req.orderBy)];
      query := query + OrderText(lastStackIndex + 1, req.sort);
      lastStackIndex := |values|;
    }

    /** Binds the offset `(page-1)*limit`, computed in int64, and the limit. */
    method Paginate()
      modifies this
      ensures values == old(values) + [VInt(Offset(req.page, req.limit)), VInt(req.limit)]
      ensures query == old(query) + PageText(old(lastStackIndex) + 1)
      ensures lastStackIndex == |values| && req == old(req)
    {
      values := values + [VInt(Offset(req.page, req.limit)), VInt(req.limit)];
      query := query + PageText(lastStackIndex + 1);
      lastStackIndex := |values|;
    }

    /** Clears the statement and its values; the last index is kept. */
    method ResetQuery()
      modifies this
      ensures query == [] && values == []
      ensures lastStackIndex == old(lastStackIndex) && req == old(req)
    {
      query := [];
      values := [];
    }

    /** Runs the list statement; `read` answers it. The builder is reset only when the answer
        decodes; otherwise the result is empty and the statement is kept. */
    method Result(read: Stmt -> Fetched<seq<Product>>) returns (r: seq<Product>)
      modifies this
      ensures var answer := read(Stmt(old(query), old(values)));
        if answer.Decoded? then r == answer.value && query == [] && values == []
        else r == [] && query == old(query) && values == old(values)
      ensures lastStackIndex == old(lastStackIndex) && req == old(req)
    {
      var answer := read(Stmt(query, values));
      if answer.FetchFailed? || answer.Undecodable? {
        return [];
      }
      ResetQuery();
      r := answer.value;
    }

    /** Runs the count statement; `read` answers it. Reset only on success; 0 on failure. */
    method Count(read: Stmt -> Result<int, string>) returns (n: int)
      modifies this
      ensures var answer := read(Stmt(old(query), old(values)));
        if answer.Success? then n == answer.value && query == [] && values == []
        else n == 0 && query == old(query) && values == old(values)
      ensures lastStackIndex == old(lastStackIndex) && req == old(req)
    {
      var answer := read(Stmt(query, values));
      if answer.Failure? {
        return 0;
      }
      ResetQuery();
      n := answer.value;
    }
  }

  // ---------------------------------------------------------------- the engineer

  class FindProductEngineer {
    const builder: FindProductBuilder

    constructor (builder: FindProductBuilder)
      ensures this.builder == builder
    {
      this.builder := builder;
    }

    /** open, init, where, sort, paginate, close: the list statement. */
    method FindProduct() returns (b: FindProductBuilder)
      modifies builder
      ensures b == builder
      ensures b.req == Sorted(old(b.req))
      ensures b.query == old(b.query) + FindText(old(b.req), old(b.lastStackIndex), |old(b.values)|)
      ensures b.values == old(b.values) + FindValues(old(b.req))
      ensures b.lastStackIndex == |b.values|
    {
      b := builder;
      ghost var s0 := Snapshot(b.req, b.query, b.values, b.lastStackIndex);
      b.OpenJsonQuery();
      ghost var s1 := Snapshot(b.req, b.query, b.values, b.lastStackIndex);
      b.InitQuery();
      ghost var s2 := Snapshot(b.req, b.query, b.values, b.lastStackIndex);
      b.WhereQuery();
      ghost var s3 := Snapshot(b.req, b.query, b.values, b.lastStackIndex);
      b.Sort();
      ghost var s4 := Snapshot(b.req, b.query, b.values, b.lastStackIndex);
      b.Paginate();
      ghost var s5 := Snapshot(b.req, b.query, b.values, b.lastStackIndex);
      b.CloseJsonQuery();
      FindSteps(s0, s1, s2, s3, s4, s5, Snapshot(b.req, b.query, b.values, b.lastStackIndex));
    }

    /** count, where: the count statement, with neither ordering nor paging. */
    method CountProduct() returns (b: FindProductBuilder)
      modifies builder
      ensures b == builder && b.req == old(b.req)
      ensures b.query == old(b.query) + CountText(b.req)
      ensures b.values == old(b.values) + WhereValues(b.req)
    {
      b := builder;
      b.CountQuery();
      b.WhereQuery();
    }
  }

  /** On a fresh builder, FindProduct leaves a statement whose placeholders are in step with its
      values. */
  method FreshFindStatement(f: ProductFilter) returns (find: Stmt)
    ensures InStep(find.text, |find.args|)
    ensures find.text == FindText(f, 0, 0) && find.args == FindValues(f)
  {
    var b := new FindProductBuilder(f);
    var e := new FindProductEngineer(b);
    var _ := e.FindProduct();
    find := Stmt(b.query, b.values);
    ListTextShape([], WhereText(f), AfterWhere(f, 0, 0) + 1, Sorted(f).sort, |WhereValues(f)| + 2);
    assert [] + FindText(f, 0, 0) == FindText(f, 0, 0);
    FreshFindInStep(f);
  }

  /** On a fresh builder, CountProduct leaves a statement whose placeholders are in step with its
      values. */
  method FreshCountStatement(f: ProductFilter) returns (count: Stmt)
    ensures InStep(count.text, |count.args|)
    ensures count.text == CountText(f) && count.args == WhereValues(f)
  {
    var c := new FindProductBuilder(f);
    var e := new FindProductEngineer(c);
    var _ := e.CountProduct();
    count := Stmt(c.query, c.values);
    assert [] + CountText(f) == CountText(f);
    CountInStep(f);
  }
}
