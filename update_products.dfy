/** The product update builder and engineer (modules/products/productPatterns/updateProducts.go).
    The builder assembles `UPDATE "products" SET <fields> WHERE "id" = $n` field by field, then the
    engineer runs, in one transaction: the product update, the category link update, and, when the
    request carries images, the removal of the old image rows followed by the insert of the new
    ones; then it commits. Every step that fails rolls the transaction back and ends the run. */
module UpdateProducts {
  import opened Wrappers
  import opened Models
  import opened Sql
  import opened Transactions
  import opened Storage
  import opened ImageRows

  // ---------------------------------------------------------------- the UPDATE statement

  const UpdateHead: Query := [Text("UPDATE \"products\" SET")]

  /** The columns an update can set. */
  datatype Column = Title | Description | Price

  function ColumnName(c: Column): string {
    match c
    case Title => "\"title\" = "
    case Description => "\"description\" = "
    case Price => "\"price\" = "
  }

  /** A column to set and the value bound to it. */
  datatype Field = Field(column: Column, value: Value)

  /** The columns a request sets, in the order title, description, price: a text only when it is
      not empty, the price only when it is non-zero and negative. */
  function Fields(p: Product): seq<Field> {
    (if p.title != "" then [Field(Title, VText(p.title))] else []) +
    (if p.description != "" then [Field(Description, VText(p.description))] else []) +
    (if p.price != 0.0 && p.price < 0.0 then [Field(Price, VReal(p.price))] else [])
  }

  /** A zero or positive price is never written; a negative one always is. */
  lemma PriceWrittenOnlyWhenNegative(p: Product)
    ensures (exists i :: 0 <= i < |Fields(p)| && Fields(p)[i].column == Price) <==> p.price < 0.0
  {
    var fs := Fields(p);
    if p.price < 0.0 {
      assert fs[|fs| - 1].column == Price;
    }
    if exists i :: 0 <= i < |fs| && fs[i].column == Price {
      var i :| 0 <= i < |fs| && fs[i].column == Price;
    }
  }

  /** ` "column" = $k`. */
  function FieldText(column: Column, k: nat): Query {
    [Text(ColumnName(column)), Param(k)]
  }

  /** The field texts, numbered from $start+1 on. */
  function FieldTexts(fs: seq<Field>, start: nat): (r: seq<Query>)
    ensures |r| == |fs|
  {
    if fs == [] then [] else [FieldText(fs[0].column, start + 1)] + FieldTexts(fs[1..], start + 1)
  }

  function FieldValues(fs: seq<Field>): (r: seq<Value>)
    ensures |r| == |fs|
  {
    if fs == [] then [] else [fs[0].value] + FieldValues(fs[1..])
  }

  /** The texts separated by commas: a comma after every text but the last. */
  function Joined(qs: seq<Query>): Query {
    if |qs| == 0 then [] else if |qs| == 1 then qs[0] else qs[0] + [Text(",")] + Joined(qs[1..])
  }

  lemma {:induction false} JoinedSnoc(qs: seq<Query>, x: Query)
    requires qs != []
    ensures Joined(qs + [x]) == Joined(qs) + [Text(",")] + x
    decreases |qs|
  {
    if |qs| == 1 {
      assert (qs + [x])[1..] == [x];
    } else {
      assert (qs + [x])[1..] == qs[1..] + [x];
      JoinedSnoc(qs[1..], x);
    }
  }

  /** The first `i` texts, each followed by a comma unless it is the last of all `qs`: what the
      joining loop has appended after `i` rounds. */
  function Separated(qs: seq<Query>, i: nat): Query
    requires i <= |qs|
  {
    if i == 0 then [] else Separated(qs, i - 1) + qs[i - 1] + (if i - 1 != |qs| - 1 then [Text(",")] else [])
  }

  lemma {:induction false} SeparatedJoined(qs: seq<Query>, i: nat)
    requires i <= |qs|
    ensures Separated(qs, i) == Joined(qs[..i]) + (if 0 < i < |qs| then [Text(",")] else [])
    ensures i == |qs| ==> Separated(qs, i) == Joined(qs)
  {
    if i == 1 {
      assert qs[..1] == [qs[0]];
      assert Separated(qs, 1) == [] + qs[0] + (if 0 != |qs| - 1 then [Text(",")] else []);
    } else if i > 1 {
      SeparatedJoined(qs, i - 1);
      assert qs[..i] == qs[..i - 1] + [qs[i - 1]];
      JoinedSnoc(qs[..i - 1], qs[i - 1]);
    } else {
      assert qs[..0] == [];
    }
    if i == |qs| {
      assert qs[..i] == qs;
      assert Joined(qs) + [] == Joined(qs);
    }
  }

  /** `$a+1, ..., $a+n`. */
  function Range(a: nat, n: nat): (r: seq<nat>)
    ensures |r| == n
    decreases n
  {
    if n == 0 then [] else [a + 1] + Range(a + 1, n - 1)
  }

  /** The i-th number of `Range(a, n)` is a + i + 1. */
  lemma {:induction false} RangeIndex(a: nat, n: nat)
    ensures forall i :: 0 <= i < n ==> Range(a, n)[i] == a + i + 1
    decreases n
  {
    if n > 0 {
      RangeIndex(a + 1, n - 1);
    }
  }

  /** A field text followed by a comma and the rest of the joined fields. */
  lemma FieldThenRest(column: Column, start: nat, rest: Query, n: nat)
    requires Holes(rest) == 0 && Params(rest) == Range(start + 1, n)
    ensures Holes(FieldText(column, start + 1) + [Text(",")] + rest) == 0
    ensures Params(FieldText(column, start + 1) + [Text(",")] + rest) == Range(start, n + 1)
  {
    var head := FieldText(column, start + 1);
    Cons(Param(start + 1), [], 0);
    Cons(Text(ColumnName(column)), [Param(start + 1)], 0);
    Cons(Text(","), [], 0);
    HolesAppend(head, [Text(",")]);
    ParamsAppend(head, [Text(",")]);
    HolesAppend(head + [Text(",")], rest);
    ParamsAppend(head + [Text(",")], rest);
    assert Range(start, n + 1) == [start + 1] + Range(start + 1, n);
  }

  /** The joined fields number their placeholders $start+1..$start+n in order. */
  lemma {:induction false} JoinedFieldsNumbers(fs: seq<Field>, start: nat)
    ensures Holes(Joined(FieldTexts(fs, start))) == 0
    ensures Params(Joined(FieldTexts(fs, start))) == Range(start, |fs|)
    decreases |fs|
  {
    var qs := FieldTexts(fs, start);
    if |fs| == 1 {
      Cons(Param(start + 1), [], 0);
      Cons(Text(ColumnName(fs[0].column)), [Param(start + 1)], 0);
      assert Joined(qs) == FieldText(fs[0].column, start + 1);
    } else if |fs| > 1 {
      assert qs[1..] == FieldTexts(fs[1..], start + 1);
      JoinedFieldsNumbers(fs[1..], start + 1);
      assert Joined(qs) == FieldText(fs[0].column, start + 1) + [Text(",")] + Joined(qs[1..]);
      FieldThenRest(fs[0].column, start, Joined(qs[1..]), |fs| - 1);
    }
  }

  function WhereId(k: nat): Query {
    [Text(" WHERE \"id\" = "), Param(k)]
  }

  /** The update statement a fresh builder produces for request `p`. */
  function UpdateStmt(p: Product): Stmt {
    Stmt(UpdateHead + Joined(FieldTexts(Fields(p), 0)) + WhereId(|Fields(p)| + 1),
         FieldValues(Fields(p)) + [VText(p.id)])
  }

  lemma UpdateEndsNumbers(k: nat)
    ensures Holes(UpdateHead) == 0 && Params(UpdateHead) == []
    ensures Holes(WhereId(k)) == 0 && Params(WhereId(k)) == [k]
  {
    Cons(UpdateHead[0], [], 0);
    assert UpdateHead == [UpdateHead[0]] + [];
    Cons(Param(k), [], 0);
    Cons(Text(" WHERE \"id\" = "), [Param(k)], 0);
  }

  lemma RangeIsUpto(n: nat)
    ensures Range(0, n) == Upto(n)
  {
    RangeIndex(0, n);
    UptoIndex(n);
  }

  /** The head, fields numbered $1..$n, and the id as $n+1. */
  lemma UpdateTextInStep(j: Query, n: nat)
    requires Holes(j) == 0 && Params(j) == Range(0, n)
    ensures InStep(UpdateHead + j + WhereId(n + 1), n + 1)
  {
    var text := UpdateHead + j + WhereId(n + 1);
    UpdateEndsNumbers(n + 1);
    RangeIsUpto(n);
    HolesAppend(UpdateHead, j);
    ParamsAppend(UpdateHead, j);
    HolesAppend(UpdateHead + j, WhereId(n + 1));
    ParamsAppend(UpdateHead + j, WhereId(n + 1));
    assert Params(text) == Upto(n) + [n + 1];
    UptoInStep(text, n + 1);
  }

  lemma UpdateStmtInStep(p: Product)
    ensures InStep(UpdateStmt(p).text, |UpdateStmt(p).args|)
  {
    var fs := Fields(p);
    JoinedFieldsNumbers(fs, 0);
    UpdateTextInStep(Joined(FieldTexts(fs, 0)), |fs|);
  }

  // ---------------------------------------------------------------- the other statements

  /** The category link is updated only for a category with a non-zero id. */
  predicate ChangesCategory(p: Product) {
    p.category.Some? && p.category.value.id != 0
  }

  const CategoryText: Query := [Text("UPDATE \"products_categories\" SET \"category_id\" = "), Param(1),
                                Text(" WHERE \"product_id\" = "), Param(2), Text(";")]

  /** The category is bound first and the product second. */
  function CategoryStmt(p: Product): Stmt
    requires ChangesCategory(p)
  {
    Stmt(CategoryText, [VInt(p.category.value.id), VText(p.id)])
  }

  const OldImagesText: Query := [Text("SELECT \"id\", \"filename\", \"url\" FROM \"images\" WHERE \"product_id\" = "),
                                 Param(1), Text(";")]

  const DeleteImagesText: Query := [Text("DELETE FROM \"images\" WHERE \"product_id\" = "), Param(1), Text(";")]

  function OldImagesStmt(id: string): Stmt {
    Stmt(OldImagesText, [VText(id)])
  }

  function DeleteImagesStmt(id: string): Stmt {
    Stmt(DeleteImagesText, [VText(id)])
  }

  /** Where the stored files of a product's images live. */
  const ImagesFolder: string := "images/products/"

  /** The old images as `getOldImages` returns them: an empty list when the read fails. */
  function OldImages(read: Stmt -> Result<seq<Image>, string>, id: string): seq<Image> {
    var answer := read(OldImagesStmt(id));
    if answer.Success? then answer.value else []
  }

  lemma CategoryTextInStep()
    ensures InStep(CategoryText, 2)
  {
    var tail: Query := [Text(" WHERE \"product_id\" = "), Param(2), Text(";")];
    Cons(Text(";"), [], 0);
    Cons(Param(2), [Text(";")], 0);
    Cons(tail[0], [Param(2), Text(";")], 0);
    assert tail == [tail[0]] + [Param(2), Text(";")];
    assert Params(tail) == [2] && Holes(tail) == 0;
    Cons(Param(1), tail, 0);
    Cons(CategoryText[0], [Param(1)] + tail, 0);
    assert CategoryText == [CategoryText[0]] + ([Param(1)] + tail);
    assert Upto(2) == [1, 2];
    UptoInStep(CategoryText, 2);
  }

  /** A statement whose one placeholder sits between its head text and the closing ';'. */
  lemma OneParamInStep(q: Query)
    requires |q| == 3 && q[0].Text? && q[1] == Param(1) && q[2] == Text(";")
    ensures InStep(q, 1)
  {
    Cons(Text(";"), [], 0);
    Cons(Param(1), [Text(";")], 0);
    Cons(q[0], [Param(1), Text(";")], 0);
    assert q == [q[0]] + [Param(1), Text(";")];
    assert Upto(1) == [1];
    UptoInStep(q, 1);
  }

  lemma FixedStatementsInStep(id: string)
    ensures InStep(CategoryText, 2)
    ensures InStep(DeleteImagesText, |DeleteImagesStmt(id).args|)
    ensures InStep(OldImagesText, |OldImagesStmt(id).args|)
  {
    CategoryTextInStep();
    OneParamInStep(DeleteImagesText);
    OneParamInStep(OldImagesText);
  }

  // ---------------------------------------------------------------- the run, as a specification

  /** The store's answers to one run of UpdateProduct, in the order they are asked for. The answer
      of the file storage is listed but, as in the source, never looked at. */
  datatype UpdateAnswers = UpdateAnswers(
    begin: Reply,
    update: Reply,
    category: Reply,
    oldImages: Stmt -> Result<seq<Image>, string>,
    removal: Option<string>,
    deleteImages: Reply,
    insertImages: Reply,
    commit: Reply)

  datatype UpdateOutcome = Updated | Failed(msg: string) | NilTxPanic

  /** Every step before the commit succeeded. */
  predicate StepsDone(p: Product, a: UpdateAnswers) {
    a.update.Done? && (ChangesCategory(p) ==> a.category.Done?) &&
    (|p.images| > 0 ==> a.deleteImages.Done? && a.insertImages.Done?)
  }

  /** What UpdateProduct returns. A transaction that did not begin leaves the builder without one,
      and the first statement then dereferences it. */
  function ExpectedUpdate(p: Product, a: UpdateAnswers): UpdateOutcome {
    if a.begin.Refused? then NilTxPanic
    else if a.update.Refused? then Failed("update product failed: " + a.update.msg)
    else if ChangesCategory(p) && a.category.Refused? then
      Failed("update products_categories failed: " + a.category.msg)
    else if |p.images| > 0 && a.deleteImages.Refused? then
      Failed("delete images failed: " + a.deleteImages.msg)
    else if |p.images| > 0 && a.insertImages.Refused? then
      Failed("insert images failed: " + a.insertImages.msg)
    else if a.commit.Refused? then Failed(a.commit.msg)
    else Updated
  }

  /** The statements sent in the transaction, in order, up to and including a refused one. */
  function UpdateWrites(p: Product, a: UpdateAnswers): seq<Write> {
    if a.begin.Refused? then []
    else if a.update.Refused? then [Write(Products, UpdateStmt(p))]
    else
      [Write(Products, UpdateStmt(p))] +
      (if ChangesCategory(p) then [Write(ProductsCategories, CategoryStmt(p))] else []) +
      (if (ChangesCategory(p) && a.category.Refused?) || |p.images| == 0 then []
       else [Write(Images, DeleteImagesStmt(p.id))] +
            (if a.deleteImages.Refused? then [] else [Write(Images, ImagesStmt(p.images, p.id))]))
  }

  /** The file deletions requested: the old images' files, once the delete step is reached and
      there are old images. */
  function UpdateRemovals(p: Product, a: UpdateAnswers): seq<seq<DeleteFileReq>> {
    if a.begin.Refused? || a.update.Refused? || (ChangesCategory(p) && a.category.Refused?) ||
       |p.images| == 0 || |OldImages(a.oldImages, p.id)| == 0
    then []
    else [ImageDestinations(ImagesFolder, OldImages(a.oldImages, p.id))]
  }

  /** The transaction's final state when it began. */
  function UpdateTxState(p: Product, a: UpdateAnswers): TxState {
    if !StepsDone(p, a) then RolledBack else if a.commit.Done? then Committed else CommitFailed
  }

  /** The update succeeds exactly when every statement it needs and the commit succeed, and the
      answer of the file storage plays no part in it. */
  lemma UpdateSucceedsExactly(p: Product, a: UpdateAnswers, removal: Option<string>)
    ensures ExpectedUpdate(p, a) == Updated <==> a.begin.Done? && StepsDone(p, a) && a.commit.Done?
    ensures ExpectedUpdate(p, a.(removal := removal)) == ExpectedUpdate(p, a)
    ensures UpdateWrites(p, a.(removal := removal)) == UpdateWrites(p, a)
  {
  }

  /** Every statement an update sends has its placeholders in step with its values. */
  lemma UpdateWritesInStep(p: Product, a: UpdateAnswers)
    ensures forall w :: w in UpdateWrites(p, a) ==> InStep(w.stmt.text, |w.stmt.args|)
  {
    UpdateStmtInStep(p);
    FixedStatementsInStep(p.id);
    ImagesStmtInStep(p.images, p.id);
    forall w | w in UpdateWrites(p, a) ensures InStep(w.stmt.text, |w.stmt.args|) {
      assert w.stmt == UpdateStmt(p) || (ChangesCategory(p) && w.stmt == CategoryStmt(p)) ||
             w.stmt == DeleteImagesStmt(p.id) || w.stmt == ImagesStmt(p.images, p.id);
    }
  }

  /** A successful update writes the product row, then the category link when one is set, then
      (with images) deletes the old image rows and inserts the new ones. */
  lemma UpdatedWrites(p: Product, a: UpdateAnswers)
    requires ExpectedUpdate(p, a) == Updated
    ensures UpdateWrites(p, a) ==
      [Write(Products, UpdateStmt(p))] +
      (if ChangesCategory(p) then [Write(ProductsCategories, CategoryStmt(p))] else []) +
      (if |p.images| == 0 then []
       else [Write(Images, DeleteImagesStmt(p.id)), Write(Images, ImagesStmt(p.images, p.id))])
  {
  }

  // ---------------------------------------------------------------- the builder

  class UpdateProductsBuilder {
    const db: Database
    const storage: FileStorage
    const req: Product
    var tx: Tx?
    var query: Query
    var queryFields: seq<Query>
    var lastStackIndex: nat
    var values: seq<Value>

    /** `UpdateProdcutsBuilder(db, req, filesUsecase)`. */
    constructor (db: Database, req: Product, storage: FileStorage)
      ensures this.db == db && this.req == req && this.storage == storage
      ensures tx == null && query == [] && queryFields == [] && values == [] && lastStackIndex == 0
    {
      this.db := db;
      this.req := req;
      this.storage := storage;
      tx := null;
      query := [];
      queryFields := [];
      values := [];
      lastStackIndex := 0;
    }

    /** Begins the transaction; when that fails the builder keeps no transaction. */
    method InitTransaction(begin: Reply) returns (err: Option<string>)
      modifies this
      ensures begin.Done? ==>
        err == None && tx != null && fresh(tx) && tx.db == db && tx.state == Open && tx.attempted == []
      ensures begin.Refused? ==> err == Some(begin.msg) && tx == old(tx)
      ensures query == old(query) && queryFields == old(queryFields)
      ensures values == old(values) && lastStackIndex == old(lastStackIndex)
    {
      if begin.Refused? {
        return Some(begin.msg);
      }
      tx := new Tx.Begin(db);
      err := None;
    }

    method InitQuery()
      modifies this
      ensures query == old(query) + UpdateHead
      ensures tx == old(tx) && queryFields == old(queryFields)
      ensures values == old(values) && lastStackIndex == old(lastStackIndex)
    {
      query := query + UpdateHead;
    }

    /** Binds the product id last and selects the row by it. */
    method CloseQuery()
      modifies this
      ensures values == old(values) + [VText(req.id)] && lastStackIndex == |values|
      ensures query == old(query) + WhereId(|values|)
      ensures tx == old(tx) && queryFields == old(queryFields)
    {
      values := values + [VText(req.id)];
      lastStackIndex := |values|;
      query := query + WhereId(lastStackIndex);
    }

    method UpdateTitleQuery()
      modifies this
      ensures req.title != "" ==>
        values == old(values) + [VText(req.title)] && lastStackIndex == |values| &&
        queryFields == old(queryFields) + [FieldText(Title, |values|)]
      ensures req.title == "" ==>
        values == old(values) && lastStackIndex == old(lastStackIndex) && queryFields == old(queryFields)
      ensures query == old(query) && tx == old(tx)
    {
      if req.title != "" {
        values := values + [VText(req.title)];
        lastStackIndex := |values|;
        queryFields := queryFields + [FieldText(Title, lastStackIndex)];
      }
    }

    method UpdateDescriptionQuery()
      modifies this
      ensures req.description != "" ==>
        values == old(values) + [VText(req.description)] && lastStackIndex == |values| &&
        queryFields == old(queryFields) + [FieldText(Description, |values|)]
      ensures req.description == "" ==>
        values == old(values) && lastStackIndex == old(lastStackIndex) && queryFields == old(queryFields)
      ensures query == old(query) && tx == old(tx)
    {
      if req.description != "" {
        values := values + [VText(req.description)];
        lastStackIndex := |values|;
        queryFields := queryFields + [FieldText(Description, lastStackIndex)];
      }
    }

    method UpdatePriceQuery()
      modifies this
      ensures req.price != 0.0 && req.price < 0.0 ==>
        values == old(values) + [VReal(req.price)] && lastStackIndex == |values| &&
        queryFields == old(queryFields) + [FieldText(Price, |values|)]
      ensures !(req.price != 0.0 && req.price < 0.0) ==>
        values == old(values) && lastStackIndex == old(lastStackIndex) && queryFields == old(queryFields)
      ensures query == old(query) && tx == old(tx)
    {
      if req.price != 0.0 && req.price < 0.0 {
        values := values + [VReal(req.price)];
        lastStackIndex := |values|;
        queryFields := queryFields + [FieldText(Price, lastStackIndex)];
      }
    }

    /** `setQuery`: replaces the statement text, leaving everything else as it is. */
    method SetQuery(q: Query)
      modifies this
      ensures query == q
      ensures tx == old(tx) && queryFields == old(queryFields)
      ensures values == old(values) && lastStackIndex == old(lastStackIndex)
    {
      query := q;
    }

    /** Sends the assembled update; a refusal rolls back. */
    method UpdateProducts(reply: Reply) returns (err: Option<string>)
      requires tx != null && tx.state == Open
      modifies tx
      ensures tx.attempted == old(tx.attempted) + [Write(Products, Stmt(query, values))]
      ensures reply.Done? ==> err == None && tx.state == Open
      ensures reply.Refused? ==> err == Some("update product failed: " + reply.msg) && tx.state == RolledBack
    {
      var e := tx.Exec(Write(Products, Stmt(query, values)), reply);
      if e.Some? {
        tx.Rollback();
        return Some("update product failed: " + e.value);
      }
      err := None;
    }

    /** Moves the product to the requested category, if it names one with a non-zero id. */
    method UpdateCategoryQuery(reply: Reply) returns (err: Option<string>)
      requires ChangesCategory(req) ==> tx != null && tx.state == Open
      modifies tx
      ensures !ChangesCategory(req) ==>
        err == None && (tx != null ==> tx.state == old(tx.state) && tx.attempted == old(tx.attempted))
      ensures ChangesCategory(req) ==>
        tx.attempted == old(tx.attempted) + [Write(ProductsCategories, CategoryStmt(req))] &&
        (reply.Done? ==> err == None && tx.state == Open) &&
        (reply.Refused? ==>
          err == Some("update products_categories failed: " + reply.msg) && tx.state == RolledBack)
    {
      if req.category.None? {
        return None;
      }
      if req.category.value.id == 0 {
        return None;
      }
      var e := tx.Exec(Write(ProductsCategories, CategoryStmt(req)), reply);
      if e.Some? {
        tx.Rollback();
        return Some("update products_categories failed: " + e.value);
      }
      err := None;
    }

    /** Inserts one row per requested image: tuple i is ($3i+1, $3i+2, $3i+3). */
    method InsertImages(reply: Reply) returns (err: Option<string>)
      requires tx != null && tx.state == Open
      modifies tx
      ensures tx.attempted == old(tx.attempted) + [Write(Images, ImagesStmt(req.images, req.id))]
      ensures reply.Done? ==> err == None && tx.state == Open
      ensures reply.Refused? ==> err == Some("insert images failed: " + reply.msg) && tx.state == RolledBack
    {
      var stmt := BuildImageRows(req.images, req.id);
      var e := tx.Exec(Write(Images, stmt), reply);
      if e.Some? {
        tx.Rollback();
        return Some("insert images failed: " + e.value);
      }
      err := None;
    }

    /** Reads the product's current images outside the transaction; a failed read gives none. */
    method GetOldImages(read: Stmt -> Result<seq<Image>, string>) returns (images: seq<Image>)
      ensures images == OldImages(read, req.id)
      ensures read(OldImagesStmt(req.id)).Failure? ==> images == []
    {
      var answer := read(OldImagesStmt(req.id));
      if answer.Failure? {
        return [];
      }
      images := answer.value;
    }

    /** Asks the storage to delete the old images' files (its answer is ignored), then deletes the
        product's image rows; a refusal rolls back. */
    method DeleteOldImages(read: Stmt -> Result<seq<Image>, string>, removal: Option<string>, reply: Reply)
      returns (err: Option<string>)
      requires tx != null && tx.state == Open
      modifies tx, storage
      ensures tx.attempted == old(tx.attempted) + [Write(Images, DeleteImagesStmt(req.id))]
      ensures storage.deletions == old(storage.deletions) +
        (if OldImages(read, req.id) == [] then []
         else [ImageDestinations(ImagesFolder, OldImages(read, req.id))])
      ensures storage.uploads == old(storage.uploads)
      ensures reply.Done? ==> err == None && tx.state == Open
      ensures reply.Refused? ==> err == Some("delete images failed: " + reply.msg) && tx.state == RolledBack
    {
      var images := GetOldImages(read);
      if |images| > 0 {
        var deleteFileReq := DeleteRequests(ImagesFolder, images);
        var _ := storage.DeleteFiles(deleteFileReq, removal);
      }
      var e := tx.Exec(Write(Images, DeleteImagesStmt(req.id)), reply);
      if e.Some? {
        tx.Rollback();
        return Some("delete images failed: " + e.value);
      }
      err := None;
    }

    /** Commits; a failure is returned as it is, without a rollback. */
    method Commit(reply: Reply) returns (err: Option<string>)
      requires tx != null && tx.db == db
      modifies tx, db
      ensures tx.attempted == old(tx.attempted)
      ensures old(tx.state) == Open && reply.Done? ==>
        err == None && tx.state == Committed && db.tables == Apply(old(db.tables), tx.attempted)
      ensures old(tx.state) == Open && reply.Refused? ==>
        err == Some(reply.msg) && tx.state == CommitFailed && db.tables == old(db.tables)
    {
      err := tx.Commit(reply);
    }
  }

  // ---------------------------------------------------------------- the engineer

  class UpdateProductsEngineer {
    const builder: UpdateProductsBuilder

    constructor (builder: UpdateProductsBuilder)
      ensures this.builder == builder
    {
      this.builder := builder;
    }

    /** Appends the set fields to the statement, in the order title, description, price, with a
        comma after every field but the last. */
    method SumQueryFields()
      modifies builder
      ensures builder.values == old(builder.values) + FieldValues(Fields(builder.req))
      ensures builder.queryFields ==
        old(builder.queryFields) + FieldTexts(Fields(builder.req), |old(builder.values)|)
      ensures builder.query == old(builder.query) + Joined(builder.queryFields)
      ensures builder.tx == old(builder.tx)
    {
      AppendFields();
      JoinFields();
    }

    /** The first half of `sumQueryFields`: each field appender in turn. */
    method AppendFields()
      modifies builder
      ensures builder.values == old(builder.values) + FieldValues(Fields(builder.req))
      ensures builder.queryFields ==
        old(builder.queryFields) + FieldTexts(Fields(builder.req), |old(builder.values)|)
      ensures builder.query == old(builder.query) && builder.tx == old(builder.tx)
    {
      var b := builder;
      ghost var p, v0, f0 := b.req, b.values, b.queryFields;
      b.UpdateTitleQuery();
      ghost var v1, f1 := b.values, b.queryFields;
      b.UpdateDescriptionQuery();
      ghost var v2, f2 := b.values, b.queryFields;
      b.UpdatePriceQuery();
      FieldsAppended(p, v0, f0, v1, f1, v2, f2, b.values, b.queryFields);
    }

    /** The second half of `sumQueryFields`: the field texts are appended to the statement, each
        followed by a comma but the last. */
    method JoinFields()
      modifies builder
      ensures builder.query == old(builder.query) + Joined(builder.queryFields)
      ensures builder.queryFields == old(builder.queryFields) && builder.values == old(builder.values)
      ensures builder.tx == old(builder.tx)
    {
      var b := builder;
      var fields := b.queryFields;
      ghost var q0 := b.query;
      for i := 0 to |fields|
        invariant b.queryFields == fields && b.values == old(b.values)
        invariant b.tx == old(b.tx)
        invariant b.query == q0 + Separated(fields, i)
      {
        var query := b.query;
        if i != |fields| - 1 {
          b.SetQuery(query + fields[i] + [Text(",")]);
        } else {
          b.SetQuery(query + fields[i]);
        }
      }
      SeparatedJoined(fields, |fields|);
    }

    /** initQuery, sumQueryFields, closeQuery: on a fresh builder, the statement is `UpdateStmt`. */
    method BuildQuery()
      requires builder.query == [] && builder.values == [] && builder.queryFields == []
      modifies builder
      ensures Stmt(builder.query, builder.values) == UpdateStmt(builder.req)
      ensures builder.tx == old(builder.tx)
    {
      var b := builder;
      ghost var p := b.req;
      b.InitQuery();
      SumQueryFields();
      b.CloseQuery();
      assert b.values == FieldValues(Fields(p)) + [VText(p.id)];
      assert [] + FieldTexts(Fields(p), 0) == FieldTexts(Fields(p), 0);
      assert [] + UpdateHead == UpdateHead;
    }

    /** The row steps of UpdateProduct: the product row, then its category link when one is
        requested, stopping at the first refusal. */
    method WriteProduct(update: Reply, category: Reply) returns (err: Option<string>)
      requires builder.tx != null && builder.tx.state == Open
      modifies builder.tx
      ensures builder.tx.attempted == old(builder.tx.attempted) +
        [Write(Products, Stmt(builder.query, builder.values))] +
        (if update.Done? && ChangesCategory(builder.req)
         then [Write(ProductsCategories, CategoryStmt(builder.req))] else [])
      ensures update.Refused? ==>
        err == Some("update product failed: " + update.msg) && builder.tx.state == RolledBack
      ensures update.Done? && ChangesCategory(builder.req) && category.Refused? ==>
        err == Some("update products_categories failed: " + category.msg) &&
        builder.tx.state == RolledBack
      ensures update.Done? && (ChangesCategory(builder.req) ==> category.Done?) ==>
        err == None && builder.tx.state == Open
    {
      err := builder.UpdateProducts(update);
      if err.Some? {
        return;
      }
      err := builder.UpdateCategoryQuery(category);
    }

    /** The images step of UpdateProduct: the old images go, then the new ones are inserted,
        stopping at the first refusal. */
    method ReplaceImages(read: Stmt -> Result<seq<Image>, string>, removal: Option<string>,
                         deleteReply: Reply, insertReply: Reply) returns (err: Option<string>)
      requires builder.tx != null && builder.tx.state == Open
      modifies builder.tx, builder.storage
      ensures builder.tx.attempted == old(builder.tx.attempted) +
        [Write(Images, DeleteImagesStmt(builder.req.id))] +
        (if deleteReply.Refused? then [] else [Write(Images, ImagesStmt(builder.req.images, builder.req.id))])
      ensures builder.storage.deletions == old(builder.storage.deletions) +
        (if OldImages(read, builder.req.id) == [] then []
         else [ImageDestinations(ImagesFolder, OldImages(read, builder.req.id))])
      ensures deleteReply.Refused? ==>
        err == Some("delete images failed: " + deleteReply.msg) && builder.tx.state == RolledBack
      ensures deleteReply.Done? && insertReply.Refused? ==>
        err == Some("insert images failed: " + insertReply.msg) && builder.tx.state == RolledBack
      ensures deleteReply.Done? && insertReply.Done? ==> err == None && builder.tx.state == Open
    {
      err := builder.DeleteOldImages(read, removal, deleteReply);
      if err.Some? {
        return;
      }
      err := builder.InsertImages(insertReply);
    }

    /** update -> category -> (old images -> new images, only with images) -> commit, stopping at
        the first failure. The error of `initTransaction` is not checked. */
    method UpdateProduct(a: UpdateAnswers) returns (outcome: UpdateOutcome)
      requires builder.query == [] && builder.values == [] && builder.queryFields == []
      requires builder.tx == null
      modifies builder, builder.db, builder.storage
      ensures outcome == ExpectedUpdate(builder.req, a)
      ensures outcome == Updated ==>
        builder.db.tables == Apply(old(builder.db.tables), UpdateWrites(builder.req, a))
      ensures outcome != Updated ==> builder.db.tables == old(builder.db.tables)
      ensures builder.tx != null ==>
        builder.tx.attempted == UpdateWrites(builder.req, a) &&
        builder.tx.state == UpdateTxState(builder.req, a)
      ensures builder.storage.deletions ==
        old(builder.storage.deletions) + UpdateRemovals(builder.req, a)
    {
      var b := builder;
      var p := b.req;
      var _ := b.InitTransaction(a.begin);
      BuildQuery();
      if b.tx == null {
        return NilTxPanic;
      }
      var tx := b.tx;
      var err := WriteProduct(a.update, a.category);
      if err.Some? {
        return Failed(err.value);
      }
      if |p.images| > 0 {
        err := ReplaceImages(a.oldImages, a.removal, a.deleteImages, a.insertImages);
        if err.Some? {
          return Failed(err.value);
        }
      }
      assert StepsDone(p, a);
      assert tx.attempted == UpdateWrites(p, a);
      assert b.db.tables == old(b.db.tables);
      err := b.Commit(a.commit);
      if err.Some? {
        return Failed(err.value);
      }
      outcome := Updated;
    }
  }

  /** The three field appenders, run in turn, append exactly the request's fields. */
  lemma FieldsAppended(p: Product, v0: seq<Value>, f0: seq<Query>, v1: seq<Value>, f1: seq<Query>,
                       v2: seq<Value>, f2: seq<Query>, v3: seq<Value>, f3: seq<Query>)
    requires p.title != "" ==> v1 == v0 + [VText(p.title)] && f1 == f0 + [FieldText(Title, |v1|)]
    requires p.title == "" ==> v1 == v0 && f1 == f0
    requires p.description != "" ==>
      v2 == v1 + [VText(p.description)] && f2 == f1 + [FieldText(Description, |v2|)]
    requires p.description == "" ==> v2 == v1 && f2 == f1
    requires p.price != 0.0 && p.price < 0.0 ==>
      v3 == v2 + [VReal(p.price)] && f3 == f2 + [FieldText(Price, |v3|)]
    requires !(p.price != 0.0 && p.price < 0.0) ==> v3 == v2 && f3 == f2
    ensures v3 == v0 + FieldValues(Fields(p)) && f3 == f0 + FieldTexts(Fields(p), |v0|)
  {
    var t := if p.title != "" then [Field(Title, VText(p.title))] else [];
    var d := if p.description != "" then [Field(Description, VText(p.description))] else [];
    var r := if p.price != 0.0 && p.price < 0.0 then [Field(Price, VReal(p.price))] else [];
    assert v0 == v0 + FieldValues([]) && f0 == f0 + FieldTexts([], |v0|);
    FieldStep([], v0, f0, v0, f0, p.title != "", Field(Title, VText(p.title)), v1, f1);
    assert [] + t == t;
    FieldStep(t, v0, f0, v1, f1, p.description != "", Field(Description, VText(p.description)), v2, f2);
    FieldStep(t + d, v0, f0, v2, f2, p.price != 0.0 && p.price < 0.0, Field(Price, VReal(p.price)), v3, f3);
    assert Fields(p) == t + d + r;
  }

  /** One appender: when its condition holds it appends its field, numbered after the values so far. */
  lemma FieldStep(fs: seq<Field>, v0: seq<Value>, f0: seq<Query>, va: seq<Value>, fa: seq<Query>,
                  cond: bool, f: Field, vb: seq<Value>, fb: seq<Query>)
    requires va == v0 + FieldValues(fs) && fa == f0 + FieldTexts(fs, |v0|)
    requires cond ==> vb == va + [f.value] && fb == fa + [FieldText(f.column, |vb|)]
    requires !cond ==> vb == va && fb == fa
    ensures vb == v0 + FieldValues(fs + (if cond then [f] else [])) &&
            fb == f0 + FieldTexts(fs + (if cond then [f] else []), |v0|)
  {
    if cond {
      FieldTextsSnoc(fs, f, |v0|);
    } else {
      assert fs + [] == fs;
    }
  }

  lemma {:induction false} FieldTextsSnoc(fs: seq<Field>, f: Field, start: nat)
    ensures FieldTexts(fs + [f], start) == FieldTexts(fs, start) + [FieldText(f.column, start + |fs| + 1)]
    ensures FieldValues(fs + [f]) == FieldValues(fs) + [f.value]
    decreases |fs|
  {
    if fs == [] {
      assert [] + [f] == [f];
    } else {
      assert (fs + [f])[1..] == fs[1..] + [f];
      FieldTextsSnoc(fs[1..], f, start + 1);
    }
  }
}
