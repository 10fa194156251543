/** The product insert builder and engineer (modules/products/productPatterns/insertProducts.go).
    In one transaction the engineer inserts the product row (the store answers with the new id,
    which is written into the request), links the product to its category, inserts one row per
    image, and commits. The first failure ends the run; a failing insert rolls back first. */
module InsertProducts {
  import opened Wrappers
  import opened Models
  import opened Sql
  import opened Transactions
  import opened ImageRows

  // ---------------------------------------------------------------- the statements

  const ProductText: Query :=
    Numbered(["INSERT INTO \"products\" (\"title\", \"description\", \"price\") VALUES (", ", ", ", ",
              ") RETURNING \"id\";"])

  /** Title, description and price, in that order. */
  function ProductStmt(p: Product): Stmt {
    Stmt(ProductText, [VText(p.title), VText(p.description), VReal(p.price)])
  }

  const LinkText: Query :=
    Numbered(["INSERT INTO \"products_categories\" (\"product_id\", \"category_id\") VALUES (", ", ", ");"])

  /** The product id is bound first and the category id second. */
  function LinkStmt(productId: string, c: Category): Stmt {
    Stmt(LinkText, [VText(productId), VInt(c.id)])
  }

  lemma ProductStmtInStep(p: Product)
    ensures InStep(ProductStmt(p).text, |ProductStmt(p).args|)
  {
    NumberedInStep(["INSERT INTO \"products\" (\"title\", \"description\", \"price\") VALUES (", ", ", ", ",
                    ") RETURNING \"id\";"]);
  }

  lemma LinkStmtInStep(productId: string, c: Category)
    ensures InStep(LinkStmt(productId, c).text, |LinkStmt(productId, c).args|)
  {
    NumberedInStep(["INSERT INTO \"products_categories\" (\"product_id\", \"category_id\") VALUES (", ", ", ");"]);
  }

  // ---------------------------------------------------------------- the run, as a specification

  /** The store's answers to one run of InsertProduct, in the order they are asked for; the
      product insert answers with the new id. */
  datatype InsertAnswers = InsertAnswers(
    begin: Reply,
    product: Result<string, string>,
    category: Reply,
    images: Reply,
    commit: Reply)

  /** `Inserted(id)` stands for `(id, nil)`, `Failed(msg)` for `("", err)`; a request without a
      category is dereferenced by the category step. */
  datatype InsertOutcome = Inserted(id: string) | Failed(msg: string) | NilCategoryPanic

  function ExpectedInsert(p: Product, a: InsertAnswers): InsertOutcome {
    if a.begin.Refused? then Failed(a.begin.msg)
    else if a.product.Failure? then Failed("insert product failed: " + a.product.error)
    else if p.category.None? then NilCategoryPanic
    else if a.category.Refused? then Failed("insert product category Failed: " + a.category.msg)
    else if a.images.Refused? then Failed("insert images failed: " + a.images.msg)
    else if a.commit.Refused? then Failed(a.commit.msg)
    else Inserted(a.product.value)
  }

  /** The statements sent in the transaction, in order, up to and including a refused one. */
  function InsertWrites(p: Product, a: InsertAnswers): seq<Write> {
    if a.begin.Refused? then []
    else if a.product.Failure? || p.category.None? then [Write(Products, ProductStmt(p))]
    else
      [Write(Products, ProductStmt(p)), Write(ProductsCategories, LinkStmt(a.product.value, p.category.value))] +
      (if a.category.Refused? then [] else [Write(Images, ImagesStmt(p.images, a.product.value))])
  }

  /** The transaction's final state when it began: a panic leaves it open. */
  function InsertTxState(p: Product, a: InsertAnswers): TxState {
    if a.product.Failure? then RolledBack
    else if p.category.None? then Open
    else if a.category.Refused? || a.images.Refused? then RolledBack
    else if a.commit.Done? then Committed
    else CommitFailed
  }

  /** The request after the run: the product insert writes the new id into it. */
  function InsertedRequest(p: Product, a: InsertAnswers): Product {
    if a.begin.Done? && a.product.Success? then p.(id := a.product.value) else p
  }

  /** The insert succeeds exactly when every step and the commit succeed, and then returns the id
      the store generated. */
  lemma InsertSucceedsExactly(p: Product, a: InsertAnswers)
    ensures ExpectedInsert(p, a).Inserted? <==>
      a.begin.Done? && a.product.Success? && p.category.Some? && a.category.Done? &&
      a.images.Done? && a.commit.Done?
    ensures ExpectedInsert(p, a).Inserted? ==>
      ExpectedInsert(p, a).id == a.product.value == InsertedRequest(p, a).id
  {
  }

  /** The writes of a run that got past the product insert: the product row, the category link
      and, unless the link was refused, the image rows. */
  lemma WritesInStep(ws: seq<Write>, product: Stmt, link: Stmt, images: Stmt, linkRefused: bool)
    requires InStep(product.text, |product.args|) && InStep(link.text, |link.args|)
    requires InStep(images.text, |images.args|)
    requires ws == [Write(Products, product), Write(ProductsCategories, link)] +
                   (if linkRefused then [] else [Write(Images, images)])
    ensures forall w :: w in ws ==> InStep(w.stmt.text, |w.stmt.args|)
  {
  }

  /** Every statement the insert sends has its placeholders in step with its values, the images
      statement included when there are no images. */
  lemma InsertWritesInStep(p: Product, a: InsertAnswers)
    ensures forall w :: w in InsertWrites(p, a) ==> InStep(w.stmt.text, |w.stmt.args|)
  {
    ProductStmtInStep(p);
    if a.begin.Done? && a.product.Success? && p.category.Some? {
      var id := a.product.value;
      LinkStmtInStep(id, p.category.value);
      ImagesStmtInStep(p.images, id);
      WritesInStep(InsertWrites(p, a), ProductStmt(p), LinkStmt(id, p.category.value), ImagesStmt(p.images, id),
                   a.category.Refused?);
    }
  }

  /** A successful insert writes the product, then its category link carrying the new id, then
      its images, each row carrying the new id. */
  lemma InsertWritesOnSuccess(p: Product, a: InsertAnswers)
    requires ExpectedInsert(p, a).Inserted?
    ensures InsertWrites(p, a) ==
      [Write(Products, ProductStmt(p)),
       Write(ProductsCategories, LinkStmt(a.product.value, p.category.value)),
       Write(Images, ImagesStmt(p.images, a.product.value))]
    ensures forall i :: 0 <= i < |p.images| ==>
      InsertWrites(p, a)[2].stmt.args[3 * i + 2] == VText(ExpectedInsert(p, a).id)
  {
    ImageValuesIndex(p.images, a.product.value);
  }

  // ---------------------------------------------------------------- the builder

  class InsertProductsBuilder {
    const db: Database
    var tx: Tx?
    /** The request, shared with the caller: the product insert writes the new id into it. */
    var req: Product

    /** `InsertProductBuilder(db, req)`. */
    constructor (db: Database, req: Product)
      ensures this.db == db && this.req == req && tx == null
    {
      this.db := db;
      this.req := req;
      tx := null;
    }

    method InitTransaction(begin: Reply) returns (err: Option<string>)
      modifies this
      ensures begin.Done? ==>
        err == None && tx != null && fresh(tx) && tx.db == db && tx.state == Open && tx.attempted == []
      ensures begin.Refused? ==> err == Some(begin.msg) && tx == old(tx)
      ensures req == old(req)
    {
      if begin.Refused? {
        return Some(begin.msg);
      }
      tx := new Tx.Begin(db);
      err := None;
    }

    /** Inserts the product row and scans the generated id into the request. */
    method InsertProduct(reply: Result<string, string>) returns (err: Option<string>)
      requires tx != null && tx.state == Open
      modifies this, tx
      ensures tx == old(tx)
      ensures tx.attempted == old(tx.attempted) + [Write(Products, ProductStmt(old(req)))]
      ensures reply.Success? ==> err == None && tx.state == Open && req == old(req).(id := reply.value)
      ensures reply.Failure? ==>
        err == Some("insert product failed: " + reply.error) && tx.state == RolledBack && req == old(req)
    {
      var r := tx.Insert(Write(Products, ProductStmt(req)), reply);
      if r.Failure? {
        tx.Rollback();
        return Some("insert product failed: " + r.error);
      }
      req := req.(id := r.value);
      err := None;
    }

    /** Links the product to its category; the source dereferences the category, so a request
        without one never gets here. */
    method InsertCategory(reply: Reply) returns (err: Option<string>)
      requires tx != null && tx.state == Open && req.category.Some?
      modifies tx
      ensures tx.attempted == old(tx.attempted) + [Write(ProductsCategories, LinkStmt(req.id, req.category.value))]
      ensures reply.Done? ==> err == None && tx.state == Open
      ensures reply.Refused? ==>
        err == Some("insert product category Failed: " + reply.msg) && tx.state == RolledBack
    {
      var e := tx.Exec(Write(ProductsCategories, LinkStmt(req.id, req.category.value)), reply);
      if e.Some? {
        tx.Rollback();
        return Some("insert product category Failed: " + e.value);
      }
      err := None;
    }

    /** Inserts one row per image: tuple i is ($3i+1, $3i+2, $3i+3); with no images the statement
        has no tuples and is sent all the same. */
    method InsertAttachment(reply: Reply) returns (err: Option<string>)
      requires tx != null && tx.state == Open
      modifies tx
      ensures tx.attempted == old(tx.attempted) + [Write(Images, ImagesStmt(req.images, req.id))]
      ensures reply.Done? ==> err == None && tx.state == Open
      ensures reply.Refused? ==> err == Some("insert images failed: " + reply.msg) && tx.state == RolledBack
    {
      var stmt := BuildImageRows(req.images, req.id);
      var e := tx.Exec(Write(Images, stmt), reply);
      if e.Some? {
        tx.Rollback();
        return Some("insert images failed: " + e.value);
      }
      err := None;
    }

    /** Commits; a failure is returned as it is, without a rollback. */
    method Commit(reply: Reply) returns (err: Option<string>)
      requires tx != null && tx.db == db
      modifies tx, db
      ensures tx.attempted == old(tx.attempted)
      ensures old(tx.state) == Open && reply.Done? ==>
        err == None && tx.state == Committed && db.tables == Apply(old(db.tables), tx.attempted)
      ensures old(tx.state) == Open && reply.Refused? ==>
        err == Some(reply.msg) && tx.state == CommitFailed && db.tables == old(db.tables)
    {
      err := tx.Commit(reply);
    }

    method GetProductId() returns (id: string)
      ensures id == req.id
    {
      id := req.id;
    }
  }

  // ---------------------------------------------------------------- the engineer

  class InsertProductsEngineer {
    const builder: InsertProductsBuilder

    constructor (builder: InsertProductsBuilder)
      ensures this.builder == builder
    {
      this.builder := builder;
    }

    /** The category link, then the image rows, stopping at the first refusal. */
    method LinkAndAttach(category: Reply, images: Reply) returns (err: Option<string>)
      requires builder.tx != null && builder.tx.state == Open && builder.req.category.Some?
      modifies builder.tx
      ensures builder.tx.attempted == old(builder.tx.attempted) +
        [Write(ProductsCategories, LinkStmt(builder.req.id, builder.req.category.value))] +
        (if category.Refused? then [] else [Write(Images, ImagesStmt(builder.req.images, builder.req.id))])
      ensures category.Refused? ==>
        err == Some("insert product category Failed: " + category.msg) && builder.tx.state == RolledBack
      ensures category.Done? && images.Refused? ==>
        err == Some("insert images failed: " + images.msg) && builder.tx.state == RolledBack
      ensures category.Done? && images.Done? ==> err == None && builder.tx.state == Open
    {
      err := builder.InsertCategory(category);
      if err.Some? {
        return;
      }
      err := builder.InsertAttachment(images);
    }

    /** initTransaction -> insertProduct -> insertCategory -> insertAttachment -> commit, stopping
        at the first failure; on success the id the store generated. */
    method InsertProduct(a: InsertAnswers) returns (outcome: InsertOutcome)
      requires builder.tx == null
      modifies builder, builder.db
      ensures outcome == ExpectedInsert(old(builder.req), a)
      ensures builder.req == InsertedRequest(old(builder.req), a)
      ensures outcome.Inserted? ==>
        builder.db.tables == Apply(old(builder.db.tables), InsertWrites(old(builder.req), a))
      ensures !outcome.Inserted? ==> builder.db.tables == old(builder.db.tables)
      ensures a.begin.Refused? <==> builder.tx == null
      ensures builder.tx != null ==>
        builder.tx.attempted == InsertWrites(old(builder.req), a) &&
        builder.tx.state == InsertTxState(old(builder.req), a)
    {
      var b := builder;
      ghost var p := b.req;
      var err := b.InitTransaction(a.begin);
      if err.Some? {
        return Failed(err.value);
      }
      err := b.InsertProduct(a.product);
      if err.Some? {
        return Failed(err.value);
      }
      if b.req.category.None? {
        return NilCategoryPanic;
      }
      err := LinkAndAttach(a.category, a.images);
      if err.Some? {
        return Failed(err.value);
      }
      assert b.tx.attempted == InsertWrites(p, a);
      err := b.Commit(a.commit);
      if err.Some? {
        return Failed(err.value);
      }
      var id := b.GetProductId();
      outcome := Inserted(id);
    }
  }
}
