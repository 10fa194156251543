/** The products repository (modules/products/productsRepositories/productsRepository.go): it
    composes the statement builders with a read-back of the stored product. The read of one
    product returns JSON text, which `json.Unmarshal` decodes into a product that starts with an
    empty image list; both are inputs here. */
module ProductsRepositories {
  import opened Wrappers
  import opened Models
  import opened Sql
  import opened Transactions
  import opened Storage
  import opened FindProducts
  import opened InsertProducts
  import opened UpdateProducts

  /** A call that returns a value, fails with an error, or dereferences a nil pointer. */
  datatype Outcome<+T> = Ok(value: T) | Err(msg: string) | Panic

  // ---------------------------------------------------------------- one product

  const FindOneText: Query :=
    Numbered(["SELECT to_jsonb(\"t\") FROM (SELECT \"p\".\"id\", \"p\".\"title\", \"p\".\"description\", " +
              "\"p\".\"price\", (category) AS \"category\", \"p\".\"created_at\", \"p\".\"updated_at\", " +
              "(images) AS \"images\" FROM \"products\" \"p\" WHERE \"p\".\"id\" = ", " LIMIT 1) AS \"t\";"])

  function FindOneStmt(id: string): Stmt {
    Stmt(FindOneText, [VText(id)])
  }

  /** What the JSON is decoded into: a product with no fields set and an empty image list. */
  const BlankProduct: Product := Product("", "", "", None, "", "", 0.0, [])

  /** `FindOneProduct(id)`: the read is answered by `get`, its JSON decoded by `unmarshal` into
      `BlankProduct`. A pass-through: its contract is exactly how each answer maps to the result,
      and ReadBack and InsertReadsBackNewId state what follows from it. */
  function FindOneProduct(get: Stmt -> Result<string, string>,
                          unmarshal: (string, Product) -> Result<Product, string>,
                          id: string): (r: Result<Product, string>)
    ensures get(FindOneStmt(id)).Failure? ==> r == Failure("get Product failed: " + get(FindOneStmt(id)).error)
    ensures get(FindOneStmt(id)).Success? ==>
      var decoded := unmarshal(get(FindOneStmt(id)).value, BlankProduct);
      r == if decoded.Failure? then Failure("unmarshl product failed :" + decoded.error) else decoded
  {
    var bytes := get(FindOneStmt(id));
    if bytes.Failure? then Failure("get Product failed: " + bytes.error)
    else
      var decoded := unmarshal(bytes.value, BlankProduct);
      if decoded.Failure? then Failure("unmarshl product failed :" + decoded.error)
      else Success(decoded.value)
  }

  /** The read of one product binds exactly its one value. */
  lemma FindOneStmtInStep(id: string)
    ensures InStep(FindOneStmt(id).text, |FindOneStmt(id).args|)
  {
    NumberedInStep(["SELECT to_jsonb(\"t\") FROM (SELECT \"p\".\"id\", \"p\".\"title\", \"p\".\"description\", " +
                    "\"p\".\"price\", (category) AS \"category\", \"p\".\"created_at\", \"p\".\"updated_at\", " +
                    "(images) AS \"images\" FROM \"products\" \"p\" WHERE \"p\".\"id\" = ", " LIMIT 1) AS \"t\";"]);
  }

  /** A re-read after a write: the error passes through, and a success reads the product back. */
  function ReadBack(get: Stmt -> Result<string, string>, unmarshal: (string, Product) -> Result<Product, string>,
                    id: string): (r: Outcome<Product>)
    ensures r.Ok? <==> FindOneProduct(get, unmarshal, id).Success?
    ensures r.Ok? ==> r.value == FindOneProduct(get, unmarshal, id).value
    ensures r.Err? ==> r.msg == FindOneProduct(get, unmarshal, id).error
  {
    var found := FindOneProduct(get, unmarshal, id);
    if found.Success? then Ok(found.value) else Err(found.error)
  }

  /** What InsertProducts returns. */
  function ExpectedInsertProducts(p: Product, a: InsertAnswers, get: Stmt -> Result<string, string>,
                                  unmarshal: (string, Product) -> Result<Product, string>): Outcome<Product> {
    match ExpectedInsert(p, a)
    case Inserted(id) => ReadBack(get, unmarshal, id)
    case Failed(msg) => Err(msg)
    case NilCategoryPanic => Panic
  }

  /** What UpdateProduct returns: the re-read uses the request's own id. */
  function ExpectedUpdateProduct(p: Product, a: UpdateAnswers, get: Stmt -> Result<string, string>,
                                 unmarshal: (string, Product) -> Result<Product, string>): Outcome<Product> {
    match ExpectedUpdate(p, a)
    case Updated => ReadBack(get, unmarshal, p.id)
    case Failed(msg) => Err(msg)
    case NilTxPanic => Panic
  }

  /** A product is read back after an insert only when the whole insert succeeded, and then under
      the id the store generated for it. */
  lemma InsertReadsBackNewId(p: Product, a: InsertAnswers, get: Stmt -> Result<string, string>,
                             unmarshal: (string, Product) -> Result<Product, string>)
    ensures ExpectedInsertProducts(p, a, get, unmarshal).Ok? ==>
      a.begin.Done? && a.product.Success? && a.commit.Done? &&
      ExpectedInsertProducts(p, a, get, unmarshal).value ==
        FindOneProduct(get, unmarshal, a.product.value).value
    ensures ExpectedInsert(p, a).Failed? ==>
      ExpectedInsertProducts(p, a, get, unmarshal) == Err(ExpectedInsert(p, a).msg)
  {
    if ExpectedInsertProducts(p, a, get, unmarshal).Ok? {
      InsertSucceedsExactly(p, a);
    }
  }

  const DeleteText: Query := Numbered(["DELETE FROM \"products\" WHERE \"id\" = ", ";"])

  function DeleteStmt(id: string): Stmt {
    Stmt(DeleteText, [VText(id)])
  }

  // ---------------------------------------------------------------- the repository

  class ProductsRepository {
    const db: Database
    const storage: FileStorage

    constructor (db: Database, storage: FileStorage)
      ensures this.db == db && this.storage == storage
    {
      this.db := db;
      this.storage := storage;
    }

    /** Runs the list statement and then the count statement on the same builder. The count
        statement is appended to whatever the builder holds: nothing after a list read that
        decoded, the list statement itself otherwise. */
    method FindProducts(f: ProductFilter, readList: Stmt -> Fetched<seq<Product>>,
                        readCount: Stmt -> Result<int, string>)
      returns (products: seq<Product>, count: int)
      ensures products == Listed(f, readList)
      ensures count == Counted(f, readList, readCount)
    {
      var builder := new FindProductBuilder(f);
      var engineer := new FindProductEngineer(builder);
      var _ := engineer.FindProduct();
      ListTextShape([], WhereText(f), AfterWhere(f, 0, 0) + 1, Sorted(f).sort, |WhereValues(f)| + 2);
      assert [] + FindText(f, 0, 0) == FindText(f, 0, 0);
      products := builder.Result(readList);
      ghost var q, v := builder.query, builder.values;
      var _ := engineer.CountProduct();
      assert builder.query == q + CountText(Sorted(f)) && builder.values == v + WhereValues(Sorted(f));
      assert [] + CountText(Sorted(f)) == CountText(Sorted(f));
      assert [] + WhereValues(Sorted(f)) == WhereValues(Sorted(f));
      assert [] + FindValues(f) == FindValues(f);
      assert Stmt(builder.query, builder.values) ==
        CountStmtAfter(f, readList(Stmt(FindText(f, 0, 0), FindValues(f))).Decoded?);
      count := builder.Count(readCount);
    }

    /** Inserts the product, then reads it back under its new id. */
    method InsertProducts(req: Product, a: InsertAnswers, get: Stmt -> Result<string, string>,
                          unmarshal: (string, Product) -> Result<Product, string>)
      returns (r: Outcome<Product>)
      modifies db
      ensures r == ExpectedInsertProducts(req, a, get, unmarshal)
      ensures ExpectedInsert(req, a).Inserted? ==> db.tables == Apply(old(db.tables), InsertWrites(req, a))
      ensures !ExpectedInsert(req, a).Inserted? ==> db.tables == old(db.tables)
    {
      var builder := new InsertProductsBuilder(db, req);
      var engineer := new InsertProductsEngineer(builder);
      var outcome := engineer.InsertProduct(a);
      match outcome
      case Inserted(id) => r := ReadBack(get, unmarshal, id);
      case Failed(msg) => r := Err(msg);
      case NilCategoryPanic => r := Panic;
    }

    /** Updates the product, then reads it back under the request's id. */
    method UpdateProduct(req: Product, a: UpdateAnswers, get: Stmt -> Result<string, string>,
                         unmarshal: (string, Product) -> Result<Product, string>)
      returns (r: Outcome<Product>)
      modifies db, storage
      ensures r == ExpectedUpdateProduct(req, a, get, unmarshal)
      ensures ExpectedUpdate(req, a) == Updated ==> db.tables == Apply(old(db.tables), UpdateWrites(req, a))
      ensures ExpectedUpdate(req, a) != Updated ==> db.tables == old(db.tables)
      ensures storage.deletions == old(storage.deletions) + UpdateRemovals(req, a)
    {
      var builder := new UpdateProductsBuilder(db, req, storage);
      var engineer := new UpdateProductsEngineer(builder);
      var outcome := engineer.UpdateProduct(a);
      match outcome
      case Updated => r := ReadBack(get, unmarshal, req.id);
      case Failed(msg) => r := Err(msg);
      case NilTxPanic => r := Panic;
    }

    /** Deletes the product row outside any transaction. */
    method DeleteProduct(id: string, reply: Reply) returns (err: Option<string>)
      modifies db
      ensures reply.Done? ==> err == None && db.tables == Apply(old(db.tables), [Write(Products, DeleteStmt(id))])
      ensures reply.Refused? ==>
        err == Some("delete product failed: " + reply.msg) && db.tables == old(db.tables)
    {
      var e := db.Exec(Write(Products, DeleteStmt(id)), reply);
      if e.Some? {
        return Some("delete product failed: " + e.value);
      }
      err := None;
    }
  }

  /** The products FindProducts returns: the decoded list, or none. */
  function Listed(f: ProductFilter, readList: Stmt -> Fetched<seq<Product>>): seq<Product> {
    var list := readList(Stmt(FindText(f, 0, 0), FindValues(f)));
    if list.Decoded? then list.value else []
  }

  /** The count FindProducts returns: the answer to its count statement, or 0. */
  function Counted(f: ProductFilter, readList: Stmt -> Fetched<seq<Product>>,
                   readCount: Stmt -> Result<int, string>): int {
    var answer := readCount(CountStmtAfter(f, readList(Stmt(FindText(f, 0, 0), FindValues(f))).Decoded?));
    if answer.Success? then answer.value else 0
  }

  /** The count statement FindProducts sends: after a list read that decoded, the count statement
      alone; otherwise the list statement followed by it, with both value lists. */
  function CountStmtAfter(f: ProductFilter, listDecoded: bool): Stmt {
    if listDecoded then Stmt(CountText(Sorted(f)), WhereValues(Sorted(f)))
    else Stmt(FindText(f, 0, 0) + CountText(Sorted(f)), FindValues(f) + WhereValues(Sorted(f)))
  }

  /** After a list read that decoded, the count statement's placeholders are in step with its
      values; the request's sort fields play no part in it. */
  lemma CountAfterListInStep(f: ProductFilter)
    ensures InStep(CountStmtAfter(f, true).text, |CountStmtAfter(f, true).args|)
    ensures CountStmtAfter(f, true) == Stmt(CountText(f), WhereValues(f))
  {
    CountInStep(Sorted(f));
  }
}
