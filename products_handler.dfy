/** The products handler (modules/products/productsHandlers/productsHandler.go). Each operation
    takes what the HTTP request carried (a path id, or the outcome of parsing the query or the
    body) and answers through a response object. The list filter is given defaults before it
    reaches the usecase; a new product needs a positive category id; an update takes its id from
    the path; a delete removes the product's files from storage before its row. */
module ProductsHandlers {
  import opened Wrappers
  import opened Models
  import opened Text
  import opened Sql
  import opened Transactions
  import opened Storage
  import opened InsertProducts
  import opened UpdateProducts
  import opened ProductsRepositories
  import opened ProductsUsecases
  import opened Responses

  const FindOneProductErr := "product-001"
  const FindProductsErr := "product-002"
  const InsertProductErr := "product-003"
  const UpdateProductErr := "product-004"
  const DeleteProductErr := "product-005"

  /** Where a product's files live in storage, as the delete handler names them. */
  const DeletePrefix := "Images/test/"

  // ---------------------------------------------------------------- the list filter

  /** The filter after the handler's defaults: page at least 1, limit at least 5, and an order
      key and a direction when none was given. */
  function Normalised(f: ProductFilter): (g: ProductFilter)
    ensures g.page >= 1 && g.limit >= 5 && g.orderBy != "" && g.sort != ""
    ensures g.id == f.id && g.search == f.search
  {
    f.(page := if f.page < 1 then 1 else f.page,
       limit := if f.limit < 5 then 5 else f.limit,
       orderBy := if f.orderBy == "" then "title" else f.orderBy,
       sort := if f.sort == "" then "ASC" else f.sort)
  }

  /** The defaults change a filter exactly when it lacks one of them; what the client sent
      within range is kept, and a second pass changes nothing. */
  lemma NormalisedKeeps(f: ProductFilter)
    ensures Normalised(f) == f <==> f.page >= 1 && f.limit >= 5 && f.orderBy != "" && f.sort != ""
    ensures f.page >= 1 ==> Normalised(f).page == f.page
    ensures f.limit >= 5 ==> Normalised(f).limit == f.limit
    ensures f.orderBy != "" ==> Normalised(f).orderBy == f.orderBy
    ensures f.sort != "" ==> Normalised(f).sort == f.sort
    ensures Normalised(Normalised(f)) == Normalised(f)
  {
    var g := Normalised(f);
    if g == f {
      assert f.page == g.page && f.limit == g.limit && f.orderBy == g.orderBy && f.sort == g.sort;
    }
  }

  // ---------------------------------------------------------------- the answers, as specifications

  function ExpectedFindOne(get: Stmt -> Result<string, string>,
                           unmarshal: (string, Product) -> Result<Product, string>, pathId: string): Sent<Product> {
    var found := ProductsRepositories.FindOneProduct(get, unmarshal, TrimSpaces(pathId));
    if found.Failure? then ErrorSent(StatusInternalServerError, FindOneProductErr, found.error)
    else DataSent(StatusOK, Some(found.value))
  }

  function ExpectedFindProducts(parsed: Result<ProductFilter, string>, readList: Stmt -> Fetched<seq<Product>>,
                                readCount: Stmt -> Result<int, string>): Sent<PaginateRes<seq<Product>>> {
    if parsed.Failure? then ErrorSent(StatusBadRequest, FindProductsErr, parsed.error)
    else
      var f := Normalised(parsed.value);
      DataSent(StatusOK, Some(ProductsPage(f, Listed(f, readList), Counted(f, readList, readCount))))
  }

  /** Whether the parsed body of a new product gets past the category check. */
  predicate CategoryAccepted(p: Product) {
    p.category.Some? && p.category.value.id > 0
  }

  function ExpectedAddProducts(body: Result<Product, string>, a: InsertAnswers, get: Stmt -> Result<string, string>,
                               unmarshal: (string, Product) -> Result<Product, string>): Handled<Product> {
    if body.Failure? then Responded(ErrorSent(StatusBadRequest, InsertProductErr, body.error))
    else if body.value.category.None? then Panicked
    else if body.value.category.value.id <= 0 then
      Responded(ErrorSent(StatusBadRequest, InsertProductErr, "category id is invalid"))
    else
      match ExpectedInsertProducts(body.value, a, get, unmarshal)
      case Ok(p) => Responded(DataSent(StatusCreated, Some(p)))
      case Err(msg) => Responded(ErrorSent(StatusInternalServerError, InsertProductErr, msg))
      case Panic => Panicked
  }

  /** The product the update handler passes on: the body, under the id from the path. */
  function UpdateRequest(pathId: string, p: Product): Product {
    p.(id := TrimSpaces(pathId))
  }

  function ExpectedUpdateProducts(pathId: string, body: Result<Product, string>, a: UpdateAnswers,
                                  get: Stmt -> Result<string, string>,
                                  unmarshal: (string, Product) -> Result<Product, string>): Handled<Product> {
    if body.Failure? then Responded(ErrorSent(StatusBadRequest, UpdateProductErr, body.error))
    else
      match ExpectedUpdateProduct(UpdateRequest(pathId, body.value), a, get, unmarshal)
      case Ok(p) => Responded(DataSent(StatusOK, Some(p)))
      case Err(msg) => Responded(ErrorSent(StatusInternalServerError, UpdateProductErr, msg))
      case Panic => Panicked
  }

  function ExpectedDelete(get: Stmt -> Result<string, string>,
                          unmarshal: (string, Product) -> Result<Product, string>, pathId: string,
                          storageAnswer: Option<string>, reply: Reply): Sent<()> {
    var found := ProductsRepositories.FindOneProduct(get, unmarshal, TrimSpaces(pathId));
    if found.Failure? then ErrorSent(StatusInternalServerError, DeleteProductErr, found.error)
    else if storageAnswer.Some? then ErrorSent(StatusInternalServerError, DeleteProductErr, storageAnswer.value)
    else if reply.Refused? then ErrorSent(StatusInternalServerError, DeleteProductErr, "delete product failed: " + reply.msg)
    else DataSent(StatusOK, None)
  }

  // ---------------------------------------------------------------- what the answers mean

  /** A product is created (201) exactly when the body parses, names a positive category, and
      the insert and its read-back succeed; the category check answers 400 before any insert. */
  lemma AddProductsCreated(body: Result<Product, string>, a: InsertAnswers, get: Stmt -> Result<string, string>,
                           unmarshal: (string, Product) -> Result<Product, string>)
    ensures ExpectedAddProducts(body, a, get, unmarshal).Responded? &&
            ExpectedAddProducts(body, a, get, unmarshal).sent.status == StatusCreated <==>
      body.Success? && CategoryAccepted(body.value) && ExpectedInsert(body.value, a).Inserted? &&
      FindOneProduct(get, unmarshal, ExpectedInsert(body.value, a).id).Success?
    ensures body.Success? && body.value.category.Some? && !CategoryAccepted(body.value) ==>
      ExpectedAddProducts(body, a, get, unmarshal) ==
        Responded(ErrorSent(StatusBadRequest, InsertProductErr, "category id is invalid"))
  {
    if body.Success? && CategoryAccepted(body.value) {
      InsertReadsBackNewId(body.value, a, get, unmarshal);
      InsertSucceedsExactly(body.value, a);
    }
  }

  /** The id in an update's body plays no part: only the path's id is used. */
  lemma UpdateIgnoresBodyId(pathId: string, p: Product, bodyId: string, a: UpdateAnswers,
                            get: Stmt -> Result<string, string>,
                            unmarshal: (string, Product) -> Result<Product, string>)
    ensures ExpectedUpdateProducts(pathId, Success(p), a, get, unmarshal) ==
            ExpectedUpdateProducts(pathId, Success(p.(id := bodyId)), a, get, unmarshal)
    ensures UpdateRequest(pathId, p).id == TrimSpaces(pathId)
  {
    var q := p.(id := bodyId);
    assert UpdateRequest(pathId, p) == UpdateRequest(pathId, q);
    SameUpdateRequest(pathId, p, q, a, get, unmarshal);
  }

  /** Two bodies that make the same request get the same answer. */
  lemma SameUpdateRequest(pathId: string, p: Product, q: Product, a: UpdateAnswers,
                          get: Stmt -> Result<string, string>,
                          unmarshal: (string, Product) -> Result<Product, string>)
    requires UpdateRequest(pathId, p) == UpdateRequest(pathId, q)
    ensures ExpectedUpdateProducts(pathId, Success(p), a, get, unmarshal) ==
            ExpectedUpdateProducts(pathId, Success(q), a, get, unmarshal)
  {
  }

  /** A delete answers 200 exactly when the lookup, the storage delete and the row delete all
      succeed. */
  lemma DeleteSucceedsExactly(get: Stmt -> Result<string, string>,
                              unmarshal: (string, Product) -> Result<Product, string>, pathId: string,
                              storageAnswer: Option<string>, reply: Reply)
    ensures ExpectedDelete(get, unmarshal, pathId, storageAnswer, reply).status == StatusOK <==>
      FindOneProduct(get, unmarshal, TrimSpaces(pathId)).Success? && storageAnswer.None? && reply.Done?
    ensures ExpectedDelete(get, unmarshal, pathId, storageAnswer, reply).status != StatusOK ==>
      ExpectedDelete(get, unmarshal, pathId, storageAnswer, reply).status == StatusInternalServerError &&
      ExpectedDelete(get, unmarshal, pathId, storageAnswer, reply).body.ErrorBody?
  {
  }

  // ---------------------------------------------------------------- the handler

  class ProductsHandler {
    const usecase: ProductsUsecase
    /** The files usecase, through which the delete handler removes the product's files. */
    const files: FileStorage

    constructor (usecase: ProductsUsecase, files: FileStorage)
      ensures this.usecase == usecase && this.files == files
    {
      this.usecase := usecase;
      this.files := files;
    }

    /** Looks the product up by the path id with its spaces trimmed. */
    method FindOneProduct(pathId: string, get: Stmt -> Result<string, string>,
                          unmarshal: (string, Product) -> Result<Product, string>)
      returns (s: Sent<Product>)
      ensures s == ExpectedFindOne(get, unmarshal, pathId)
    {
      var productId := TrimSpaces(pathId);
      var product := usecase.FindOneProduct(get, unmarshal, productId);
      if product.Failure? {
        s := RespondError(StatusInternalServerError, FindOneProductErr, product.error);
        return;
      }
      s := RespondSuccess(StatusOK, Some(product.value));
    }

    /** Gives the parsed filter its defaults, field by field, and answers with the page. */
    method FindProducts(parsed: Result<ProductFilter, string>, readList: Stmt -> Fetched<seq<Product>>,
                        readCount: Stmt -> Result<int, string>)
      returns (s: Sent<PaginateRes<seq<Product>>>)
      ensures s == ExpectedFindProducts(parsed, readList, readCount)
    {
      if parsed.Failure? {
        s := RespondError(StatusBadRequest, FindProductsErr, parsed.error);
        return;
      }
      var req := parsed.value;
      if req.page < 1 {
        req := req.(page := 1);
      }
      if req.limit < 5 {
        req := req.(limit := 5);
      }
      if req.orderBy == "" {
        req := req.(orderBy := "title");
      }
      if req.sort == "" {
        req := req.(sort := "ASC");
      }
      assert req == Normalised(parsed.value);
      var products := usecase.FindProducts(req, readList, readCount);
      s := RespondSuccess(StatusOK, Some(products));
    }

    /** Rejects a body without a positive category id before anything is inserted. */
    method AddProducts(body: Result<Product, string>, a: InsertAnswers, get: Stmt -> Result<string, string>,
                       unmarshal: (string, Product) -> Result<Product, string>)
      returns (h: Handled<Product>)
      modifies usecase.repository.db
      ensures h == ExpectedAddProducts(body, a, get, unmarshal)
      ensures body.Success? && CategoryAccepted(body.value) && ExpectedInsert(body.value, a).Inserted? ==>
        usecase.repository.db.tables == Apply(old(usecase.repository.db.tables), InsertWrites(body.value, a))
      ensures !(body.Success? && CategoryAccepted(body.value) && ExpectedInsert(body.value, a).Inserted?) ==>
        usecase.repository.db.tables == old(usecase.repository.db.tables)
    {
      if body.Failure? {
        var s := RespondError(StatusBadRequest, InsertProductErr, body.error);
        return Responded(s);
      }
      var req := body.value;
      if req.category.None? {
        return Panicked;
      }
      if req.category.value.id <= 0 {
        var s := RespondError(StatusBadRequest, InsertProductErr, "category id is invalid");
        return Responded(s);
      }
      var product := usecase.AddProducts(req, a, get, unmarshal);
      match product
      case Err(msg) =>
        var s := RespondError(StatusInternalServerError, InsertProductErr, msg);
        h := Responded(s);
      case Panic =>
        h := Panicked;
      case Ok(p) =>
        var s := RespondSuccess(StatusCreated, Some(p));
        h := Responded(s);
    }

    /** Updates the product named by the path, whatever id the body carries. */
    method UpdateProducts(pathId: string, body: Result<Product, string>, a: UpdateAnswers,
                          get: Stmt -> Result<string, string>,
                          unmarshal: (string, Product) -> Result<Product, string>)
      returns (h: Handled<Product>)
      modifies usecase.repository.db, usecase.repository.storage
      ensures h == ExpectedUpdateProducts(pathId, body, a, get, unmarshal)
      ensures body.Success? && ExpectedUpdate(UpdateRequest(pathId, body.value), a) == Updated ==>
        usecase.repository.db.tables ==
          Apply(old(usecase.repository.db.tables), UpdateWrites(UpdateRequest(pathId, body.value), a))
      ensures !(body.Success? && ExpectedUpdate(UpdateRequest(pathId, body.value), a) == Updated) ==>
        usecase.repository.db.tables == old(usecase.repository.db.tables)
    {
      var productId := TrimSpaces(pathId);
      if body.Failure? {
        var s := RespondError(StatusBadRequest, UpdateProductErr, body.error);
        return Responded(s);
      }
      var req := body.value;
      req := req.(id := productId);
      var product := usecase.UpdateProduct(req, a, get, unmarshal);
      match product
      case Err(msg) =>
        var s := RespondError(StatusInternalServerError, UpdateProductErr, msg);
        h := Responded(s);
      case Panic =>
        h := Panicked;
      case Ok(p) =>
        var s := RespondSuccess(StatusOK, Some(p));
        h := Responded(s);
    }

    /** Looks the product up, asks storage to delete one file per image, and only then deletes
        the row; `storageAnswer` is the storage's error, if any. */
    method DeleteProduct(pathId: string, get: Stmt -> Result<string, string>,
                         unmarshal: (string, Product) -> Result<Product, string>,
                         storageAnswer: Option<string>, reply: Reply)
      returns (s: Sent<()>)
      modifies files, usecase.repository.db
      ensures s == ExpectedDelete(get, unmarshal, pathId, storageAnswer, reply)
      ensures var found := ProductsRepositories.FindOneProduct(get, unmarshal, TrimSpaces(pathId));
        files.deletions == old(files.deletions) +
          (if found.Success? then [ImageDestinations(DeletePrefix, found.value.images)] else [])
      ensures var found := ProductsRepositories.FindOneProduct(get, unmarshal, TrimSpaces(pathId));
        usecase.repository.db.tables ==
          if found.Success? && storageAnswer.None? && reply.Done?
          then Apply(old(usecase.repository.db.tables), [Write(Products, DeleteStmt(TrimSpaces(pathId)))])
          else old(usecase.repository.db.tables)
    {
      var productId := TrimSpaces(pathId);
      var product := usecase.FindOneProduct(get, unmarshal, productId);
      if product.Failure? {
        s := RespondError(StatusInternalServerError, DeleteProductErr, product.error);
        return;
      }
      var images := product.value.images;
      var deleteFileReq := DeleteRequests(DeletePrefix, images);
      var err := files.DeleteFiles(deleteFileReq, storageAnswer);
      ghost var deletions := files.deletions;
      assert deletions == old(files.deletions) + [ImageDestinations(DeletePrefix, images)];
      if err.Some? {
        s := RespondError(StatusInternalServerError, DeleteProductErr, err.value);
        return;
      }
      err := usecase.DeleteProduct(productId, reply);
      assert files.deletions == deletions;
      if err.Some? {
        s := RespondError(StatusInternalServerError, DeleteProductErr, err.value);
        return;
      }
      s := RespondSuccess(StatusOK, None);
    }
  }
}
