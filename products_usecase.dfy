/** The products usecase (modules/products/productsUsecases/productsUsecase.go): each operation
    calls the repository once and passes its result or its error through; the list operation
    wraps the products and their count in a page. */
module ProductsUsecases {
  import opened Wrappers
  import opened Models
  import opened Sql
  import opened Transactions
  import opened FindProducts
  import opened InsertProducts
  import opened UpdateProducts
  import opened ProductsRepositories
  import opened Paging

  /** The page FindProducts returns for filter `f`: the listed products, the request's page and
      limit, the count, and the number of pages of `limit` items that hold it. */
  function ProductsPage(f: ProductFilter, products: seq<Product>, count: int): (r: PaginateRes<seq<Product>>)
    requires f.limit > 0
    ensures r.data == products && r.page == f.page && r.limit == f.limit && r.totalItem == count
    ensures (r.totalPage - 1) * f.limit < count <= r.totalPage * f.limit
  {
    TotalPageIsCeiling(count, f.limit);
    PaginateRes(products, f.page, f.limit, count, TotalPage(count, f.limit))
  }

  class ProductsUsecase {
    const repository: ProductsRepository

    constructor (repository: ProductsRepository)
      ensures this.repository == repository
    {
      this.repository := repository;
    }

    /** The repository's product, or its error unchanged. */
    method FindOneProduct(get: Stmt -> Result<string, string>,
                          unmarshal: (string, Product) -> Result<Product, string>, id: string)
      returns (r: Result<Product, string>)
      ensures r == ProductsRepositories.FindOneProduct(get, unmarshal, id)
    {
      var product := ProductsRepositories.FindOneProduct(get, unmarshal, id);
      if product.Failure? {
        return Failure(product.error);
      }
      r := Success(product.value);
    }

    /** The listed products and their count, as a page. */
    method FindProducts(f: ProductFilter, readList: Stmt -> Fetched<seq<Product>>,
                        readCount: Stmt -> Result<int, string>)
      returns (res: PaginateRes<seq<Product>>)
      requires f.limit > 0
      ensures res == ProductsPage(f, Listed(f, readList), Counted(f, readList, readCount))
    {
      var products, count := repository.FindProducts(f, readList, readCount);
      res := PaginateRes(products, f.page, f.limit, count, TotalPage(count, f.limit));
    }

    /** The inserted product read back, or the repository's error unchanged. */
    method AddProducts(req: Product, a: InsertAnswers, get: Stmt -> Result<string, string>,
                       unmarshal: (string, Product) -> Result<Product, string>)
      returns (r: Outcome<Product>)
      modifies repository.db
      ensures r == ExpectedInsertProducts(req, a, get, unmarshal)
      ensures ExpectedInsert(req, a).Inserted? ==>
        repository.db.tables == Apply(old(repository.db.tables), InsertWrites(req, a))
      ensures !ExpectedInsert(req, a).Inserted? ==> repository.db.tables == old(repository.db.tables)
    {
      var product := repository.InsertProducts(req, a, get, unmarshal);
      if product.Err? {
        return Err(product.msg);
      }
      r := product;
    }

    /** The updated product read back, or the repository's error unchanged. */
    method UpdateProduct(req: Product, a: UpdateAnswers, get: Stmt -> Result<string, string>,
                         unmarshal: (string, Product) -> Result<Product, string>)
      returns (r: Outcome<Product>)
      modifies repository.db, repository.storage
      ensures r == ExpectedUpdateProduct(req, a, get, unmarshal)
      ensures ExpectedUpdate(req, a) == Updated ==>
        repository.db.tables == Apply(old(repository.db.tables), UpdateWrites(req, a))
      ensures ExpectedUpdate(req, a) != Updated ==> repository.db.tables == old(repository.db.tables)
      ensures repository.storage.deletions ==
        old(repository.storage.deletions) + UpdateRemovals(req, a)
    {
      var product := repository.UpdateProduct(req, a, get, unmarshal);
      if product.Err? {
        return Err(product.msg);
      }
      r := product;
    }

    /** The repository's error, unchanged. */
    method DeleteProduct(id: string, reply: Reply) returns (err: Option<string>)
      modifies repository.db
      ensures reply.Done? ==>
        err == None && repository.db.tables == Apply(old(repository.db.tables), [Write(Products, DeleteStmt(id))])
      ensures reply.Refused? ==>
        err == Some("delete product failed: " + reply.msg) && repository.db.tables == old(repository.db.tables)
    {
      err := repository.DeleteProduct(id, reply);
    }
  }
}
