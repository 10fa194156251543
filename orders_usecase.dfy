/** The orders usecase (modules/orders/odersUsecases/odersUsecase.go). Before an order is stored,
    every line's product is looked up: a line without a product, or a lookup that fails, ends the
    call. The order's total grows by each line's client-supplied price times its quantity, and the
    line then carries the stored product instead. The orders repository declares no operations,
    so its answers are inputs. */
module OrdersUsecases {
  import opened Wrappers
  import opened Models
  import opened Sql
  import opened ProductsRepositories
  import opened Paging

  /** The product lookup the usecase makes through the products repository. */
  type Lookup = string -> Result<Product, string>

  /** Why line `l` stops the insert, if it does: a missing product, or a failed lookup. */
  function LineError(l: ProductsOrder, lookup: Lookup): Option<string> {
    if l.product.None? then Some("product is nil")
    else if lookup(l.product.value.id).Failure? then Some(lookup(l.product.value.id).error)
    else None
  }

  /** The error of the first line that stops the insert, if any. */
  function FirstError(lines: seq<ProductsOrder>, lookup: Lookup): Option<string> {
    if lines == [] then None
    else if FirstError(lines[..|lines| - 1], lookup).Some? then FirstError(lines[..|lines| - 1], lookup)
    else LineError(lines[|lines| - 1], lookup)
  }

  /** What a line adds to the total: the price the client sent times the quantity. */
  function LinePrice(l: ProductsOrder): real {
    if l.product.Some? then l.product.value.price * (l.qty as real) else 0.0
  }

  /** The sum of the lines' client-side prices. */
  function ClientTotal(lines: seq<ProductsOrder>): real {
    if lines == [] then 0.0 else ClientTotal(lines[..|lines| - 1]) + LinePrice(lines[|lines| - 1])
  }

  /** A line carrying the stored product in place of the one the client sent. */
  function Snapshot(l: ProductsOrder, lookup: Lookup): ProductsOrder {
    if l.product.Some? && lookup(l.product.value.id).Success?
    then l.(product := Some(lookup(l.product.value.id).value))
    else l
  }

  function Snapshots(lines: seq<ProductsOrder>, lookup: Lookup): (r: seq<ProductsOrder>)
    ensures |r| == |lines| && forall i :: 0 <= i < |lines| ==> r[i] == Snapshot(lines[i], lookup)
  {
    seq(|lines|, i requires 0 <= i < |lines| => Snapshot(lines[i], lookup))
  }

  /** The order handed to the repository: the total raised by the client-side prices, every line
      carrying the stored product. */
  function Priced(req: Order, lookup: Lookup): Order {
    req.(totalPaid := req.totalPaid + ClientTotal(req.products), products := Snapshots(req.products, lookup))
  }

  /** No line stops the insert exactly when every line has a product that the lookup finds. */
  lemma {:induction false} FirstErrorNone(lines: seq<ProductsOrder>, lookup: Lookup)
    ensures FirstError(lines, lookup) == None <==>
      forall i :: 0 <= i < |lines| ==> lines[i].product.Some? && lookup(lines[i].product.value.id).Success?
  {
    if lines != [] {
      var init := lines[..|lines| - 1];
      FirstErrorNone(init, lookup);
      assert forall i :: 0 <= i < |init| ==> init[i] == lines[i];
    }
  }

  /** Once a prefix of the lines stops the insert, later lines change nothing. */
  lemma {:induction false} FirstErrorPrefix(lines: seq<ProductsOrder>, k: nat, lookup: Lookup)
    requires k <= |lines| && FirstError(lines[..k], lookup).Some?
    ensures FirstError(lines, lookup) == FirstError(lines[..k], lookup)
    decreases |lines|
  {
    if k < |lines| {
      var init := lines[..|lines| - 1];
      assert init[..k] == lines[..k];
      FirstErrorPrefix(init, k, lookup);
    } else {
      assert lines[..k] == lines;
    }
  }

  /** The total is additive over the lines, so it never depends on the stored prices. */
  lemma {:induction false} ClientTotalAppend(a: seq<ProductsOrder>, b: seq<ProductsOrder>)
    ensures ClientTotal(a + b) == ClientTotal(a) + ClientTotal(b)
    decreases |b|
  {
    if b == [] {
      assert a + b == a;
    } else {
      var init := b[..|b| - 1];
      assert (a + b)[..|a + b| - 1] == a + init;
      ClientTotalAppend(a, init);
    }
  }

  /** `FindOneOrder`: the repository's order, or its error. A pass-through: the contract is the
      promise that nothing is added or changed on the way. */
  function FindOneOrder(findOne: string -> Result<Order, string>, id: string): (r: Result<Order, string>)
    ensures r.Success? <==> findOne(id).Success?
    ensures r.Success? ==> r.value == findOne(id).value
    ensures r.Failure? ==> r.error == findOne(id).error
  {
    var order := findOne(id);
    if order.Failure? then Failure(order.error) else Success(order.value)
  }

  /** `FindOrder`: the repository's orders and count, as a page of `limit` items. */
  function FindOrder(findMany: OrderFilter -> (seq<Order>, int), f: OrderFilter): (r: PaginateRes<seq<Order>>)
    requires f.limit > 0
    ensures r.data == findMany(f).0 && r.totalItem == findMany(f).1
    ensures r.page == f.page && r.limit == f.limit
    ensures (r.totalPage - 1) * f.limit < r.totalItem <= r.totalPage * f.limit
  {
    var (orders, count) := findMany(f);
    TotalPageIsCeiling(count, f.limit);
    PaginateRes(orders, f.page, f.limit, count, TotalPage(count, f.limit))
  }

  /** `UpdateOrder`: a failed update ends the call; otherwise the order is read back by the
      request's id. A pass-through of the repository's two answers. */
  function UpdateOrder(update: Order -> Option<string>, findOne: string -> Result<Order, string>,
                       req: Order): (r: Result<Order, string>)
    ensures update(req).Some? ==> r == Failure(update(req).value)
    ensures update(req).None? ==> r == FindOneOrder(findOne, req.id)
  {
    var err := update(req);
    if err.Some? then Failure(err.value) else FindOneOrder(findOne, req.id)
  }

  /** `InsertOrder`: checks and prices the lines in order, stores the order, and reads it back by
      the id the repository returns. `sent` is the request as handed to the repository. */
  method InsertOrder(req: Order, lookup: Lookup, insert: Order -> Result<string, string>,
                     findOne: string -> Result<Order, string>)
    returns (r: Result<Order, string>, sent: Order)
    ensures FirstError(req.products, lookup).Some? ==> r == Failure(FirstError(req.products, lookup).value)
    ensures FirstError(req.products, lookup).None? ==>
      sent == Priced(req, lookup) &&
      r == if insert(sent).Failure? then Failure(insert(sent).error) else FindOneOrder(findOne, insert(sent).value)
  {
    var err, total, products := PriceLines(req.products, lookup, req.totalPaid);
    if err.Some? {
      return Failure(err.value), req;
    }
    sent := req.(totalPaid := total, products := products);
    var orderId := insert(sent);
    if orderId.Failure? {
      return Failure(orderId.error), sent;
    }
    r := FindOneOrder(findOne, orderId.value);
  }

  /** The loop of `InsertOrder`: each line in turn must have a product the lookup finds; its
      client-side price is added to the total paid and it then carries the stored product. */
  method PriceLines(lines: seq<ProductsOrder>, lookup: Lookup, paid: real)
    returns (err: Option<string>, total: real, products: seq<ProductsOrder>)
    ensures err == FirstError(lines, lookup)
    ensures err.None? ==> total == paid + ClientTotal(lines) && products == Snapshots(lines, lookup)
  {
    total := paid;
    products := lines;
    for i := 0 to |lines|
      invariant FirstError(lines[..i], lookup) == None
      invariant |products| == |lines|
      invariant forall j :: 0 <= j < i ==> products[j] == Snapshot(lines[j], lookup)
      invariant forall j :: i <= j < |lines| ==> products[j] == lines[j]
      invariant total == paid + ClientTotal(lines[..i])
    {
      assert lines[..i + 1][..i] == lines[..i];
      if lines[i].product.None? {
        FirstErrorPrefix(lines, i + 1, lookup);
        return Some("product is nil"), total, products;
      }
      var prod := lookup(lines[i].product.value.id);
      if prod.Failure? {
        FirstErrorPrefix(lines, i + 1, lookup);
        return Some(prod.error), total, products;
      }
      total := total + lines[i].product.value.price * (lines[i].qty as real);
      products := products[i := products[i].(product := Some(prod.value))];
    }
    assert products == Snapshots(lines, lookup);
    assert lines[..|lines|] == lines;
    err := None;
  }
}
