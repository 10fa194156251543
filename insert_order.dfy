/** The order insert builder and engineer (modules/orders/ordersPatterns/insertOrder.go). In one
    transaction the engineer inserts the order row (the store answers with the new id, which is
    written into the request), then one row per order line, and commits. The first failure ends
    the run; a failing insert rolls back first. The id it returns is always empty. */
module InsertOrder {
  import opened Wrappers
  import opened Models
  import opened Sql
  import opened Transactions

  // ---------------------------------------------------------------- the statements

  const OrderText: Query :=
    Numbered(["INSERT INTO \"orders\" (\"user_id\", \"contact\", \"address\", \"transfer_slip\", \"status\") VALUES (",
              ", ", ", ", ", ", ", ", ") RETURNING \"id\";"])

  /** user_id, contact, address, transfer_slip, status, in that order. */
  function OrderStmt(o: Order): Stmt {
    Stmt(OrderText, [VText(o.userId), VText(o.contact), VText(o.address), VSlip(o.transferSlip), VText(o.status)])
  }

  lemma OrderStmtInStep(o: Order)
    ensures InStep(OrderStmt(o).text, |OrderStmt(o).args|)
  {
    NumberedInStep(["INSERT INTO \"orders\" (\"user_id\", \"contact\", \"address\", \"transfer_slip\", \"status\") VALUES (",
                    ", ", ", ", ", ", ", ", ") RETURNING \"id\";"]);
  }

  const LinesHead: Query := [Text("INSERT INTO \"products_orders\" (\"order_id\", \"qty\", \"product\") VALUES")]

  /** The values bound for the order lines: per line the order id, the quantity and the product. */
  function LineValues(lines: seq<ProductsOrder>, orderId: string): (r: seq<Value>)
    ensures |r| == 3 * |lines|
  {
    if lines == [] then []
    else
      var last := lines[|lines| - 1];
      LineValues(lines[..|lines| - 1], orderId) + [VText(orderId), VInt(last.qty), VProduct(last.product)]
  }

  /** Line i's tuple binds the order id, its quantity and its product, in that order. */
  lemma {:induction false} LineValuesIndex(lines: seq<ProductsOrder>, orderId: string)
    ensures forall i :: 0 <= i < |lines| ==>
      LineValues(lines, orderId)[3 * i] == VText(orderId) &&
      LineValues(lines, orderId)[3 * i + 1] == VInt(lines[i].qty) &&
      LineValues(lines, orderId)[3 * i + 2] == VProduct(lines[i].product)
  {
    if lines != [] {
      var init := lines[..|lines| - 1];
      LineValuesIndex(init, orderId);
      assert forall i :: 0 <= i < |init| ==> init[i] == lines[i];
    }
  }

  /** The statement the order-lines step sends. */
  function LinesStmt(lines: seq<ProductsOrder>, orderId: string): Stmt {
    Stmt(LinesHead + Rows(|lines|, |lines|), LineValues(lines, orderId))
  }

  /** The statement's placeholders are exactly $1..$3n for its 3n values. */
  lemma LinesStmtInStep(lines: seq<ProductsOrder>, orderId: string)
    ensures InStep(LinesStmt(lines, orderId).text, |LinesStmt(lines, orderId).args|)
  {
    Cons(LinesHead[0], [], 0);
    RowsInStep(LinesHead, |lines|);
  }

  // ---------------------------------------------------------------- the run, as a specification

  /** The store's answers to one run of InsertOrder; the order insert answers with the new id. */
  datatype OrderAnswers = OrderAnswers(
    begin: Reply,
    order: Result<string, string>,
    lines: Reply,
    commit: Reply)

  /** The error InsertOrder returns, if any. */
  function ExpectedOrderError(o: Order, a: OrderAnswers): Option<string> {
    if a.begin.Refused? then Some(a.begin.msg)
    else if a.order.Failure? then Some("insert order failed: " + a.order.error)
    else if a.lines.Refused? then Some("insert porducts_order failed: " + a.lines.msg)
    else if a.commit.Refused? then Some(a.commit.msg)
    else None
  }

  /** The statements sent in the transaction, in order, up to and including a refused one. */
  function OrderWrites(o: Order, a: OrderAnswers): seq<Write> {
    if a.begin.Refused? then []
    else if a.order.Failure? then [Write(Orders, OrderStmt(o))]
    else [Write(Orders, OrderStmt(o)), Write(ProductsOrders, LinesStmt(o.products, a.order.value))]
  }

  function OrderTxState(a: OrderAnswers): TxState {
    if a.order.Failure? || a.lines.Refused? then RolledBack
    else if a.commit.Done? then Committed
    else CommitFailed
  }

  /** The request after the run: the order insert writes the new id into it. */
  function InsertedOrder(o: Order, a: OrderAnswers): Order {
    if a.begin.Done? && a.order.Success? then o.(id := a.order.value) else o
  }

  /** The run succeeds exactly when both inserts and the commit do; every statement it sends has
      its placeholders in step with its values, and every line row carries the new order's id. */
  lemma OrderWritesInStep(o: Order, a: OrderAnswers)
    ensures ExpectedOrderError(o, a) == None <==>
      a.begin.Done? && a.order.Success? && a.lines.Done? && a.commit.Done?
    ensures forall w :: w in OrderWrites(o, a) ==> InStep(w.stmt.text, |w.stmt.args|)
    ensures |OrderWrites(o, a)| == 2 ==>
      forall i :: 0 <= i < |o.products| ==>
        OrderWrites(o, a)[1].stmt.args[3 * i] == VText(InsertedOrder(o, a).id)
  {
    OrderStmtInStep(o);
    if a.order.Success? {
      LinesStmtInStep(o.products, a.order.value);
      LineValuesIndex(o.products, a.order.value);
    }
  }

  // ---------------------------------------------------------------- the builder

  class InsertOrderBuilder {
    const db: Database
    var tx: Tx?
    /** The request, shared with the caller: the order insert writes the new id into it. */
    var req: Order

    /** `InsertOrderBuilder(db, req)`. */
    constructor (db: Database, req: Order)
      ensures this.db == db && this.req == req && tx == null
    {
      this.db := db;
      this.req := req;
      tx := null;
    }

    method InitTransaction(begin: Reply) returns (err: Option<string>)
      modifies this
      ensures begin.Done? ==>
        err == None && tx != null && fresh(tx) && tx.db == db && tx.state == Open && tx.attempted == []
      ensures begin.Refused? ==> err == Some(begin.msg) && tx == old(tx)
      ensures req == old(req)
    {
      if begin.Refused? {
        return Some(begin.msg);
      }
      tx := new Tx.Begin(db);
      err := None;
    }

    /** `getOrderId`: the empty string, whatever the order's id. */
    method GetOrderId() returns (id: string)
      ensures id == ""
    {
      id := "";
    }

    /** Inserts the order row and scans the generated id into the request. */
    method InsertOrderRow(reply: Result<string, string>) returns (err: Option<string>)
      requires tx != null && tx.state == Open
      modifies this, tx
      ensures tx == old(tx)
      ensures tx.attempted == old(tx.attempted) + [Write(Orders, OrderStmt(old(req)))]
      ensures reply.Success? ==> err == None && tx.state == Open && req == old(req).(id := reply.value)
      ensures reply.Failure? ==>
        err == Some("insert order failed: " + reply.error) && tx.state == RolledBack && req == old(req)
    {
      var r := tx.Insert(Write(Orders, OrderStmt(req)), reply);
      if r.Failure? {
        tx.Rollback();
        return Some("insert order failed: " + r.error);
      }
      req := req.(id := r.value);
      err := None;
    }

    /** Inserts one row per order line: tuple i is ($3i+1, $3i+2, $3i+3), the last closed by ";". */
    method InsertProductsOrder(reply: Reply) returns (err: Option<string>)
      requires tx != null && tx.state == Open
      modifies tx
      ensures tx.attempted == old(tx.attempted) + [Write(ProductsOrders, LinesStmt(req.products, req.id))]
      ensures reply.Done? ==> err == None && tx.state == Open
      ensures reply.Refused? ==>
        err == Some("insert porducts_order failed: " + reply.msg) && tx.state == RolledBack
    {
      var lines := req.products;
      var query := LinesHead;
      var value: seq<Value> := [];
      var lastIndex := 0;
      for i := 0 to |lines|
        invariant query == LinesHead + Rows(i, |lines|)
        invariant value == LineValues(lines[..i], req.id)
        invariant lastIndex == 3 * i
      {
        assert lines[..i + 1][..i] == lines[..i];
        value := value + [VText(req.id), VInt(lines[i].qty), VProduct(lines[i].product)];
        if i != |lines| - 1 {
          query := query + RowText(i, false);
        } else {
          query := query + RowText(i, true);
        }
        lastIndex := lastIndex + 3;
      }
      assert lines[..|lines|] == lines;
      var e := tx.Exec(Write(ProductsOrders, Stmt(query, value)), reply);
      if e.Some? {
        tx.Rollback();
        return Some("insert porducts_order failed: " + e.value);
      }
      err := None;
    }

    /** Commits; a failure is returned as it is, without a rollback. */
    method Commit(reply: Reply) returns (err: Option<string>)
      requires tx != null && tx.db == db
      modifies tx, db
      ensures tx.attempted == old(tx.attempted)
      ensures old(tx.state) == Open && reply.Done? ==>
        err == None && tx.state == Committed && db.tables == Apply(old(db.tables), tx.attempted)
      ensures old(tx.state) == Open && reply.Refused? ==>
        err == Some(reply.msg) && tx.state == CommitFailed && db.tables == old(db.tables)
    {
      err := tx.Commit(reply);
    }
  }

  // ---------------------------------------------------------------- the engineer

  class InsertOrderEngineer {
    const builder: InsertOrderBuilder

    constructor (builder: InsertOrderBuilder)
      ensures this.builder == builder
    {
      this.builder := builder;
    }

    /** initTransaction -> insertOrder -> insertProductsOrder -> commit, stopping at the first
        failure. The id returned is empty on success as on failure. */
    method InsertOrder(a: OrderAnswers) returns (id: string, err: Option<string>)
      requires builder.tx == null
      modifies builder, builder.db
      ensures id == ""
      ensures err == ExpectedOrderError(old(builder.req), a)
      ensures builder.req == InsertedOrder(old(builder.req), a)
      ensures err == None ==>
        builder.db.tables == Apply(old(builder.db.tables), OrderWrites(old(builder.req), a))
      ensures err != None ==> builder.db.tables == old(builder.db.tables)
      ensures a.begin.Refused? <==> builder.tx == null
      ensures builder.tx != null ==>
        builder.tx.attempted == OrderWrites(old(builder.req), a) && builder.tx.state == OrderTxState(a)
    {
      var b := builder;
      id := "";
      err := b.InitTransaction(a.begin);
      if err.Some? {
        return;
      }
      err := b.InsertOrderRow(a.order);
      if err.Some? {
        return;
      }
      err := b.InsertProductsOrder(a.lines);
      if err.Some? {
        return;
      }
      err := b.Commit(a.commit);
      if err.Some? {
        return;
      }
      id := b.GetOrderId();
    }
  }
}
