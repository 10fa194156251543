/** The relational store and its transactions, as the builders use them through sqlx.
    The store is a ghost map from each table to the journal of statements applied to it; what a
    statement does to the rows is not modelled. Whether the store accepts a statement, and what
    it answers, is an input to each step. A transaction moves Open -> Committed, or
    Open -> Aborted (a statement failed) -> RolledBack, or Open -> CommitFailed. */
module Transactions {
  import opened Sql
  import opened Wrappers

  datatype Table = Products | ProductsCategories | Images | Orders | ProductsOrders | Users

  /** A statement together with the table it writes. */
  datatype Write = Write(table: Table, stmt: Stmt)

  /** What the store answers to one statement. */
  datatype Reply = Done | Refused(msg: string)

  type Tables = map<Table, seq<Stmt>>

  /** What a read (`Get`, `Select`) followed by `json.Unmarshal` yields: the query failed, the
      bytes did not decode, or a decoded value. */
  datatype Fetched<T> = FetchFailed(msg: string) | Undecodable(msg: string) | Decoded(value: T)

  function Journal(t: Tables, table: Table): seq<Stmt> {
    if table in t then t[table] else []
  }

  /** The store after the writes `ws` are applied in order. */
  ghost function Apply(t: Tables, ws: seq<Write>): Tables
    decreases |ws|
  {
    if ws == [] then t
    else Apply(t[ws[0].table := Journal(t, ws[0].table) + [ws[0].stmt]], ws[1..])
  }

  /** One write appends its statement to its own table's journal and to no other. */
  lemma JournalAfterWrite(t: Tables, w: Write, table: Table)
    ensures Journal(t[w.table := Journal(t, w.table) + [w.stmt]], table) ==
      Journal(t, table) + (if w.table == table then [w.stmt] else [])
  {
  }

  /** Applying writes touches only the tables they name, and appends to each exactly its own
      statements, in order. */
  lemma {:induction false} ApplyJournal(t: Tables, ws: seq<Write>, table: Table)
    ensures Journal(Apply(t, ws), table) == Journal(t, table) + StmtsFor(ws, table)
    decreases |ws|
  {
    if ws != [] {
      var t' := t[ws[0].table := Journal(t, ws[0].table) + [ws[0].stmt]];
      var own := if ws[0].table == table then [ws[0].stmt] else [];
      var rest := StmtsFor(ws[1..], table);
      assert Journal(Apply(t, ws), table) == Journal(t', table) + rest by {
        ApplyJournal(t', ws[1..], table);
      }
      assert Journal(t', table) == Journal(t, table) + own by {
        JournalAfterWrite(t, ws[0], table);
      }
      assert StmtsFor(ws, table) == own + rest;
    }
  }

  /** The statements of `ws` that write `table`, in order. */
  function StmtsFor(ws: seq<Write>, table: Table): seq<Stmt> {
    if ws == [] then []
    else (if ws[0].table == table then [ws[0].stmt] else []) + StmtsFor(ws[1..], table)
  }

  /** A table's statements are writes of that table, and no more of them than there are writes. */
  lemma {:induction false} StmtsForOwn(ws: seq<Write>, table: Table)
    ensures |StmtsFor(ws, table)| <= |ws|
    ensures forall s :: s in StmtsFor(ws, table) ==> Write(table, s) in ws
  {
    if ws != [] {
      StmtsForOwn(ws[1..], table);
      assert forall w :: w in ws[1..] ==> w in ws;
    }
  }

  class Database {
    ghost var tables: Tables

    constructor (ghost initial: Tables)
      ensures tables == initial
    {
      tables := initial;
    }

    /** A statement run directly on the pool, outside any transaction (auto-commit). */
    method Exec(w: Write, reply: Reply) returns (err: Option<string>)
      modifies this
      ensures reply.Done? ==> err == None && tables == Apply(old(tables), [w])
      ensures reply.Refused? ==> err == Some(reply.msg) && tables == old(tables)
    {
      if reply.Done? {
        tables := Apply(tables, [w]);
        err := None;
      } else {
        err := Some(reply.msg);
      }
    }

    /** `QueryRowContext(...).Scan(&id)` on the pool: an INSERT ... RETURNING "id", applied at
        once when the store accepts it. */
    method Insert(w: Write, reply: Result<string, string>) returns (r: Result<string, string>)
      modifies this
      ensures r == reply
      ensures reply.Success? ==> tables == Apply(old(tables), [w])
      ensures reply.Failure? ==> tables == old(tables)
    {
      if reply.Success? {
        tables := Apply(tables, [w]);
      }
      r := reply;
    }
  }

  datatype TxState = Open | Aborted | Committed | CommitFailed | RolledBack

  const TxDoneMsg: string := "sql: transaction has already been committed or rolled back"

  class Tx {
    const db: Database
    var state: TxState
    /** Every statement sent inside this transaction, in order, the refused one included. */
    ghost var attempted: seq<Write>

    /** `BeginTxx` succeeded. */
    constructor Begin(db: Database)
      ensures this.db == db && state == Open && attempted == []
    {
      this.db := db;
      state := Open;
      attempted := [];
    }

    /** `ExecContext` inside the transaction. A refused statement aborts the transaction. */
    method Exec(w: Write, reply: Reply) returns (err: Option<string>)
      requires state == Open
      modifies this
      ensures attempted == old(attempted) + [w]
      ensures reply.Done? ==> state == Open && err == None
      ensures reply.Refused? ==> state == Aborted && err == Some(reply.msg)
    {
      attempted := attempted + [w];
      if reply.Done? {
        err := None;
      } else {
        state := Aborted;
        err := Some(reply.msg);
      }
    }

    /** `QueryRowContext(...).Scan(&id)` inside the transaction: an INSERT ... RETURNING "id". */
    method Insert(w: Write, reply: Result<string, string>) returns (r: Result<string, string>)
      requires state == Open
      modifies this
      ensures attempted == old(attempted) + [w]
      ensures r == reply
      ensures state == if reply.Success? then Open else Aborted
    {
      attempted := attempted + [w];
      r := reply;
      if reply.Failure? {
        state := Aborted;
      }
    }

    /** `Rollback`: discards the transaction; a finished transaction is left as it is. */
    method Rollback()
      modifies this
      ensures state == if old(state) in {Open, Aborted} then RolledBack else old(state)
      ensures attempted == old(attempted)
    {
      if state == Open || state == Aborted {
        state := RolledBack;
      }
    }

    /** `Commit`: on success every statement of the transaction reaches the store, in order;
        otherwise none does. */
    method Commit(reply: Reply) returns (err: Option<string>)
      modifies this, db
      ensures attempted == old(attempted)
      ensures old(state) == Open && reply.Done? ==>
        state == Committed && err == None && db.tables == Apply(old(db.tables), attempted)
      ensures !(old(state) == Open && reply.Done?) ==>
        err.Some? && db.tables == old(db.tables) &&
        state == (if old(state) == Open then CommitFailed else old(state))
      ensures old(state) == Open && reply.Refused? ==> err == Some(reply.msg)
    {
      if state == Open && reply.Done? {
        db.tables := Apply(db.tables, attempted);
        state := Committed;
        err := None;
      } else if state == Open {
        state := CommitFailed;
        err := Some(reply.msg);
      } else {
        err := Some(TxDoneMsg);
      }
    }
  }
}
