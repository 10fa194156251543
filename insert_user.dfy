/** The user insert factory (modules/users/usersPatterns/insertUser.go). The factory returns a
    customer or an admin inserter over the same request; `Customer` inserts the user with role 1
    and `Admin` with role 2, scanning the generated id into the inserter, and a duplicate key on
    the username or the email becomes a message the handler can show. `Result` reads the new user
    back as a passport without a token. The users repository's `InsertUser`
    (modules/users/usersRepositories/usersRepository.go) composes the three. */
module InsertUsers {
  import opened Wrappers
  import opened Models
  import opened Text
  import opened Sql
  import opened Transactions

  const CustomerRole := 1
  const AdminRole := 2

  /** The store's errors for the two unique keys of the users table, as their text reads. */
  const UsernameKeyViolation :=
    "ERROR: duplicate key value violates unique constraint \"users_username_key\" (SQLSTATE 23505)"
  const EmailKeyViolation :=
    "ERROR: duplicate key value violates unique constraint \"users_email_key\" (SQLSTATE 23505)"

  const UsernameUsed := "username has been used"
  const EmailUsed := "email has been used"

  // ---------------------------------------------------------------- the statements

  /** The insert statement; the role is part of its text, not a bound value. */
  function UserText(role: int): Query {
    Numbered(["INSERT INTO \"users\"(\"email\", \"password\", \"username\", \"role_id\") VALUES(", ", ", ", ",
              ", " + IntToDecimal(role) + ") RETURNING \"id\";"])
  }

  /** Email, password and username, in that order. */
  function UserStmt(req: UserRegisterReq, role: int): Stmt {
    Stmt(UserText(role), [VText(req.email), VText(req.password), VText(req.username)])
  }

  lemma UserStmtInStep(req: UserRegisterReq, role: int)
    ensures InStep(UserStmt(req, role).text, |UserStmt(req, role).args|)
  {
    NumberedInStep(["INSERT INTO \"users\"(\"email\", \"password\", \"username\", \"role_id\") VALUES(", ", ", ", ",
                    ", " + IntToDecimal(role) + ") RETURNING \"id\";"]);
  }

  const PassportText: Query :=
    Numbered(["SELECT json_build_object('user', \"t\", 'token', NULL) FROM (SELECT \"u\".\"id\", \"u\".\"email\", " +
              "\"u\".\"username\", \"u\".\"role_id\" FROM \"users\" \"u\" WHERE \"u\".\"id\" = ", ") AS \"t\""])

  function PassportStmt(id: string): Stmt {
    Stmt(PassportText, [VText(id)])
  }

  // ---------------------------------------------------------------- the outcomes

  /** The error an insert reports for the store's error `e`. The two duplicate keys, and only
      they, become the messages the sign-up handler answers 400 to. */
  function InsertUserError(e: string): (r: string)
    ensures r == UsernameUsed <==> e == UsernameKeyViolation
    ensures r == EmailUsed <==> e == EmailKeyViolation
    ensures r != UsernameUsed && r != EmailUsed ==> r == "insert user failed: " + e
  {
    if e == UsernameKeyViolation then UsernameUsed
    else if e == EmailKeyViolation then EmailUsed
    else
      var r := "insert user failed: " + e;
      assert r[0] == 'i' && UsernameUsed[0] == 'u' && EmailUsed[0] == 'e';
      r
  }

  /** The passport `Result` returns for user `id`: the user read back, and no token. */
  function ExpectedPassport(read: Stmt -> Fetched<User>, id: string): (r: Result<UserPassport, string>)
    ensures r.Success? <==> read(PassportStmt(id)).Decoded?
    ensures r.Success? ==> r.value.user == Some(read(PassportStmt(id)).value) && r.value.token == None
  {
    match read(PassportStmt(id))
    case FetchFailed(msg) => Failure("get user failed: " + msg)
    case Undecodable(msg) => Failure("unmarshal user failed: " + msg)
    case Decoded(u) => Success(UserPassport(Some(u), None))
  }

  function RoleFor(isAdmin: bool): int {
    if isAdmin then AdminRole else CustomerRole
  }

  /** What the repository's `InsertUser` returns: the insert's mapped error, or the passport of
      the id the store generated. */
  function ExpectedInsertUser(req: UserRegisterReq, reply: Result<string, string>,
                              read: Stmt -> Fetched<User>): Result<UserPassport, string> {
    if reply.Failure? then Failure(InsertUserError(reply.error)) else ExpectedPassport(read, reply.value)
  }

  /** A user is inserted exactly when the store accepts the row, and is then read back under the
      id it generated; a refused insert never reads. */
  lemma InsertUserSucceedsExactly(req: UserRegisterReq, reply: Result<string, string>, read: Stmt -> Fetched<User>)
    ensures ExpectedInsertUser(req, reply, read).Success? <==>
      reply.Success? && read(PassportStmt(reply.value)).Decoded?
    ensures ExpectedInsertUser(req, reply, read).Success? ==>
      ExpectedInsertUser(req, reply, read).value == UserPassport(Some(read(PassportStmt(reply.value)).value), None)
    ensures reply.Failure? && reply.error == UsernameKeyViolation ==>
      ExpectedInsertUser(req, reply, read) == Failure(UsernameUsed)
  {
  }

  // ---------------------------------------------------------------- the inserter

  /** Which inserter the factory built; both offer the same operations. */
  datatype Variant = CustomerInserter | AdminInserter

  class UserReq {
    const db: Database
    const req: UserRegisterReq
    const variant: Variant
    /** The id the store generated, once an insert succeeded. */
    var id: string

    constructor (db: Database, req: UserRegisterReq, variant: Variant)
      ensures this.db == db && this.req == req && this.variant == variant && id == ""
    {
      this.db := db;
      this.req := req;
      this.variant := variant;
      id := "";
    }

    /** Inserts the request with role `role`, scanning the new id. */
    method InsertWithRole(role: int, reply: Result<string, string>) returns (err: Option<string>)
      modifies this, db
      ensures reply.Success? ==>
        err == None && id == reply.value && db.tables == Apply(old(db.tables), [Write(Users, UserStmt(req, role))])
      ensures reply.Failure? ==>
        err == Some(InsertUserError(reply.error)) && id == old(id) && db.tables == old(db.tables)
    {
      var r := db.Insert(Write(Users, UserStmt(req, role)), reply);
      if r.Failure? {
        return Some(InsertUserError(r.error));
      }
      id := r.value;
      err := None;
    }

    /** `Customer()`: the insert with role 1. */
    method Customer(reply: Result<string, string>) returns (err: Option<string>)
      modifies this, db
      ensures reply.Success? ==>
        err == None && id == reply.value &&
        db.tables == Apply(old(db.tables), [Write(Users, UserStmt(req, CustomerRole))])
      ensures reply.Failure? ==>
        err == Some(InsertUserError(reply.error)) && id == old(id) && db.tables == old(db.tables)
    {
      err := InsertWithRole(CustomerRole, reply);
    }

    /** `Admin()`: the insert with role 2. */
    method Admin(reply: Result<string, string>) returns (err: Option<string>)
      modifies this, db
      ensures reply.Success? ==>
        err == None && id == reply.value &&
        db.tables == Apply(old(db.tables), [Write(Users, UserStmt(req, AdminRole))])
      ensures reply.Failure? ==>
        err == Some(InsertUserError(reply.error)) && id == old(id) && db.tables == old(db.tables)
    {
      err := InsertWithRole(AdminRole, reply);
    }

    /** Reads the user with this inserter's id back as a passport. */
    method Result(read: Stmt -> Fetched<User>) returns (r: Result<UserPassport, string>)
      ensures r == ExpectedPassport(read, id)
    {
      var data := read(PassportStmt(id));
      match data
      case FetchFailed(msg) => r := Failure("get user failed: " + msg);
      case Undecodable(msg) => r := Failure("unmarshal user failed: " + msg);
      case Decoded(u) => r := Success(UserPassport(Some(u), None));
    }
  }

  /** `InsertUser(db, req, isAdmin)`: the admin inserter when asked for one, the customer
      inserter otherwise. */
  method NewInsertUser(db: Database, req: UserRegisterReq, isAdmin: bool) returns (u: UserReq)
    ensures fresh(u) && u.db == db && u.req == req && u.id == ""
    ensures u.variant == if isAdmin then AdminInserter else CustomerInserter
  {
    if isAdmin {
      u := new UserReq(db, req, AdminInserter);
    } else {
      u := new UserReq(db, req, CustomerInserter);
    }
  }

  /** The repository's `InsertUser`: build the inserter, insert with the role that `isAdmin`
      selects, and read the passport back. */
  method InsertUser(db: Database, req: UserRegisterReq, isAdmin: bool, reply: Result<string, string>,
                    read: Stmt -> Fetched<User>)
    returns (r: Result<UserPassport, string>)
    modifies db
    ensures r == ExpectedInsertUser(req, reply, read)
    ensures reply.Success? ==> db.tables == Apply(old(db.tables), [Write(Users, UserStmt(req, RoleFor(isAdmin)))])
    ensures reply.Failure? ==> db.tables == old(db.tables)
  {
    var result := NewInsertUser(db, req, isAdmin);
    var err;
    if isAdmin {
      err := result.Admin(reply);
    } else {
      err := result.Customer(reply);
    }
    if err.Some? {
      return Failure(err.value);
    }
    r := result.Result(read);
  }
}
