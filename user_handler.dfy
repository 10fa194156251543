/** The user handler's sign-up (modules/users/usersHandlers/userHandler.go). A body that does not
    parse, or an email that does not match the pattern, answers 400 before anything is inserted;
    the two duplicate-key messages answer 400, any other error 500, and a new customer 201 with
    its passport. The email pattern (`IsEmail`, a regular expression) and the users usecase's
    `InsertCustomer` are inputs. */
module UsersHandlers {
  import opened Wrappers
  import opened Models
  import opened InsertUsers
  import opened Responses

  const SignUpCustomerErr := "users-001"

  /** The status a sign-up answers for an error of `InsertCustomer`. */
  function InsertErrorStatus(msg: string): int {
    if msg == UsernameUsed || msg == EmailUsed then StatusBadRequest else StatusInternalServerError
  }

  function ExpectedSignUp(body: Result<UserRegisterReq, string>, isEmail: string -> bool,
                          insert: UserRegisterReq -> Result<UserPassport, string>): Sent<UserPassport> {
    if body.Failure? then ErrorSent(StatusBadRequest, SignUpCustomerErr, body.error)
    else if !isEmail(body.value.email) then ErrorSent(StatusBadRequest, SignUpCustomerErr, "email pattern is invalid")
    else if insert(body.value).Failure? then
      ErrorSent(InsertErrorStatus(insert(body.value).error), SignUpCustomerErr, insert(body.value).error)
    else DataSent(StatusCreated, Some(insert(body.value).value))
  }

  /** The status table: 201 exactly when the body parses, the email matches and the insert
      succeeds; every other answer is an error with code users-001, and 500 only for an insert
      error other than the two duplicate keys. */
  lemma SignUpStatus(body: Result<UserRegisterReq, string>, isEmail: string -> bool,
                     insert: UserRegisterReq -> Result<UserPassport, string>)
    ensures ExpectedSignUp(body, isEmail, insert).status == StatusCreated <==>
      body.Success? && isEmail(body.value.email) && insert(body.value).Success?
    ensures ExpectedSignUp(body, isEmail, insert).status == StatusInternalServerError <==>
      body.Success? && isEmail(body.value.email) && insert(body.value).Failure? &&
      insert(body.value).error != UsernameUsed && insert(body.value).error != EmailUsed
    ensures ExpectedSignUp(body, isEmail, insert).status != StatusCreated ==>
      ExpectedSignUp(body, isEmail, insert).body.ErrorBody? &&
      ExpectedSignUp(body, isEmail, insert).body.error.value.traceId == SignUpCustomerErr
  {
  }

  /** Through the user insert's error mapping, a store error answers 400 exactly when it is one
      of the two duplicate-key violations. */
  lemma StoreErrorStatus(e: string)
    ensures InsertErrorStatus(InsertUserError(e)) == StatusBadRequest <==>
      e == UsernameKeyViolation || e == EmailKeyViolation
  {
  }

  /** `SignUpCustomer`. */
  method SignUpCustomer(body: Result<UserRegisterReq, string>, isEmail: string -> bool,
                        insert: UserRegisterReq -> Result<UserPassport, string>)
    returns (s: Sent<UserPassport>)
    ensures s == ExpectedSignUp(body, isEmail, insert)
  {
    if body.Failure? {
      s := RespondError(StatusBadRequest, SignUpCustomerErr, body.error);
      return;
    }
    var req := body.value;
    if !isEmail(req.email) {
      s := RespondError(StatusBadRequest, SignUpCustomerErr, "email pattern is invalid");
      return;
    }
    var result := insert(req);
    if result.Failure? {
      var msg := result.error;
      if msg == UsernameUsed {
        s := RespondError(StatusBadRequest, SignUpCustomerErr, msg);
      } else if msg == EmailUsed {
        s := RespondError(StatusBadRequest, SignUpCustomerErr, msg);
      } else {
        s := RespondError(StatusInternalServerError, SignUpCustomerErr, msg);
      }
      return;
    }
    s := RespondSuccess(StatusCreated, Some(result.value));
  }
}
