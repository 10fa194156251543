/** The response object every handler answers through (modules/entities/response.go). A new
    response carries no status, data or error; `Success` and `Error` set its fields, and `Res`
    sends the status with the error body when the error flag is set, the data otherwise. The flag
    is never cleared. The fiber context it writes to and the logger it feeds are not modelled:
    what `Res` sends is its result. */
module Responses {
  import opened Wrappers

  const StatusOK := 200
  const StatusCreated := 201
  const StatusBadRequest := 400
  const StatusInternalServerError := 500

  datatype ErrorResponse = ErrorResponse(traceId: string, msg: string)

  /** The JSON body `Res` sends: the error response (absent when none was set), or the data. */
  datatype Body<T> = ErrorBody(error: Option<ErrorResponse>) | DataBody(data: Option<T>)

  /** A status code and a body, as written to the client. */
  datatype Sent<T> = Sent(status: int, body: Body<T>)

  /** A handler either answers, or dereferences a nil pointer on the way. */
  datatype Handled<T> = Responded(sent: Sent<T>) | Panicked

  /** What `Error(status, traceId, msg).Res()` sends on a new response. */
  function ErrorSent<T>(status: int, traceId: string, msg: string): Sent<T> {
    Sent(status, ErrorBody(Some(ErrorResponse(traceId, msg))))
  }

  /** What `Success(status, data).Res()` sends on a new response. */
  function DataSent<T>(status: int, data: Option<T>): Sent<T> {
    Sent(status, DataBody(data))
  }

  class Response<T> {
    var statusCode: int
    var data: Option<T>
    var errorRes: Option<ErrorResponse>
    var isError: bool

    /** `NewErrorResponse(c)`: nothing set, no error. */
    constructor ()
      ensures statusCode == 0 && data == None && errorRes == None && !isError
    {
      statusCode := 0;
      data := None;
      errorRes := None;
      isError := false;
    }

    /** Sets the status and the data; the error response and the flag stay as they were. */
    method Success(code: int, data: Option<T>)
      modifies this
      ensures statusCode == code && this.data == data
      ensures errorRes == old(errorRes) && isError == old(isError)
    {
      statusCode := code;
      this.data := data;
    }

    /** Sets the status and the error response, and raises the error flag; the data stays. */
    method Error(code: int, traceId: string, msg: string)
      modifies this
      ensures statusCode == code && errorRes == Some(ErrorResponse(traceId, msg)) && isError
      ensures data == old(data)
    {
      statusCode := code;
      errorRes := Some(ErrorResponse(traceId, msg));
      isError := true;
    }

    /** What is sent: the status, with the error body exactly when the flag is set. */
    function Res(): (s: Sent<T>)
      reads this
      ensures s.status == statusCode
      ensures s.body.ErrorBody? <==> isError
      ensures s.body.ErrorBody? ==> s.body.error == errorRes
      ensures s.body.DataBody? ==> s.body.data == data
    {
      if isError then Sent(statusCode, ErrorBody(errorRes)) else Sent(statusCode, DataBody(data))
    }
  }

  /** `NewErrorResponse(c).Error(status, traceId, msg).Res()`. */
  method RespondError<T>(status: int, traceId: string, msg: string) returns (s: Sent<T>)
    ensures s == ErrorSent(status, traceId, msg)
  {
    var r := new Response<T>();
    r.Error(status, traceId, msg);
    s := r.Res();
  }

  /** `NewErrorResponse(c).Success(status, data).Res()`. */
  method RespondSuccess<T>(status: int, data: Option<T>) returns (s: Sent<T>)
    ensures s == DataSent(status, data)
  {
    var r := new Response<T>();
    r.Success(status, data);
    s := r.Res();
  }

  /** A success after an error keeps the error body: only the status is the success's. */
  method SuccessAfterError<T>(errorStatus: int, traceId: string, msg: string, status: int, data: Option<T>)
    returns (s: Sent<T>)
    ensures s == Sent(status, ErrorBody(Some(ErrorResponse(traceId, msg))))
    ensures s != DataSent(status, data)
  {
    var r := new Response<T>();
    r.Error(errorStatus, traceId, msg);
    r.Success(status, data);
    s := r.Res();
  }
}
