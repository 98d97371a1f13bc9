/**
 * The Express error middleware: it normalises whatever error reached it into
 * an HTTP status and message, answers with `{ success: false, message }` and
 * hands the final error to `next`.
 */
module ErrorMiddleware {
  import opened Wrappers
  import Strings

  /**
   * An error object as the middleware sees it. JavaScript lets these fields be
   * absent; the model writes an absent or falsy `statusCode` as 0, an absent or
   * empty `message` as "", and an absent `code` as None. `keyValue` holds the
   * keys of the error's `keyValue` object in insertion order.
   */
  class ErrorObject {
    var name: string
    var code: Option<int>
    var path: string
    var keyValue: seq<string>
    var statusCode: int
    var message: string

    constructor (name: string, code: Option<int>, path: string, keyValue: seq<string>,
                 statusCode: int, message: string)
      ensures this.name == name && this.code == code && this.path == path
      ensures this.keyValue == keyValue && this.statusCode == statusCode && this.message == message
    {
      this.name := name;
      this.code := code;
      this.path := path;
      this.keyValue := keyValue;
      this.statusCode := statusCode;
      this.message := message;
    }

    /** `new ErrorHandler(message, statusCode)`: a plain `Error` carrying a status code. */
    constructor Handler(message: string, statusCode: int)
      ensures name == "Error" && code == None && path == "" && keyValue == []
      ensures this.statusCode == statusCode && this.message == message
    {
      name := "Error";
      code := None;
      path := "";
      keyValue := [];
      this.statusCode := statusCode;
      this.message := message;
    }
  }

  datatype Body = Body(success: bool, message: string)
  datatype Response = Response(status: int, body: Body)

  const CastMessagePrefix := "Resource not found. Invalid: "
  const InvalidTokenMessage := "Token is invalid, try again!"
  const ExpiredTokenMessage := "Token is expired, try again!"
  const DefaultMessage := "Internal server error"

  /** The message of a duplicate-key error: the keys of `keyValue`, comma-separated. */
  function DuplicateMessage(keys: seq<string>): (m: string)
    ensures |keys| == 1 ==> m == "Duplicate " + keys[0] + " entered"
  {
    "Duplicate " + Strings.Join(keys, ",") + " entered"
  }

  /**
   * The middleware. It first defaults the incoming error's status and message
   * in place, then replaces the error by a fresh 400 error when one of the four
   * recognised cases applies. A replacement is a plain `Error` with no code, so
   * the rules after it can no longer fire: the first matching rule wins.
   * It returns the response it sends and the error it passes to `next`.
   */
  method Handle(err: ErrorObject) returns (res: Response, forwarded: ErrorObject)
    modifies err
    // the incoming object is defaulted in place and otherwise left alone
    ensures err.statusCode == (if old(err.statusCode) == 0 then 500 else old(err.statusCode))
    ensures err.message == (if old(err.message) == "" then DefaultMessage else old(err.message))
    ensures err.name == old(err.name) && err.code == old(err.code)
    ensures err.path == old(err.path) && err.keyValue == old(err.keyValue)
    // the four recognised cases, in the order they are tested
    ensures old(err.name) == "CastError" ==>
      fresh(forwarded) && forwarded.statusCode == 400 && forwarded.message == CastMessagePrefix + old(err.path)
    ensures old(err.name) != "CastError" && old(err.code) == Some(11000) ==>
      fresh(forwarded) && forwarded.statusCode == 400 && forwarded.message == DuplicateMessage(old(err.keyValue))
    ensures old(err.name) != "CastError" && old(err.code) != Some(11000) && old(err.name) == "JwtTokenError" ==>
      fresh(forwarded) && forwarded.statusCode == 400 && forwarded.message == InvalidTokenMessage
    ensures old(err.name) != "CastError" && old(err.code) != Some(11000) && old(err.name) == "TokenExpiredError" ==>
      fresh(forwarded) && forwarded.statusCode == 400 && forwarded.message == ExpiredTokenMessage
    // no case: the defaulted incoming error itself is answered and forwarded
    ensures old(err.name) !in {"CastError", "JwtTokenError", "TokenExpiredError"} && old(err.code) != Some(11000) ==>
      forwarded == err
    ensures forwarded.statusCode != 0 && forwarded.message != ""
    // the response always mirrors the forwarded error
    ensures res == Response(forwarded.statusCode, Body(false, forwarded.message))
  {
    err.statusCode := if err.statusCode != 0 then err.statusCode else 500;
    err.message := if err.message != "" then err.message else DefaultMessage;
    var e := err;

    if e.name == "CastError" {
      var message := CastMessagePrefix + e.path;
      e := new ErrorObject.Handler(message, 400);
    }

    if e.code == Some(11000) {
      var message := DuplicateMessage(e.keyValue);
      e := new ErrorObject.Handler(message, 400);
    }

    if e.name == "JwtTokenError" {
      var message := InvalidTokenMessage;
      e := new ErrorObject.Handler(message, 400);
    }

    if e.name == "TokenExpiredError" {
      var message := ExpiredTokenMessage;
      e := new ErrorObject.Handler(message, 400);
    }

    res := Response(e.statusCode, Body(false, e.message));
    forwarded := e;
  }

  /** A caller's view: a duplicate e-mail reported by the database becomes a 400 naming the field. */
  method DuplicateEmailExample() returns (res: Response)
    ensures res == Response(400, Body(false, "Duplicate email entered"))
  {
    var err := new ErrorObject("MongoServerError", Some(11000), "", ["email"], 0, "E11000 duplicate key error");
    var forwarded;
    res, forwarded := Handle(err);
  }
}
