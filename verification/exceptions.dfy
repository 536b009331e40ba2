/** The exceptions the program can raise inside one query. Most are named
    after the Python exception that carries them; the comment names the
    Python exception where the name differs. */
module Exceptions {

  datatype Error =
    | ConnectionError         // requests raised before any response arrived (timeout, refused, DNS)
    | HttpError(status: int)  // raise_for_status on a 4xx or 5xx response
    | CsrfTokenNotFound       // RuntimeError("CSRF token not found"): the page carries no token
    | JsonDecodeError         // resp.json() on a body that is not JSON
    | TypeError               // an operation applied to a JSON value of the wrong kind
    | AttributeError          // `.get` or `.items` on a JSON value that is not an object
    | ColumnExists            // ValueError from df.insert of a column the table already has
}
