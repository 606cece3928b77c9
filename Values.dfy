/** Values shared by every part of the model: optional values, JSON documents
    as the web layer and the search engine exchange them, and the failures the
    Python code raises (as HTTP errors, engine transport errors or plain
    Python exceptions). */
module Values {

  datatype Option<+T> = None | Some(value: T) {
    function GetOr(default: T): T {
      match this
      case Some(v) => v
      case None => default
    }
  }

  /** A JSON value. Numbers are modelled as integers; dates are integer instants. */
  datatype Json =
    | JNull
    | JBool(b: bool)
    | JNum(n: int)
    | JStr(s: string)
    | JArr(items: seq<Json>)
    | JObj(fields: map<string, Json>)

  /** What the Python code raises. */
  datatype Error =
    | HttpError(status: int)        // requests.HTTPError(status, ...) raised by the models
    | TransportError(status: int)   // elasticsearch TransportError with the engine's status code
    | MappingNotFound               // FileNotFoundError: the named index definition is missing
    | KeyError(key: string)         // subscripting a dict with a missing key
    | TypeError                     // subscripting a value that is not a dict
    | AttributeError                // a wrong argument type, or an attribute of None

  datatype Result<+T> = Ok(value: T) | Err(error: Error)
}
