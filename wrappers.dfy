/** Optional values, results and the failures the modelled client raises. */
module Wrappers {

  datatype Option<+T> = None | Some(value: T)

  /** The exceptions of the client, as values. */
  datatype Error =
    | NotLoggedIn                     // `assert self.sid, "Not logged in"`
    | LoginBlocked(blocktime: int)    // round two answered the zero SID again
    | MissingKey(key: string)         // a KeyError on a gateway JSON reply
    | NotAnInteger(text: string)      // `int(text)` raised ValueError
    | UnknownTimerange(timerange: string)

  datatype Result<+T> = Success(value: T) | Failure(error: Error)
}
