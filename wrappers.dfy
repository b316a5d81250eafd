/** Option, Result and the shapes of the outside world (network replies, thrown
    errors, browser storage slots) that the rest of the model takes as inputs. */
module Wrappers {

  /** An optional value: `undefined` / `null` versus a present one. */
  datatype Option<+T> = None | Some(value: T) {
    function GetOr(default: T): T {
      match this
      case Some(v) => v
      case None => default
    }
  }

  /** A computation that either produced a value or threw an error carrying a message. */
  datatype Result<+T> = Ok(value: T) | Err(message: string)

  /** A JavaScript throwable: an `Error` object with its message, a `TypeError`
      (what a failed `fetch` rejects with) with its message, or any other thrown value. */
  datatype JsError = Error(message: string) | TypeError(message: string) | NonError {
    /** `err instanceof Error`. */
    predicate IsErrorObject() {
      !NonError?
    }
  }

  /** The outcome of one `fetch` followed by reading its JSON body: the body of an
      ok reply, a reply whose status is not ok, or a rejection (network failure,
      unreadable body). */
  datatype Reply<+T> = Delivered(body: T) | NotOk(status: nat) | Rejected(error: JsError)

  /** One `localStorage` slot as `getItem` followed by `JSON.parse` sees it: nothing
      stored (null or the empty string, both falsy), text that does not parse, or
      text that parses to a value. */
  datatype Slot<+T> = Empty | Unparsable | Holds(value: T)
}
