/** Identifiers shared by every part of the shop, and the usual Option wrapper. */
module Common {

  type ProductId = int
  type CategoryId = int
  type UserId = int
  type OrderId = int
  /** The key of a browser session, as the session framework issues it. */
  type SessionKey = string

  datatype Option<+T> = None | Some(value: T) {
    function GetOr(default: T): T {
      match this
      case Some(v) => v
      case None => default
    }
  }
}
