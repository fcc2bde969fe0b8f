/** Shared vocabulary of the model. */
module Common {

  /** A value that may be absent: a missing document field, or a query that matched nothing. */
  datatype Option<+T> = None | Some(value: T)

  /** A lead's WhatsApp consent. */
  datatype Consent = NoConsent | PendingConsent | OptedIn | OptedOut

  function Or<T>(update: Option<T>, current: T): T {
    if update.Some? then update.value else current
  }

  function OrElse<T>(update: Option<T>, current: Option<T>): Option<T> {
    if update.Some? then update else current
  }

  function Last<T>(s: seq<T>): T
    requires s != []
  {
    s[|s| - 1]
  }

  function Min(a: int, b: int): int {
    if a <= b then a else b
  }

  function Max(a: int, b: int): int {
    if a <= b then b else a
  }
}
