/** Shared vocabulary of the model. */
module Prelude {
  datatype Option<+T> = None | Some(value: T)

  /** A row in a table with a unique key: a second insert of the key changes nothing. */
  function InsertIfAbsent(keys: seq<string>, key: string): (r: seq<string>)
    ensures forall k :: k in r <==> k in keys || k == key
  {
    if key in keys then keys else keys + [key]
  }
}
