/** Shared by the other modules. */
module Common {

  datatype Option<+T> = None | Some(value: T)

  function Clamp(v: int, low: int, high: int): int {
    if v < low then low else if high < v then high else v
  }
}
