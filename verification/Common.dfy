/** Small helpers shared by the other modules. */
module Common {
  datatype Option<+T> = None | Some(value: T)

  datatype Engine = Hysteria | Xray

  function Max(a: int, b: int): int {
    if a < b then b else a
  }

  function Min(a: int, b: int): int {
    if a < b then a else b
  }
}
