/** Small vocabulary shared by the other modules. */
module Common {

  datatype Option<+T> = None | Some(value: T)

  function Min(a: int, b: int): (r: int)
  {
    if a <= b then a else b
  }

  function Max(a: int, b: int): (r: int)
  {
    if a <= b then b else a
  }
}
