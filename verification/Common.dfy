/** Types shared by every part of the model. */
module Common {
  datatype Option<+T> = None | Some(value: T)

  type u16 = x: nat | x < 0x1_0000

  function Count(b: bool): nat {
    if b then 1 else 0
  }
}
