/** Small datatypes shared by every part of the model. */
module Common {
  datatype Option<+T> = None | Some(value: T)

  datatype Side = Buy | Sell

  datatype Authority = Entry | ProtectiveExit

  function Abs(x: real): real {
    if x < 0.0 then -x else x
  }

  function Min(x: real, y: real): real {
    if x <= y then x else y
  }

  const I64_MIN: int := -0x8000_0000_0000_0000
  const I64_MAX: int := 0x7fff_ffff_ffff_ffff
  const TWO_64: int := 0x1_0000_0000_0000_0000

  type I64 = x: int | I64_MIN <= x <= I64_MAX

  predicate FitsI64(x: int) {
    I64_MIN <= x <= I64_MAX
  }
}
