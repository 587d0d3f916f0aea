/** Result types and machine integers shared by every module. */
module Base {

  datatype Option<+T> = None | Some(value: T)

  datatype Result<+T, +E> = Success(value: T) | Failure(error: E)

  type Byte = b: int | 0 <= b < 0x100

  type U16 = n: int | 0 <= n < 0x1_0000

  const U64_MAX: nat := 0xFFFF_FFFF_FFFF_FFFF

  function SaturatingAdd(a: nat, b: nat): nat { if a + b > U64_MAX then U64_MAX else a + b }

  function SaturatingSub(a: nat, b: nat): nat { if a < b then 0 else a - b }
}
