/** Small value types shared by every other module. */
module Base {

  /** An optional value: the model's stand-in for a nullable reference. */
  datatype Option<+T> = None | Some(value: T)

  /** A value or the message of the exception that replaced it. */
  datatype Result<+T> = Ok(value: T) | Err(message: string)

  /** One octet of a byte array. */
  newtype Byte = b: int | 0 <= b < 256

  /** A signed 32-bit integer (C# `int`). */
  newtype Int32 = x: int | -0x8000_0000 <= x < 0x8000_0000

  /** Reduces an unbounded integer to the signed 32-bit value with the same low 32 bits,
      which is what unchecked C# `int` arithmetic produces. */
  function Wrap32(x: int): (r: Int32)
    ensures (r as int - x) % 0x1_0000_0000 == 0
    ensures -0x8000_0000 <= x < 0x8000_0000 ==> r as int == x
  {
    var m := x % 0x1_0000_0000;
    if m < 0x8000_0000 then m as Int32 else (m - 0x1_0000_0000) as Int32
  }

  /** C# integer division, which truncates toward zero (Dafny's `/` is Euclidean). */
  function TruncDiv(a: int, b: int): (q: int)
    requires b != 0
    ensures a >= 0 && b > 0 ==> q == a / b
    ensures (a >= 0) == (b > 0) ==> q >= 0
    ensures (q * b <= a < q * b + (if b > 0 then b else -b)) || (q * b - (if b > 0 then b else -b) < a <= q * b)
  {
    var q0 := (if a < 0 then -a else a) / (if b < 0 then -b else b);
    if (a < 0) == (b < 0) then q0 else -q0
  }
}
