/**
 * Fixed-width integers, the little-endian byte codec used for the kernel's
 * binary records, saturation, and the error-carrying result of every control
 * operation.
 */
module Wire {

  type u8 = x: int | 0 <= x < 0x100
  type u16 = x: int | 0 <= x < 0x1_0000
  type u32 = x: int | 0 <= x < 0x1_0000_0000
  type u64 = x: int | 0 <= x < 0x1_0000_0000_0000_0000
  type i32 = x: int | -0x8000_0000 <= x < 0x8000_0000
  type i64 = x: int | -0x8000_0000_0000_0000 <= x < 0x8000_0000_0000_0000

  datatype Option<T> = None | Some(value: T)

  /** The outcome of a control operation: a value, or the raw OS error code. */
  datatype Result<T> = Ok(value: T) | Err(code: int)

  /** 256 to the power n: one more than the largest value n bytes can hold. */
  function Pow256(n: nat): (r: nat)
    ensures r >= 1
  {
    if n == 0 then 1 else 256 * Pow256(n - 1)
  }

  /** The n-byte little-endian representation of x (bits above 8n are dropped). */
  function LeBytes(x: nat, n: nat): (r: seq<u8>)
    ensures |r| == n
  {
    if n == 0 then [] else [x % 256] + LeBytes(x / 256, n - 1)
  }

  /** The number whose little-endian representation is b. */
  function LeValue(b: seq<u8>): (r: nat)
    ensures r < Pow256(|b|)
  {
    if |b| == 0 then 0 else b[0] + 256 * LeValue(b[1..])
  }

  /** Reading back the bytes written for a value that fits gives the value. */
  lemma {:induction false} LeValueOfLeBytes(x: nat, n: nat)
    requires x < Pow256(n)
    ensures LeValue(LeBytes(x, n)) == x
  {
    if n > 0 {
      var q := x / 256;
      DivBound(x, Pow256(n - 1));
      var b := LeBytes(x, n);
      assert b == [x % 256] + LeBytes(q, n - 1);
      assert b[0] == x % 256;
      assert b[1..] == LeBytes(q, n - 1);
      LeValueOfLeBytes(q, n - 1);
      assert LeValue(b) == x % 256 + 256 * q;
    }
  }

  lemma DivBound(x: nat, p: nat)
    requires x < 256 * p
    ensures x / 256 < p
  {
  }

  /** Writing back the value read from some bytes gives those bytes. */
  lemma {:induction false} LeBytesOfLeValue(b: seq<u8>)
    ensures LeBytes(LeValue(b), |b|) == b
  {
    if |b| > 0 {
      var v := LeValue(b[1..]);
      assert LeValue(b) == b[0] + 256 * v;
      assert LeValue(b) % 256 == b[0];
      assert LeValue(b) / 256 == v;
      LeBytesOfLeValue(b[1..]);
      assert LeBytes(LeValue(b), |b|) == [b[0]] + b[1..];
    }
  }

  function Zeros(n: nat): (r: seq<u8>)
    ensures |r| == n && forall i :: 0 <= i < n ==> r[i] == 0
  {
    seq(n, _ => 0)
  }

  /** Zero is written as zero bytes. */
  lemma {:induction false} LeBytesOfZero(n: nat)
    ensures LeBytes(0, n) == Zeros(n)
  {
    if n > 0 {
      LeBytesOfZero(n - 1);
      assert LeBytes(0, n) == [0] + Zeros(n - 1);
    }
  }

  /** Saturation used by the option builders: the value itself, or max when it exceeds max. */
  function Clamp(x: int, max: int): (r: int)
    ensures r <= max && r <= x
    ensures r == x || r == max
  {
    if x <= max then x else max
  }

  /** The completion protocol: result 0 is success, anything else an error carrying -res. */
  function Completion<T>(res: int, v: T): (r: Result<T>)
    ensures r.Ok? <==> res == 0
    ensures r.Ok? ==> r.value == v
    ensures r.Err? ==> r.code + res == 0
  {
    if res == 0 then Ok(v) else Err(-res)
  }
}
