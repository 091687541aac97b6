/** Optional values, as the source's `Option<T>`, and the integer widths it uses. */
module Wrappers {
  datatype Option<+T> = None | Some(value: T) {
    function GetOr(default: T): T {
      match this
      case Some(v) => v
      case None => default
    }
  }

  const TWO32: int := 0x1_0000_0000
  const TWO64: int := 0x1_0000_0000_0000_0000

  type u64 = n: int | 0 <= n < 0x1_0000_0000_0000_0000
  type i32 = n: int | -0x8000_0000 <= n < 0x8000_0000

  /** The value a 32-bit signed addition leaves behind in a release build. */
  function WrapI32(n: int): (r: i32)
    ensures r == n <==> -0x8000_0000 <= n < 0x8000_0000
    ensures (r - n) % TWO32 == 0
  {
    (n + 0x8000_0000) % TWO32 - 0x8000_0000
  }

  function Lookup<K, V>(m: map<K, V>, k: K): Option<V> {
    if k in m then Some(m[k]) else None
  }
}
