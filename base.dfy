/** Small value types shared by the model: Python's `None`-or-value, error
    results, `dict.get` and string slicing `s[:n]`. */
module Base {

  datatype Option<+T> = None | Some(value: T)

  datatype Result<+R, +E> = Success(value: R) | Failure(error: E)

  function Min(a: int, b: int): int {
    if a <= b then a else b
  }

  /** Python's `d.get(key, default)`. */
  function Get<K, V>(d: map<K, V>, key: K, default: V): (v: V)
    ensures key in d ==> v == d[key]
    ensures key !in d ==> v == default
  {
    if key in d then d[key] else default
  }

  /** Python's `s[:n]` for a non-negative `n`: the first `n` characters,
      or all of `s` when it is shorter. */
  function Slice(s: string, n: nat): (r: string)
    ensures |r| == Min(|s|, n)
    ensures r <= s
  {
    if |s| <= n then s else s[..n]
  }
}
