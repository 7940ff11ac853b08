/** Option and the arithmetic helpers the other modules share. */
module Wrappers {

  datatype Option<+T> = None | Some(value: T) {
    function GetOr(default: T): T {
      if Some? then value else default
    }
  }

  function Max(a: real, b: real): real {
    if a >= b then a else b
  }

  function Min(a: real, b: real): real {
    if a <= b then a else b
  }

  function Abs(a: real): real {
    if a >= 0.0 then a else -a
  }

  /** The map with `key` set to `entry`, or without `key` when there is no entry. */
  function Put<K, V>(m: map<K, V>, key: K, entry: Option<V>): map<K, V> {
    if entry.Some? then m[key := entry.value] else m - {key}
  }

  function Get<K, V>(m: map<K, V>, key: K): Option<V> {
    if key in m then Some(m[key]) else None
  }
}

/** Exact decimals within the range of `rust_decimal::Decimal`, with its saturating and checked operations. */
module Decimals {
  import opened Wrappers

  const LIMIT: real := 79228162514264337593543950335.0

  type Decimal = d: real | -LIMIT <= d <= LIMIT

  function Saturate(d: real): Decimal {
    if d > LIMIT then LIMIT else if d < -LIMIT then -LIMIT else d
  }

  function SatAdd(a: Decimal, b: Decimal): Decimal {
    Saturate(a + b)
  }

  function SatSub(a: Decimal, b: Decimal): Decimal {
    Saturate(a - b)
  }

  function CheckedSub(a: Decimal, b: Decimal): Option<Decimal> {
    if -LIMIT <= a - b <= LIMIT then Some(a - b) else None
  }

  function MaxZero(d: Decimal): Decimal {
    if d > 0.0 then d else 0.0
  }
}
