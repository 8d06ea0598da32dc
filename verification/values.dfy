/** Value types shared by every part of the model: optional values, the
    doubles carried over D-Bus (NaN kept as a tag), and the fixed-width
    integer ranges the daemon's C++ types impose. */
module Values {

  datatype Option<+T> = None | Some(value: T)

  /** An IEEE double as far as the daemon looks at it: it only ever asks
      `std::isnan`, so NaN is a tag and every other value is opaque. */
  datatype Double = NaN | Num(val: real)

  /** The GeoClue2 convention for "unknown" speed, heading and climb. */
  const Unknown: Double := Num(-1.0)

  /** Replaces NaN by the "unknown" sentinel; other values pass through. */
  function Sanitize(d: Double): (r: Double)
    ensures !r.NaN?
    ensures r == d || (d.NaN? && r == Unknown)
  {
    if d.NaN? then Unknown else d
  }

  /** A D-Bus `i` (C `gint`). */
  type Int32 = x: int | -0x8000_0000 <= x < 0x8000_0000

  const Int64Min: int := -0x8000_0000_0000_0000
  const Int64Max: int := 0x7FFF_FFFF_FFFF_FFFF
  const Uint64Modulus: int := 0x1_0000_0000_0000_0000

  /** The range of a C `long long` (`gint64`). */
  predicate InInt64(x: int) {
    Int64Min <= x <= Int64Max
  }

  /** The C cast `(guint64)x`: the value taken modulo 2^64. */
  function ToUint64(x: int): (r: nat)
    ensures r < Uint64Modulus
    ensures 0 <= x < Uint64Modulus ==> r == x
    ensures -Uint64Modulus <= x < 0 ==> r == x + Uint64Modulus
  {
    x % Uint64Modulus
  }
}
