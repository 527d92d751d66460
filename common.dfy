// Shared vocabulary of the model: optional values, opaque Vulkan handles and
// the fixed-width unsigned arithmetic the C++ sources rely on.
module Common {

  datatype Option<T> = None | Some(value: T)

  /** An opaque Vulkan or heap handle; 0 plays the part of VK_NULL_HANDLE / nullptr. */
  type Handle = nat

  const NullHandle: Handle := 0

  const U16Modulus: nat := 0x1_0000
  const U32Modulus: nat := 0x1_0000_0000

  type byte = x: int | 0 <= x < 256

  /** glm::vec2, vec3 and vec4. Components are copied, never computed on, in the parts
      modelled here, so they are modelled as reals. */
  datatype Vec2 = Vec2(x: real, y: real)
  datatype Vec3 = Vec3(x: real, y: real, z: real)
  datatype Vec4 = Vec4(x: real, y: real, z: real, w: real)

  /** Conversion of a mathematical integer to uint32_t (C++ modular conversion). */
  function Wrap32(x: int): (r: nat)
    ensures r < U32Modulus
    ensures 0 <= x < U32Modulus ==> r == x
    ensures (r - x) % U32Modulus == 0
  {
    x % U32Modulus
  }

  /** uint32_t addition of converted values is the conversion of the sum. */
  lemma Wrap32Sum(a: int, b: int)
    ensures Wrap32(Wrap32(a) + Wrap32(b)) == Wrap32(a + b)
  {
    var qa, qb := a / U32Modulus, b / U32Modulus;
    assert a == qa * U32Modulus + Wrap32(a);
    assert b == qb * U32Modulus + Wrap32(b);
    assert a + b == (qa + qb) * U32Modulus + (Wrap32(a) + Wrap32(b));
  }

  /** Conversion of a mathematical integer to uint16_t (C++ modular conversion). */
  function Wrap16(x: int): (r: nat)
    ensures r < U16Modulus
    ensures 0 <= x < U16Modulus ==> r == x
    ensures (r - x) % U16Modulus == 0
  {
    x % U16Modulus
  }

  function Pow2(k: nat): (r: nat)
    ensures r >= 1
  {
    if k == 0 then 1 else 2 * Pow2(k - 1)
  }

  function Min(a: int, b: int): int
  {
    if a <= b then a else b
  }

  function Max(a: int, b: int): int
  {
    if a <= b then b else a
  }

  /** Every bit set in `flags` is also set in `supported`. */
  predicate FlagsSupported(flags: bv32, supported: bv32)
  {
    flags & !supported == 0
  }

  /** Masking `flags` with `supported` leaves it unchanged exactly when every one of its
      bits is supported. */
  lemma MaskKeepsSupportedFlags(flags: bv32, supported: bv32)
    ensures (flags & supported == flags) <==> FlagsSupported(flags, supported)
  {
  }

  // ---------------------------------------------------------------- arithmetic

  lemma MulMonotone(a: nat, b: nat, k: nat)
    requires a <= b
    ensures k * a <= k * b && a * k <= b * k
  {
    var d: nat := b - a;
    assert k * b == k * a + k * d;
  }

  /** Euclidean division splits x into whole multiples of m and a remainder below m. */
  lemma DivMod(x: nat, m: nat)
    requires m > 0
    ensures x == (x / m) * m + x % m && 0 <= x % m < m
  {
  }

  /** Euclidean division of q*m + r by m, for r < m, gives back q and r. */
  lemma QuotientRemainder(q: nat, m: nat, r: nat)
    requires r < m
    ensures (q * m + r) / m == q && (q * m + r) % m == r
  {
    var x := q * m + r;
    var q', r' := x / m, x % m;
    assert q' * m + r' == q * m + r;
    if q' > q {
      MulMonotone(1, q' - q, m);
    } else if q' < q {
      MulMonotone(1, q - q', m);
    }
  }
}
