/**
 * What the five study files share from the Kotlin language itself:
 * the 32-bit `Int` with its wrap-around arithmetic, nullable types `T?`,
 * and the exceptions the core throws, which the model returns as values.
 */
module KotlinCore {

  const TwoTo32: int := 0x1_0000_0000
  const IntMin: int := -0x8000_0000
  const IntMax: int := 0x7fff_ffff

  /** Kotlin's `Int`: a signed 32-bit two's-complement integer. */
  type Int32 = x: int | IntMin <= x <= IntMax

  /** The `Int` that a mathematical integer becomes when Kotlin arithmetic overflows. */
  function Wrap(x: int): (r: Int32)
    ensures (x - r) % TwoTo32 == 0
    ensures IntMin <= x <= IntMax ==> r == x
  {
    var m := (x - IntMin) % TwoTo32;
    assert x - (m + IntMin) == TwoTo32 * ((x - IntMin) / TwoTo32);
    m + IntMin
  }

  /** Adding a multiple of 2^32 does not change the remainder modulo 2^32. */
  lemma {:induction false} ModAddMultiple(a: int, k: int)
    ensures (a + k * TwoTo32) % TwoTo32 == a % TwoTo32
    decreases if k < 0 then -k else k
  {
    if k > 0 {
      ModAddMultiple(a, k - 1);
      assert a + k * TwoTo32 == (a + (k - 1) * TwoTo32) + TwoTo32;
    } else if k < 0 {
      ModAddMultiple(a, k + 1);
      assert a + k * TwoTo32 == (a + (k + 1) * TwoTo32) - TwoTo32;
    }
  }

  /** Two integers that agree modulo 2^32 wrap to the same `Int`. */
  lemma WrapCongruent(x: int, y: int)
    requires (x - y) % TwoTo32 == 0
    ensures Wrap(x) == Wrap(y)
  {
    var k := (x - y) / TwoTo32;
    assert x - IntMin == (y - IntMin) + k * TwoTo32;
    ModAddMultiple(y - IntMin, k);
  }

  /** `Int` addition: the true sum when it fits, otherwise the sum wrapped modulo 2^32. */
  function WrappingAdd(a: Int32, b: Int32): (r: Int32)
    ensures IntMin <= a + b <= IntMax ==> r == a + b
    ensures (a + b - r) % TwoTo32 == 0
  {
    Wrap(a + b)
  }

  /** `Int` multiplication: the true product when it fits, otherwise wrapped modulo 2^32. */
  function WrappingMul(a: Int32, b: Int32): (r: Int32)
    ensures IntMin <= a * b <= IntMax ==> r == a * b
    ensures (a * b - r) % TwoTo32 == 0
  {
    Wrap(a * b)
  }

  /** `x++` on an `Int`: one more, except that `Int.MAX_VALUE` steps to `Int.MIN_VALUE`. */
  lemma WrapSucc(n: int)
    ensures Wrap(n) < IntMax ==> Wrap(n + 1) == Wrap(n) + 1
    ensures Wrap(n) == IntMax ==> Wrap(n + 1) == IntMin
    ensures Wrap(n + 1) == Wrap(Wrap(n) + 1)
  {
    var w := Wrap(n);
    assert ((n + 1) - (w + 1)) % TwoTo32 == 0;
    WrapCongruent(n + 1, w + 1);
    if w == IntMax {
      assert ((w + 1) - IntMin) % TwoTo32 == 0;
      WrapCongruent(w + 1, IntMin);
    }
  }

  /** Kotlin's nullable type `T?`. */
  datatype Nullable<+T> = Null | Value(get: T)

  /** The exceptions the modelled code throws. */
  datatype Exception =
    | IllegalArgument
    | UninitializedPropertyAccess(message: string)

  /** The outcome of a call that returns normally or throws. */
  datatype Outcome<+T> = Returned(value: T) | Thrown(exception: Exception)
}
