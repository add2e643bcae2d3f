/**
 * The top-level helpers and the two `when` classifiers of the basic-syntax
 * study file: `add`, `square`, `addExclamation`, the infix `multiplyBy`,
 * the operator `Int.times(String)`, and the sign/magnitude and value
 * classifiers of its `main`.
 */
module BasicSyntax {
  import opened KotlinCore

  /** `add(a, b)`: the sum of two `Int`s, wrapping on overflow. */
  function Add(a: Int32, b: Int32): (r: Int32)
    ensures IntMin <= a + b <= IntMax ==> r == a + b
    ensures (a + b - r) % TwoTo32 == 0
  {
    WrappingAdd(a, b)
  }

  /** `add` does not depend on argument order, so `add(b = 10, a = 5)` is `add(5, 10)`, which is 15. */
  lemma AddCommutes(a: Int32, b: Int32)
    ensures Add(a, b) == Add(b, a)
    ensures Add(5, 10) == 15
  {
  }

  /** `square(x)`: `x * x` as an `Int`. */
  function Square(x: Int32): (r: Int32)
    ensures x * x <= IntMax ==> r == x * x && r >= 0
    ensures (x * x - r) % TwoTo32 == 0
  {
    WrappingMul(x, x)
  }

  /** Without the no-overflow condition, a square can come out negative: 46341 * 46341 wraps. */
  lemma SquareOverflowIsNegative()
    ensures Square(46341) == -2147479015
  {
    assert 46341 * 46341 - TwoTo32 == -2147479015;
    WrapCongruent(46341 * 46341, -2147479015);
  }

  /** `s.addExclamation()`: `s` followed by one `'!'`. */
  function AddExclamation(s: string): (r: string)
    ensures |r| == |s| + 1
    ensures r[..|s|] == s
    ensures r[|s|] == '!'
  {
    s + "!"
  }

  /** `a multiplyBy b`: the product of two `Int`s, wrapping on overflow. */
  function MultiplyBy(a: Int32, b: Int32): (r: Int32)
    ensures IntMin <= a * b <= IntMax ==> r == a * b
    ensures (a * b - r) % TwoTo32 == 0
  {
    WrappingMul(a, b)
  }

  /** `str` written `n` times in a row (Kotlin's `String.repeat` for `n >= 0`). */
  function Repeat(str: string, n: nat): string
  {
    if n == 0 then "" else Repeat(str, n - 1) + str
  }

  lemma {:induction false} RepeatLength(str: string, n: nat)
    ensures |Repeat(str, n)| == n * |str|
  {
    if n > 0 {
      RepeatLength(str, n - 1);
    }
  }

  /** Character `i` of the repetition is character `i mod |str|` of `str`. */
  lemma {:induction false} RepeatAt(str: string, n: nat, i: nat)
    requires i < n * |str|
    ensures |Repeat(str, n)| == n * |str|
    ensures Repeat(str, n)[i] == str[i % |str|]
  {
    var len := |str|;
    assert n > 0;
    RepeatLength(str, n);
    RepeatLength(str, n - 1);
    var before := (n - 1) * len;
    assert n * len == before + len;
    if i < before {
      RepeatAt(str, n - 1, i);
    } else {
      ModOfOffset(n - 1, len, i - before);
    }
  }

  /** `(q * m + j) mod m == j` when `0 <= j < m`. */
  lemma ModOfOffset(q: nat, m: nat, j: nat)
    requires j < m
    ensures (q * m + j) % m == j
  {
    var x := q * m + j;
    var d := x / m - q;
    assert m * (x / m) + x % m == x;
    assert m * d == j - x % m;
    if d >= 1 {
      MulAtLeast(m, d);
    } else if d <= -1 {
      MulAtLeast(m, -d);
    }
  }

  lemma {:induction false} MulAtLeast(m: nat, d: int)
    requires d >= 1
    ensures m * d >= m
  {
    if d > 1 {
      MulAtLeast(m, d - 1);
      assert m * d == m * (d - 1) + m;
    }
  }

  /**
   * The operator `n * str` on an `Int` and a `String`, which repeats `str`
   * `n` times; a negative count throws `IllegalArgumentException`.
   */
  function Times(n: Int32, str: string): (r: Outcome<string>)
    ensures n < 0 <==> r == Thrown(IllegalArgument)
    ensures n >= 0 ==> r.Returned? && |r.value| == n * |str|
    ensures n >= 0 ==> forall i :: 0 <= i < |r.value| ==> r.value[i] == str[i % |str|]
  {
    if n < 0 then Thrown(IllegalArgument)
    else
      var s := Repeat(str, n);
      RepeatLength(str, n);
      assert forall i :: 0 <= i < |s| ==> s[i] == str[i % |str|] by {
        forall i | 0 <= i < |s| ensures s[i] == str[i % |str|] {
          RepeatAt(str, n, i);
        }
      }
      Returned(s)
  }

  /** The sign/magnitude `when` of `main`: the first of four conditions that holds picks the label. */
  function Magnitude(x: Int32): (r: string)
    ensures r == "음수" <==> x < 0
    ensures r == "0" <==> x == 0
    ensures r == "한 자리 양수" <==> 1 <= x <= 9
    ensures r == "두 자리 이상 양수" <==> x >= 10
  {
    if x < 0 then "음수"
    else if x == 0 then "0"
    else if x < 10 then "한 자리 양수"
    else "두 자리 이상 양수"
  }

  /**
   * The value `when` of `main`: branches are tried in order, so `!in 20..100`
   * only catches what `0, 1` and `in 2..10` let through.
   */
  function ValueBranch(x: Int32): (r: string)
    ensures r == "0 또는 1" <==> x == 0 || x == 1
    ensures r == "2부터 10 사이" <==> 2 <= x <= 10
    ensures r == "20에서 100 사이가 아님" <==> x < 0 || 11 <= x <= 19 || x > 100
    ensures r == "기타" <==> 20 <= x <= 100
  {
    if x == 0 || x == 1 then "0 또는 1"
    else if 2 <= x <= 10 then "2부터 10 사이"
    else if !(20 <= x <= 100) then "20에서 100 사이가 아님"
    else "기타"
  }
}
