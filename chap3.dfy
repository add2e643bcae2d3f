/**
 * The package `com.emoney.chap3`: `renamePackage`, which cuts a dotted name
 * at its last `.`, and `sumTest`, which fills an `IntArray` with squares and
 * adds them up.
 */
module Chap3 {

  /** `s.lastIndexOf(c)`: the largest index holding `c`, or -1 when `c` does not occur. */
  function LastIndexOf(s: string, c: char): (i: int)
    ensures -1 <= i < |s|
    ensures i == -1 <==> c !in s
    ensures i >= 0 ==> s[i] == c && c !in s[i + 1..]
  {
    if s == [] then -1
    else if s[|s| - 1] == c then |s| - 1
    else
      var i := LastIndexOf(s[..|s| - 1], c);
      assert s == s[..|s| - 1] + [s[|s| - 1]];
      i
  }

  /**
   * `renamePackage(fullname, newName)`: the part of `fullname` before its last
   * `.`; when there is no `.`, the function returns `newName` early.
   */
  function RenamePackage(fullname: string, newName: string): (r: string)
    ensures '.' !in fullname ==> r == newName
    ensures '.' in fullname ==>
      && |r| < |fullname|
      && r == fullname[..|r|]
      && fullname[|r|] == '.'
      && '.' !in fullname[|r| + 1..]
  {
    var i := LastIndexOf(fullname, '.');
    if i >= 0 then fullname[..i] else newName
  }

  /** When `fullname` has a `.`, `newName` is ignored. */
  lemma RenamePackageIgnoresNewName(fullname: string, a: string, b: string)
    requires '.' in fullname
    ensures RenamePackage(fullname, a) == RenamePackage(fullname, b)
  {
  }

  /** The commented-out call in `main`: `renamePackage("foo.bar.old", "new")` is `"foo.bar"`. */
  lemma RenamePackageExample()
    ensures RenamePackage("foo.bar.old", "new") == "foo.bar"
  {
    var s := "foo.bar.old";
    assert s[7] == '.';
  }

  /** The sum of the elements of `s`. */
  function Sum(s: seq<int>): int
  {
    if s == [] then 0 else Sum(s[..|s| - 1]) + s[|s| - 1]
  }

  /** `0, 1, 4, …, (n-1)^2`: the contents of `IntArray(n) { it * it }`. */
  function Squares(n: nat): (s: seq<int>)
  {
    seq(n, i => i * i)
  }

  /** The closed form of the sum of the first `n` squares. */
  lemma {:induction false} SumOfSquares(n: nat)
    ensures 6 * Sum(Squares(n)) == (n - 1) * n * (2 * n - 1)
  {
    if n > 0 {
      SumOfSquares(n - 1);
      assert Squares(n)[..n - 1] == Squares(n - 1);
    }
  }

  /**
   * `sumTest()`: builds `IntArray(10) { it * it }`, adds its elements in a
   * `for` loop, and prints the sum and the last element; the two printed
   * values are returned here.
   */
  method SumTest() returns (a: array<int>, sum: int, last: int)
    ensures a.Length == 10 && a[..] == Squares(10)
    ensures sum == Sum(a[..]) && sum == 285
    ensures last == a[a.Length - 1] && last == 81
  {
    a := new int[10](i => i * i);
    sum := 0;
    for k := 0 to a.Length
      invariant sum == Sum(a[..k])
    {
      assert a[..k + 1][..k] == a[..k];
      sum := sum + a[k];
    }
    assert a[..] == Squares(10);
    assert a[..a.Length] == a[..];
    SumOfSquares(10);
    last := a[a.Length - 1];
  }
}
