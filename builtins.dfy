/**
 * The Python built-ins that the settings constructor relies on: `sum` over a
 * list of ints, list repetition `[x] * n`, and `os.path.join` as the POSIX
 * `posixpath.join` defines it.
 */
module PyBuiltins {

  /** `sum(xs)` for a list of Python ints. */
  function Sum(xs: seq<int>): int
  {
    if xs == [] then 0 else xs[0] + Sum(xs[1..])
  }

  /** `[x] * n`: a list of n copies of x, empty when n is zero or negative. */
  function Repeat<T>(x: T, n: int): (r: seq<T>)
    ensures |r| == if n <= 0 then 0 else n
    ensures forall i :: 0 <= i < |r| ==> r[i] == x
  {
    if n <= 0 then [] else [x] + Repeat(x, n - 1)
  }

  /** The POSIX path separator. */
  const Sep: char := '/'

  /**
   * `posixpath.join(a, b)` for one component: an absolute b replaces a; an
   * empty a, or one that already ends in the separator, is extended by b
   * alone; otherwise a separator goes between them.
   */
  function Join(a: string, b: string): (path: string)
    ensures |path| >= |b| && path[|path| - |b|..] == b
    ensures (b == [] || b[0] != Sep) ==> a <= path
    ensures (b == [] || b[0] != Sep) && a != [] && a[|a| - 1] != Sep ==> path == a + [Sep] + b
    ensures (b == [] || b[0] != Sep) && (a == [] || a[|a| - 1] == Sep) ==> path == a + b
    ensures b != [] && b[0] == Sep ==> path == b
  {
    if b != [] && b[0] == Sep then b
    else if a == [] || a[|a| - 1] == Sep then a + b
    else a + [Sep] + b
  }
}
