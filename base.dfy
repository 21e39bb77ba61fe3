/** Small value types and string helpers shared by the rest of the model. */
module Base {

  /** A value that may be missing: `null`/`undefined` on the JavaScript side. */
  datatype Option<T> = None | Some(value: T)

  /** JavaScript truthiness of a string that may be missing: `null` and `""` are falsy. */
  predicate Present(v: Option<string>)
  {
    v.Some? && v.value != ""
  }

  /** `s.startsWith(p)`: a case-sensitive prefix test. */
  predicate StartsWith(s: string, p: string)
  {
    |p| <= |s| && s[..|p|] == p
  }

  /** `s.endsWith(p)`: a case-sensitive suffix test. */
  predicate EndsWith(s: string, p: string)
  {
    |p| <= |s| && s[|s| - |p|..] == p
  }

  /** Position of the first occurrence of `c` in `s`, or `|s|` when there is none. */
  function IndexOf(s: string, c: char): (k: nat)
    ensures k <= |s|
    ensures k < |s| ==> s[k] == c
    ensures forall j :: 0 <= j < k ==> s[j] != c
  {
    if s == [] then 0
    else if s[0] == c then 0
    else 1 + IndexOf(s[1..], c)
  }

  /** The first `c` of `x + y` is the first character of `y` when `x` holds no `c`. */
  lemma {:induction false} IndexOfAfterPrefix(x: string, y: string, c: char)
    requires c !in x
    requires |y| > 0 && y[0] == c
    ensures IndexOf(x + y, c) == |x|
  {
    if x != [] {
      assert (x + y)[1..] == x[1..] + y;
      IndexOfAfterPrefix(x[1..], y, c);
    } else {
      assert x + y == y;
    }
  }
}
