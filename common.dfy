/**
  Shared vocabulary of the model: optional values, HTTP-style responses,
  sessions and roles, time in milliseconds, JavaScript truthiness of the
  values the handlers test with `!x`, ASCII lower-casing and substring
  search, and sums and filters over sequences.
*/
module Common {

  datatype Option<T> = None | Some(value: T)

  /** A response as the route handlers return it: a body, or a status code with its message. */
  datatype Response<T> = Ok(body: T) | Fail(status: nat, message: string)

  /** Milliseconds since the epoch, as `Date.getTime()` gives them. */
  type Time = int

  const HourMs: int := 3600000
  const DayMs: int := 86400000

  /** The roles the session carries; any other role name is kept as `OtherRole`. */
  datatype Role = Advertiser | Staff | Super | OtherRole(name: string)

  /** The signed-in user as the handlers read it from the session. */
  datatype User = User(role: Role, companyId: Option<string>)

  /** `!s` is false: the value is present and not the empty string. */
  predicate Truthy(s: Option<string>) {
    s.Some? && s.value != ""
  }

  /** `!x` is false for a number: present and not zero. */
  predicate TruthyNumber(x: Option<real>) {
    x.Some? && x.value != 0.0
  }

  /** The session's company equals the requested one (`session.user.companyId === companyId`). */
  predicate SameCompany(user: User, companyId: string) {
    user.companyId == Some(companyId)
  }

  /** The access rule shared by the campaign and category routes: a super may touch any company. */
  predicate MayAccessCompany(user: User, companyId: string) {
    user.role == Super || SameCompany(user, companyId)
  }

  function LowerChar(c: char): (r: char)
    ensures 'A' <= c <= 'Z' ==> 'a' <= r <= 'z'
    ensures !('A' <= c <= 'Z') ==> r == c
  {
    if 'A' <= c <= 'Z' then (c as int - 'A' as int + 'a' as int) as char else c
  }

  /** `toLowerCase()` on the ASCII letters. */
  function ToLower(s: string): (r: string)
    ensures |r| == |s|
    ensures forall i :: 0 <= i < |s| ==> r[i] == LowerChar(s[i])
  {
    if s == [] then [] else [LowerChar(s[0])] + ToLower(s[1..])
  }

  /** `s.includes(sub)`: `sub` occurs in `s` at some position (the empty string occurs everywhere). */
  predicate Contains(s: string, sub: string)
    decreases |s|
  {
    sub <= s || (|s| > 0 && Contains(s[1..], sub))
  }

  /** `s.startsWith(p)`. */
  predicate StartsWith(s: string, p: string) {
    p <= s
  }

  /** The characters `String.prototype.trim` removes (the ASCII ones). */
  predicate IsSpace(c: char) {
    c == ' ' || c == '\t' || c == '\n' || c == '\r' || c == '\U{000B}' || c == '\U{000C}'
  }

  /** `!s.trim()`: the string is empty after trimming. */
  predicate IsBlank(s: string) {
    forall i :: 0 <= i < |s| ==> IsSpace(s[i])
  }

  /** The sum of `f` over `xs`, folded from the left as `reduce` does. */
  function SumNat<T>(xs: seq<T>, f: T -> nat): nat {
    if xs == [] then 0 else SumNat(xs[..|xs| - 1], f) + f(xs[|xs| - 1])
  }

  function SumReal<T>(xs: seq<T>, f: T -> real): real {
    if xs == [] then 0.0 else SumReal(xs[..|xs| - 1], f) + f(xs[|xs| - 1])
  }

  lemma {:induction false} SumNatAppend<T>(xs: seq<T>, ys: seq<T>, f: T -> nat)
    ensures SumNat(xs + ys, f) == SumNat(xs, f) + SumNat(ys, f)
    decreases |ys|
  {
    if ys == [] {
      assert xs + ys == xs;
    } else {
      assert (xs + ys)[..|xs + ys| - 1] == xs + ys[..|ys| - 1];
      SumNatAppend(xs, ys[..|ys| - 1], f);
    }
  }

  /** A sum of terms each bounded by the matching term of another sum is bounded by it. */
  lemma {:induction false} SumNatMonotone<T>(xs: seq<T>, f: T -> nat, g: T -> nat)
    requires forall i :: 0 <= i < |xs| ==> f(xs[i]) <= g(xs[i])
    ensures SumNat(xs, f) <= SumNat(xs, g)
    decreases |xs|
  {
    if xs != [] {
      SumNatMonotone(xs[..|xs| - 1], f, g);
    }
  }

  /** `xs.filter(p)`: the elements satisfying `p`, in their order. */
  function Filter<T>(xs: seq<T>, p: T -> bool): (r: seq<T>)
    ensures |r| <= |xs|
    ensures forall y :: y in r ==> y in xs && p(y)
  {
    if xs == [] then []
    else if p(xs[0]) then [xs[0]] + Filter(xs[1..], p)
    else Filter(xs[1..], p)
  }

  /** Every element of `xs` that satisfies `p` is kept. */
  lemma {:induction false} FilterKeeps<T>(xs: seq<T>, p: T -> bool, y: T)
    requires y in xs && p(y)
    ensures y in Filter(xs, p)
    decreases |xs|
  {
    if xs[0] != y {
      FilterKeeps(xs[1..], p, y);
    }
  }

  /** Filtering with a predicate that holds everywhere on `xs` changes nothing. */
  lemma {:induction false} FilterAll<T>(xs: seq<T>, p: T -> bool)
    requires forall i :: 0 <= i < |xs| ==> p(xs[i])
    ensures Filter(xs, p) == xs
    decreases |xs|
  {
    if xs != [] {
      FilterAll(xs[1..], p);
    }
  }

  /** `r` is obtained from `xs` by deleting elements, keeping the order of the rest. */
  ghost predicate IsSubsequence<T>(r: seq<T>, xs: seq<T>)
    decreases |xs|
  {
    if xs == [] then r == []
    else (r != [] && r[0] == xs[0] && IsSubsequence(r[1..], xs[1..])) || IsSubsequence(r, xs[1..])
  }

  /** Keeping every element is a subsequence. */
  lemma {:induction false} IsSubsequenceRefl<T>(xs: seq<T>)
    ensures IsSubsequence(xs, xs)
    decreases |xs|
  {
    if xs != [] {
      IsSubsequenceRefl(xs[1..]);
    }
  }

  lemma {:induction false} FilterIsSubsequence<T>(xs: seq<T>, p: T -> bool)
    ensures IsSubsequence(Filter(xs, p), xs)
    decreases |xs|
  {
    if xs != [] {
      FilterIsSubsequence(xs[1..], p);
      if p(xs[0]) {
        assert Filter(xs, p)[1..] == Filter(xs[1..], p);
      }
    }
  }

  /** `xs.filter(p)` keeps the order and is exactly the elements of `xs` satisfying `p`. */
  lemma FilterExactly<T>(xs: seq<T>, p: T -> bool)
    ensures IsSubsequence(Filter(xs, p), xs)
    ensures forall y :: y in Filter(xs, p) <==> y in xs && p(y)
  {
    FilterIsSubsequence(xs, p);
    forall y | y in xs && p(y)
      ensures y in Filter(xs, p)
    {
      FilterKeeps(xs, p, y);
    }
  }

  /** The number of elements of `xs` that satisfy `p`. */
  function Count<T>(xs: seq<T>, p: T -> bool): (n: nat)
    ensures n <= |xs|
  {
    |Filter(xs, p)|
  }

  /** Nothing is counted exactly when no element satisfies `p`. */
  lemma {:induction false} CountZero<T>(xs: seq<T>, p: T -> bool)
    ensures Count(xs, p) == 0 <==> forall i :: 0 <= i < |xs| ==> !p(xs[i])
    decreases |xs|
  {
    if xs != [] {
      CountZero(xs[1..], p);
      assert forall i :: 1 <= i < |xs| ==> xs[i] == xs[1..][i - 1];
    }
  }

  /** `xs.slice(0, n)`, the query's `take: n`. */
  function Take<T>(xs: seq<T>, n: nat): (r: seq<T>)
    ensures |r| <= n && |r| <= |xs|
    ensures r == xs[..|r|]
    ensures |xs| >= n ==> |r| == n
    ensures |xs| < n ==> r == xs
  {
    if |xs| <= n then xs else xs[..n]
  }

  function Min(a: real, b: real): (r: real)
    ensures r <= a && r <= b && (r == a || r == b)
  {
    if a <= b then a else b
  }

  function Max(a: real, b: real): (r: real)
    ensures r >= a && r >= b && (r == a || r == b)
  {
    if a >= b then a else b
  }

  /** A CTR as the views show it: the text `'0'`, or a percentage (rendered with `toFixed(2)`). */
  datatype CtrFigure = ZeroText | Percent(value: real)

  /** `total > 0 ? (part / total * 100).toFixed(2) : '0'`. */
  function PercentOrZero(part: nat, total: nat): (c: CtrFigure)
    ensures total == 0 <==> c == ZeroText
    ensures c.Percent? ==> c.value * total as real == part as real * 100.0
    ensures c.Percent? && part <= total ==> 0.0 <= c.value <= 100.0
  {
    if total > 0 then Percent(part as real / total as real * 100.0) else ZeroText
  }
}
