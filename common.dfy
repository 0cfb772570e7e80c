/** Small value wrappers and sequence combinators shared by every module. */
module Common {

  /** A value that may be missing: a JSON key that is absent, a SQL NULL, Python's None. */
  datatype Option<+T> = None | Some(value: T) {
    function GetOr(default: T): T {
      match this
      case Some(v) => v
      case None => default
    }
  }

  /** The outcome of a step that can raise in the source. */
  datatype Result<+T, +E> = Success(value: T) | Failure(error: E)

  /** Keeps the elements that satisfy `p`, in their original order. */
  function Filter<T>(p: T -> bool, s: seq<T>): (r: seq<T>)
    ensures |r| <= |s|
  {
    if s == [] then [] else
    Filter(p, s[..|s| - 1]) + (if p(s[|s| - 1]) then [s[|s| - 1]] else [])
  }

  /** Filtering a concatenation filters each part, so kept elements stay in input order. */
  lemma {:induction false} FilterAppend<T>(p: T -> bool, a: seq<T>, b: seq<T>)
    ensures Filter(p, a + b) == Filter(p, a) + Filter(p, b)
  {
    if b == [] {
      assert a + b == a;
    } else {
      var b' := b[..|b| - 1];
      assert (a + b)[..|a + b| - 1] == a + b';
      FilterAppend(p, a, b');
    }
  }

  /** An element is kept exactly when it occurs in the input and satisfies `p`. */
  lemma {:induction false} FilterMembers<T>(p: T -> bool, s: seq<T>)
    ensures forall x :: x in Filter(p, s) <==> x in s && p(x)
  {
    if s != [] {
      var s' := s[..|s| - 1];
      FilterMembers(p, s');
      assert s == s' + [s[|s| - 1]];
    }
  }

  /** Applies `g` to every element, in order. */
  function Map<T, U>(g: T -> U, s: seq<T>): (r: seq<U>)
    ensures |r| == |s|
  {
    seq(|s|, i requires 0 <= i < |s| => g(s[i]))
  }

  lemma MapAppend<T, U>(g: T -> U, a: seq<T>, b: seq<T>)
    ensures Map(g, a + b) == Map(g, a) + Map(g, b)
  {
  }

  /** The image of a list of at most one element. */
  lemma MapAtMostOne<T, U>(g: T -> U, s: seq<T>)
    requires |s| <= 1
    ensures Map(g, s) == if s == [] then [] else [g(s[0])]
  {
  }

  /** The images of the kept elements are exactly the images of the elements
      that satisfy `p`. */
  lemma MapFilterMembers<T, U>(p: T -> bool, g: T -> U, s: seq<T>)
    ensures forall y :: y in Map(g, Filter(p, s)) <==> exists x :: x in s && p(x) && y == g(x)
  {
    var f := Filter(p, s);
    FilterMembers(p, s);
    forall y ensures y in Map(g, f) <==> exists x :: x in s && p(x) && y == g(x) {
      if y in Map(g, f) {
        var i :| 0 <= i < |f| && Map(g, f)[i] == y;
        assert f[i] in f;
      }
      if x :| x in s && p(x) && y == g(x) {
        assert x in f;
        var i :| 0 <= i < |f| && f[i] == x;
        assert Map(g, f)[i] == y;
      }
    }
  }

  /** No element occurs twice. */
  predicate NoDuplicates<T(==)>(s: seq<T>) {
    forall i, j :: 0 <= i < j < |s| ==> s[i] != s[j]
  }

  /** Maps every element to a sequence and concatenates the results in order. */
  function ConcatMap<T, U>(f: T -> seq<U>, s: seq<T>): seq<U> {
    if s == [] then [] else ConcatMap(f, s[..|s| - 1]) + f(s[|s| - 1])
  }

  lemma {:induction false} ConcatMapAppend<T, U>(f: T -> seq<U>, a: seq<T>, b: seq<T>)
    ensures ConcatMap(f, a + b) == ConcatMap(f, a) + ConcatMap(f, b)
  {
    if b == [] {
      assert a + b == a;
    } else {
      var b' := b[..|b| - 1];
      assert (a + b)[..|a + b| - 1] == a + b';
      ConcatMapAppend(f, a, b');
    }
  }

  /** Each element smaller than the next: the stages of a list of advice that
      follows the order in which the checks run, at most one per check. */
  predicate StrictlyIncreasing(s: seq<nat>) {
    forall i, j :: 0 <= i < j < |s| ==> s[i] < s[j]
  }

  /** Appending at most one element of stage `k` after elements of earlier stages
      keeps the order. */
  lemma AppendStage(a: seq<nat>, b: seq<nat>, k: nat)
    requires StrictlyIncreasing(a) && forall i :: 0 <= i < |a| ==> a[i] < k
    requires |b| <= 1 && forall i :: 0 <= i < |b| ==> b[i] == k
    ensures StrictlyIncreasing(a + b) && forall i :: 0 <= i < |a + b| ==> (a + b)[i] < k + 1
  {
  }

  lemma AppendAssoc<T>(a: seq<T>, b: seq<T>, c: seq<T>)
    ensures a + b + c == a + (b + c)
  {
  }

  lemma EmptyPrefix<T>(a: seq<T>)
    ensures [] + a == a
  {
  }

  /** The stage list of at most one element per check: `[k]` when check `k` fired. */
  function FiredStage(fired: bool, k: nat): seq<nat> {
    if fired then [k] else []
  }

  /** Three checks run in order, each contributing at most its own stage. */
  lemma ThreeStages(s0: seq<nat>, s1: seq<nat>, s2: seq<nat>, f0: bool, f1: bool, f2: bool)
    requires s0 == FiredStage(f0, 0) && s1 == FiredStage(f1, 1) && s2 == FiredStage(f2, 2)
    ensures |s0 + s1 + s2| <= 3 && StrictlyIncreasing(s0 + s1 + s2)
    ensures forall k: nat :: k in s0 + s1 + s2 <==> (k == 0 && f0) || (k == 1 && f1) || (k == 2 && f2)
  {
  }

  /** Four checks run in order, each contributing at most its own stage. */
  lemma FourStages(s0: seq<nat>, s1: seq<nat>, s2: seq<nat>, s3: seq<nat>, f0: bool, f1: bool, f2: bool, f3: bool)
    requires s0 == FiredStage(f0, 0) && s1 == FiredStage(f1, 1) && s2 == FiredStage(f2, 2) && s3 == FiredStage(f3, 3)
    ensures |s0 + s1 + s2 + s3| <= 4 && StrictlyIncreasing(s0 + s1 + s2 + s3)
    ensures forall k: nat :: k in s0 + s1 + s2 + s3 <==>
              (k == 0 && f0) || (k == 1 && f1) || (k == 2 && f2) || (k == 3 && f3)
  {
    ThreeStages(s0, s1, s2, f0, f1, f2);
    AppendStage(s0 + s1 + s2, s3, 3);
  }

  /** Three checks that may fail, then one that cannot: the first failure ends
      the run, otherwise the findings are concatenated in check order. */
  function RunChecks<T, E>(r1: Result<seq<T>, E>, r2: Result<seq<T>, E>, r3: Result<seq<T>, E>, last: seq<T>)
    : Result<seq<T>, E>
  {
    match r1
    case Failure(e) => Failure(e)
    case Success(a1) =>
      match r2
      case Failure(e) => Failure(e)
      case Success(a2) =>
        match r3
        case Failure(e) => Failure(e)
        case Success(a3) => Success(a1 + a2 + a3 + last)
  }

  /** The run fails exactly when one check fails, with the error of the first. */
  lemma RunChecksOutcome<T, E>(r1: Result<seq<T>, E>, r2: Result<seq<T>, E>, r3: Result<seq<T>, E>, last: seq<T>)
    ensures RunChecks(r1, r2, r3, last).Failure? <==> r1.Failure? || r2.Failure? || r3.Failure?
    ensures RunChecks(r1, r2, r3, last).Failure? ==>
              var e := RunChecks(r1, r2, r3, last).error;
              || (r1.Failure? && e == r1.error)
              || (r1.Success? && r2.Failure? && e == r2.error)
              || (r1.Success? && r2.Success? && r3.Failure? && e == r3.error)
    ensures RunChecks(r1, r2, r3, last).Success? ==>
              RunChecks(r1, r2, r3, last).value == r1.value + r2.value + r3.value + last
  {
  }
}
