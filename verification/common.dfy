/** Small vocabulary shared by every component of the model. */
module Common {

  datatype Option<+T> = None | Some(value: T)

  /** What happened so far, oldest first: the shape every statement about whole runs is proved over. */
  datatype Trace<+A> = Begin | Then(earlier: Trace<A>, last: A)
  {
    function Length(): nat {
      if Begin? then 0 else earlier.Length() + 1
    }
  }

  function Max(x: real, y: real): real {
    if x >= y then x else y
  }

  function Min(x: real, y: real): real {
    if x <= y then x else y
  }

  function Abs(x: real): real {
    if x < 0.0 then -x else x
  }

  /** Never decreasing from left to right. */
  ghost predicate Sorted(s: seq<real>) {
    forall i, j :: 0 <= i < j < |s| ==> s[i] <= s[j]
  }

  function Sum(s: seq<real>): real {
    if s == [] then 0.0 else Sum(s[..|s| - 1]) + s[|s| - 1]
  }

  lemma MulMono(a: real, b: real, c: real)
    requires a <= b && c >= 0.0
    ensures a * c <= b * c
  {
  }

  lemma MulMonoStrict(a: real, b: real, c: real)
    requires a < b && c > 0.0
    ensures a * c < b * c
  {
  }

  lemma MulSum(total: real, a: real, b: real, k: real)
    requires total == a + b
    ensures total * k == a * k + b * k
  {
  }

  /** A product with a name, so that a proof can treat it as one number. */
  function Product(a: real, k: real): real {
    a * k
  }

  lemma ProductSum(total: real, a: real, b: real, k: real)
    requires total == a + b
    ensures Product(total, k) == Product(a, k) + Product(b, k)
  {
  }

  lemma ProductSplit(a: real, k1: real, k2: real)
    ensures Product(a, k1 + k2) == Product(a, k1) + Product(a, k2)
  {
  }

  lemma ProductMono(k1: real, k2: real, a: real)
    requires k1 <= k2 && a >= 0.0
    ensures Product(a, k1) <= Product(a, k2)
  {
    MulMono(k1, k2, a);
  }

  lemma ProductMonoLeft(a1: real, a2: real, k: real)
    requires a1 <= a2 && k >= 0.0
    ensures Product(a1, k) <= Product(a2, k)
  {
    MulMono(a1, a2, k);
  }

  lemma ProductSign(a: real, k: real)
    ensures a >= 0.0 && k >= 0.0 ==> Product(a, k) >= 0.0
    ensures a <= 0.0 && k >= 0.0 ==> Product(a, k) <= 0.0
  {
  }

  lemma DivAtLeast(x: real, y: real, c: real)
    requires c > 0.0
    ensures y <= x / c <==> y * c <= x
    ensures x / c * c == x
  {
    var q := x / c;
    assert q * c == x;
    if y > q {
      MulMonoStrict(q, y, c);
    } else {
      MulMono(y, q, c);
    }
  }

  lemma DivMono(x: real, y: real, c: real)
    requires x <= y && c > 0.0
    ensures x / c <= y / c
    ensures c / c == 1.0 && 0.0 / c == 0.0
  {
    DivAtLeast(y, x / c, c);
    DivAtLeast(x, x / c, c);
  }

  /** n * x, by repeated addition. */
  function Times(n: nat, x: real): real {
    if n == 0 then 0.0 else Times(n - 1, x) + x
  }

  lemma {:induction false} TimesIsProduct(n: nat, x: real)
    ensures Times(n, x) == n as real * x
  {
    if n > 0 {
      TimesIsProduct(n - 1, x);
      assert n as real == (n - 1) as real + 1.0;
      assert n as real * x == (n - 1) as real * x + 1.0 * x;
    }
  }

  function PowerOfTwo(k: nat): real {
    if k == 0 then 1.0 else 2.0 * PowerOfTwo(k - 1)
  }

  /** n copies of x. */
  function Repeat<T>(x: T, n: nat): seq<T> {
    seq(n, _ => x)
  }

  /** Distinct elements of a sequence. */
  function Elements<T>(s: seq<T>): set<T> {
    set x | x in s
  }

  lemma ElementsSnoc<T>(s: seq<T>, i: nat)
    requires i < |s|
    ensures Elements(s[..i + 1]) == Elements(s[..i]) + {s[i]}
  {
    assert s[..i + 1] == s[..i] + [s[i]];
  }

  lemma SnocSize<T>(s: seq<T>, i: nat)
    requires i < |s| && s[i] !in s[..i]
    ensures |Elements(s[..i + 1])| == |Elements(s[..i])| + 1
  {
    ElementsSnoc(s, i);
  }

  lemma SnocCounted<T>(s: seq<T>, last: T, x: T)
    ensures multiset(s + [last])[x] == multiset(s)[x] + if last == x then 1 else 0
  {
  }

  /** How often x occurs in a sequence, by its last element. */
  lemma LastCounted<T>(s: seq<T>, x: T)
    requires s != []
    ensures multiset(s)[x] == multiset(s[..|s| - 1])[x] + if s[|s| - 1] == x then 1 else 0
  {
    assert s == s[..|s| - 1] + [s[|s| - 1]];
    SnocCounted(s[..|s| - 1], s[|s| - 1], x);
  }

  /** The interval lo..hi (half open) as a set; its size is known. */
  function Range(lo: int, hi: int): (r: set<int>)
    ensures forall x :: x in r <==> lo <= x < hi
    ensures lo <= hi ==> |r| == hi - lo
    decreases hi - lo
  {
    if lo >= hi then {} else Range(lo, hi - 1) + {hi - 1}
  }

  lemma {:induction false} SubsetSize<T>(a: set<T>, b: set<T>)
    requires a <= b
    ensures |a| <= |b|
    decreases |a|
  {
    if a != {} {
      var x :| x in a;
      SubsetSize(a - {x}, b - {x});
    }
  }

  /** Some element of a nonempty set. */
  ghost function Pick<T>(a: set<T>): (x: T)
    requires a != {}
    ensures x in a
  {
    var x :| x in a; x
  }

  /** A nonempty finite set of integers has a least element. */
  lemma {:induction false} HasLeast(a: set<int>) returns (m: int)
    requires a != {}
    ensures m in a && forall x :: x in a ==> m <= x
    decreases |a|
  {
    var x := Pick(a);
    m := x;
    var rest := a - {x};
    if rest != {} {
      var r := HasLeast(rest);
      m := if r < x then r else x;
    }
    assert forall y :: y in a ==> y == x || y in rest;
  }
}
