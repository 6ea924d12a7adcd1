/** Ordering of strings by code point, as Python's `sorted` and the TypeScript comparator use it. */
module Text {

  /** `a` precedes `b` in lexicographic order of code points. */
  predicate Less(a: string, b: string) {
    b != [] && (a == [] || a[0] < b[0] || (a[0] == b[0] && Less(a[1..], b[1..])))
  }

  lemma {:induction false} LessIrreflexive(a: string)
    ensures !Less(a, a)
  {
    if a != [] { LessIrreflexive(a[1..]); }
  }

  lemma {:induction false} LessTransitive(a: string, b: string, c: string)
    requires Less(a, b) && Less(b, c)
    ensures Less(a, c)
  {
    if a != [] && a[0] == b[0] == c[0] { LessTransitive(a[1..], b[1..], c[1..]); }
  }

  lemma {:induction false} LessAsymmetric(a: string, b: string)
    requires Less(a, b)
    ensures !Less(b, a)
  {
    if a != [] && a[0] == b[0] { LessAsymmetric(a[1..], b[1..]); }
  }

  lemma {:induction false} LessTotal(a: string, b: string)
    ensures a == b || Less(a, b) || Less(b, a)
  {
    if a != [] && b != [] && a[0] == b[0] {
      LessTotal(a[1..], b[1..]);
      assert a == [a[0]] + a[1..] && b == [b[0]] + b[1..];
    }
  }

  /** A common prefix does not matter. */
  lemma {:induction false} LessAfterPrefix(n: nat, a: string, b: string)
    requires n <= |a| && n <= |b| && a[..n] == b[..n]
    ensures Less(a, b) <==> Less(a[n..], b[n..])
  {
    if n > 0 {
      assert a[0] == a[..n][0] == b[..n][0] == b[0];
      assert a[1..][..n - 1] == a[..n][1..] && b[1..][..n - 1] == b[..n][1..];
      LessAfterPrefix(n - 1, a[1..], b[1..]);
      assert a[1..][n - 1..] == a[n..] && b[1..][n - 1..] == b[n..];
    }
  }

  /** `compareUnicodeScalarValues`: negative, zero or positive as `left` precedes, equals or follows `right`. */
  method CompareScalarValues(left: string, right: string) returns (order: int)
    ensures order < 0 <==> Less(left, right)
    ensures order == 0 <==> left == right
    ensures order > 0 <==> Less(right, left)
  {
    LessIrreflexive(left);
    var length := if |left| < |right| then |left| else |right|;
    for index := 0 to length
      invariant left[..index] == right[..index]
    {
      var a, b := left[index] as int, right[index] as int;
      if a != b {
        LessAfterPrefix(index, left, right);
        LessAfterPrefix(index, right, left);
        return a - b;
      }
    }
    LessAfterPrefix(length, left, right);
    LessAfterPrefix(length, right, left);
    assert |left| == |right| ==> left == left[..length] && right == right[..length];
    return |left| - |right|;
  }
}
