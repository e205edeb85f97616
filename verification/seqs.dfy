/** Small facts about sequences shared by the components. */
module Seqs {

  /** Number of positions of `s` holding `x`. */
  function Count<T(==)>(s: seq<T>, x: T): (n: nat)
    ensures n <= |s|
    ensures n == 0 <==> x !in s
  {
    if |s| == 0 then 0
    else (if s[0] == x then 1 else 0) + Count(s[1..], x)
  }

  lemma {:induction false} CountAppend<T>(a: seq<T>, b: seq<T>, x: T)
    ensures Count(a + b, x) == Count(a, x) + Count(b, x)
  {
    if |a| == 0 {
      assert a + b == b;
    } else {
      assert (a + b)[1..] == a[1..] + b;
      CountAppend(a[1..], b, x);
    }
  }

  /** A value that sits at exactly one position occurs once. */
  lemma CountOnlyAt<T>(s: seq<T>, x: T, k: nat)
    requires k < |s|
    requires forall i :: 0 <= i < |s| ==> (s[i] == x <==> i == k)
    ensures Count(s, x) == 1
  {
    var before, after := s[..k], s[k + 1..];
    assert x !in before by {
      forall i | 0 <= i < |before| ensures before[i] != x {
        assert before[i] == s[i];
      }
    }
    assert x !in after by {
      forall i | 0 <= i < |after| ensures after[i] != x {
        assert after[i] == s[k + 1 + i];
      }
    }
    assert Count([x], x) == 1 by {
      assert [x][1..] == [];
    }
    assert s == before + [x] + after;
    CountAppend(before + [x], after, x);
    CountAppend(before, [x], x);
  }

  /** `x` occurs in `s` as a contiguous block (JavaScript's `s.includes(x)`). */
  predicate Contains<T(==)>(s: seq<T>, x: seq<T>)
    decreases |s|
  {
    x <= s || (|s| > 0 && Contains(s[1..], x))
  }

  /** Whatever sits between a prefix and a suffix is contained in the whole. */
  lemma {:induction false} ContainsMiddle<T>(a: seq<T>, x: seq<T>, b: seq<T>)
    ensures Contains(a + x + b, x)
    decreases |a|
  {
    if |a| == 0 {
      assert a + x + b == x + b;
      assert x <= x + b;
    } else {
      assert (a + x + b)[1..] == a[1..] + x + b;
      ContainsMiddle(a[1..], x, b);
    }
  }

  /** Each of three texts interleaved with fixed pieces is contained in the
      result. */
  lemma ContainsEachOfThree<T>(a: seq<T>, x: seq<T>, b: seq<T>, y: seq<T>, c: seq<T>, z: seq<T>, d: seq<T>)
    ensures Contains(a + x + b + y + c + z + d, x)
    ensures Contains(a + x + b + y + c + z + d, y)
    ensures Contains(a + x + b + y + c + z + d, z)
  {
    var s := a + x + b + y + c + z + d;
    assert s == a + x + (b + y + c + z + d);
    ContainsMiddle(a, x, b + y + c + z + d);
    assert s == (a + x + b) + y + (c + z + d);
    ContainsMiddle(a + x + b, y, c + z + d);
    ContainsMiddle(a + x + b + y + c, z, d);
  }

  /** Text contained in `s` stays contained when more is added after. */
  lemma {:induction false} ContainsBefore<T>(s: seq<T>, x: seq<T>, b: seq<T>)
    requires Contains(s, x)
    ensures Contains(s + b, x)
    decreases |s|
  {
    if !(x <= s) {
      assert (s + b)[1..] == s[1..] + b;
      ContainsBefore(s[1..], x, b);
    }
  }

  /** Text contained in `s` stays contained inside any surrounding. */
  lemma {:induction false} ContainsWithin<T>(a: seq<T>, s: seq<T>, b: seq<T>, x: seq<T>)
    requires Contains(s, x)
    ensures Contains(a + s + b, x)
    decreases |a|
  {
    if |a| == 0 {
      assert a + s + b == s + b;
      ContainsBefore(s, x, b);
    } else {
      assert (a + s + b)[1..] == a[1..] + s + b;
      ContainsWithin(a[1..], s, b, x);
    }
  }
}
