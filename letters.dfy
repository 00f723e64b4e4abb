/**
 * Sequence operations the exercise engine performs on JavaScript arrays of
 * one-letter strings: filling a new array with n copies, writing one element
 * (which grows the array when the index is past its end) and filtering a
 * letter out.
 */
module Letters {

  /** `Array(n).fill(x)`: n copies of x. */
  function Repeat(x: string, n: nat): (r: seq<string>)
    ensures |r| == n
    ensures forall i :: 0 <= i < n ==> r[i] == x
  {
    seq(n, _ => x)
  }

  lemma {:induction false} RepeatCount(x: string, n: nat)
    ensures multiset(Repeat(x, n))[x] == n
    ensures forall y :: y != x ==> multiset(Repeat(x, n))[y] == 0
  {
    if n > 0 {
      RepeatCount(x, n - 1);
      assert Repeat(x, n) == Repeat(x, n - 1) + [x];
    }
  }

  /**
   * `a[i] = v` on a JavaScript array: inside the array it replaces one
   * element; past the end the array grows to length i + 1 and the gap holds
   * holes, which the engine treats exactly like the empty string "".
   */
  function SetSlot(s: seq<string>, i: nat, v: string): (r: seq<string>)
    ensures |r| == if i < |s| then |s| else i + 1
    ensures forall k :: 0 <= k < |r| ==> r[k] == if k == i then v else if k < |s| then s[k] else ""
  {
    if i < |s| then s[i := v] else s + Repeat("", i - |s|) + [v]
  }

  /** The elements of s that are not in gone, in their original order (repeated `filter`). */
  function Without(s: seq<string>, gone: set<string>): (r: seq<string>)
    ensures |r| <= |s|
    ensures forall x :: x in r <==> x in s && x !in gone
  {
    if s == [] then []
    else (if s[0] in gone then [] else [s[0]]) + Without(s[1..], gone)
  }

  /** Removing letters keeps the count of every other letter and drops the removed ones. */
  lemma {:induction false} WithoutCount(s: seq<string>, gone: set<string>)
    ensures forall x :: multiset(Without(s, gone))[x] == if x in gone then 0 else multiset(s)[x]
  {
    if s != [] {
      WithoutCount(s[1..], gone);
      assert s == [s[0]] + s[1..];
    }
  }

  /** Filtering distributes over concatenation, so relative order is kept. */
  lemma {:induction false} WithoutAppend(a: seq<string>, b: seq<string>, gone: set<string>)
    ensures Without(a + b, gone) == Without(a, gone) + Without(b, gone)
  {
    if a != [] {
      assert (a + b)[1..] == a[1..] + b;
      WithoutAppend(a[1..], b, gone);
    } else {
      assert a + b == b;
    }
  }

  /** Removing letters in two steps is removing the union at once. */
  lemma {:induction false} WithoutWithout(s: seq<string>, a: set<string>, b: set<string>)
    ensures Without(Without(s, a), b) == Without(s, a + b)
  {
    if s != [] {
      WithoutWithout(s[1..], a, b);
      var head := if s[0] in a then [] else [s[0]];
      WithoutAppend(head, Without(s[1..], a), b);
      if s[0] !in a {
        assert Without(head, b) == (if s[0] in b then [] else [s[0]]) by {
          assert head[1..] == [];
        }
      }
    }
  }

  /** Removing nothing changes nothing. */
  lemma {:induction false} WithoutNothing(s: seq<string>)
    ensures Without(s, {}) == s
  {
    if s != [] {
      WithoutNothing(s[1..]);
      assert s == [s[0]] + s[1..];
    }
  }
}
