/**
 * An order-preserving filter-and-map over a sequence, the shape shared by the
 * description builder (one line per kept field) and the queue batch handler
 * (one failure entry per failing record).
 */
module Seqs {

  /** The images under `f` of the elements that satisfy `keep`, in their order. */
  function FilterMap<T, U>(s: seq<T>, keep: T -> bool, f: T -> U): seq<U> {
    if s == [] then []
    else FilterMap(s[..|s| - 1], keep, f) + (if keep(s[|s| - 1]) then [f(s[|s| - 1])] else [])
  }

  /** How many elements satisfy `keep`. */
  function Count<T>(s: seq<T>, keep: T -> bool): nat {
    if s == [] then 0
    else Count(s[..|s| - 1], keep) + (if keep(s[|s| - 1]) then 1 else 0)
  }

  /** Extending the input by one element extends the output by at most its image. */
  lemma FilterMapSnoc<T, U>(s: seq<T>, x: T, keep: T -> bool, f: T -> U)
    ensures FilterMap(s + [x], keep, f) == FilterMap(s, keep, f) + (if keep(x) then [f(x)] else [])
    ensures Count(s + [x], keep) == Count(s, keep) + (if keep(x) then 1 else 0)
  {
    assert (s + [x])[..|s + [x]| - 1] == s;
  }

  /** One output element per kept input element. */
  lemma {:induction false} FilterMapLength<T, U>(s: seq<T>, keep: T -> bool, f: T -> U)
    ensures |FilterMap(s, keep, f)| == Count(s, keep)
  {
    if s != [] {
      FilterMapLength(s[..|s| - 1], keep, f);
    }
  }

  /** The output is empty exactly when no element is kept. */
  lemma {:induction false} FilterMapEmpty<T, U>(s: seq<T>, keep: T -> bool, f: T -> U)
    ensures FilterMap(s, keep, f) == [] <==> forall i :: 0 <= i < |s| ==> !keep(s[i])
  {
    if s != [] {
      var init := s[..|s| - 1];
      FilterMapEmpty(init, keep, f);
      assert forall i :: 0 <= i < |init| ==> init[i] == s[i];
    }
  }

  /** Counting over a prefix never exceeds counting over a longer prefix. */
  lemma {:induction false} CountPrefix<T>(s: seq<T>, keep: T -> bool, i: nat, j: nat)
    requires i <= j <= |s|
    ensures Count(s[..i], keep) <= Count(s[..j], keep)
  {
    if i < j {
      CountPrefix(s, keep, i, j - 1);
      assert s[..j] == s[..j - 1] + [s[j - 1]];
      assert s[..j][..|s[..j]| - 1] == s[..j - 1];
    }
  }

  /**
   * A kept element at index i is output at position Count(s[..i]): the number
   * of kept elements before it.
   */
  lemma {:induction false} FilterMapAt<T, U>(s: seq<T>, keep: T -> bool, f: T -> U, i: nat)
    requires i < |s| && keep(s[i])
    ensures Count(s[..i], keep) < |FilterMap(s, keep, f)|
    ensures FilterMap(s, keep, f)[Count(s[..i], keep)] == f(s[i])
  {
    var init := s[..|s| - 1];
    assert s == init + [s[|s| - 1]];
    FilterMapLength(s, keep, f);
    FilterMapLength(init, keep, f);
    if i == |s| - 1 {
      assert s[..i] == init;
    } else {
      assert init[i] == s[i];
      assert init[..i] == s[..i];
      FilterMapAt(init, keep, f, i);
    }
  }

  /** Kept elements are output in their input order. */
  lemma RankIncreasing<T>(s: seq<T>, keep: T -> bool, i: nat, j: nat)
    requires i < j <= |s| && keep(s[i])
    ensures Count(s[..i], keep) < Count(s[..j], keep)
  {
    assert s[..i + 1] == s[..i] + [s[i]];
    assert s[..i + 1][..|s[..i + 1]| - 1] == s[..i];
    CountPrefix(s, keep, i + 1, j);
  }
}
