/**
 * The few JavaScript built-ins the storefront's logic relies on, written as
 * Dafny functions: `undefined`/`null` as an Option, `Array.prototype.filter`,
 * `String.prototype.includes` and `String.prototype.toLowerCase`.
 */
module JsBuiltins {

  /** A value that may be `undefined` or `null` (None). */
  datatype Option<+T> = None | Some(value: T)

  // ---------------------------------------------------------------------------
  // Array.prototype.filter
  // ---------------------------------------------------------------------------

  /** The elements of `s` that pass `keep`, in their original order. */
  function Filter<T>(s: seq<T>, keep: T -> bool): (r: seq<T>)
    ensures |r| <= |s|
    ensures forall k :: 0 <= k < |r| ==> r[k] in s && keep(r[k])
    ensures forall i :: 0 <= i < |s| && keep(s[i]) ==> s[i] in r
  {
    if s == [] then []
    else (if keep(s[0]) then [s[0]] else []) + Filter(s[1..], keep)
  }

  /**
   * `r` is the sub-sequence of `s` at the strictly increasing positions `idx`:
   * every element of `r` is taken from `s`, and in the order `s` has them.
   */
  ghost predicate OrderedSelection<T>(r: seq<T>, s: seq<T>, idx: seq<nat>)
  {
    && |idx| == |r|
    && (forall k :: 0 <= k < |idx| ==> idx[k] < |s| && r[k] == s[idx[k]])
    && (forall k, l :: 0 <= k < l < |idx| ==> idx[k] < idx[l])
  }

  /**
   * `r` holds exactly the elements of `s` at the positions whose element
   * passes `keep`, each once, in the order of `s`.
   */
  ghost predicate SelectsExactly<T>(r: seq<T>, s: seq<T>, keep: T -> bool)
  {
    exists idx :: OrderedSelection(r, s, idx) &&
      forall i :: 0 <= i < |s| ==> (keep(s[i]) <==> i in idx)
  }

  /** Every position in `idx`, one further on. */
  function Shift(idx: seq<nat>): (r: seq<nat>)
    ensures |r| == |idx|
    ensures forall k :: 0 <= k < |idx| ==> r[k] == idx[k] + 1
    ensures forall i :: i in r <==> i > 0 && i - 1 in idx
  {
    var r := seq(|idx|, k requires 0 <= k < |idx| => idx[k] + 1);
    assert forall i :: i in r ==> i > 0 && i - 1 in idx;
    assert forall i :: i > 0 && i - 1 in idx ==> i in r by {
      forall i | i > 0 && i - 1 in idx ensures i in r {
        var k :| 0 <= k < |idx| && idx[k] == i - 1;
        assert r[k] == i;
      }
    }
    r
  }

  /** The positions of `s` whose element passes `keep`, in increasing order. */
  ghost function FilterPositions<T>(s: seq<T>, keep: T -> bool): seq<nat>
  {
    if s == [] then []
    else (if keep(s[0]) then [0] else []) + Shift(FilterPositions(s[1..], keep))
  }

  /** Prepending an element to `s` shifts a selection of `s` one position on. */
  lemma ShiftedSelection<T>(x: T, s: seq<T>, r: seq<T>, idx: seq<nat>)
    requires OrderedSelection(r, s, idx)
    ensures OrderedSelection(r, [x] + s, Shift(idx))
  {
    var s', idx' := [x] + s, Shift(idx);
    forall k | 0 <= k < |idx'| ensures idx'[k] < |s'| && r[k] == s'[idx'[k]] {
      assert s'[idx[k] + 1] == s[idx[k]];
    }
  }

  /** A selection of `[x] + s` that does not use position 0 may take `x` in front. */
  lemma TakeHead<T>(x: T, s: seq<T>, r: seq<T>, idx: seq<nat>)
    requires OrderedSelection(r, [x] + s, Shift(idx))
    ensures OrderedSelection([x] + r, [x] + s, [0] + Shift(idx))
  {
    var r', idx' := [x] + r, [0] + Shift(idx);
    forall k | 0 <= k < |idx'| ensures idx'[k] < |s| + 1 && r'[k] == ([x] + s)[idx'[k]] {
      if k > 0 { assert idx'[k] == Shift(idx)[k - 1] && r'[k] == r[k - 1]; }
    }
    forall k, l | 0 <= k < l < |idx'| ensures idx'[k] < idx'[l] {
      assert idx'[l] == Shift(idx)[l - 1];
      if k > 0 { assert idx'[k] == Shift(idx)[k - 1]; }
    }
  }

  /** `Filter` keeps exactly the passing elements, each once, in their original order. */
  lemma {:induction false} FilterKeepsOrder<T>(s: seq<T>, keep: T -> bool)
    ensures OrderedSelection(Filter(s, keep), s, FilterPositions(s, keep))
    ensures forall i :: 0 <= i < |s| ==> (keep(s[i]) <==> i in FilterPositions(s, keep))
  {
    if s != [] {
      var tail := s[1..];
      assert s == [s[0]] + tail;
      FilterKeepsOrder(tail, keep);
      var t := FilterPositions(tail, keep);
      ShiftedSelection(s[0], tail, Filter(tail, keep), t);
      if keep(s[0]) {
        TakeHead(s[0], tail, Filter(tail, keep), t);
      }
      forall i | 0 <= i < |s| ensures keep(s[i]) <==> i in FilterPositions(s, keep) {
        if i > 0 {
          assert s[i] == tail[i - 1];
        }
      }
    }
  }

  /** `Filter` is an order-preserving selection of exactly the passing elements. */
  lemma FilterSelectsExactly<T>(s: seq<T>, keep: T -> bool)
    ensures SelectsExactly(Filter(s, keep), s, keep)
  {
    FilterKeepsOrder(s, keep);
  }

  /** A selection holds exactly the passing elements of its source. */
  lemma SelectionMembership<T>(r: seq<T>, s: seq<T>, keep: T -> bool)
    requires SelectsExactly(r, s, keep)
    ensures forall k :: 0 <= k < |r| ==> r[k] in s && keep(r[k])
    ensures forall i :: 0 <= i < |s| && keep(s[i]) ==> s[i] in r
  {
    var idx :| OrderedSelection(r, s, idx) && forall i :: 0 <= i < |s| ==> (keep(s[i]) <==> i in idx);
    forall k | 0 <= k < |r| ensures r[k] in s && keep(r[k]) {
      assert r[k] == s[idx[k]] && idx[k] in idx;
    }
    forall i | 0 <= i < |s| && keep(s[i]) ensures s[i] in r {
      var k :| 0 <= k < |idx| && idx[k] == i;
      assert r[k] == s[i];
    }
  }

  /** Strictly increasing sequence. */
  ghost predicate Increasing(idx: seq<nat>)
  {
    forall k, l :: 0 <= k < l < |idx| ==> idx[k] < idx[l]
  }

  /** A non-empty sequence holds its first element. */
  lemma HeadIsElement<T>(s: seq<T>)
    requires s != []
    ensures s[0] in s
  {
  }

  /** Two strictly increasing sequences with the same elements are the same sequence. */
  lemma {:induction false} IncreasingDeterminedByElements(a: seq<nat>, b: seq<nat>)
    requires Increasing(a) && Increasing(b)
    requires forall x :: x in a <==> x in b
    ensures a == b
    decreases |a|
  {
    if a == [] && b != [] {
      HeadIsElement(b);
      assert false;
    } else if a != [] && b == [] {
      HeadIsElement(a);
      assert false;
    } else if a != [] {
      assert a[0] == b[0] by {
        assert a[0] in b && b[0] in a;
      }
      forall x ensures x in a[1..] <==> x in b[1..] {
        if x in a[1..] {
          var k :| 1 <= k < |a| && a[k] == x;
          assert x in b && x != b[0];
        }
        if x in b[1..] {
          var k :| 1 <= k < |b| && b[k] == x;
          assert x in a && x != a[0];
        }
      }
      IncreasingDeterminedByElements(a[1..], b[1..]);
      assert a == [a[0]] + a[1..] && b == [b[0]] + b[1..];
    }
  }

  /** The positions of a selection are exactly the positions of passing elements. */
  lemma SelectedPositions<T>(r: seq<T>, s: seq<T>, keep: T -> bool, idx: seq<nat>)
    requires OrderedSelection(r, s, idx)
    requires forall i :: 0 <= i < |s| ==> (keep(s[i]) <==> i in idx)
    ensures forall x: nat :: x in idx <==> x < |s| && keep(s[x])
  {
    forall x | x in idx ensures x < |s| {
      var k :| 0 <= k < |idx| && idx[k] == x;
    }
  }

  /** There is only one order-preserving selection of the passing elements. */
  lemma SelectionIsUnique<T>(r1: seq<T>, r2: seq<T>, s: seq<T>, keep: T -> bool)
    requires SelectsExactly(r1, s, keep) && SelectsExactly(r2, s, keep)
    ensures r1 == r2
  {
    var idx1 :| OrderedSelection(r1, s, idx1) && forall i :: 0 <= i < |s| ==> (keep(s[i]) <==> i in idx1);
    SelectedPositions(r1, s, keep, idx1);
    var idx2 :| OrderedSelection(r2, s, idx2) && forall i :: 0 <= i < |s| ==> (keep(s[i]) <==> i in idx2);
    SelectedPositions(r2, s, keep, idx2);
    IncreasingDeterminedByElements(idx1, idx2);
    assert forall k :: 0 <= k < |r1| ==> r1[k] == s[idx1[k]] == r2[k];
  }

  /** `Filter` returns nothing exactly when no element passes. */
  lemma FilterEmpty<T>(s: seq<T>, keep: T -> bool)
    ensures Filter(s, keep) == [] <==> forall x :: x in s ==> !keep(x)
  {
    var r := Filter(s, keep);
    if r != [] {
      assert r[0] in s && keep(r[0]);
    }
  }

  /** `Filter` on a three-element sequence decides each element in turn. */
  lemma FilterOfThree<T>(a: T, b: T, c: T, keep: T -> bool)
    ensures Filter([a, b, c], keep) ==
      (if keep(a) then [a] else []) + ((if keep(b) then [b] else []) + (if keep(c) then [c] else []))
  {
    assert [a, b, c][1..] == [b, c] && [b, c][1..] == [c] && [c][1..] == [];
    assert Filter([c], keep) == (if keep(c) then [c] else []) + [];
  }

  /** `Filter` on a four-element sequence decides each element in turn. */
  lemma FilterOfFour<T>(a: T, b: T, c: T, d: T, keep: T -> bool)
    ensures Filter([a, b, c, d], keep) ==
      (if keep(a) then [a] else []) + ((if keep(b) then [b] else []) +
      ((if keep(c) then [c] else []) + (if keep(d) then [d] else [])))
  {
    FilterOfThree(b, c, d, keep);
    assert [a, b, c, d][1..] == [b, c, d];
  }

  /** When every element passes, `Filter` returns its input unchanged. */
  lemma {:induction false} FilterKeepsAll<T>(s: seq<T>, keep: T -> bool)
    requires forall x :: x in s ==> keep(x)
    ensures Filter(s, keep) == s
  {
    if s != [] {
      FilterKeepsAll(s[1..], keep);
      assert [s[0]] + s[1..] == s;
    }
  }

  /** `Filter` distributes over concatenation. */
  lemma {:induction false} FilterConcat<T>(a: seq<T>, b: seq<T>, keep: T -> bool)
    ensures Filter(a + b, keep) == Filter(a, keep) + Filter(b, keep)
  {
    if a != [] {
      assert (a + b)[1..] == a[1..] + b;
      FilterConcat(a[1..], b, keep);
    } else {
      assert a + b == b;
    }
  }

  // ---------------------------------------------------------------------------
  // Array.prototype.map
  // ---------------------------------------------------------------------------

  /** `s.map(f)`: `f` applied to each element, in place. */
  function Map<T, U>(s: seq<T>, f: T -> U): seq<U>
  {
    seq(|s|, k requires 0 <= k < |s| => f(s[k]))
  }

  /** `map` distributes over concatenation. */
  lemma MapConcat<T, U>(a: seq<T>, b: seq<T>, f: T -> U)
    ensures Map(a + b, f) == Map(a, f) + Map(b, f)
  {
    assert forall k :: 0 <= k < |a| ==> (a + b)[k] == a[k];
    assert forall k :: |a| <= k < |a| + |b| ==> (a + b)[k] == b[k - |a|];
  }

  /** A `map` whose function leaves every element unchanged returns its input. */
  lemma MapUnchanged<T>(s: seq<T>, f: T -> T)
    requires forall x :: x in s ==> f(x) == x
    ensures Map(s, f) == s
  {
    assert forall k :: 0 <= k < |s| ==> s[k] in s;
  }

  // ---------------------------------------------------------------------------
  // String.prototype.includes and String.prototype.toLowerCase
  // ---------------------------------------------------------------------------

  /**
   * `text.includes(part)`: `part` occurs in `text` at some position. Every
   * string includes itself and the empty string, and nothing longer than itself.
   */
  predicate Includes(text: string, part: string)
    ensures part == "" || part == text ==> Includes(text, part)
    ensures Includes(text, part) ==> |part| <= |text|
  {
    assert part == "" || part == text ==> part <= text[0..];
    exists i | 0 <= i <= |text| - |part| :: part <= text[i..]
  }

  /** The lower-case form of one character (ASCII letters only). */
  function LowerChar(c: char): char
  {
    if 'A' <= c <= 'Z' then (c as int - 'A' as int + 'a' as int) as char else c
  }

  /** `s.toLowerCase()`, restricted to ASCII letters. */
  function ToLowerCase(s: string): (r: string)
    ensures |r| == |s|
    ensures forall i :: 0 <= i < |s| ==> r[i] == LowerChar(s[i])
    ensures forall i :: 0 <= i < |r| ==> !('A' <= r[i] <= 'Z')
  {
    seq(|s|, i requires 0 <= i < |s| => LowerChar(s[i]))
  }
}
