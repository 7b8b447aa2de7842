/** Small helpers shared by the model: an optional value, Python's `range`,
    and facts about sequences of integers used by the fan-out proofs. */
module Util {

  /** A value that may be absent (Python's `X | None`, or a key missing from a dict). */
  datatype Option<+T> = None | Some(value: T)

  /** Python's `range(lo, hi)`: the integers lo, lo + 1, ..., hi - 1, empty when hi <= lo. */
  function Range(lo: int, hi: int): (r: seq<int>)
    decreases hi - lo
    ensures |r| == if hi <= lo then 0 else hi - lo
    ensures forall k :: 0 <= k < |r| ==> r[k] == lo + k
    ensures forall x :: x in r <==> lo <= x < hi
  {
    if hi <= lo then [] else [lo] + Range(lo + 1, hi)
  }

  /** The set of the elements of a sequence (Python's `set(s)`). */
  function Elements(s: seq<int>): set<int>
  {
    set x | x in s
  }

  ghost predicate Increasing(s: seq<int>)
  {
    forall i, j :: 0 <= i < j < |s| ==> s[i] < s[j]
  }

  ghost predicate Distinct(s: seq<int>)
  {
    forall i, j :: 0 <= i < j < |s| ==> s[i] != s[j]
  }

  /** A sequence without repetitions has as many elements as its set. */
  lemma {:induction false} DistinctCard(s: seq<int>)
    requires Distinct(s)
    ensures |Elements(s)| == |s|
  {
    if s != [] {
      assert Distinct(s[1..]) by {
        forall i, j | 0 <= i < j < |s[1..]| ensures s[1..][i] != s[1..][j] {
          assert s[1..][i] == s[i + 1] && s[1..][j] == s[j + 1];
        }
      }
      DistinctCard(s[1..]);
      assert Elements(s) == {s[0]} + Elements(s[1..]) by {
        forall x ensures x in Elements(s) <==> x == s[0] || x in Elements(s[1..]) {
          if x in s && x != s[0] {
            var k :| 0 <= k < |s| && s[k] == x;
            assert s[1..][k - 1] == x;
          }
        }
      }
      assert s[0] !in Elements(s[1..]);
    }
  }

  /** A sequence has at least as many positions as distinct elements, and exactly
      as many only when it has no repetition. */
  lemma {:induction false} ElementsCard(s: seq<int>)
    ensures |Elements(s)| <= |s|
    ensures |Elements(s)| == |s| ==> Distinct(s)
  {
    if s != [] {
      ElementsCard(s[1..]);
      assert Elements(s) == {s[0]} + Elements(s[1..]) by {
        forall x ensures x in Elements(s) <==> x == s[0] || x in Elements(s[1..]) {
          if x in s && x != s[0] {
            var k :| 0 <= k < |s| && s[k] == x;
            assert s[1..][k - 1] == x;
          }
        }
      }
      if |Elements(s)| == |s| {
        assert s[0] !in Elements(s[1..]);
        forall i, j | 0 <= i < j < |s| ensures s[i] != s[j] {
          assert s[j] == s[1..][j - 1];
          if i > 0 {
            assert s[i] == s[1..][i - 1];
          }
        }
      }
    }
  }

  /** Concatenation of a sequence of sequences, front to back. */
  function Concat<T>(xss: seq<seq<T>>): (r: seq<T>)
  {
    if xss == [] then [] else xss[0] + Concat(xss[1..])
  }

  /** Concatenating one-element lists gives the list of their elements, in the same order. */
  lemma {:induction false} ConcatSingletons<T>(xss: seq<seq<T>>)
    requires forall k :: 0 <= k < |xss| ==> |xss[k]| == 1
    ensures |Concat(xss)| == |xss|
    ensures forall k :: 0 <= k < |xss| ==> Concat(xss)[k] == xss[k][0]
  {
    if xss != [] {
      ConcatSingletons(xss[1..]);
      assert forall k :: 1 <= k < |xss| ==> xss[1..][k - 1] == xss[k];
    }
  }
}
