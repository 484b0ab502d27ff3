/**
 * The Ruby `Array` operations the Podfile helper uses on `build_phases`, over
 * sequences: `index` with a block, `delete_at`, and `insert`, which pads with a
 * filler (Ruby's `nil`) when the index lies past the end.
 */
module RubyArrays {
  import opened Common

  /** `index { |x| p(x) }`: the first position whose element satisfies `p`, or nil. */
  function FirstIndex<T>(s: seq<T>, p: T -> bool): (r: Option<nat>)
    ensures r.Some? ==> r.value < |s| && p(s[r.value]) && forall k :: 0 <= k < r.value ==> !p(s[k])
    ensures r.None? <==> forall k :: 0 <= k < |s| ==> !p(s[k])
    decreases |s|
  {
    if s == [] then None
    else if p(s[0]) then Some(0)
    else
      var rest := FirstIndex(s[1..], p);
      assert forall k :: 1 <= k < |s| ==> s[k] == s[1..][k - 1];
      if rest.None? then None else Some(rest.value + 1)
  }

  /** The first match is at `i` when `i` matches and nothing before it does. */
  lemma FirstIndexAt<T>(s: seq<T>, p: T -> bool, i: nat)
    requires i < |s| && p(s[i])
    requires forall k :: 0 <= k < i ==> !p(s[k])
    ensures FirstIndex(s, p) == Some(i)
  {
    var r := FirstIndex(s, p);
    assert r.Some?;
  }

  /** `delete_at(i)` for an index inside the array: the array without its `i`-th element. */
  function DeleteAt<T>(s: seq<T>, i: nat): (r: seq<T>)
    requires i < |s|
    ensures |r| == |s| - 1
    ensures forall k :: 0 <= k < i ==> r[k] == s[k]
    ensures forall k :: i <= k < |r| ==> r[k] == s[k + 1]
  {
    s[..i] + s[i + 1..]
  }

  /**
   * `insert(i, x)` for a non-negative index: `x` ends up at position `i`; the elements
   * from `i` on move one place right, and an index past the end is reached by padding
   * with `filler`.
   */
  function Insert<T>(s: seq<T>, i: nat, x: T, filler: T): (r: seq<T>)
    ensures |r| == (if i <= |s| then |s| else i) + 1
    ensures r[i] == x
    ensures forall k :: 0 <= k < i && k < |s| ==> r[k] == s[k]
    ensures forall k :: |s| <= k < i ==> r[k] == filler
    ensures forall k :: i < k < |r| ==> r[k] == s[k - 1]
  {
    if i <= |s| then s[..i] + [x] + s[i..]
    else s + seq(i - |s|, _ => filler) + [x]
  }

  /** Deleting what was just inserted inside the array gives the array back. */
  lemma DeleteInserted<T>(s: seq<T>, i: nat, x: T, filler: T)
    requires i <= |s|
    ensures DeleteAt(Insert(s, i, x, filler), i) == s
  {
    var r := Insert(s, i, x, filler);
    assert r == s[..i] + [x] + s[i..];
    assert r[..i] == s[..i];
    assert r[i + 1..] == s[i..];
  }

  /** `insert(to, delete_at(from))`: the element at `from` taken out and put back at `to`. */
  function Move<T>(s: seq<T>, from: nat, to: nat, filler: T): (r: seq<T>)
    requires from < |s|
    ensures |r| == if to < |s| then |s| else to + 1
    ensures r[to] == s[from]
  {
    Insert(DeleteAt(s, from), to, s[from], filler)
  }

  /** A move to an index inside the shortened array loses and gains nothing. */
  lemma MoveIsPermutation<T>(s: seq<T>, from: nat, to: nat, filler: T)
    requires from < |s| && to < |s|
    ensures |Move(s, from, to, filler)| == |s|
    ensures multiset(Move(s, from, to, filler)) == multiset(s)
  {
    var d := DeleteAt(s, from);
    assert s == s[..from] + [s[from]] + s[from + 1..];
    assert d == s[..from] + s[from + 1..];
    assert multiset(d) + multiset{s[from]} == multiset(s);
    var r := Move(s, from, to, filler);
    assert r == d[..to] + [s[from]] + d[to..];
    assert d == d[..to] + d[to..];
  }

  /** A move to one past the end of the shortened array gains exactly one filler. */
  lemma MovePastEndPads<T>(s: seq<T>, from: nat, filler: T)
    requires from < |s|
    ensures Move(s, from, |s|, filler) == DeleteAt(s, from) + [filler, s[from]]
  {
  }

  /** So such a move keeps every element and adds one filler. */
  lemma MovePastEndAddsFiller<T>(s: seq<T>, from: nat, filler: T)
    requires from < |s|
    ensures multiset(Move(s, from, |s|, filler)) == multiset(s) + multiset{filler}
  {
    MovePastEndPads(s, from, filler);
    assert s[from..] == [s[from]] + s[from + 1..];
    assert s == s[..from] + s[from..];
    assert DeleteAt(s, from) == s[..from] + s[from + 1..];
  }

  /** Moving back to the precomputed index of an earlier element puts the moved one directly before it. */
  lemma MoveDownLandsBefore<T>(s: seq<T>, from: nat, to: nat, filler: T)
    requires to < from < |s|
    ensures Move(s, from, to, filler)[to] == s[from]
    ensures Move(s, from, to, filler)[to + 1] == s[to]
  {
  }

  /** Moving to the precomputed index of a later element from before it puts the moved one directly after it. */
  lemma MoveUpLandsAfter<T>(s: seq<T>, from: nat, to: nat, filler: T)
    requires from < to < |s|
    ensures Move(s, from, to, filler)[to] == s[from]
    ensures Move(s, from, to, filler)[to - 1] == s[to]
  {
  }

  /** The number of elements satisfying `p`. */
  function Count<T>(s: seq<T>, p: T -> bool): (n: nat)
    ensures n <= |s|
    ensures n == 0 <==> forall k :: 0 <= k < |s| ==> !p(s[k])
    decreases |s|
  {
    if s == [] then 0
    else
      assert forall k :: 1 <= k < |s| ==> s[k] == s[1..][k - 1];
      (if p(s[0]) then 1 else 0) + Count(s[1..], p)
  }

  /** Counting is additive over concatenation. */
  lemma {:induction false} CountAppend<T>(a: seq<T>, b: seq<T>, p: T -> bool)
    ensures Count(a + b, p) == Count(a, p) + Count(b, p)
    decreases |a|
  {
    if a == [] {
      assert a + b == b;
    } else {
      assert (a + b)[1..] == a[1..] + b;
      CountAppend(a[1..], b, p);
    }
  }
}
