/**
 * The contiguous-subsequence test `array_includes_array` of the Podfile helper
 * `use_nativescript`. It scans the inspected array once, keeping a buffer of the
 * elements that so far agree with a prefix of the searched-for array, and clears
 * the buffer on a mismatch without retrying the mismatching element. The scan
 * also visits the slot one past the end, where Ruby's indexing yields `nil`.
 */
module SubarraySearch {
  import opened Common

  /** `needle` occurs contiguously in `haystack`, starting at index `p`. */
  ghost predicate OccursAt<T>(needle: seq<T>, haystack: seq<T>, p: nat)
  {
    p + |needle| <= |haystack| && haystack[p..p + |needle|] == needle
  }

  /** `needle` occurs contiguously somewhere in `haystack`. */
  ghost predicate Occurs<T>(needle: seq<T>, haystack: seq<T>)
  {
    exists p: nat :: OccursAt(needle, haystack, p)
  }

  /** A needle appended to any prefix occurs right after that prefix. */
  lemma OccursAfterPrefix<T>(prefix: seq<T>, needle: seq<T>)
    ensures OccursAt(needle, prefix + needle, |prefix|)
  {
    assert (prefix + needle)[|prefix|..|prefix| + |needle|] == needle;
  }

  /** What Ruby's `a[i]` yields: the element, or `nil` past the end. */
  function Slot<T>(a: seq<T>, i: nat): Option<T>
  {
    if i < |a| then Some(a[i]) else None
  }

  /** Every element of `a`, as a present slot. */
  function Lift<T>(a: seq<T>): (r: seq<Option<T>>)
    ensures |r| == |a|
    ensures forall k :: 0 <= k < |a| ==> r[k] == Some(a[k])
  {
    if a == [] then []
    else
      assert forall k :: 1 <= k < |a| ==> a[k] == a[1..][k - 1];
      [Some(a[0])] + Lift(a[1..])
  }

  /** The slots the loop `for i in 0..inspectLength` visits: all elements, then one `nil`. */
  function Slots<T>(a: seq<T>): seq<Option<T>>
  {
    Lift(a) + [None]
  }

  /**
   * The buffer length after one more slot, starting from a buffer of length `j`:
   * it grows when the slot equals the next element of `search`, and is cleared otherwise.
   */
  function Step<T(==)>(search: seq<T>, j: nat, slot: Option<T>): nat
    requires j < |search|
  {
    if slot == Some(search[j]) then j + 1 else 0
  }

  /**
   * The buffer length after feeding `slots` to the matcher, starting from a buffer of
   * length `j`; `|search|` once a whole match has been collected (the early `return true`).
   */
  function Run<T(==)>(search: seq<T>, j: nat, slots: seq<Option<T>>): (r: nat)
    requires j <= |search|
    ensures r <= |search|
    decreases |slots|
  {
    if j == |search| || slots == [] then j
    else Run(search, Step(search, j, slots[0]), slots[1..])
  }

  /**
   * The answer `array_includes_array(inspect, search)` gives: true for an empty search,
   * false for one longer than the inspected array, and otherwise whether the scan
   * collects a whole match. It is sound: a `true` answer means the searched-for array
   * occurs contiguously.
   */
  function Includes<T(==)>(inspect: seq<T>, search: seq<T>): (r: bool)
    ensures |search| == 0 ==> r
    ensures |search| > |inspect| ==> !r
    ensures r ==> Occurs(search, inspect)
  {
    if |search| == 0 then
      assert OccursAt(search, inspect, 0);
      true
    else if |search| > |inspect| then false
    else if Run(search, 0, Slots(inspect)) == |search| then
      assert Slots(inspect)[0..] == Slots(inspect);
      RunSound(inspect, search, 0, 0);
      true
    else false
  }

  /**
   * `array_includes_array`: the buffer-based scan. Its answer is `Includes`, and a
   * positive answer means the searched-for array really occurs in the inspected one.
   */
  method ArrayIncludesArray<T(==)>(inspect: seq<T>, search: seq<T>) returns (found: bool)
    ensures found == Includes(inspect, search)
    ensures |search| == 0 ==> found
    ensures |search| > |inspect| ==> !found
    ensures found ==> Occurs(search, inspect)
  {
    var inspectLength := |inspect|;
    var searchLength := |search|;
    if searchLength == 0 {
      assert OccursAt(search, inspect, 0);
      return true;
    }
    if searchLength > inspectLength {
      return false;
    }
    var buffer: seq<Option<T>> := [];
    for i := 0 to inspectLength + 1
      invariant |buffer| < searchLength
      invariant Run(search, |buffer|, Slots(inspect)[i..]) == Run(search, 0, Slots(inspect))
    {
      RunAdvance(search, |buffer|, inspect, i);
      buffer := buffer + [Slot(inspect, i)];
      var bufferLastIndex := |buffer| - 1;
      if buffer[bufferLastIndex] != Some(search[bufferLastIndex]) {
        buffer := [];
        continue;
      }
      if |buffer| == searchLength {
        return true;
      }
    }
    return false;
  }

  /** Feeding the slot at `i` to a buffer of length `j` is one `Step` of the run. */
  lemma RunAdvance<T>(search: seq<T>, j: nat, inspect: seq<T>, i: nat)
    requires j < |search| && i <= |inspect|
    ensures Run(search, j, Slots(inspect)[i..]) == Run(search, Step(search, j, Slot(inspect, i)), Slots(inspect)[i + 1..])
  {
    assert Slots(inspect)[i..][0] == Slot(inspect, i);
    assert Slots(inspect)[i..][1..] == Slots(inspect)[i + 1..];
  }

  /** Feeding a slot sequence that spells out the rest of `search` completes the match. */
  lemma {:induction false} RunMatchesRest<T>(search: seq<T>, j: nat, slots: seq<Option<T>>)
    requires j <= |search| && |search| - j <= |slots|
    requires forall k :: j <= k < |search| ==> slots[k - j] == Some(search[k])
    ensures Run(search, j, slots) == |search|
    decreases |search| - j
  {
    if j < |search| {
      assert Step(search, j, slots[0]) == j + 1;
      RunMatchesRest(search, j + 1, slots[1..]);
    }
  }

  /** Feeding slots none of which equals the first element of `search` keeps the buffer empty. */
  lemma {:induction false} RunStaysEmpty<T>(search: seq<T>, slots: seq<Option<T>>)
    requires |search| > 0
    requires forall k :: 0 <= k < |slots| ==> slots[k] != Some(search[0])
    ensures Run(search, 0, slots) == 0
    decreases |slots|
  {
    if slots != [] {
      RunStaysEmpty(search, slots[1..]);
    }
  }

  /** The matcher is a fold: feeding `xs + ys` is feeding `xs`, then `ys`. */
  lemma {:induction false} RunAppend<T>(search: seq<T>, j: nat, xs: seq<Option<T>>, ys: seq<Option<T>>)
    requires j <= |search|
    ensures Run(search, j, xs + ys) == Run(search, Run(search, j, xs), ys)
    decreases |xs|
  {
    if xs == [] {
      assert xs + ys == ys;
    } else if j < |search| {
      assert (xs + ys)[0] == xs[0];
      assert (xs + ys)[1..] == xs[1..] + ys;
      RunAppend(search, Step(search, j, xs[0]), xs[1..], ys);
    }
  }

  /** A completed run from slot `i` with `j` matched slots behind it exhibits an occurrence. */
  lemma {:induction false} RunSound<T>(inspect: seq<T>, search: seq<T>, i: nat, j: nat)
    requires j < |search| && j <= i <= |inspect| + 1
    requires forall k :: 0 <= k < j ==> Slot(inspect, i - j + k) == Some(search[k])
    requires Run(search, j, Slots(inspect)[i..]) == |search|
    ensures Occurs(search, inspect)
    decreases |inspect| + 1 - i
  {
    var slots := Slots(inspect)[i..];
    if i == |inspect| + 1 {
      assert false;
    } else {
      assert slots[0] == Slot(inspect, i);
      assert slots[1..] == Slots(inspect)[i + 1..];
      if Slot(inspect, i) == Some(search[j]) {
        if j + 1 == |search| {
          var p := i - j;
          forall k | 0 <= k < |search|
            ensures p + k < |inspect| && inspect[p + k] == search[k]
          {
            assert Slot(inspect, p + k) == Some(search[k]);
          }
          assert OccursAt(search, inspect, p);
        } else {
          RunSound(inspect, search, i + 1, j + 1);
        }
      } else {
        RunSound(inspect, search, i + 1, 0);
      }
    }
  }

  /** An occurrence that starts while the buffer is empty is always found. */
  lemma FoundFromEmptyBuffer<T>(inspect: seq<T>, search: seq<T>, p: nat)
    requires |search| > 0 && OccursAt(search, inspect, p)
    ensures Run(search, 0, Slots(inspect)[p..]) == |search|
  {
    var slots := Slots(inspect)[p..];
    forall k | 0 <= k < |search|
      ensures slots[k] == Some(search[k])
    {
      assert inspect[p..p + |search|][k] == inspect[p + k];
      assert slots[k] == Lift(inspect)[p + k];
    }
    RunMatchesRest(search, 0, slots);
  }

  /**
   * Incompleteness: in `[a, a, b]` the scan matches the first `a`, fails on the second,
   * clears the buffer without retrying that `a`, and so misses `[a, b]` at index 1.
   */
  lemma MissesOccurrenceAfterMismatch()
    ensures Occurs(["a", "b"], ["a", "a", "b"])
    ensures !Includes(["a", "a", "b"], ["a", "b"])
  {
    var inspect: seq<string> := ["a", "a", "b"];
    assert OccursAt(["a", "b"], inspect, 1) by {
      assert inspect[1..3] == ["a", "b"];
    }
    var slots := Slots(inspect);
    assert slots == [Some("a"), Some("a"), Some("b"), None];
    assert slots[1..] == [Some("a"), Some("b"), None];
    assert slots[2..] == [Some("b"), None];
    assert slots[3..] == [None];
  }

  /** The buffer length after feeding the whole of `prefix` from an empty buffer. */
  function StateAfter<T(==)>(search: seq<T>, prefix: seq<T>): (r: nat)
    ensures r <= |search|
  {
    Run(search, 0, Lift(prefix))
  }

  /** Lifting distributes over concatenation. */
  lemma LiftAppend<T>(a: seq<T>, b: seq<T>)
    ensures Lift(a + b) == Lift(a) + Lift(b)
  {
    var lifted, joined := Lift(a + b), Lift(a) + Lift(b);
    forall k | 0 <= k < |a| + |b|
      ensures lifted[k] == joined[k]
    {
      if k < |a| {
        assert (a + b)[k] == a[k];
      } else {
        assert (a + b)[k] == b[k - |a|];
      }
    }
  }

  /** No element of `search` after the first equals the first. */
  predicate HeadIsUnique<T(==)>(search: seq<T>)
  {
    |search| > 0 && forall k :: 1 <= k < |search| ==> search[k] != search[0]
  }

  /**
   * With a non-empty partial match in the buffer, a full copy of `search` whose head is
   * unique is missed: its head clears the buffer and is not retried.
   */
  lemma PartialBufferMissesCopy<T>(search: seq<T>, j: nat)
    requires HeadIsUnique(search) && 0 < j < |search|
    ensures Run(search, j, Lift(search) + [None]) == 0
  {
    var rest := Lift(search) + [None];
    assert rest[0] == Some(search[0]);
    assert Step(search, j, rest[0]) == 0;
    forall k | 0 <= k < |rest[1..]|
      ensures rest[1..][k] != Some(search[0])
    {
      assert rest[1..][k] == rest[k + 1];
    }
    RunStaysEmpty(search, rest[1..]);
  }

  /**
   * When the first element of `search` occurs nowhere else in it, a copy of `search`
   * entered with a buffer of one element leaves the buffer empty.
   */
  lemma CopyAfterOneEmpties<T>(prefix: seq<T>, search: seq<T>)
    requires HeadIsUnique(search) && |search| > 1 && StateAfter(search, prefix) == 1
    ensures StateAfter(search, prefix + search) == 0
  {
    LiftAppend(prefix, search);
    RunAppend(search, 0, Lift(prefix), Lift(search));
    assert Run(search, 1, Lift(search)) == Run(search, 0, Lift(search)[1..]);
    RunStaysEmpty(search, Lift(search)[1..]);
  }

  /**
   * When the first element of `search` occurs nowhere else in it, the scan finds a
   * copy of `search` placed right after `prefix` exactly when the buffer is empty
   * (or a match is already complete) at the end of `prefix`.
   */
  lemma {:induction false} IncludesAppendedCopy<T>(prefix: seq<T>, search: seq<T>)
    requires HeadIsUnique(search)
    ensures Includes(prefix + search, search) <==> StateAfter(search, prefix) in {0, |search|}
  {
    ScanOfAppendedCopy(prefix, search);
    FeedCopy(search, StateAfter(search, prefix));
  }

  /** Scanning `prefix + search` is feeding the copy of `search` to the state `prefix` left. */
  lemma ScanOfAppendedCopy<T>(prefix: seq<T>, search: seq<T>)
    requires |search| > 0
    ensures Includes(prefix + search, search)
        <==> Run(search, StateAfter(search, prefix), Lift(search) + [None]) == |search|
  {
    SlotsAppend(prefix, search);
    RunAppend(search, 0, Lift(prefix), Lift(search) + [None]);
  }

  /** Feeding a copy of `search` (head unique) completes a match exactly from states 0 and `|search|`. */
  lemma FeedCopy<T>(search: seq<T>, j: nat)
    requires HeadIsUnique(search) && j <= |search|
    ensures Run(search, j, Lift(search) + [None]) == |search| <==> j in {0, |search|}
  {
    if j == 0 {
      RunMatchesRest(search, 0, Lift(search) + [None]);
    } else if j < |search| {
      PartialBufferMissesCopy(search, j);
    }
  }

  /** The slots of `prefix + search`: those of `prefix`, then all of `search` and the `nil`. */
  lemma SlotsAppend<T>(prefix: seq<T>, search: seq<T>)
    ensures Slots(prefix + search) == Lift(prefix) + (Lift(search) + [None])
  {
    LiftAppend(prefix, search);
  }

  /**
   * The textbook contiguous-subsequence test, which restarts at every position.
   * It is complete, unlike `Includes`.
   */
  function IncludesContiguous<T(==)>(inspect: seq<T>, search: seq<T>): (r: bool)
    ensures r <==> Occurs(search, inspect)
    decreases |inspect|
  {
    if |search| > |inspect| then
      assert forall p: nat :: !OccursAt(search, inspect, p);
      false
    else if inspect[..|search|] == search then
      assert OccursAt(search, inspect, 0);
      true
    else
      var r := IncludesContiguous(inspect[1..], search);
      OccursShift(inspect, search);
      r
  }

  /** Away from index 0, occurrences in `inspect` and in `inspect[1..]` correspond. */
  lemma OccursShift<T>(inspect: seq<T>, search: seq<T>)
    requires |search| <= |inspect| && inspect[..|search|] != search
    ensures Occurs(search, inspect) <==> Occurs(search, inspect[1..])
  {
    if Occurs(search, inspect) {
      var p: nat :| OccursAt(search, inspect, p);
      assert p != 0;
      assert inspect[1..][p - 1..p - 1 + |search|] == inspect[p..p + |search|];
      assert OccursAt(search, inspect[1..], p - 1);
    }
    if Occurs(search, inspect[1..]) {
      var q: nat :| OccursAt(search, inspect[1..], q);
      assert inspect[1..][q..q + |search|] == inspect[q + 1..q + 1 + |search|];
      assert OccursAt(search, inspect, q + 1);
    }
  }

  /** The textbook test answers `true` wherever the buffer-based scan does. */
  lemma IncludesImpliesContiguous<T>(inspect: seq<T>, search: seq<T>)
    ensures Includes(inspect, search) ==> IncludesContiguous(inspect, search)
  {
  }
}
