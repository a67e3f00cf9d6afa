/**
 * The FunctionalPlus (fplus) helpers that the code browsers call, each with
 * the meaning the browsers rely on, plus the split and join of a sequence at
 * a delimiter that the editor and the filter perform. fplus works on size_t
 * indices; here they are natural numbers.
 */
module Fplus {

  /** fplus::maybe: a value that may be absent (is_just / unsafe_get_just). */
  datatype Maybe<T> = Nothing | Just(value: T)

  function Min(a: nat, b: nat): nat { if a <= b then a else b }

  /** fplus::count_if: how many elements of `xs` satisfy `p`. */
  function CountIf<T>(p: T -> bool, xs: seq<T>): (n: nat)
    ensures n <= |xs|
    ensures n == 0 <==> forall i :: 0 <= i < |xs| ==> !p(xs[i])
    ensures n == |xs| <==> forall i :: 0 <= i < |xs| ==> p(xs[i])
  {
    if xs == [] then 0
    else CountIf(p, xs[..|xs| - 1]) + (if p(xs[|xs| - 1]) then 1 else 0)
  }

  /**
   * fplus::find_all_idxs_by: the positions of the elements satisfying `p`,
   * in ascending order.
   */
  function FindAllIdxsBy<T>(p: T -> bool, xs: seq<T>): (r: seq<nat>)
    ensures forall k :: 0 <= k < |r| ==> r[k] < |xs| && p(xs[r[k]])
    ensures forall k, l :: 0 <= k < l < |r| ==> r[k] < r[l]
    ensures forall i :: 0 <= i < |xs| && p(xs[i]) ==> i in r
  {
    if xs == [] then []
    else FindAllIdxsBy(p, xs[..|xs| - 1]) + (if p(xs[|xs| - 1]) then [|xs| - 1] else [])
  }

  /** fplus::find_first_idx: the position of the first occurrence of `x`. */
  function FindFirstIdx<T(==)>(x: T, xs: seq<T>): (r: Maybe<nat>)
    ensures r.Just? ==> r.value < |xs| && xs[r.value] == x && x !in xs[..r.value]
    ensures r.Nothing? ==> x !in xs
  {
    if xs == [] then Nothing
    else if xs[0] == x then Just(0)
    else match FindFirstIdx(x, xs[1..])
      case Nothing => Nothing
      case Just(k) => Just(k + 1)
  }

  /** fplus::find_first_idx_by: the position of the first element satisfying `p`. */
  function FindFirstIdxBy<T>(p: T -> bool, xs: seq<T>): (r: Maybe<nat>)
    ensures r.Just? ==> r.value < |xs| && p(xs[r.value])
    ensures r.Just? ==> forall j :: 0 <= j < r.value ==> !p(xs[j])
    ensures r.Nothing? ==> forall j :: 0 <= j < |xs| ==> !p(xs[j])
  {
    if xs == [] then Nothing
    else if p(xs[0]) then Just(0)
    else match FindFirstIdxBy(p, xs[1..])
      case Nothing => Nothing
      case Just(k) => Just(k + 1)
  }

  /** fplus::find_last_idx_by: the position of the last element satisfying `p`. */
  function FindLastIdxBy<T>(p: T -> bool, xs: seq<T>): (r: Maybe<nat>)
    ensures r.Just? ==> r.value < |xs| && p(xs[r.value])
    ensures r.Just? ==> forall j :: r.value < j < |xs| ==> !p(xs[j])
    ensures r.Nothing? ==> forall j :: 0 <= j < |xs| ==> !p(xs[j])
  {
    if xs == [] then Nothing
    else if p(xs[|xs| - 1]) then Just(|xs| - 1)
    else FindLastIdxBy(p, xs[..|xs| - 1])
  }

  /**
   * fplus::get_segment: the elements from `idxBegin` up to (not including)
   * `idxEnd`; an end past the container is cut back to its size, and a
   * segment whose end is not after its begin is empty.
   */
  function GetSegment<T>(idxBegin: nat, idxEnd: nat, xs: seq<T>): (r: seq<T>)
    ensures |r| == if Min(idxEnd, |xs|) <= idxBegin then 0 else Min(idxEnd, |xs|) - idxBegin
    ensures forall k :: 0 <= k < |r| ==> idxBegin + k < |xs| && r[k] == xs[idxBegin + k]
  {
    var e := Min(idxEnd, |xs|);
    if e <= idxBegin then [] else xs[idxBegin..e]
  }

  /** fplus::take: the first `n` elements, or all of them when there are fewer. */
  function Take<T>(n: nat, xs: seq<T>): (r: seq<T>)
    ensures r <= xs
    ensures |r| == Min(n, |xs|)
  {
    if n >= |xs| then xs else xs[..n]
  }

  /** fplus::drop: all but the first `n` elements, or nothing when there are fewer. */
  function Drop<T>(n: nat, xs: seq<T>): (r: seq<T>)
    ensures |r| == |xs| - Min(n, |xs|)
    ensures forall k :: 0 <= k < |r| ==> r[k] == xs[Min(n, |xs|) + k]
  {
    if n >= |xs| then [] else xs[n..]
  }

  /** fplus::is_suffix_of: whether `xs` ends with `suffix`. */
  predicate IsSuffixOf<T(==)>(suffix: seq<T>, xs: seq<T>)
  {
    |suffix| <= |xs| && xs[|xs| - |suffix|..] == suffix
  }

  /**
   * The runs of `xs` between the occurrences of `delimiter`, empty runs
   * kept: how the editor cuts its text into lines at '\n', and how the
   * filter cuts its input into terms at ','.
   */
  function Split<T(==)>(delimiter: T, xs: seq<T>): (parts: seq<seq<T>>)
    ensures |parts| >= 1
    ensures forall k :: 0 <= k < |parts| ==> delimiter !in parts[k]
  {
    if xs == [] then [[]]
    else
      var rest := Split(delimiter, xs[1..]);
      if xs[0] == delimiter then [[]] + rest
      else [[xs[0]] + rest[0]] + rest[1..]
  }

  /** The parts with `separator` between each two: the editor's text read back from its lines. */
  function Join<T>(separator: T, parts: seq<seq<T>>): seq<T>
    requires |parts| >= 1
  {
    if |parts| == 1 then parts[0] else parts[0] + [separator] + Join(separator, parts[1..])
  }

  /** Joining the parts of a split gives back what was split. */
  lemma {:induction false} JoinSplit<T>(delimiter: T, xs: seq<T>)
    ensures Join(delimiter, Split(delimiter, xs)) == xs
  {
    if xs != [] {
      JoinSplit(delimiter, xs[1..]);
      var rest := Split(delimiter, xs[1..]);
      if xs[0] == delimiter {
        assert ([[]] + rest)[1..] == rest;
      } else {
        var parts := [[xs[0]] + rest[0]] + rest[1..];
        if |rest| > 1 {
          assert parts[1..] == rest[1..];
        }
        assert xs == [xs[0]] + xs[1..];
      }
    }
  }

  /** Splitting a sequence that starts with a delimiter-free run puts that run in front. */
  lemma {:induction false} SplitOfPrefix<T>(delimiter: T, first: seq<T>, tail: seq<T>)
    requires delimiter !in first
    ensures Split(delimiter, first + tail)
            == [first + Split(delimiter, tail)[0]] + Split(delimiter, tail)[1..]
  {
    if first != [] {
      SplitOfPrefix(delimiter, first[1..], tail);
      assert (first + tail)[0] == first[0];
      assert (first + tail)[1..] == first[1..] + tail;
      assert [first[0]] + (first[1..] + Split(delimiter, tail)[0]) == first + Split(delimiter, tail)[0];
    } else {
      var parts := Split(delimiter, tail);
      assert first + tail == tail && first + parts[0] == parts[0];
      assert [parts[0]] + parts[1..] == parts;
    }
  }

  /** Splitting the join of delimiter-free parts gives back the parts. */
  lemma {:induction false} SplitJoin<T>(delimiter: T, parts: seq<seq<T>>)
    requires |parts| >= 1
    requires forall k :: 0 <= k < |parts| ==> delimiter !in parts[k]
    ensures Split(delimiter, Join(delimiter, parts)) == parts
  {
    if |parts| == 1 {
      SplitOfPrefix(delimiter, parts[0], []);
      assert parts[0] + [] == parts[0];
    } else {
      var tail := Join(delimiter, parts[1..]);
      SplitJoin(delimiter, parts[1..]);
      assert parts[0] + [delimiter] + tail == parts[0] + ([delimiter] + tail);
      SplitOfPrefix(delimiter, parts[0], [delimiter] + tail);
      assert ([delimiter] + tail)[1..] == tail;
      assert Split(delimiter, [delimiter] + tail) == [[]] + parts[1..];
      assert parts[0] + [] == parts[0];
      assert [parts[0]] + parts[1..] == parts;
    }
  }

  /** Taking and dropping the same count splits a sequence in two. */
  lemma TakeDrop<T>(n: nat, xs: seq<T>)
    ensures Take(n, xs) + Drop(n, xs) == xs
  {
    if n < |xs| {
      assert xs[..n] + xs[n..] == xs;
    }
  }

  /** A sequence ends with `suffix` exactly when it is something followed by `suffix`. */
  lemma IsSuffixOfMeansEndsWith<T>(suffix: seq<T>, xs: seq<T>)
    ensures IsSuffixOf(suffix, xs) <==> exists stem :: stem + suffix == xs
  {
    if IsSuffixOf(suffix, xs) {
      var stem := xs[..|xs| - |suffix|];
      assert stem + suffix == xs;
    }
    if exists stem :: stem + suffix == xs {
      var stem :| stem + suffix == xs;
      assert xs[|xs| - |suffix|..] == suffix;
    }
  }

  /** count_if counts exactly the positions that find_all_idxs_by lists. */
  lemma {:induction false} CountIfIsNumberOfIdxs<T>(p: T -> bool, xs: seq<T>)
    ensures CountIf(p, xs) == |FindAllIdxsBy(p, xs)|
  {
    if xs != [] {
      CountIfIsNumberOfIdxs(p, xs[..|xs| - 1]);
    }
  }

  /**
   * The matching positions of a prefix are a prefix of the matching
   * positions of the whole sequence.
   */
  lemma {:induction false} FindAllIdxsByOfPrefix<T>(p: T -> bool, xs: seq<T>, m: nat)
    requires m <= |xs|
    ensures FindAllIdxsBy(p, xs[..m]) <= FindAllIdxsBy(p, xs)
    decreases |xs| - m
  {
    if m < |xs| {
      FindAllIdxsByOfPrefix(p, xs, m + 1);
      var ys := xs[..m + 1];
      assert ys[..|ys| - 1] == xs[..m];
    } else {
      assert xs[..m] == xs;
    }
  }
}
