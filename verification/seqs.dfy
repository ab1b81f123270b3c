/** Sequence helpers shared by the model: the `filter`, `map`, `find` and
    `findIndex` of JavaScript arrays, and string concatenation of a list. */
module Seqs {
  import opened Wrappers

  /** `Array.prototype.filter`: the elements satisfying `p`, in order. */
  function Filter<T>(p: T -> bool, s: seq<T>): (r: seq<T>)
    ensures |r| <= |s|
    ensures forall i :: 0 <= i < |r| ==> p(r[i])
    ensures forall x :: x in r ==> x in s
    ensures forall i :: 0 <= i < |s| && p(s[i]) ==> s[i] in r
    decreases |s|
  {
    if |s| == 0 then []
    else (if p(s[0]) then [s[0]] else []) + Filter(p, s[1..])
  }

  /** Filtering distributes over concatenation: the relative order of the
      kept elements is the order of the input. */
  lemma {:induction false} FilterConcat<T>(p: T -> bool, a: seq<T>, b: seq<T>)
    ensures Filter(p, a + b) == Filter(p, a) + Filter(p, b)
    decreases |a|
  {
    if |a| == 0 {
      assert a + b == b;
    } else {
      assert (a + b)[1..] == a[1..] + b;
      FilterConcat(p, a[1..], b);
    }
  }

  /** Filtering keeps everything exactly when every element passes; it
      keeps the length only then. */
  lemma {:induction false} FilterKeepsAll<T>(p: T -> bool, s: seq<T>)
    ensures Filter(p, s) == s <==> forall i :: 0 <= i < |s| ==> p(s[i])
    ensures |Filter(p, s)| == |s| <==> forall i :: 0 <= i < |s| ==> p(s[i])
    decreases |s|
  {
    if |s| > 0 {
      FilterKeepsAll(p, s[1..]);
      if !p(s[0]) {
        assert |Filter(p, s)| <= |s[1..]|;
      }
    }
  }

  /** Filtering twice by the same predicate is filtering once. */
  lemma {:induction false} FilterIdempotent<T>(p: T -> bool, s: seq<T>)
    ensures Filter(p, Filter(p, s)) == Filter(p, s)
  {
    FilterKeepsAll(p, Filter(p, s));
  }

  /** Nothing passes the filter exactly when no element satisfies `p`. */
  lemma {:induction false} FilterEmpty<T>(p: T -> bool, s: seq<T>)
    ensures Filter(p, s) == [] <==> forall i :: 0 <= i < |s| ==> !p(s[i])
    decreases |s|
  {
    if |s| > 0 {
      FilterEmpty(p, s[1..]);
    }
  }

  /** `Array.prototype.map`. */
  function Map<T, U>(f: T -> U, s: seq<T>): (r: seq<U>)
    ensures |r| == |s|
    ensures forall i :: 0 <= i < |s| ==> r[i] == f(s[i])
  {
    seq(|s|, i requires 0 <= i < |s| => f(s[i]))
  }

  /** `Array.prototype.findIndex`, with `None` for the source's `-1`. */
  function FindIndex<T>(p: T -> bool, s: seq<T>): (r: Option<nat>)
    ensures r.Some? ==> r.value < |s| && p(s[r.value])
    ensures r.Some? ==> forall j :: 0 <= j < r.value ==> !p(s[j])
    ensures r.None? <==> forall i :: 0 <= i < |s| ==> !p(s[i])
    decreases |s|
  {
    if |s| == 0 then None
    else if p(s[0]) then Some(0)
    else match FindIndex(p, s[1..])
      case None => None
      case Some(k) => Some(k + 1)
  }

  /** `Array.prototype.find`: the first element satisfying `p`. */
  function Find<T>(p: T -> bool, s: seq<T>): (r: Option<T>)
    ensures r.None? <==> forall i :: 0 <= i < |s| ==> !p(s[i])
    ensures r.Some? ==> r.value in s && p(r.value)
    ensures r.Some? ==> exists k :: 0 <= k < |s| && s[k] == r.value && forall j :: 0 <= j < k ==> !p(s[j])
  {
    match FindIndex(p, s)
    case None => None
    case Some(k) => Some(s[k])
  }

  /** The concatenation of a list of strings, as `join("")` or a `+=` loop
      builds it. */
  function Concat(ss: seq<string>): (r: string)
    ensures |ss| == 0 ==> r == ""
    decreases |ss|
  {
    if |ss| == 0 then "" else Concat(ss[..|ss| - 1]) + ss[|ss| - 1]
  }

  /** Sum of the lengths of a list of strings. */
  function TotalLength(ss: seq<string>): (n: nat)
    decreases |ss|
  {
    if |ss| == 0 then 0 else |ss[0]| + TotalLength(ss[1..])
  }

  lemma {:induction false} ConcatLength(ss: seq<string>)
    ensures |Concat(ss)| == TotalLength(ss)
    decreases |ss|
  {
    if |ss| > 0 {
      ConcatLength(ss[..|ss| - 1]);
      TotalLengthSnoc(ss[..|ss| - 1], ss[|ss| - 1]);
      assert ss[..|ss| - 1] + [ss[|ss| - 1]] == ss;
    }
  }

  lemma {:induction false} TotalLengthSnoc(ss: seq<string>, x: string)
    ensures TotalLength(ss + [x]) == TotalLength(ss) + |x|
    decreases |ss|
  {
    if |ss| == 0 {
      assert ss + [x] == [x];
    } else {
      assert (ss + [x])[1..] == ss[1..] + [x];
      TotalLengthSnoc(ss[1..], x);
    }
  }

  /** Concatenation read from the front: what a left-to-right `+=` loop
      over the list builds. */
  lemma {:induction false} ConcatCons(x: string, ss: seq<string>)
    ensures Concat([x] + ss) == x + Concat(ss)
    decreases |ss|
  {
    if |ss| == 0 {
      assert [x] + ss == [x];
      assert [x][..0] == [];
    } else {
      var init := ss[..|ss| - 1];
      assert ([x] + ss)[..|ss|] == [x] + init;
      ConcatCons(x, init);
    }
  }

  lemma ConcatSnoc(ss: seq<string>, x: string)
    ensures Concat(ss + [x]) == Concat(ss) + x
  {
    assert (ss + [x])[..|ss|] == ss;
  }
}
