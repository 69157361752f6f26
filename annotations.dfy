/**
 * The per-image annotation records the dataset loads, and the filter that
 * the constructor applies when `filter_empty_gt` is set (`_filter_imgs`).
 */
module Annotations {
  import opened Wrappers

  /** One row of a numeric box array: five numbers for an oriented box, four
      for an axis-aligned box, eight for a polygon. The numbers are opaque. */
  type Row = seq<real>

  /** The `ann` sub-record: boxes and labels, with the optional ignore set. */
  datatype RecordAnn = RecordAnn(
    bboxes: seq<Row>,
    labels: seq<int>,
    bboxesIgnore: Option<seq<Row>>,
    labelsIgnore: Option<seq<int>>)

  /** One entry of the annotation list. */
  datatype Record = Record(filename: string, width: int, height: int, ann: RecordAnn)

  predicate HasBoxes(r: Record) {
    |r.ann.bboxes| > 0
  }

  function Min(a: int, b: int): (m: int) {
    if a <= b then a else b
  }

  /** The condition of the list comprehension in `_filter_imgs`. */
  predicate Keep(r: Record, minSize: int) {
    HasBoxes(r) && Min(r.width, r.height) >= minSize
  }

  /** `_filter_imgs(min_size)`: the records that have a box and whose smaller
      side reaches `minSize`, in their original order. */
  function FilterImgs(infos: seq<Record>, minSize: int): (r: seq<Record>)
    ensures |r| <= |infos|
    ensures forall i :: 0 <= i < |r| ==> Keep(r[i], minSize)
    ensures forall x :: x in r <==> x in infos && Keep(x, minSize)
  {
    if infos == [] then []
    else if Keep(infos[0], minSize) then [infos[0]] + FilterImgs(infos[1..], minSize)
    else FilterImgs(infos[1..], minSize)
  }

  /** `idx` lists positions of `xs`, strictly increasing, and `r` is what
      `xs` holds at those positions: `r` is an order-preserving subsequence. */
  ghost predicate IsSelection<T>(r: seq<T>, xs: seq<T>, idx: seq<int>) {
    && |idx| == |r|
    && (forall k :: 0 <= k < |idx| ==> 0 <= idx[k] < |xs| && xs[idx[k]] == r[k])
    && (forall k, l :: 0 <= k < l < |idx| ==> idx[k] < idx[l])
  }

  function Shifted(idx: seq<int>): seq<int> {
    seq(|idx|, k requires 0 <= k < |idx| => idx[k] + 1)
  }

  /** A selection from the tail of `xs` is a selection from `xs` once its
      positions are shifted by one; position 0 is then not selected. */
  lemma SelectionSkip<T>(r: seq<T>, xs: seq<T>, idx: seq<int>)
    requires |xs| > 0 && IsSelection(r, xs[1..], idx)
    ensures IsSelection(r, xs, Shifted(idx))
    ensures 0 !in Shifted(idx)
    ensures forall i :: 0 < i < |xs| ==> (i in Shifted(idx) <==> i - 1 in idx)
  {
    var s := Shifted(idx);
    forall i | 0 < i < |xs| ensures i in s <==> i - 1 in idx {
      if i - 1 in idx {
        var k :| 0 <= k < |idx| && idx[k] == i - 1;
        assert s[k] == i;
      }
    }
  }

  /** Selecting position 0 of `xs` and then a selection from its tail. */
  lemma SelectionTake<T>(r: seq<T>, xs: seq<T>, idx: seq<int>)
    requires |xs| > 0 && IsSelection(r, xs[1..], idx)
    ensures IsSelection([xs[0]] + r, xs, [0] + Shifted(idx))
    ensures forall i :: 0 < i < |xs| ==> (i in [0] + Shifted(idx) <==> i - 1 in idx)
  {
    SelectionSkip(r, xs, idx);
    var t := [0] + Shifted(idx);
    forall k | 0 <= k < |t| ensures 0 <= t[k] < |xs| && xs[t[k]] == ([xs[0]] + r)[k] {
      if k > 0 {
        assert t[k] == Shifted(idx)[k - 1];
      }
    }
    forall k, l | 0 <= k < l < |t| ensures t[k] < t[l] {
      if k > 0 {
        assert t[k] == Shifted(idx)[k - 1] && t[l] == Shifted(idx)[l - 1];
      } else {
        assert t[l] == Shifted(idx)[l - 1];
      }
    }
  }

  /** The positions of `xs` whose records pass the test, in increasing
      order; the filter's result is `xs` read at exactly these positions. */
  ghost function KeptPositions(xs: seq<Record>, minSize: int): (idx: seq<int>)
    ensures IsSelection(FilterImgs(xs, minSize), xs, idx)
    ensures forall i :: 0 <= i < |xs| ==> (Keep(xs[i], minSize) <==> i in idx)
  {
    if xs == [] then []
    else
      var rest := KeptPositions(xs[1..], minSize);
      assert forall i :: 0 < i < |xs| ==> xs[i] == xs[1..][i - 1];
      if Keep(xs[0], minSize) then
        SelectionTake(FilterImgs(xs[1..], minSize), xs, rest);
        [0] + Shifted(rest)
      else
        SelectionSkip(FilterImgs(xs[1..], minSize), xs, rest);
        Shifted(rest)
  }

  /** `r` is `xs` read at the strictly increasing positions `idx`, which are
      exactly the positions whose records pass the test. */
  ghost predicate AllKeptPositions(r: seq<Record>, xs: seq<Record>, minSize: int, idx: seq<int>) {
    && IsSelection(r, xs, idx)
    && forall i :: 0 <= i < |xs| ==> (Keep(xs[i], minSize) <==> i in idx)
  }

  /** `_filter_imgs` returns an order-preserving subsequence of its input
      that holds every record passing the test. */
  lemma FilterIsOrderedSubsequence(xs: seq<Record>, minSize: int)
    ensures exists idx :: AllKeptPositions(FilterImgs(xs, minSize), xs, minSize, idx)
  {
    var idx := KeptPositions(xs, minSize);
    assert AllKeptPositions(FilterImgs(xs, minSize), xs, minSize, idx);
  }

  /** Filtering a concatenation filters each part. */
  lemma {:induction false} FilterAppend(a: seq<Record>, b: seq<Record>, minSize: int)
    ensures FilterImgs(a + b, minSize) == FilterImgs(a, minSize) + FilterImgs(b, minSize)
  {
    if a == [] {
      assert a + b == b;
    } else {
      assert (a + b)[1..] == a[1..] + b;
      FilterAppend(a[1..], b, minSize);
    }
  }

  /** Every record of `xs` passes the filter's test. */
  ghost predicate AllKept(xs: seq<Record>, minSize: int) {
    forall i :: 0 <= i < |xs| ==> Keep(xs[i], minSize)
  }

  lemma AllKeptCons(xs: seq<Record>, minSize: int)
    requires xs != []
    ensures AllKept(xs, minSize) <==> Keep(xs[0], minSize) && AllKept(xs[1..], minSize)
  {
    if Keep(xs[0], minSize) && AllKept(xs[1..], minSize) {
      forall i | 0 < i < |xs| ensures Keep(xs[i], minSize) {
        assert xs[i] == xs[1..][i - 1];
      }
    }
  }

  /** The filter leaves a list unchanged exactly when every record passes. */
  lemma {:induction false} FilterIsIdentityIff(xs: seq<Record>, minSize: int)
    ensures FilterImgs(xs, minSize) == xs <==> AllKept(xs, minSize)
  {
    if xs != [] {
      FilterIsIdentityIff(xs[1..], minSize);
      AllKeptCons(xs, minSize);
      var tail := FilterImgs(xs[1..], minSize);
      if Keep(xs[0], minSize) {
        assert FilterImgs(xs, minSize) == [xs[0]] + tail;
        assert xs == [xs[0]] + xs[1..];
        assert [xs[0]] + tail == xs <==> tail == xs[1..] by {
          if [xs[0]] + tail == xs {
            assert tail == ([xs[0]] + tail)[1..];
          }
        }
      } else {
        assert FilterImgs(xs, minSize) == tail;
        assert |tail| < |xs|;
      }
    }
  }

  /** Filtering twice with the same threshold is filtering once. */
  lemma FilterIdempotent(xs: seq<Record>, minSize: int)
    ensures FilterImgs(FilterImgs(xs, minSize), minSize) == FilterImgs(xs, minSize)
  {
    FilterIsIdentityIff(FilterImgs(xs, minSize), minSize);
  }

  /** A stricter threshold applied after a looser one is the stricter
      threshold alone. */
  lemma {:induction false} FilterStricter(xs: seq<Record>, loose: int, strict: int)
    requires loose <= strict
    ensures FilterImgs(FilterImgs(xs, loose), strict) == FilterImgs(xs, strict)
  {
    if xs != [] {
      FilterStricter(xs[1..], loose, strict);
    }
  }
}
