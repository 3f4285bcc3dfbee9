/**
 * The fretboard tracker's merge step: the boxes a detector returns for one frame are merged
 * into the single smallest box covering them all. The detector itself is left out; its boxes
 * are the input.
 */
module Tracker {
  import opened Wrappers
  import Overlay

  type Box = Overlay.Box

  predicate WellFormed(b: Box) {
    b.x1 <= b.x2 && b.y1 <= b.y2
  }

  /** `outer` covers `inner`. */
  predicate Covers(outer: Box, inner: Box) {
    outer.x1 <= inner.x1 && outer.y1 <= inner.y1 && inner.x2 <= outer.x2 && inner.y2 <= outer.y2
  }

  function Min(a: int, b: int): int { if a <= b then a else b }
  function Max(a: int, b: int): int { if a <= b then b else a }

  /** The smallest box covering both `a` and `b`. */
  function Join(a: Box, b: Box): (r: Box)
    ensures Covers(r, a) && Covers(r, b)
    ensures r.x1 in {a.x1, b.x1} && r.y1 in {a.y1, b.y1} && r.x2 in {a.x2, b.x2} && r.y2 in {a.y2, b.y2}
  {
    Overlay.Box(Min(a.x1, b.x1), Min(a.y1, b.y1), Max(a.x2, b.x2), Max(a.y2, b.y2))
  }

  /**
   * `detect_fretboard`'s merge: no boxes gives no fretboard; otherwise each side of the result
   * is the extreme of that side over all boxes (least left and top, greatest right and bottom).
   */
  function Merge(boxes: seq<Box>): (r: Option<Box>)
    ensures r.None? <==> |boxes| == 0
    ensures r.Some? ==> forall i :: 0 <= i < |boxes| ==> Covers(r.value, boxes[i])
    ensures r.Some? ==>
      && (exists i :: 0 <= i < |boxes| && r.value.x1 == boxes[i].x1)
      && (exists i :: 0 <= i < |boxes| && r.value.y1 == boxes[i].y1)
      && (exists i :: 0 <= i < |boxes| && r.value.x2 == boxes[i].x2)
      && (exists i :: 0 <= i < |boxes| && r.value.y2 == boxes[i].y2)
    decreases |boxes|
  {
    if |boxes| == 0 then None
    else if |boxes| == 1 then Some(boxes[0])
    else
      var rest := Merge(boxes[1..]);
      assert forall i :: 1 <= i < |boxes| ==> boxes[i] == boxes[1..][i - 1];
      Some(Join(boxes[0], rest.value))
  }

  /** Two boxes covering the same boxes, each side attained by one of them, are the same box. */
  lemma {:induction false} ExtremesDetermineBox(r: Box, r': Box, boxes: seq<Box>, others: seq<Box>)
    requires forall i :: 0 <= i < |boxes| ==> boxes[i] in others
    requires forall i :: 0 <= i < |others| ==> others[i] in boxes
    requires forall i :: 0 <= i < |boxes| ==> Covers(r, boxes[i])
    requires forall i :: 0 <= i < |others| ==> Covers(r', others[i])
    requires (exists i :: 0 <= i < |boxes| && r.x1 == boxes[i].x1) && (exists i :: 0 <= i < |others| && r'.x1 == others[i].x1)
    requires (exists i :: 0 <= i < |boxes| && r.y1 == boxes[i].y1) && (exists i :: 0 <= i < |others| && r'.y1 == others[i].y1)
    requires (exists i :: 0 <= i < |boxes| && r.x2 == boxes[i].x2) && (exists i :: 0 <= i < |others| && r'.x2 == others[i].x2)
    requires (exists i :: 0 <= i < |boxes| && r.y2 == boxes[i].y2) && (exists i :: 0 <= i < |others| && r'.y2 == others[i].y2)
    ensures r == r'
  {
    var a :| 0 <= a < |boxes| && r.x1 == boxes[a].x1;
    var a' :| 0 <= a' < |others| && r'.x1 == others[a'].x1;
    var b :| 0 <= b < |boxes| && r.y1 == boxes[b].y1;
    var b' :| 0 <= b' < |others| && r'.y1 == others[b'].y1;
    var c :| 0 <= c < |boxes| && r.x2 == boxes[c].x2;
    var c' :| 0 <= c' < |others| && r'.x2 == others[c'].x2;
    var d :| 0 <= d < |boxes| && r.y2 == boxes[d].y2;
    var d' :| 0 <= d' < |others| && r'.y2 == others[d'].y2;
    CoveredByBoth(r, r', boxes, others, boxes[a], others[a']);
    CoveredByBoth(r, r', boxes, others, boxes[b], others[b']);
    CoveredByBoth(r, r', boxes, others, boxes[c], others[c']);
    CoveredByBoth(r, r', boxes, others, boxes[d], others[d']);
  }

  lemma CoveredByBoth(r: Box, r': Box, boxes: seq<Box>, others: seq<Box>, x: Box, y: Box)
    requires x in boxes && y in others
    requires forall i :: 0 <= i < |boxes| ==> boxes[i] in others
    requires forall i :: 0 <= i < |others| ==> others[i] in boxes
    requires forall i :: 0 <= i < |boxes| ==> Covers(r, boxes[i])
    requires forall i :: 0 <= i < |others| ==> Covers(r', others[i])
    ensures Covers(r, x) && Covers(r, y) && Covers(r', x) && Covers(r', y)
  {
  }

  /** The merge does not depend on the order (or repetition) of the boxes: only the set of boxes matters. */
  lemma MergeIgnoresOrder(boxes: seq<Box>, others: seq<Box>)
    requires forall i :: 0 <= i < |boxes| ==> boxes[i] in others
    requires forall i :: 0 <= i < |others| ==> others[i] in boxes
    ensures Merge(boxes) == Merge(others)
  {
    var r, r' := Merge(boxes), Merge(others);
    if |others| > 0 {
      assert others[0] in boxes;
    }
    if |boxes| > 0 {
      assert boxes[0] in others;
      ExtremesDetermineBox(r.value, r'.value, boxes, others);
    }
  }

  /** In particular, any permutation of the boxes merges to the same box. */
  lemma MergeOfPermutation(boxes: seq<Box>, others: seq<Box>)
    requires multiset(boxes) == multiset(others)
    ensures Merge(boxes) == Merge(others)
  {
    forall i | 0 <= i < |boxes| ensures boxes[i] in others {
      assert boxes[i] in multiset(boxes);
    }
    forall i | 0 <= i < |others| ensures others[i] in boxes {
      assert others[i] in multiset(others);
    }
    MergeIgnoresOrder(boxes, others);
  }

  /** Merging well-formed boxes gives a well-formed box covering each of them. */
  lemma MergeOfWellFormed(boxes: seq<Box>)
    requires |boxes| > 0
    requires forall i :: 0 <= i < |boxes| ==> WellFormed(boxes[i])
    ensures Merge(boxes).Some? && WellFormed(Merge(boxes).value)
  {
    var r := Merge(boxes).value;
    assert Covers(r, boxes[0]);
  }

  /** Merging is idempotent: merging the merged box with any input box gives it back. */
  lemma MergeAbsorbs(boxes: seq<Box>, i: nat)
    requires i < |boxes|
    ensures Join(Merge(boxes).value, boxes[i]) == Merge(boxes).value
  {
    assert Covers(Merge(boxes).value, boxes[i]);
  }
}
