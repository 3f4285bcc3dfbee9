/**
 * Where the computer-vision overlay draws a finger dot: each (fret, string) position of a
 * chord is placed inside the detected box of its fret, string 6 at the box's left edge and
 * string 1 at its right edge, halfway down. The drawing itself is left out; the result is
 * the list of dot centres in drawing order.
 */
module Overlay {
  import opened Wrappers

  const NumStrings: int := 6

  /** A detected box in pixels: left, top, right, bottom. */
  datatype Box = Box(x1: int, y1: int, x2: int, y2: int)

  /** One chord position as the overlay reads it: a fret number and a string number. */
  datatype FretString = FretString(fret: int, stringNo: int)

  datatype Dot = Dot(cx: int, cy: int)

  /** Python's `int(a / b)`: division truncated toward zero. */
  function TruncDiv(a: int, b: int): (q: int)
    requires b > 0
    ensures a >= 0 ==> q * b <= a < q * b + b
    ensures a < 0 ==> q * b - b < a <= q * b
  {
    if a >= 0 then a / b else -((-a) / b)
  }

  /** The dot for string `s` in box `b`: `x1 + (6 - s)` fifths of the width, truncated; the vertical midpoint, truncated. */
  function Place(b: Box, s: int): (d: Dot)
    ensures var a := 5 * b.x1 + (NumStrings - s) * (b.x2 - b.x1);
      && (a >= 0 ==> 5 * d.cx <= a < 5 * d.cx + 5)
      && (a < 0 ==> 5 * d.cx - 5 < a <= 5 * d.cx)
    ensures var a := b.y1 + b.y2;
      && (a >= 0 ==> 2 * d.cy <= a < 2 * d.cy + 2)
      && (a < 0 ==> 2 * d.cy - 2 < a <= 2 * d.cy)
  {
    Dot(TruncDiv(5 * b.x1 + (NumStrings - s) * (b.x2 - b.x1), 5), TruncDiv(b.y1 + b.y2, 2))
  }

  /** A position is drawn when its fret has a box, its string is 1 to 6, and the box has positive width. */
  predicate Drawn(p: FretString, boxes: map<int, Box>) {
    p.fret in boxes && 1 <= p.stringNo <= NumStrings && boxes[p.fret].x2 > boxes[p.fret].x1
  }

  /** The dots for a list of positions, one per drawn position, in order. */
  function DotsFor(ps: seq<FretString>, boxes: map<int, Box>): (r: seq<Dot>)
    ensures |r| <= |ps|
    ensures (forall i :: 0 <= i < |ps| ==> Drawn(ps[i], boxes)) ==>
      |r| == |ps| && forall i :: 0 <= i < |ps| ==> r[i] == Place(boxes[ps[i].fret], ps[i].stringNo)
    ensures (forall i :: 0 <= i < |ps| ==> !Drawn(ps[i], boxes)) ==> r == []
    decreases |ps|
  {
    if |ps| == 0 then []
    else
      var rest := DotsFor(ps[1..], boxes);
      if Drawn(ps[0], boxes) then [Place(boxes[ps[0].fret], ps[0].stringNo)] + rest
      else rest
  }

  /** Dots are drawn in position order: the dots of two lists are those of the first, then the second. */
  lemma {:induction false} DotsForAppend(ps: seq<FretString>, qs: seq<FretString>, boxes: map<int, Box>)
    ensures DotsFor(ps + qs, boxes) == DotsFor(ps, boxes) + DotsFor(qs, boxes)
    decreases |ps|
  {
    if |ps| == 0 {
      assert ps + qs == qs;
    } else {
      assert (ps + qs)[0] == ps[0];
      assert (ps + qs)[1..] == ps[1..] + qs;
      DotsForAppend(ps[1..], qs, boxes);
    }
  }

  /**
   * `draw_fretboard_overlay` reduced to the dots it draws: a chord missing from `chordData`
   * or with no positions draws nothing.
   */
  function OverlayDots(chordData: map<string, seq<FretString>>, chordName: string, boxes: map<int, Box>): (r: seq<Dot>)
    ensures chordName !in chordData ==> r == []
    ensures chordName in chordData ==> r == DotsFor(chordData[chordName], boxes)
    ensures chordName in chordData ==> |r| <= |chordData[chordName]|
  {
    var positions := if chordName in chordData then chordData[chordName] else [];
    if |positions| == 0 then [] else DotsFor(positions, boxes)
  }

  /** String 6 sits exactly on the box's left edge. */
  lemma SixthStringAtLeftEdge(b: Box)
    ensures Place(b, 6).cx == b.x1
  {
  }

  /** String 1 sits exactly on the box's right edge. */
  lemma FirstStringAtRightEdge(b: Box)
    ensures Place(b, 1).cx == b.x2
  {
  }

  /** The dot of a drawn position lies inside its box, for any integer coordinates. */
  lemma {:induction false} DotInsideBox(b: Box, s: int)
    requires b.x1 < b.x2 && b.y1 <= b.y2 && 1 <= s <= NumStrings
    ensures b.x1 <= Place(b, s).cx <= b.x2
    ensures b.y1 <= Place(b, s).cy <= b.y2
  {
    var w := b.x2 - b.x1;
    var col := NumStrings - s;
    assert 0 <= col * w <= 5 * w by {
      assert 0 <= col <= 5;
    }
    var a := 5 * b.x1 + col * w;
    var q := Place(b, s).cx;
    assert 5 * b.x1 <= a <= 5 * b.x2;
    if a >= 0 {
      assert q * 5 <= a < q * 5 + 5;
    } else {
      assert q * 5 - 5 < a <= q * 5;
    }
  }

  /** A higher string number never moves the dot to the right. */
  lemma {:induction false} HigherStringIsFurtherLeft(b: Box, s: int, t: int)
    requires b.x1 < b.x2 && s <= t
    ensures Place(b, t).cx <= Place(b, s).cx
  {
    var w := b.x2 - b.x1;
    MulMonotone(NumStrings - t, NumStrings - s, w);
    TruncDivMonotone(5 * b.x1 + (NumStrings - t) * w, 5 * b.x1 + (NumStrings - s) * w, 5);
  }

  /** Truncated division is monotone in the dividend. */
  lemma TruncDivMonotone(a: int, c: int, b: int)
    requires b > 0 && a <= c
    ensures TruncDiv(a, b) <= TruncDiv(c, b)
  {
    if a >= 0 {
      DivMonotone(a, c, b);
      assert TruncDiv(a, b) == a / b && TruncDiv(c, b) == c / b;
    } else if c < 0 {
      DivMonotone(-c, -a, b);
      assert TruncDiv(a, b) == -((-a) / b) && TruncDiv(c, b) == -((-c) / b);
    } else {
      DivNonNegative(-a, b);
      DivNonNegative(c, b);
      assert TruncDiv(a, b) == -((-a) / b) && TruncDiv(c, b) == c / b;
    }
  }

  lemma DivNonNegative(a: int, b: int)
    requires a >= 0 && b > 0
    ensures a / b >= 0
  {
  }

  lemma DivMonotone(a: int, c: int, b: int)
    requires 0 <= a <= c && b > 0
    ensures a / b <= c / b
  {
    var p, q := a / b, c / b;
    assert p * b <= a;
    assert c < q * b + b;
    assert (q + 1) * b == q * b + b;
    MulCancel(p, q + 1, b);
  }

  lemma MulMonotone(x: int, y: int, b: int)
    requires x <= y && b >= 0
    ensures x * b <= y * b
  {
    assert y * b - x * b == (y - x) * b;
  }

  lemma MulCancel(x: int, y: int, b: int)
    requires b > 0 && x * b < y * b
    ensures x < y
  {
    assert (y - x) * b == y * b - x * b;
  }
}
