/** The pure layout arithmetic of the equation generator (generator.py):
    scale and baseline of a nesting level, the cursor advance after a glyph,
    the extent folds over a group of bounding boxes, centring and fraction
    docking shifts, and the column-width rule of a matrix.
    Reals stand for the renderer's floats; geometry comes in as boxes. */
module Layout {

  /** One entry of the exponent/index stack (`ei_array`): "exp" or "ix". */
  datatype Tag = Exp | Ix

  /** The layout parameters: scale, baseline height, cursor x and line height. */
  datatype Params = Params(scale: real, height: real, width: real, line: real)

  /** Axis-aligned bounding box of one placed object: corner 0 is
      (minX, minY), corner 4 carries maxX and corner 2 carries maxY. */
  datatype Box = Box(minX: real, minY: real, maxX: real, maxY: real)

  // ---------------------------------------------------------------------
  // Scale and baseline (gen_calculate)
  // ---------------------------------------------------------------------

  /** Reference scale of an element `depth` exponent/index levels deep
      inside `frac` nested fractions. */
  function LevelScale(textScale: real, frac: int, depth: nat): real
  {
    if depth == 0 then
      (if frac == 2 then 0.65 * textScale else if frac > 2 then 0.45 * textScale else textScale)
    else if depth == 1 && frac < 2 then 0.65 * textScale
    else 0.45 * textScale
  }

  /** Number of occurrences of `t` in the level stack. */
  function Count(ei: seq<Tag>, t: Tag): nat
  {
    if |ei| == 0 then 0
    else Count(ei[..|ei| - 1], t) + (if ei[|ei| - 1] == t then 1 else 0)
  }

  /** What pushing level `x` on top of the stack `pre` adds to the vertical
      offset: the first exponent raises by 0.75 of the new level's scale and
      later ones by 0.5; the first index lowers by 0.5 and later ones by 0.25. */
  function Rise(pre: seq<Tag>, x: Tag, textScale: real, frac: int): real
  {
    var s := LevelScale(textScale, frac, |pre| + 1);
    if x == Exp then (if Exp in pre then 0.5 * s else 0.75 * s)
    else (if Ix in pre then -0.25 * s else -0.5 * s)
  }

  /** Reference vertical offset of a level stack: the sum of what each
      level added when it was pushed. */
  function Offset(ei: seq<Tag>, textScale: real, frac: int): real
  {
    if |ei| == 0 then 0.0
    else Offset(ei[..|ei| - 1], textScale, frac) + Rise(ei[..|ei| - 1], ei[|ei| - 1], textScale, frac)
  }

  /** The loop of gen_calculate: walks the level stack from the outside in,
      counting exponent and index levels seen so far. Returns (scale, height). */
  function Walk(ei: seq<Tag>, textScale: real, frac: int, lvlExp: nat, lvlIx: nat,
                scale: real, height: real): (r: (real, real))
  {
    if |ei| == 0 then (scale, height)
    else
      var s := if lvlExp + lvlIx == 0 then (if frac < 2 then 0.65 * textScale else 0.45 * textScale)
               else 0.45 * textScale;
      if ei[0] == Exp then
        Walk(ei[1..], textScale, frac, lvlExp + 1, lvlIx, s,
             height + (if lvlExp + 1 == 1 then 0.75 * s else 0.5 * s))
      else
        Walk(ei[1..], textScale, frac, lvlExp, lvlIx + 1, s,
             height - (if lvlIx + 1 == 1 then 0.5 * s else 0.25 * s))
  }

  lemma CountSplit(a: seq<Tag>, x: Tag, t: Tag)
    ensures Count(a + [x], t) == Count(a, t) + (if x == t then 1 else 0)
  {
    assert (a + [x])[..|a|] == a;
  }

  lemma {:induction false} CountTotal(a: seq<Tag>)
    ensures Count(a, Exp) + Count(a, Ix) == |a|
  {
    if |a| > 0 {
      CountTotal(a[..|a| - 1]);
    }
  }

  lemma {:induction false} CountPositive(a: seq<Tag>, t: Tag)
    ensures t in a <==> Count(a, t) > 0
  {
    if |a| > 0 {
      var pre := a[..|a| - 1];
      CountPositive(pre, t);
      assert a == pre + [a[|a| - 1]];
      assert t in a <==> t in pre || a[|a| - 1] == t;
    }
  }

  /** One iteration of the gen_calculate loop, started from the counters,
      scale and height of the prefix `a`, ends with those of `a + [b[0]]`. */
  lemma WalkStep(a: seq<Tag>, b: seq<Tag>, textScale: real, frac: int, line: real)
    requires |b| > 0
    ensures Walk(b, textScale, frac, Count(a, Exp), Count(a, Ix),
                 LevelScale(textScale, frac, |a|), line + Offset(a, textScale, frac))
         == Walk(b[1..], textScale, frac, Count(a + [b[0]], Exp), Count(a + [b[0]], Ix),
                 LevelScale(textScale, frac, |a + [b[0]]|), line + Offset(a + [b[0]], textScale, frac))
  {
    var x := b[0];
    CountTotal(a);
    CountSplit(a, x, Exp);
    CountSplit(a, x, Ix);
    CountPositive(a, Exp);
    CountPositive(a, Ix);
    OffsetSnoc(a, x, textScale, frac);
  }

  /** The loop of gen_calculate, resumed after the prefix `a`, agrees with
      the reference scale and offset of the whole stack. */
  lemma {:induction false} WalkMatches(a: seq<Tag>, b: seq<Tag>, textScale: real, frac: int, line: real)
    ensures Walk(b, textScale, frac, Count(a, Exp), Count(a, Ix),
                 LevelScale(textScale, frac, |a|), line + Offset(a, textScale, frac))
         == (LevelScale(textScale, frac, |a + b|), line + Offset(a + b, textScale, frac))
    decreases |b|
  {
    if |b| == 0 {
      assert a + b == a;
    } else {
      WalkStep(a, b, textScale, frac, line);
      WalkMatches(a + [b[0]], b[1..], textScale, frac, line);
      assert a + [b[0]] + b[1..] == a + b;
    }
  }

  /** Pushing one level adds its rise to the offset. */
  lemma OffsetSnoc(a: seq<Tag>, x: Tag, textScale: real, frac: int)
    ensures Offset(a + [x], textScale, frac) == Offset(a, textScale, frac) + Rise(a, x, textScale, frac)
  {
    assert (a + [x])[..|a|] == a;
  }

  /** gen_calculate: the scale and height of the next element. Height is
      reset to the line and scale to the user's scale before the rules are
      applied, so the result depends only on (line, textScale, frac, ei). */
  function Calculate(p: Params, textScale: real, frac: int, ei: seq<Tag>): (r: Params)
    ensures r.scale == LevelScale(textScale, frac, |ei|)
    ensures r.height == p.line + Offset(ei, textScale, frac)
    ensures r.width == p.width && r.line == p.line
  {
    var scale0 := if frac == 2 then 0.65 * textScale
                  else if frac > 2 then 0.45 * textScale
                  else textScale;
    var w := Walk(ei, textScale, frac, 0, 0, scale0, p.line);
    WalkFromEmpty(ei, textScale, frac, p.line);
    Params(w.0, w.1, p.width, p.line)
  }

  /** The whole gen_calculate loop, started from empty counters, the
      fraction-adjusted user scale and the line height. */
  lemma WalkFromEmpty(ei: seq<Tag>, textScale: real, frac: int, line: real)
    ensures Walk(ei, textScale, frac, 0, 0, LevelScale(textScale, frac, 0), line)
         == (LevelScale(textScale, frac, |ei|), line + Offset(ei, textScale, frac))
  {
    var e: seq<Tag> := [];
    WalkMatches(e, ei, textScale, frac, line);
    assert Count(e, Exp) == 0 && Count(e, Ix) == 0;
    assert line + Offset(e, textScale, frac) == line;
    assert e + ei == ei;
  }

  /** The scale is always one of 1, 0.65 or 0.45 times the user scale. */
  lemma ScaleChoices(p: Params, textScale: real, frac: int, ei: seq<Tag>)
    ensures var s := Calculate(p, textScale, frac, ei).scale;
      s == textScale || s == 0.65 * textScale || s == 0.45 * textScale
    ensures |ei| > 0 ==>
      Calculate(p, textScale, frac, ei).scale == (if |ei| == 1 && frac < 2 then 0.65 else 0.45) * textScale
    ensures |ei| == 0 && frac < 2 ==> Calculate(p, textScale, frac, ei).scale == textScale
  {
  }

  /** Pushing an exponent level strictly raises the baseline, by 0.75 or 0.5
      of the new level's scale. */
  lemma ExpRaisesHeight(p: Params, textScale: real, frac: int, ei: seq<Tag>)
    requires textScale > 0.0
    ensures var h := Calculate(p, textScale, frac, ei).height;
      var h' := Calculate(p, textScale, frac, ei + [Exp]).height;
      var s' := Calculate(p, textScale, frac, ei + [Exp]).scale;
      h' > h && h' == h + (if Exp in ei then 0.5 else 0.75) * s'
  {
    assert (ei + [Exp])[..|ei|] == ei;
  }

  /** Pushing an index level strictly lowers the baseline, by 0.5 or 0.25
      of the new level's scale. */
  lemma IxLowersHeight(p: Params, textScale: real, frac: int, ei: seq<Tag>)
    requires textScale > 0.0
    ensures var h := Calculate(p, textScale, frac, ei).height;
      var h' := Calculate(p, textScale, frac, ei + [Ix]).height;
      var s' := Calculate(p, textScale, frac, ei + [Ix]).scale;
      h' < h && h' == h - (if Ix in ei then 0.25 else 0.5) * s'
  {
    assert (ei + [Ix])[..|ei|] == ei;
  }

  // ---------------------------------------------------------------------
  // Cursor advance (gen_position)
  // ---------------------------------------------------------------------

  /** gen_position: the object is placed at (width, height) with the current
      scale; when `advance` is set the cursor moves past the object, whose
      measured right edge is `extent` in unscaled units, plus a 0.1 gap. */
  function Place(p: Params, extent: real, advance: bool): (r: Params)
    ensures r.scale == p.scale && r.height == p.height && r.line == p.line
    ensures !advance ==> r == p
    ensures advance && p.scale > 0.0 && extent >= 0.0 ==> r.width > p.width
  {
    if advance then p.(width := p.width + extent * p.scale + 0.1 * p.scale) else p
  }

  function Sum(xs: seq<real>): real
  {
    if |xs| == 0 then 0.0 else Sum(xs[..|xs| - 1]) + xs[|xs| - 1]
  }

  /** A run of plain text tokens, each placed as one object the way
      sa_const does: recompute the scale and height, then place and
      advance. A token may hold several characters; the gap is per token. */
  function TypesetRun(p: Params, textScale: real, frac: int, ei: seq<Tag>, extents: seq<real>): Params
  {
    if |extents| == 0 then p
    else
      var q := TypesetRun(p, textScale, frac, ei, extents[..|extents| - 1]);
      Place(Calculate(q, textScale, frac, ei), extents[|extents| - 1], true)
  }

  /** Total advance of a run of text tokens of measured widths `extents` at scale `s`. */
  function RunAdvance(extents: seq<real>, s: real): real
  {
    if |extents| == 0 then 0.0
    else RunAdvance(extents[..|extents| - 1], s) + extents[|extents| - 1] * s + 0.1 * s
  }

  /** The advance of a run is the sum of the widths plus one 0.1 gap per
      token, times the scale. */
  lemma {:induction false} RunAdvanceClosed(extents: seq<real>, s: real)
    ensures RunAdvance(extents, s) == (Sum(extents) + 0.1 * (|extents| as real)) * s
    decreases |extents|
  {
    if |extents| > 0 {
      var pre := extents[..|extents| - 1];
      RunAdvanceClosed(pre, s);
      var a := Sum(pre) + 0.1 * (|pre| as real);
      var x := extents[|extents| - 1];
      assert Sum(extents) + 0.1 * (|extents| as real) == a + (x + 0.1);
      assert (a + (x + 0.1)) * s == a * s + x * s + 0.1 * s;
    }
  }

  /** A run of text tokens advances the cursor token by token by the
      measured width plus a 0.1 gap, all at the level's scale (which at the
      outermost level outside fractions is the user's scale, ScaleChoices);
      RunAdvanceClosed gives the total in closed form. */
  lemma {:induction false} TypesetRunAdvance(p: Params, textScale: real, frac: int, ei: seq<Tag>, extents: seq<real>)
    ensures TypesetRun(p, textScale, frac, ei, extents).width
      == p.width + RunAdvance(extents, LevelScale(textScale, frac, |ei|))
    ensures TypesetRun(p, textScale, frac, ei, extents).line == p.line
    decreases |extents|
  {
    if |extents| > 0 {
      TypesetRunAdvance(p, textScale, frac, ei, extents[..|extents| - 1]);
    }
  }

  // ---------------------------------------------------------------------
  // Extent folds (gen_group_width, gen_min_x, gen_group_height, gen_min_y)
  // ---------------------------------------------------------------------

  /** Fold of the maximum, 0 for an empty sequence (the uninitialised case). */
  function MaxOrZero(xs: seq<real>): (m: real)
    ensures |xs| == 0 ==> m == 0.0
    ensures |xs| > 0 ==> (exists i :: 0 <= i < |xs| && xs[i] == m) && forall i :: 0 <= i < |xs| ==> xs[i] <= m
  {
    if |xs| == 0 then 0.0
    else if |xs| == 1 then xs[0]
    else
      var m := MaxOrZero(xs[..|xs| - 1]);
      var x := xs[|xs| - 1];
      if m >= x then m else x
  }

  /** Fold of the minimum, 0 for an empty sequence. */
  function MinOrZero(xs: seq<real>): (m: real)
    ensures |xs| == 0 ==> m == 0.0
    ensures |xs| > 0 ==> (exists i :: 0 <= i < |xs| && xs[i] == m) && forall i :: 0 <= i < |xs| ==> m <= xs[i]
  {
    if |xs| == 0 then 0.0
    else if |xs| == 1 then xs[0]
    else
      var m := MinOrZero(xs[..|xs| - 1]);
      var x := xs[|xs| - 1];
      if m <= x then m else x
  }

  /** gen_group_width: the furthest right edge of the group. */
  function GroupWidth(bs: seq<Box>): (r: real)
    ensures |bs| == 0 ==> r == 0.0
    ensures |bs| > 0 ==> (exists i :: 0 <= i < |bs| && bs[i].maxX == r) && forall i :: 0 <= i < |bs| ==> bs[i].maxX <= r
  {
    var xs := seq(|bs|, i requires 0 <= i < |bs| => bs[i].maxX);
    var m := MaxOrZero(xs);
    assert forall i :: 0 <= i < |bs| ==> xs[i] == bs[i].maxX;
    m
  }

  /** gen_min_x: the closest left edge of the group. */
  function MinX(bs: seq<Box>): (r: real)
    ensures |bs| == 0 ==> r == 0.0
    ensures |bs| > 0 ==> (exists i :: 0 <= i < |bs| && bs[i].minX == r) && forall i :: 0 <= i < |bs| ==> r <= bs[i].minX
  {
    var xs := seq(|bs|, i requires 0 <= i < |bs| => bs[i].minX);
    var m := MinOrZero(xs);
    assert forall i :: 0 <= i < |bs| ==> xs[i] == bs[i].minX;
    m
  }

  /** gen_group_height: the highest top edge of the group. */
  function GroupHeight(bs: seq<Box>): (r: real)
    ensures |bs| == 0 ==> r == 0.0
    ensures |bs| > 0 ==> (exists i :: 0 <= i < |bs| && bs[i].maxY == r) && forall i :: 0 <= i < |bs| ==> bs[i].maxY <= r
  {
    var ys := seq(|bs|, i requires 0 <= i < |bs| => bs[i].maxY);
    var m := MaxOrZero(ys);
    assert forall i :: 0 <= i < |bs| ==> ys[i] == bs[i].maxY;
    m
  }

  /** gen_min_y: the lowest bottom edge of the group. */
  function MinY(bs: seq<Box>): (r: real)
    ensures |bs| == 0 ==> r == 0.0
    ensures |bs| > 0 ==> (exists i :: 0 <= i < |bs| && bs[i].minY == r) && forall i :: 0 <= i < |bs| ==> r <= bs[i].minY
  {
    var ys := seq(|bs|, i requires 0 <= i < |bs| => bs[i].minY);
    var m := MinOrZero(ys);
    assert forall i :: 0 <= i < |bs| ==> ys[i] == bs[i].minY;
    m
  }

  // ---------------------------------------------------------------------
  // Moving groups: centring and fraction docking
  // ---------------------------------------------------------------------

  /** Every box of the group moved vertically by `d`. */
  function ShiftY(bs: seq<Box>, d: real): (r: seq<Box>)
    ensures |r| == |bs|
    ensures forall i :: 0 <= i < |bs| ==>
      r[i] == Box(bs[i].minX, bs[i].minY + d, bs[i].maxX, bs[i].maxY + d)
  {
    seq(|bs|, i requires 0 <= i < |bs| => Box(bs[i].minX, bs[i].minY + d, bs[i].maxX, bs[i].maxY + d))
  }

  /** Moving a non-empty group moves its lowest and highest points with it. */
  lemma ShiftYExtents(bs: seq<Box>, d: real)
    requires |bs| > 0
    ensures MinY(ShiftY(bs, d)) == MinY(bs) + d
    ensures GroupHeight(ShiftY(bs, d)) == GroupHeight(bs) + d
  {
    var r := ShiftY(bs, d);
    var lo, lo' := MinY(bs), MinY(r);
    var i :| 0 <= i < |bs| && bs[i].minY == lo;
    var j :| 0 <= j < |r| && r[j].minY == lo';
    assert lo' <= r[i].minY;
    assert lo <= bs[j].minY;
    var hi, hi' := GroupHeight(bs), GroupHeight(r);
    var k :| 0 <= k < |bs| && bs[k].maxY == hi;
    var l :| 0 <= l < |r| && r[l].maxY == hi';
    assert r[k].maxY <= hi';
    assert bs[l].maxY <= hi;
  }

  /** gen_frac_num: the numerator group is moved so that its lowest point
      sits 0.6 of a scale unit above the baseline; x is untouched. */
  function FracNum(bs: seq<Box>, p: Params): (r: seq<Box>)
    ensures |r| == |bs|
    ensures |bs| > 0 ==> MinY(r) == p.height + 0.6 * p.scale
    ensures forall i :: 0 <= i < |bs| ==> r[i].minX == bs[i].minX && r[i].maxX == bs[i].maxX
  {
    var moveBy := p.height - MinY(bs) + 0.6 * p.scale;
    if |bs| > 0 then ShiftYExtents(bs, moveBy); ShiftY(bs, moveBy)
    else ShiftY(bs, moveBy)
  }

  /** gen_frac_den: the denominator group is moved so that its highest point
      sits 0.1 of a scale unit above the baseline; x is untouched. */
  function FracDen(bs: seq<Box>, p: Params): (r: seq<Box>)
    ensures |r| == |bs|
    ensures |bs| > 0 ==> GroupHeight(r) == p.height + 0.1 * p.scale
    ensures forall i :: 0 <= i < |bs| ==> r[i].minX == bs[i].minX && r[i].maxX == bs[i].maxX
  {
    var moveBy := p.height - GroupHeight(bs) + 0.1 * p.scale;
    if |bs| > 0 then ShiftYExtents(bs, moveBy); ShiftY(bs, moveBy)
    else ShiftY(bs, moveBy)
  }

  /** gen_center: the shift applied to the narrower of two groups that end
      at `a` and `b`; half their difference, never negative. */
  function CenterShift(a: real, b: real): (d: real)
    ensures d >= 0.0
    ensures d + d == a - b || d + d == b - a
  {
    if a > b then (a - b) / 2.0 else (b - a) / 2.0
  }

  /** The shift does not depend on the order of the two widths, and two
      groups starting at the same x share their midpoint once the narrower
      one is moved. */
  lemma CenterAligns(x0: real, a: real, b: real)
    requires x0 <= a <= b
    ensures CenterShift(a, b) == CenterShift(b, a)
    ensures (x0 + CenterShift(a, b) + a + CenterShift(a, b)) / 2.0 == (x0 + b) / 2.0
  {
  }

  /** gen_center_sum: both branches shift by (sumWidth - labelWidth) / 2,
      so the label's midpoint lands on the symbol's midpoint. */
  function CenterSumShift(labelWidth: real, sumWidth: real): (d: real)
    ensures d + d == sumWidth - labelWidth
    ensures labelWidth > sumWidth <==> d < 0.0
  {
    if labelWidth > sumWidth then
      var diff := labelWidth - sumWidth;
      (-1.0) * diff / 2.0
    else
      var diff := sumWidth - labelWidth;
      diff / 2.0
  }

  /** The fraction bar length and which part gets centred: the bar spans the
      wider of numerator and denominator, and the narrower one is centred
      (the numerator exactly when the denominator is strictly wider). */
  function FracBar(numWidth: real, denWidth: real): (r: (real, bool))
    ensures r.0 >= numWidth && r.0 >= denWidth
    ensures r.0 == numWidth || r.0 == denWidth
    ensures r.1 <==> denWidth > numWidth
  {
    if denWidth > numWidth then (denWidth, true) else (numWidth, false)
  }

  // ---------------------------------------------------------------------
  // Matrix columns (gen_matrix_pos, gen_matrix_x)
  // ---------------------------------------------------------------------

  /** The column widths of a matrix, where `rows[k][i]` is what
      gen_group_width reports for cell i of row k: the right edge (largest
      x) of the cell's objects, not a width, taken when column i is
      reached, that is after the earlier columns have shifted it. One
      column per cell of the longest row, each the largest such value
      present in it, and never below 0 (cells missing from a short row
      count as 0). An empty grid yields no columns. */
  method ColumnWidths(rows: seq<seq<real>>) returns (ws: seq<real>)
    ensures |rows| == 0 ==> ws == []
    ensures forall k :: 0 <= k < |rows| ==> |rows[k]| <= |ws|
    ensures |ws| > 0 ==> exists k :: 0 <= k < |rows| && |rows[k]| == |ws|
    ensures forall i :: 0 <= i < |ws| ==> ws[i] >= 0.0
    ensures forall i, k :: 0 <= i < |ws| && 0 <= k < |rows| && i < |rows[k]| ==> rows[k][i] <= ws[i]
    ensures forall i :: 0 <= i < |ws| ==>
      ws[i] == 0.0 || exists k :: 0 <= k < |rows| && i < |rows[k]| && rows[k][i] == ws[i]
  {
    ws := [];
    if |rows| == 0 {
      return;
    }
    var maxCells := 0;
    var k := 0;
    while k < |rows|
      invariant 0 <= k <= |rows|
      invariant forall j :: 0 <= j < k ==> |rows[j]| <= maxCells
      invariant maxCells == 0 || exists j :: 0 <= j < k && |rows[j]| == maxCells
    {
      if |rows[k]| > maxCells {
        maxCells := |rows[k]|;
      }
      k := k + 1;
    }
    var i := 0;
    while i < maxCells
      invariant 0 <= i <= maxCells
      invariant |ws| == i
      invariant forall c :: 0 <= c < i ==> ws[c] >= 0.0
      invariant forall c, j :: 0 <= c < i && 0 <= j < |rows| && c < |rows[j]| ==> rows[j][c] <= ws[c]
      invariant forall c :: 0 <= c < i ==>
        ws[c] == 0.0 || exists j :: 0 <= j < |rows| && c < |rows[j]| && rows[j][c] == ws[c]
    {
      var maxWidth := 0.0;
      var j := 0;
      while j < |rows|
        invariant 0 <= j <= |rows|
        invariant maxWidth >= 0.0
        invariant forall l :: 0 <= l < j && i < |rows[l]| ==> rows[l][i] <= maxWidth
        invariant maxWidth == 0.0 || exists l :: 0 <= l < j && i < |rows[l]| && rows[l][i] == maxWidth
      {
        var cellWidth := if i >= |rows[j]| then 0.0 else rows[j][i];
        if cellWidth > maxWidth {
          maxWidth := cellWidth;
        }
        j := j + 1;
      }
      ws := ws + [maxWidth];
      i := i + 1;
    }
  }
}
