/** The compositing geometry of `identify/lib/mergeimages.py`: the background whitelist,
    the clamp of the scale ratio, the placement of the foreground and the rectangle of
    the background that `blend_images` overwrites.

    Ratios are kept in tenths (`k` stands for the float `k / 10`): the call sites pass
    0.5 and 0.7, the clamp rounds to one decimal and the floor is 0.1. The float product
    `int(ratio * h)` is modelled as the truncated integer `(k * h) / 10`. */
module MergeGeometry {
  import opened Common

  // ---------------------------------------------------------------------------
  // The background whitelist
  // ---------------------------------------------------------------------------

  /** The key of the i-th background, `f'bg{i}'`. */
  function BackgroundKey(i: int): string
    requires 1 <= i <= 6
  {
    "bg" + [DigitChar(i)]
  }

  /** `BACKGROUND_IMAGE_DIR`: the `background-image` directory under the media root. */
  function BackgroundDir(mediaRoot: string): string
  {
    Join(mediaRoot, "background-image")
  }

  /** The six names `BACKGROUND_LIST` accepts. */
  const BackgroundNames: set<string> := {"bg1", "bg2", "bg3", "bg4", "bg5", "bg6"}

  /** `BACKGROUND_LIST`: exactly the keys bg1 .. bg6, each naming its own png file in
      `BACKGROUND_IMAGE_DIR`. */
  function BackgroundList(mediaRoot: string): (m: map<string, string>)
    ensures m.Keys == BackgroundNames
    ensures forall name :: name in m ==> m[name] == Join(BackgroundDir(mediaRoot), name + ".png")
  {
    map name | name in BackgroundNames :: Join(BackgroundDir(mediaRoot), name + ".png")
  }

  /** Whether a merge job may use the background of this name. */
  predicate IsWhitelisted(mediaRoot: string, name: string)
  {
    name in BackgroundList(mediaRoot)
  }

  lemma BackgroundKeyListed(i: int)
    requires 1 <= i <= 6
    ensures BackgroundKey(i) in BackgroundNames
  {
    if i == 1 { assert BackgroundKey(i) == "bg1"; }
    else if i == 2 { assert BackgroundKey(i) == "bg2"; }
    else if i == 3 { assert BackgroundKey(i) == "bg3"; }
    else if i == 4 { assert BackgroundKey(i) == "bg4"; }
    else if i == 5 { assert BackgroundKey(i) == "bg5"; }
    else { assert BackgroundKey(i) == "bg6"; }
  }

  /** The comprehension `{f'bg{i}': ... for i in range(1, 7)}` whitelists exactly the
      names bg1 .. bg6. */
  lemma {:induction false} WhitelistIsBg1ToBg6(mediaRoot: string, name: string)
    ensures IsWhitelisted(mediaRoot, name) <==> exists i :: 1 <= i <= 6 && name == BackgroundKey(i)
  {
    if name in BackgroundNames {
      if name == "bg1" { assert BackgroundKey(1) == name; }
      else if name == "bg2" { assert BackgroundKey(2) == name; }
      else if name == "bg3" { assert BackgroundKey(3) == name; }
      else if name == "bg4" { assert BackgroundKey(4) == name; }
      else if name == "bg5" { assert BackgroundKey(5) == name; }
      else { assert BackgroundKey(6) == name; }
    } else {
      forall i | 1 <= i <= 6
        ensures name != BackgroundKey(i)
      {
        BackgroundKeyListed(i);
      }
    }
  }

  /** ... and maps `bg{i}` to `BACKGROUND_IMAGE_DIR / f'bg{i}.png'`. */
  lemma {:induction false} WhitelistPaths(mediaRoot: string, i: int)
    requires 1 <= i <= 6
    ensures BackgroundKey(i) in BackgroundList(mediaRoot)
    ensures BackgroundList(mediaRoot)[BackgroundKey(i)] == Join(BackgroundDir(mediaRoot), BackgroundKey(i) + ".png")
  {
    BackgroundKeyListed(i);
  }

  // ---------------------------------------------------------------------------
  // The ratio clamp
  // ---------------------------------------------------------------------------

  /** `int(ratio * h)` for a ratio of `k` tenths. */
  function Scaled(k: nat, h: nat): nat
  {
    (k * h) / 10
  }

  /** `round(hb / hf, 1)` in tenths: the nearest tenth, halves rounded up (Python's
      handling of float halves is abstracted). */
  function RoundTenths(hb: nat, hf: nat): nat
    requires hf > 0
  {
    (20 * hb + hf) / (2 * hf)
  }

  /** The clamp of lines 59-64 as written: a ratio above hb/hf becomes round(hb/hf, 1),
      then a ratio below 0.1 becomes 0.1. */
  function ClampRatioAsWritten(k: nat, hb: nat, hf: nat): (r: nat)
    requires hf > 0
    ensures r >= 1
    ensures k * hf > 10 * hb ==> r == (if RoundTenths(hb, hf) < 1 then 1 else RoundTenths(hb, hf))
    ensures k * hf <= 10 * hb ==> r == (if k < 1 then 1 else k)
  {
    var k1 := if k * hf > 10 * hb then RoundTenths(hb, hf) else k;
    if k1 < 1 then 1 else k1
  }

  /** Rounding to the nearest tenth can round up, so the "maximum ratio" lets the
      scaled foreground be taller than the background: a 220-pixel-high foreground at
      0.5 over a 100-pixel-high background stays at 0.5 and is 110 pixels high. */
  lemma AsWrittenClampOverflows()
    ensures ClampRatioAsWritten(5, 100, 220) == 5
    ensures Scaled(ClampRatioAsWritten(5, 100, 220), 220) == 110 > 100
  {
  }

  /** The clamp as its message intends ("use maximum ratio"): a ratio above hb/hf becomes
      hb/hf rounded DOWN to a tenth, then the floor 0.1 applies. */
  function ClampRatio(k: nat, hb: nat, hf: nat): (r: nat)
    requires hf > 0
    ensures r >= 1
    ensures k * hf <= 10 * hb ==> r == (if k < 1 then 1 else k)
    ensures r <= (if k < 1 then 1 else k)
    ensures 10 * hb >= hf ==> Scaled(r, hf) <= hb
  {
    var k1 := if k * hf > 10 * hb then (10 * hb) / hf else k;
    var r := if k1 < 1 then 1 else k1;
    if 10 * hb >= hf then ScaledFits(r, hb, hf); r else r
  }

  /** The ratio the clamp produces keeps the scaled height within the background. */
  lemma ScaledFits(r: nat, hb: nat, hf: nat)
    requires hf > 0
    requires r * hf <= 10 * hb || r == (10 * hb) / hf
    ensures Scaled(r, hf) <= hb
  {
    if r == (10 * hb) / hf {
      assert r * hf <= 10 * hb by {
        DivMulBound(10 * hb, hf);
      }
    }
  }

  /** Rounding a quotient down never overshoots the dividend. */
  lemma DivMulBound(a: nat, b: nat)
    requires b > 0
    ensures (a / b) * b <= a
  {
  }

  // ---------------------------------------------------------------------------
  // Placement and the region of interest
  // ---------------------------------------------------------------------------

  /** A (row, column) pair, `pos` in the source; either part may be negative. */
  datatype Pos = Pos(row: int, col: int)

  /** Lines 66-69: without `pos` the foreground sits on the bottom edge a quarter of the
      way across; with `pos` and `align_bottom` only the row is replaced by the bottom-aligned one. */
  function Position(hb: nat, wb: nat, hf: nat, k: nat, pos: Option<Pos>, alignBottom: bool): (p: Pos)
    ensures pos.None? ==> p == Pos(hb - Scaled(k, hf), wb / 4)
    ensures pos.Some? && alignBottom ==> p == Pos(hb - Scaled(k, hf), pos.value.col)
    ensures pos.Some? && !alignBottom ==> p == pos.value
  {
    match pos
    case None => Pos(hb - Scaled(k, hf), wb / 4)
    case Some(given) => if alignBottom then Pos(hb - Scaled(k, hf), given.col) else given
  }

  /** A Python slice bound on an axis of length n: a negative bound counts from the end,
      and the result is clipped to [0, n]. */
  function SliceBound(i: int, n: nat): (j: nat)
    ensures j <= n
    ensures 0 <= i <= n ==> j == i
    ensures i > n ==> j == n
  {
    if i < 0 then (if i + n < 0 then 0 else i + n) else if i > n then n else i
  }

  /** The length of the slice `a:b` on an axis of length n. */
  function SliceLen(a: int, b: int, n: nat): (len: nat)
    ensures len <= n
    ensures a <= b ==> len <= b - a
    ensures 0 <= a <= b ==> len == (if b <= n then b - a else if a <= n then n - a else 0)
  {
    var a', b' := SliceBound(a, n), SliceBound(b, n);
    if b' > a' then b' - a' else 0
  }

  /** Rows [top, bottom) and columns [left, right) of the background. */
  datatype Rect = Rect(top: nat, bottom: nat, left: nat, right: nat)
  {
    predicate Contains(i: int, j: int)
    {
      top <= i < bottom && left <= j < right
    }

    function Rows(): nat
    {
      if bottom >= top then bottom - top else 0
    }

    function Cols(): nat
    {
      if right >= left then right - left else 0
    }
  }

  /** What is known once a blend has been planned: the clamped ratio, the placement, the
      region `roi` that is read and blended (line 71), and the slice `target` of line 81
      that the blended block is written to. The two start at the same place. */
  datatype Plan = Plan(ratio: nat, pos: Pos, roi: Rect, target: Rect)

  /** numpy's broadcasting along one axis: a block of extent n can be assigned to a slice
      of extent m when the two agree or the block's extent is 1. */
  predicate Broadcasts(n: nat, m: nat)
  {
    n == m || n == 1
  }

  datatype BlendError =
    | EmptyRegion     // cv2.imwrite refuses the empty `roi` image
    | ShapeMismatch   // numpy cannot assign the blended block to the slice of line 81

  /** Lines 66-81 for the ratio k, which has already been clamped. The region of line 71
      is the slice of `int(hf*ratio)` rows and `int(wf*ratio)` columns from the placement,
      each clipped as Python clips slices; an empty region makes `cv2.imwrite` fail.
      Line 81 writes the blend back into the slice of the region's size starting at the
      same place; that slice may be shorter than the region, and numpy then refuses the
      assignment unless the block is one row (or one column) high along that axis, which
      broadcasts onto an empty slice and writes nothing. This is the
      computation of `PlanForRatio` restated as a relation between the inputs and the
      result, with each failure as an if-and-only-if; `PlanIsSliced` proves the two agree. */
  ghost predicate SlicedPlan(hb: nat, wb: nat, hf: nat, wf: nat, k: nat, pos: Option<Pos>, alignBottom: bool,
                             r: Result<Plan, BlendError>)
  {
    var p := Position(hb, wb, hf, k, pos, alignBottom);
    var rows, cols := SliceLen(p.row, p.row + Scaled(k, hf), hb), SliceLen(p.col, p.col + Scaled(k, wf), wb);
    var top, left := SliceBound(p.row, hb), SliceBound(p.col, wb);
    && (r == Err(EmptyRegion) <==> rows == 0 || cols == 0)
    && (r == Err(ShapeMismatch) <==>
          rows > 0 && cols > 0 &&
          !(Broadcasts(rows, SliceLen(p.row, p.row + rows, hb)) && Broadcasts(cols, SliceLen(p.col, p.col + cols, wb))))
    && (r.Ok? ==> r.value == Plan(k, p, Rect(top, top + rows, left, left + cols),
                                  Rect(top, top + SliceLen(p.row, p.row + rows, hb),
                                       left, left + SliceLen(p.col, p.col + cols, wb))))
  }

  /** A plan writes its whole region back, or, after a broadcast, nothing at all. */
  ghost predicate WritesRegionOrNothing(pl: Plan)
  {
    pl.target == pl.roi || pl.target.top == pl.target.bottom || pl.target.left == pl.target.right
  }

  /** The plan of lines 66-81 for a ratio that has already been clamped. */
  function PlanForRatio(hb: nat, wb: nat, hf: nat, wf: nat, k: nat, pos: Option<Pos>, alignBottom: bool)
    : (r: Result<Plan, BlendError>)
    ensures r.Ok? ==> 0 < r.value.roi.Rows() && r.value.roi.bottom <= hb && r.value.roi.top < r.value.roi.bottom
    ensures r.Ok? ==> 0 < r.value.roi.Cols() && r.value.roi.right <= wb && r.value.roi.left < r.value.roi.right
    ensures r.Ok? ==> r.value.target.top == r.value.roi.top && r.value.target.left == r.value.roi.left
    ensures r.Ok? ==> r.value.target.top <= r.value.target.bottom <= r.value.roi.bottom
    ensures r.Ok? ==> r.value.target.left <= r.value.target.right <= r.value.roi.right
    ensures r.Ok? ==> WritesRegionOrNothing(r.value)
  {
    var p := Position(hb, wb, hf, k, pos, alignBottom);
    var h, w := Scaled(k, hf), Scaled(k, wf);
    var rows, cols := SliceLen(p.row, p.row + h, hb), SliceLen(p.col, p.col + w, wb);
    var top, left := SliceBound(p.row, hb), SliceBound(p.col, wb);
    var tr, tc := SliceLen(p.row, p.row + rows, hb), SliceLen(p.col, p.col + cols, wb);
    assert top + rows <= hb && left + cols <= wb;
    Decide(k, p, top, left, rows, cols, tr, tc)
  }

  /** Lines 72-81 once the slices are measured: the region has `rows` x `cols` pixels from
      (top, left), and the slice of line 81 has `tr` x `tc`. */
  function Decide(k: nat, p: Pos, top: nat, left: nat, rows: nat, cols: nat, tr: nat, tc: nat)
    : (r: Result<Plan, BlendError>)
    ensures r == Err(EmptyRegion) <==> rows == 0 || cols == 0
    ensures r == Err(ShapeMismatch) <==> rows > 0 && cols > 0 && !(Broadcasts(rows, tr) && Broadcasts(cols, tc))
    ensures r.Ok? ==> r.value == Plan(k, p, Rect(top, top + rows, left, left + cols), Rect(top, top + tr, left, left + tc))
  {
    if rows == 0 || cols == 0 then
      Err(EmptyRegion)
    else if !(Broadcasts(rows, tr) && Broadcasts(cols, tc)) then
      Err(ShapeMismatch)
    else
      Ok(Plan(k, p, Rect(top, top + rows, left, left + cols), Rect(top, top + tr, left, left + tc)))
  }

  /** The plan for a clamped ratio is the one the slices of lines 71 and 81 give. */
  lemma PlanIsSliced(hb: nat, wb: nat, hf: nat, wf: nat, k: nat, pos: Option<Pos>, alignBottom: bool)
    ensures SlicedPlan(hb, wb, hf, wf, k, pos, alignBottom, PlanForRatio(hb, wb, hf, wf, k, pos, alignBottom))
  {
    PlanForRatioDecides(hb, wb, hf, wf, k, pos, alignBottom);
  }

  /** A helper of `PlanIsSliced`: `PlanForRatio` unfolded once, so that the lemma above
      reasons about `Decide`'s contract alone. */
  lemma PlanForRatioDecides(hb: nat, wb: nat, hf: nat, wf: nat, k: nat, pos: Option<Pos>, alignBottom: bool)
    ensures var p := Position(hb, wb, hf, k, pos, alignBottom);
      var rows, cols := SliceLen(p.row, p.row + Scaled(k, hf), hb), SliceLen(p.col, p.col + Scaled(k, wf), wb);
      PlanForRatio(hb, wb, hf, wf, k, pos, alignBottom)
        == Decide(k, p, SliceBound(p.row, hb), SliceBound(p.col, wb), rows, cols,
                  SliceLen(p.row, p.row + rows, hb), SliceLen(p.col, p.col + cols, wb))
  {
  }

  /** The plan of `blend_images` with the clamp of lines 59-64 as written. */
  function BlendPlanAsWritten(hb: nat, wb: nat, hf: nat, wf: nat, k: nat, pos: Option<Pos>, alignBottom: bool)
    : (r: Result<Plan, BlendError>)
    requires hf > 0
    ensures SlicedPlan(hb, wb, hf, wf, ClampRatioAsWritten(k, hb, hf), pos, alignBottom, r)
    ensures r.Ok? ==> r.value.ratio == ClampRatioAsWritten(k, hb, hf)
    ensures r.Ok? ==> r.value.pos == Position(hb, wb, hf, ClampRatioAsWritten(k, hb, hf), pos, alignBottom)
    ensures r.Ok? ==> r.value.roi.top < r.value.roi.bottom <= hb && r.value.roi.left < r.value.roi.right <= wb
    ensures r.Ok? ==> WritesRegionOrNothing(r.value)
  {
    PlanIsSliced(hb, wb, hf, wf, ClampRatioAsWritten(k, hb, hf), pos, alignBottom);
    PlanForRatio(hb, wb, hf, wf, ClampRatioAsWritten(k, hb, hf), pos, alignBottom)
  }

  /** With the clamp as written, the first pass of `merge_images` fails on a background
      of 100 x 400 pixels and a foreground of 220 x 100: the row becomes -10 and the slice
      of line 81 is empty while the blended block has 10 rows. */
  lemma AsWrittenFirstPassFails()
    ensures BlendPlanAsWritten(100, 400, 220, 100, 5, Some(Pos(50, 230)), true) == Err(ShapeMismatch)
  {
    assert ClampRatioAsWritten(5, 100, 220) == 5;
    assert Position(100, 400, 220, 5, Some(Pos(50, 230)), true) == Pos(-10, 230);
    assert SliceLen(-10, 100, 100) == 10;
    assert SliceLen(230, 280, 400) == 50;
    assert SliceLen(-10, 0, 100) == 0;
  }

  /** A bottom-aligned overflow of a single row does not fail: with a foreground of
      202 x 100 the row becomes -1, the region is the last row of the background, and the
      one-row block broadcasts onto the empty slice bg[-1:0], so nothing is painted. */
  lemma AsWrittenOneRowOverflow()
    ensures BlendPlanAsWritten(100, 400, 202, 100, 5, Some(Pos(50, 230)), true)
         == Ok(Plan(5, Pos(-1, 230), Rect(99, 100, 230, 280), Rect(99, 99, 230, 280)))
  {
    assert ClampRatioAsWritten(5, 100, 202) == 5 by {
      assert 5 * 202 > 10 * 100 && RoundTenths(100, 202) == 2202 / 404 == 5;
    }
    assert PlanForRatio(100, 400, 202, 100, 5, Some(Pos(50, 230)), true)
        == Ok(Plan(5, Pos(-1, 230), Rect(99, 100, 230, 280), Rect(99, 99, 230, 280))) by {
      assert Scaled(5, 202) == 101 && Scaled(5, 100) == 50;
      assert Position(100, 400, 202, 5, Some(Pos(50, 230)), true) == Pos(-1, 230);
      assert SliceBound(-1, 100) == 99;
      assert SliceLen(-1, 100, 100) == 1 && SliceLen(230, 280, 400) == 50;
      assert SliceLen(-1, 0, 100) == 0;
    }
  }

  /** The same happens with the corrected clamp when the background is lower than a tenth
      of the foreground: the ratio stops at 0.1 and 110 rows become 11 over 10. */
  lemma CorrectedOneRowOverflow()
    ensures BlendPlan(10, 400, 110, 100, 5, Some(Pos(50, 230)), true)
         == Ok(Plan(1, Pos(-1, 230), Rect(9, 10, 230, 240), Rect(9, 9, 230, 240)))
  {
    assert ClampRatio(5, 10, 110) == 1;
    assert PlanForRatio(10, 400, 110, 100, 1, Some(Pos(50, 230)), true)
        == Ok(Plan(1, Pos(-1, 230), Rect(9, 10, 230, 240), Rect(9, 9, 230, 240))) by {
      assert Scaled(1, 110) == 11 && Scaled(1, 100) == 10;
      assert Position(10, 400, 110, 1, Some(Pos(50, 230)), true) == Pos(-1, 230);
      assert SliceBound(-1, 10) == 9;
      assert SliceLen(-1, 10, 10) == 1 && SliceLen(230, 240, 400) == 10;
      assert SliceLen(-1, 0, 10) == 0;
    }
  }

  /** The plan of `blend_images` with the corrected clamp. When the background is at least
      a tenth as high as the foreground, a bottom-aligned foreground at a non-negative
      column starts at a non-negative row and its region ends exactly on the bottom edge;
      the plan then fails only when the region is empty. */
  function BlendPlan(hb: nat, wb: nat, hf: nat, wf: nat, k: nat, pos: Option<Pos>, alignBottom: bool)
    : (r: Result<Plan, BlendError>)
    requires hf > 0
    ensures SlicedPlan(hb, wb, hf, wf, ClampRatio(k, hb, hf), pos, alignBottom, r)
    ensures r.Ok? ==> r.value.ratio == ClampRatio(k, hb, hf)
    ensures r.Ok? ==> r.value.pos == Position(hb, wb, hf, ClampRatio(k, hb, hf), pos, alignBottom)
    ensures r.Ok? ==> r.value.roi.top < r.value.roi.bottom <= hb && r.value.roi.left < r.value.roi.right <= wb
    ensures r.Ok? ==> WritesRegionOrNothing(r.value)
    ensures 10 * hb >= hf && (pos.None? || (alignBottom && pos.value.col >= 0)) ==>
      BottomAligned(hb, wb, hf, wf, ClampRatio(k, hb, hf), pos, alignBottom, r)
  {
    var k' := ClampRatio(k, hb, hf);
    PlanIsSliced(hb, wb, hf, wf, k', pos, alignBottom);
    var r := PlanForRatio(hb, wb, hf, wf, k', pos, alignBottom);
    if 10 * hb >= hf && (pos.None? || (alignBottom && pos.value.col >= 0)) then
      AlignedPlan(hb, wb, hf, wf, k', pos, alignBottom); r
    else r
  }

  /** A bottom-aligned plan: it succeeds exactly when the region is not empty, and its
      region spans the last `int(ratio * hf)` rows and the columns from the placement
      column to the scaled width or the right edge, whichever comes first. */
  ghost predicate BottomAligned(hb: nat, wb: nat, hf: nat, wf: nat, k: nat, pos: Option<Pos>, alignBottom: bool,
                                r: Result<Plan, BlendError>)
  {
    var h, w := Scaled(k, hf), Scaled(k, wf);
    var c := Position(hb, wb, hf, k, pos, alignBottom).col;
    && (r.Ok? <==> (0 < h && 0 <= c < wb && 0 < w))
    && (r.Ok? ==>
          r.value.roi.top == hb - h && r.value.roi.bottom == hb &&
          r.value.roi.left == c && r.value.roi.right == Min(c + w, wb) &&
          r.value.target == r.value.roi)
  }

  lemma AlignedPlan(hb: nat, wb: nat, hf: nat, wf: nat, k: nat, pos: Option<Pos>, alignBottom: bool)
    requires Scaled(k, hf) <= hb
    requires pos.None? || (alignBottom && pos.value.col >= 0)
    ensures BottomAligned(hb, wb, hf, wf, k, pos, alignBottom, PlanForRatio(hb, wb, hf, wf, k, pos, alignBottom))
  {
    var p := Position(hb, wb, hf, k, pos, alignBottom);
    var h, w := Scaled(k, hf), Scaled(k, wf);
    assert p.row == hb - h && p.col >= 0;
    BottomRows(hb, h);
    ColumnSlice(p.col, w, wb);
  }

  /** The last h rows of an axis of length hb, as a slice from hb - h to hb. */
  lemma BottomRows(hb: nat, h: nat)
    requires h <= hb
    ensures SliceBound(hb - h, hb) == hb - h
    ensures SliceLen(hb - h, hb - h + h, hb) == h
    ensures SliceLen(hb - h, hb - h + SliceLen(hb - h, hb - h + h, hb), hb) == h
  {
  }

  /** The slice c:c+w on an axis of length wb, for a non-negative start c. */
  lemma ColumnSlice(c: int, w: nat, wb: nat)
    requires c >= 0
    ensures SliceBound(c, wb) == if c <= wb then c else wb
    ensures SliceLen(c, c + w, wb) == if c + w <= wb then w else if c <= wb then wb - c else 0
    ensures SliceLen(c, c + SliceLen(c, c + w, wb), wb) == SliceLen(c, c + w, wb)
  {
  }

  function Min(a: int, b: int): int
  {
    if a <= b then a else b
  }

  /** With the corrected clamp the first pass of `merge_images` succeeds on the input
      that breaks the clamp as written: the ratio becomes 0.4 and the foreground, 88 rows
      high, stands on the bottom edge. */
  lemma CorrectedFirstPassSucceeds()
    ensures BlendPlan(100, 400, 220, 100, 5, Some(Pos(50, 230)), true)
         == Ok(Plan(4, Pos(12, 230), Rect(12, 100, 230, 270), Rect(12, 100, 230, 270)))
  {
    assert ClampRatio(5, 100, 220) == 4;
    assert Scaled(4, 220) == 88 && Scaled(4, 100) == 40;
    assert Position(100, 400, 220, 4, Some(Pos(50, 230)), true) == Pos(12, 230);
    assert SliceLen(12, 100, 100) == 88 && SliceLen(230, 270, 400) == 40;
    assert PlanForRatio(100, 400, 220, 100, 4, Some(Pos(50, 230)), true)
        == Ok(Plan(4, Pos(12, 230), Rect(12, 100, 230, 270), Rect(12, 100, 230, 270)));
  }

  /** Which clamp of lines 59-64 a blend uses: the one the code has, or the corrected one. */
  datatype Clamp = AsWritten | Corrected

  /** The plan of `blend_images` with the chosen clamp. */
  function PlanWith(clamp: Clamp, hb: nat, wb: nat, hf: nat, wf: nat, k: nat, pos: Option<Pos>, alignBottom: bool)
    : (r: Result<Plan, BlendError>)
    requires hf > 0
    ensures clamp == AsWritten ==> r == BlendPlanAsWritten(hb, wb, hf, wf, k, pos, alignBottom)
    ensures clamp == Corrected ==> r == BlendPlan(hb, wb, hf, wf, k, pos, alignBottom)
    ensures r.Ok? ==> r.value.roi.top < r.value.roi.bottom <= hb && r.value.roi.left < r.value.roi.right <= wb
    ensures r.Ok? ==> r.value.target.top == r.value.roi.top && r.value.target.left == r.value.roi.left
    ensures r.Ok? ==> r.value.target.bottom <= r.value.roi.bottom && r.value.target.right <= r.value.roi.right
    ensures r.Ok? ==> WritesRegionOrNothing(r.value)
  {
    match clamp
    case AsWritten => BlendPlanAsWritten(hb, wb, hf, wf, k, pos, alignBottom)
    case Corrected => BlendPlan(hb, wb, hf, wf, k, pos, alignBottom)
  }

  /** Where the two clamps part, on a foreground of 201 x 100 over a background of
      100 x 400 at ratio 0.5. As written, round(100/201, 1) = 0.5 scales the foreground to
      exactly 100 rows, which fill the background from row 0. */
  lemma AsWrittenFillsHeight()
    ensures BlendPlanAsWritten(100, 400, 201, 100, 5, Some(Pos(50, 230)), true)
         == Ok(Plan(5, Pos(0, 230), Rect(0, 100, 230, 280), Rect(0, 100, 230, 280)))
  {
    assert ClampRatioAsWritten(5, 100, 201) == 5 by {
      assert 5 * 201 > 10 * 100 && RoundTenths(100, 201) == 2201 / 402 == 5;
    }
    assert PlanForRatio(100, 400, 201, 100, 5, Some(Pos(50, 230)), true)
        == Ok(Plan(5, Pos(0, 230), Rect(0, 100, 230, 280), Rect(0, 100, 230, 280))) by {
      assert Scaled(5, 201) == 100 && Scaled(5, 100) == 50;
      assert Position(100, 400, 201, 5, Some(Pos(50, 230)), true) == Pos(0, 230);
      assert SliceLen(0, 100, 100) == 100 && SliceLen(230, 280, 400) == 50;
    }
  }

  /** On the same input the corrected clamp takes 0.4 and leaves the top 20 rows alone. */
  lemma CorrectedLeavesTop()
    ensures BlendPlan(100, 400, 201, 100, 5, Some(Pos(50, 230)), true)
         == Ok(Plan(4, Pos(20, 230), Rect(20, 100, 230, 270), Rect(20, 100, 230, 270)))
  {
    assert ClampRatio(5, 100, 201) == 4;
    assert Scaled(4, 201) == 80 && Scaled(4, 100) == 40;
    assert Position(100, 400, 201, 4, Some(Pos(50, 230)), true) == Pos(20, 230);
    assert SliceLen(20, 100, 100) == 80 && SliceLen(230, 270, 400) == 40;
    assert PlanForRatio(100, 400, 201, 100, 4, Some(Pos(50, 230)), true)
        == Ok(Plan(4, Pos(20, 230), Rect(20, 100, 230, 270), Rect(20, 100, 230, 270)));
  }

  // ---------------------------------------------------------------------------
  // Writing the blended region into the background
  // ---------------------------------------------------------------------------

  datatype Pixel = Pixel(blue: int, green: int, red: int)

  /** The pixel at (i, j) after a blend with this plan: inside the written slice it is the
      alpha blend of the foreground, resized to the region, over the old pixel; elsewhere
      it is the old one. `fgResized(a, b, rows, cols)` is pixel (a, b) of the foreground
      resized to rows x cols; `alphaBlend` stands for the floating-point mix of lines 76-81. */
  function Painted(pl: Plan, fgResized: (int, int, int, int) -> Pixel, alphaBlend: (Pixel, Pixel) -> Pixel,
                   before: Pixel, i: int, j: int): Pixel
  {
    if pl.target.Contains(i, j)
    then alphaBlend(fgResized(i - pl.roi.top, j - pl.roi.left, pl.roi.Rows(), pl.roi.Cols()), before)
    else before
  }

  /** `blend_images` on a background already read into `bg`, with the clamp of lines 59-64
      as written (`AsWritten`) or corrected (`Corrected`): plans the blend and, when the plan
      succeeds, overwrites exactly the pixels of the slice it writes back: the whole region,
      or nothing when a one-row or one-column block broadcasts onto an empty slice. On an
      error nothing is written.
      The background keeps its dimensions because `bg` is updated in place. */
  method Blend(bg: array2<Pixel>, clamp: Clamp, hf: nat, wf: nat, k: nat, pos: Option<Pos>, alignBottom: bool,
               fgResized: (int, int, int, int) -> Pixel, alphaBlend: (Pixel, Pixel) -> Pixel)
    returns (r: Result<Plan, BlendError>)
    requires hf > 0
    modifies bg
    ensures r == PlanWith(clamp, bg.Length0, bg.Length1, hf, wf, k, pos, alignBottom)
    ensures forall i, j :: 0 <= i < bg.Length0 && 0 <= j < bg.Length1 ==>
      bg[i, j] == (if r.Ok? then Painted(r.value, fgResized, alphaBlend, old(bg[i, j]), i, j) else old(bg[i, j]))
  {
    r := PlanWith(clamp, bg.Length0, bg.Length1, hf, wf, k, pos, alignBottom);
    if r.Err? {
      return;
    }
    var pl := r.value;
    var i := pl.target.top;
    while i < pl.target.bottom
      invariant pl.target.top <= i <= pl.target.bottom
      invariant forall a, b :: 0 <= a < bg.Length0 && 0 <= b < bg.Length1 ==>
        bg[a, b] == (if a < i then Painted(pl, fgResized, alphaBlend, old(bg[a, b]), a, b) else old(bg[a, b]))
    {
      BlendRow(bg, pl, i, fgResized, alphaBlend);
      i := i + 1;
    }
  }

  /** One row of the written slice, column by column: row i ends up painted and every
      other row is left alone. */
  method BlendRow(bg: array2<Pixel>, pl: Plan, i: nat,
                  fgResized: (int, int, int, int) -> Pixel, alphaBlend: (Pixel, Pixel) -> Pixel)
    requires pl.target.top <= i < pl.target.bottom <= bg.Length0 && pl.target.left <= pl.target.right <= bg.Length1
    modifies bg
    ensures forall a, b :: 0 <= a < bg.Length0 && 0 <= b < bg.Length1 ==>
      bg[a, b] == (if a == i then Painted(pl, fgResized, alphaBlend, old(bg[a, b]), a, b) else old(bg[a, b]))
  {
    var t := pl.target;
    var j := t.left;
    while j < t.right
      invariant t.left <= j <= t.right
      invariant forall a, b :: 0 <= a < bg.Length0 && 0 <= b < bg.Length1 ==>
        bg[a, b] == (if a == i && b < j then Painted(pl, fgResized, alphaBlend, old(bg[a, b]), a, b)
                     else old(bg[a, b]))
    {
      assert t.Contains(i, j) && bg[i, j] == old(bg[i, j]);
      bg[i, j] := alphaBlend(fgResized(i - pl.roi.top, j - pl.roi.left, pl.roi.Rows(), pl.roi.Cols()), bg[i, j]);
      j := j + 1;
    }
  }

  datatype MergeError = UnknownBackground | BlendFailed(reason: BlendError)

  /** The two compositing passes of `merge_images`, lines 130-137, with the chosen clamp: a
      KeyError for a name outside the whitelist, then the first foreground at ratio 0.5 and
      column 230 over the background, then the second at ratio 0.7 and column 80 over the
      first pass's output. `bg` holds the image of `BACKGROUND_LIST[name]`. The merge fails
      exactly when a name is not whitelisted or one of the two plans fails, and then with
      the error of the first failing step; a plan whose block broadcasts onto an empty
      slice succeeds, paints nothing, and the merge goes on. */
  method MergeImages(clamp: Clamp, mediaRoot: string, name: string, bg: array2<Pixel>,
                     hf1: nat, wf1: nat, fg1: (int, int, int, int) -> Pixel,
                     hf2: nat, wf2: nat, fg2: (int, int, int, int) -> Pixel,
                     alphaBlend: (Pixel, Pixel) -> Pixel)
    returns (r: Result<(Plan, Plan), MergeError>)
    requires hf1 > 0 && hf2 > 0
    modifies bg
    ensures name !in BackgroundList(mediaRoot) ==> r == Err(UnknownBackground)
    ensures name in BackgroundList(mediaRoot) ==>
      var first := PlanWith(clamp, bg.Length0, bg.Length1, hf1, wf1, 5, Some(Pos(50, 230)), true);
      var second := PlanWith(clamp, bg.Length0, bg.Length1, hf2, wf2, 7, Some(Pos(50, 80)), true);
      && (first.Err? ==> r == Err(BlendFailed(first.error)))
      && (first.Ok? && second.Err? ==> r == Err(BlendFailed(second.error)))
      && (first.Ok? && second.Ok? ==> r == Ok((first.value, second.value)))
    ensures r.Ok? ==>
      forall i, j :: 0 <= i < bg.Length0 && 0 <= j < bg.Length1 ==>
        bg[i, j] == Painted(r.value.1, fg2, alphaBlend,
                            Painted(r.value.0, fg1, alphaBlend, old(bg[i, j]), i, j), i, j)
  {
    if name !in BackgroundList(mediaRoot) {
      return Err(UnknownBackground);
    }
    var first := Blend(bg, clamp, hf1, wf1, 5, Some(Pos(50, 230)), true, fg1, alphaBlend);
    if first.Err? {
      return Err(BlendFailed(first.error));
    }
    var second := Blend(bg, clamp, hf2, wf2, 7, Some(Pos(50, 80)), true, fg2, alphaBlend);
    if second.Err? {
      return Err(BlendFailed(second.error));
    }
    r := Ok((first.value, second.value));
  }
}
