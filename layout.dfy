/**
 * The layout half of `draw` (app.js:32-73): the width of one key column, the
 * white keys as x-ranges with smoothed shared boundaries, and the accidental
 * keys as fixed-width rectangles drawn over them. Coordinates are exact reals.
 */
module Layout {
  import opened Wrappers
  import opened Scales

  /** One entry of `whiteNotes`: the [start, end] x-range of a white key. */
  datatype Interval = Interval(start: real, end: real)

  /** An accidental key as drawn: left edge, width, height, and the tone type that picks its colour. */
  datatype Rect = Rect(x: real, width: real, height: real, toneType: int)

  /** What one frame draws: the white keys left to right, then the accidentals over them. */
  datatype Keys = Keys(whiteNotes: seq<Interval>, accidentals: seq<Rect>)

  // ---------------------------------------------------------------------------
  // Column width and the number of columns visited
  // ---------------------------------------------------------------------------

  /**
   * `Math.min(toneMaxWidth, width / (toneCount + 1))`: the width of one key
   * column, capped at 50 and narrow enough for toneCount + 1 columns to fit.
   */
  function ToneWidth(toneCount: nat, width: real): (w: real)
    requires width >= 0.0
    ensures 0.0 <= w <= ToneMaxWidth
    ensures w == 0.0 <==> width == 0.0
  {
    var even := width / (toneCount + 1) as real;
    if ToneMaxWidth < even then ToneMaxWidth else even
  }

  /**
   * toneCount + 1 columns fit on the canvas, and the column width is either
   * the cap or exactly what makes them fill it.
   */
  lemma ToneWidthFits(toneCount: nat, width: real)
    requires width >= 0.0
    ensures var w := ToneWidth(toneCount, width);
      && w * (toneCount + 1) as real <= width
      && (w == ToneMaxWidth || w * (toneCount + 1) as real == width)
  {
    var even := width / (toneCount + 1) as real;
    assert even * (toneCount + 1) as real == width;
    if ToneMaxWidth < even {
      MulStrict(ToneMaxWidth, even, (toneCount + 1) as real);
    }
  }

  /**
   * `width / toneWidth`, the real bound of the drawing loops. On a canvas of
   * width 0 the quotient is 0/0, NaN, and `i < NaN` is false at once; 0.0
   * stops the loops in the same place.
   */
  function TotalDrawn(width: real, w: real): (q: real)
    requires width >= 0.0 && w >= 0.0
    ensures q >= 0.0
    ensures w == 0.0 ==> q == 0.0
    ensures w > 0.0 ==> q * w == width
  {
    if w == 0.0 then 0.0 else width / w
  }

  /** The least integer not below `q`. */
  function Ceil(q: real): (c: int)
    ensures (c - 1) as real < q <= c as real
  {
    if q.Floor as real == q then q.Floor else q.Floor + 1
  }

  /**
   * How many times `for (let i = 0; i < totalDrawn; i++)` runs: the loop
   * visits every integer below the real bound, so it runs its ceiling.
   */
  function SlotCount(width: real, w: real): (count: nat)
    requires width >= 0.0 && w >= 0.0
    ensures (count - 1) as real < TotalDrawn(width, w) <= count as real
  {
    Ceil(TotalDrawn(width, w))
  }

  /** Multiplying both sides of a strict inequality by a positive real keeps it. */
  lemma MulStrict(a: real, b: real, w: real)
    requires a < b && w > 0.0
    ensures a * w < b * w
  {
    assert (b - a) * w > 0.0;
  }

  /** Multiplying both sides of an inequality by a non-negative real keeps it. */
  lemma MulMono(a: real, b: real, w: real)
    requires a <= b && w >= 0.0
    ensures a * w <= b * w
  {
    assert (b - a) * w >= 0.0;
  }

  /**
   * Because toneWidth * (N + 1) <= width, the loops visit at least N + 1
   * columns: every position of the scale is drawn at least once.
   */
  lemma VisitsWholeScale(toneCount: nat, width: real)
    requires width > 0.0
    ensures SlotCount(width, ToneWidth(toneCount, width)) >= toneCount + 1
  {
    var w := ToneWidth(toneCount, width);
    var q := TotalDrawn(width, w);
    ToneWidthFits(toneCount, width);
    assert q * w == width;
    if q < (toneCount + 1) as real {
      MulStrict(q, (toneCount + 1) as real, w);
      assert false;
    }
  }

  /** Every column the loops visit starts left of the canvas's right edge. */
  lemma VisitedColumnStartsInside(width: real, w: real, i: nat)
    requires width >= 0.0 && w > 0.0
    requires i < SlotCount(width, w)
    ensures ColumnStart(i, w) < width
  {
    MulStrict(i as real, TotalDrawn(width, w), w);
  }

  lemma ModOfSmall(j: int, n: int)
    requires 0 <= j < n
    ensures j % n == j
  {
  }

  // ---------------------------------------------------------------------------
  // Columns, white-key intervals before smoothing, accidental rectangles
  // ---------------------------------------------------------------------------

  /** Column i shows scale position i mod N; it is a white key when that tone type is natural. */
  predicate IsNaturalSlot(scale: seq<int>, i: nat)
    requires |scale| > 0
  {
    scale[i % |scale|] == Natural
  }

  /** The columns below `count` that are natural (or, with `natural` false, accidental), left to right. */
  function Slots(scale: seq<int>, count: nat, natural: bool): (s: seq<nat>)
    requires |scale| > 0
    ensures |s| <= count
  {
    if count == 0 then []
    else Slots(scale, count - 1, natural)
         + (if IsNaturalSlot(scale, count - 1) == natural then [count - 1] else [])
  }

  /**
   * `s` lists exactly the columns below `count` that are natural (or, with
   * `natural` false, accidental), each once, in increasing order.
   */
  predicate ListsSlots(s: seq<nat>, scale: seq<int>, count: nat, natural: bool)
    requires |scale| > 0
  {
    && (forall k, l :: 0 <= k < l < |s| ==> s[k] < s[l])
    && (forall k :: 0 <= k < |s| ==> s[k] < count && IsNaturalSlot(scale, s[k]) == natural)
    && (forall i: nat :: i < count && IsNaturalSlot(scale, i) == natural ==> i in s)
  }

  lemma {:induction false} SlotsExact(scale: seq<int>, count: nat, natural: bool)
    requires |scale| > 0
    ensures ListsSlots(Slots(scale, count, natural), scale, count, natural)
  {
    if count > 0 {
      SlotsExact(scale, count - 1, natural);
      var prev := Slots(scale, count - 1, natural);
      var s := Slots(scale, count, natural);
      forall k | 0 <= k < |s|
        ensures s[k] < count && IsNaturalSlot(scale, s[k]) == natural
      {
        if k < |prev| {
          assert s[k] == prev[k];
        }
      }
    }
  }

  /** Every column is either a natural or an accidental one. */
  lemma {:induction false} SlotsPartition(scale: seq<int>, count: nat)
    requires |scale| > 0
    ensures |Slots(scale, count, true)| + |Slots(scale, count, false)| == count
  {
    if count > 0 {
      SlotsPartition(scale, count - 1);
    }
  }

  /** The left edge of column i, `i * toneWidth`. */
  function ColumnStart(i: nat, w: real): real
  {
    i as real * w
  }

  /** The provisional x-range of column i: `[i * toneWidth, (i + 1) * toneWidth]`. */
  function SlotInterval(w: real, i: nat): Interval
  {
    Interval(ColumnStart(i, w), ColumnStart(i + 1, w))
  }

  /** `whiteNotes` after the push loop has visited the columns below `count`. */
  function Provisional(scale: seq<int>, w: real, count: nat): (p: seq<Interval>)
    requires |scale| > 0
    ensures |p| <= count
  {
    if count == 0 then []
    else Provisional(scale, w, count - 1)
         + (if IsNaturalSlot(scale, count - 1) then [SlotInterval(w, count - 1)] else [])
  }

  /** Before smoothing, entry k of `whiteNotes` is the column interval of the k-th natural column. */
  lemma {:induction false} ProvisionalExact(scale: seq<int>, w: real, count: nat)
    requires |scale| > 0
    ensures var p, s := Provisional(scale, w, count), Slots(scale, count, true);
      |p| == |s| && forall k :: 0 <= k < |p| ==> p[k] == SlotInterval(w, s[k])
  {
    if count > 0 {
      ProvisionalExact(scale, w, count - 1);
    }
  }

  /** The rectangle drawn for accidental column i: full column width, 200 high, coloured by its tone type. */
  function AccidentalRect(scale: seq<int>, w: real, i: nat): (r: Rect)
    requires |scale| > 0
    ensures r.toneType != Natural <==> !IsNaturalSlot(scale, i)
    ensures r.width == w && r.height == AccidentalHeight < KeyHeight
  {
    Rect(ColumnStart(i, w), w, AccidentalHeight, scale[i % |scale|])
  }

  /** Every rectangle is one column wide, 200 high, and of an accidental tone type. */
  predicate AccidentalShapes(a: seq<Rect>, w: real)
  {
    forall k :: 0 <= k < |a| ==>
      a[k].width == w && a[k].height == AccidentalHeight && a[k].toneType != Natural
  }

  /** The accidental rectangles for the columns below `count`, left to right. */
  function Accidentals(scale: seq<int>, w: real, count: nat): (a: seq<Rect>)
    requires |scale| > 0
    ensures |a| <= count && AccidentalShapes(a, w)
  {
    if count == 0 then []
    else Accidentals(scale, w, count - 1)
         + (if !IsNaturalSlot(scale, count - 1) then [AccidentalRect(scale, w, count - 1)] else [])
  }

  /** There is one accidental rectangle per accidental column, in column order. */
  lemma {:induction false} AccidentalsExact(scale: seq<int>, w: real, count: nat)
    requires |scale| > 0
    ensures var a, s := Accidentals(scale, w, count), Slots(scale, count, false);
      |a| == |s| && forall k :: 0 <= k < |a| ==> a[k] == AccidentalRect(scale, w, s[k])
  {
    if count > 0 {
      AccidentalsExact(scale, w, count - 1);
    }
  }

  // ---------------------------------------------------------------------------
  // Boundary smoothing and the edge clamp
  // ---------------------------------------------------------------------------

  function Mid(a: real, b: real): real
  {
    0.5 * (a + b)
  }

  /** Where key k starts after smoothing. */
  function SmoothedStart(notes: seq<Interval>, k: nat): real
    requires k < |notes|
  {
    if k == 0 then notes[0].start else Mid(notes[k - 1].end, notes[k].start)
  }

  /** Where key k ends after smoothing. */
  function SmoothedEnd(notes: seq<Interval>, k: nat): real
    requires k < |notes|
  {
    if k == |notes| - 1 then notes[k].end else Mid(notes[k].end, notes[k + 1].start)
  }

  /**
   * The white keys after "even out the boundaries": each boundary between
   * neighbours moves to the midpoint of the left key's end and the right
   * key's start, both as they were before smoothing; the outer ends stay.
   */
  function Smoothed(notes: seq<Interval>): (r: seq<Interval>)
    ensures |r| == |notes|
    ensures |r| > 0 ==> r[0].start == notes[0].start && r[|r| - 1].end == notes[|notes| - 1].end
    ensures forall k :: 0 <= k < |r| - 1 ==>
      r[k].end == Mid(notes[k].end, notes[k + 1].start) && r[k + 1].start == r[k].end
  {
    seq(|notes|, k requires 0 <= k < |notes| => Interval(SmoothedStart(notes, k), SmoothedEnd(notes, k)))
  }

  /** A sequence whose every entry is the smoothed interval at its index is `Smoothed`. */
  lemma SmoothedFrom(notes: seq<Interval>, r: seq<Interval>)
    requires |r| == |notes|
    requires forall k :: 0 <= k < |r| ==> r[k] == Interval(SmoothedStart(notes, k), SmoothedEnd(notes, k))
    ensures r == Smoothed(notes)
  {
  }

  /** Intervals of positive width that run left to right without overlapping. */
  predicate Ordered(notes: seq<Interval>)
  {
    && (forall k :: 0 <= k < |notes| ==> notes[k].start < notes[k].end)
    && (forall k :: 0 <= k < |notes| - 1 ==> notes[k].end <= notes[k + 1].start)
  }

  /**
   * Smoothing only moves each boundary into the gap it closes: every key
   * grows, and the keys keep their order.
   */
  lemma SmoothedWithinGaps(notes: seq<Interval>)
    requires Ordered(notes)
    ensures var r := Smoothed(notes);
      && (forall k :: 0 <= k < |r| ==> r[k].start <= notes[k].start && notes[k].end <= r[k].end)
      && (forall k :: 0 <= k < |r| - 1 ==> notes[k].end <= r[k].end <= notes[k + 1].start)
  {
    var r := Smoothed(notes);
    forall k | 0 <= k < |r|
      ensures r[k].start <= notes[k].start && notes[k].end <= r[k].end
    {
      if k > 0 {
        assert r[k].start == Mid(notes[k - 1].end, notes[k].start);
      }
    }
  }

  /** `whiteNotes[whiteNotes.length - 1][1] = width`. */
  function Clamp(notes: seq<Interval>, width: real): (r: seq<Interval>)
    requires |notes| > 0
    ensures |r| == |notes| && r[|r| - 1] == Interval(notes[|notes| - 1].start, width)
    ensures forall k :: 0 <= k < |r| - 1 ==> r[k] == notes[k]
  {
    notes[|notes| - 1 := notes[|notes| - 1].(end := width)]
  }

  // ---------------------------------------------------------------------------
  // The whole layout
  // ---------------------------------------------------------------------------

  /**
   * The keys one frame draws for `scale` on a canvas `width` wide. None when
   * no white key is recorded: the clamp then indexes `whiteNotes[-1]`, which
   * is undefined, and the frame throws before drawing a key.
   */
  function LayoutOf(scale: seq<int>, width: real): (r: Option<Keys>)
    requires |scale| > 0 && width >= 0.0
    ensures r.Some? ==> |r.value.whiteNotes| > 0
  {
    var w := ToneWidth(|scale|, width);
    var count := SlotCount(width, w);
    var provisional := Provisional(scale, w, count);
    if provisional == [] then None
    else Some(Keys(Clamp(Smoothed(provisional), width), Accidentals(scale, w, count)))
  }

  /** A drawn frame has one key per visited column: a white key or an accidental. */
  lemma KeyPerColumn(scale: seq<int>, width: real)
    requires |scale| > 0 && width >= 0.0
    requires LayoutOf(scale, width).Some?
    ensures var keys := LayoutOf(scale, width).value;
      |keys.whiteNotes| + |keys.accidentals| == SlotCount(width, ToneWidth(|scale|, width))
  {
    var w := ToneWidth(|scale|, width);
    var count := SlotCount(width, w);
    ProvisionalExact(scale, w, count);
    AccidentalsExact(scale, w, count);
    SlotsPartition(scale, count);
  }

  /** A frame draws its keys exactly when some visited column is natural. */
  lemma DrawnIffNaturalColumn(scale: seq<int>, width: real)
    requires |scale| > 0 && width >= 0.0
    ensures LayoutOf(scale, width).Some? <==>
      |Slots(scale, SlotCount(width, ToneWidth(|scale|, width)), true)| > 0
  {
    var w := ToneWidth(|scale|, width);
    ProvisionalExact(scale, w, SlotCount(width, w));
  }

  /** A frame draws its keys exactly when the canvas has width and the scale has a natural. */
  lemma LayoutDrawnIffNatural(scale: seq<int>, width: real)
    requires |scale| > 0 && width >= 0.0
    ensures LayoutOf(scale, width).Some? <==>
      width > 0.0 && exists j :: 0 <= j < |scale| && scale[j] == Natural
  {
    var w := ToneWidth(|scale|, width);
    var count := SlotCount(width, w);
    var s := Slots(scale, count, true);
    DrawnIffNaturalColumn(scale, width);
    SlotsExact(scale, count, true);
    if width > 0.0 && exists j :: 0 <= j < |scale| && scale[j] == Natural {
      var j :| 0 <= j < |scale| && scale[j] == Natural;
      VisitsWholeScale(|scale|, width);
      ModOfSmall(j, |scale|);
      assert IsNaturalSlot(scale, j);
      assert j in s;
    }
    if |s| > 0 {
      var i := s[0];
      assert i < count && IsNaturalSlot(scale, i);
      assert width > 0.0;
      var j := i % |scale|;
      assert 0 <= j < |scale| && scale[j] == Natural;
    }
  }

  /** The sum of the widths of the white keys as painted, `note[1] - note[0]` each. */
  function TotalWidth(notes: seq<Interval>): real
  {
    if notes == [] then 0.0 else (notes[0].end - notes[0].start) + TotalWidth(notes[1..])
  }

  /** Each key ends where the next one starts. */
  predicate Contiguous(notes: seq<Interval>)
  {
    forall k :: 0 <= k < |notes| - 1 ==> notes[k].end == notes[k + 1].start
  }

  /** The widths of contiguous keys add up to the distance from the first start to the last end. */
  lemma {:induction false} Telescope(notes: seq<Interval>)
    requires |notes| > 0 && Contiguous(notes)
    ensures TotalWidth(notes) == notes[|notes| - 1].end - notes[0].start
  {
    if |notes| > 1 {
      Telescope(notes[1..]);
    }
  }

  /** The column intervals of increasing columns run left to right with positive widths. */
  lemma ColumnIntervalsOrdered(p: seq<Interval>, s: seq<nat>, w: real)
    requires w > 0.0 && |p| == |s|
    requires forall k :: 0 <= k < |p| ==> p[k] == SlotInterval(w, s[k])
    requires forall k :: 0 <= k < |s| - 1 ==> s[k] < s[k + 1]
    ensures Ordered(p)
  {
    forall k | 0 <= k < |p|
      ensures p[k].start < p[k].end
    {
      MulStrict(s[k] as real, (s[k] + 1) as real, w);
    }
    forall k | 0 <= k < |p| - 1
      ensures p[k].end <= p[k + 1].start
    {
      MulMono((s[k] + 1) as real, s[k + 1] as real, w);
    }
  }

  /** The provisional intervals of the natural columns run left to right with positive widths. */
  lemma ProvisionalOrdered(scale: seq<int>, w: real, count: nat)
    requires |scale| > 0 && w > 0.0
    ensures Ordered(Provisional(scale, w, count))
  {
    ProvisionalExact(scale, w, count);
    SlotsExact(scale, count, true);
    ColumnIntervalsOrdered(Provisional(scale, w, count), Slots(scale, count, true), w);
  }

  /**
   * Smoothing and then clamping the last end to `width` turns ordered keys
   * whose last one starts left of `width` into keys that tile the range from
   * the first start to `width`: shared boundaries, positive widths, and
   * widths that add up to the length of that range.
   */
  lemma ClampedSmoothedTiles(p: seq<Interval>, width: real)
    requires |p| > 0 && Ordered(p) && p[|p| - 1].start < width
    ensures var notes := Clamp(Smoothed(p), width);
      && |notes| == |p|
      && notes[0].start == p[0].start
      && notes[|notes| - 1].end == width
      && Contiguous(notes)
      && (forall k :: 0 <= k < |notes| ==> notes[k].start < notes[k].end)
      && TotalWidth(notes) == width - p[0].start
  {
    var r := Smoothed(p);
    var notes := Clamp(r, width);
    SmoothedWithinGaps(p);
    assert Contiguous(notes) by {
      forall k | 0 <= k < |notes| - 1
        ensures notes[k].end == notes[k + 1].start
      {
        assert notes[k].end == r[k].end;
      }
    }
    Telescope(notes);
  }

  /** A frame that draws its keys has a positive column width and some natural column. */
  lemma DrawnHasNaturals(scale: seq<int>, width: real)
    requires |scale| > 0 && width >= 0.0
    requires LayoutOf(scale, width).Some?
    ensures var w := ToneWidth(|scale|, width);
      var p := Provisional(scale, w, SlotCount(width, w));
      && w > 0.0 && |p| > 0
      && LayoutOf(scale, width).value.whiteNotes == Clamp(Smoothed(p), width)
  {
    var w := ToneWidth(|scale|, width);
    ProvisionalExact(scale, w, SlotCount(width, w));
  }

  /**
   * The provisional white keys start at the first natural column's left
   * edge, and the last one starts left of the canvas's right edge.
   */
  lemma ProvisionalEdges(scale: seq<int>, width: real, w: real)
    requires |scale| > 0 && width >= 0.0 && w > 0.0
    requires |Provisional(scale, w, SlotCount(width, w))| > 0
    ensures var count := SlotCount(width, w);
      var p, s := Provisional(scale, w, count), Slots(scale, count, true);
      && |s| > 0
      && Ordered(p)
      && p[0].start == ColumnStart(s[0], w)
      && p[|p| - 1].start < width
  {
    var count := SlotCount(width, w);
    var p, s := Provisional(scale, w, count), Slots(scale, count, true);
    ProvisionalExact(scale, w, count);
    SlotsExact(scale, count, true);
    ProvisionalOrdered(scale, w, count);
    assert p[0] == SlotInterval(w, s[0]);
    assert p[|p| - 1] == SlotInterval(w, s[|p| - 1]);
    VisitedColumnStartsInside(width, w, s[|p| - 1]);
    assert p[|p| - 1].start == ColumnStart(s[|p| - 1], w);
  }

  /**
   * The white keys of a drawn frame tile the canvas from the first natural
   * column's left edge to `width`: each starts where the previous ends, each
   * has positive width, and their widths add up to `width` minus that edge.
   */
  lemma WhiteNotesTile(scale: seq<int>, width: real)
    requires |scale| > 0 && width >= 0.0
    requires LayoutOf(scale, width).Some?
    ensures var notes := LayoutOf(scale, width).value.whiteNotes;
      var naturals := Slots(scale, SlotCount(width, ToneWidth(|scale|, width)), true);
      && |notes| > 0 && |naturals| > 0
      && notes[0].start == ColumnStart(naturals[0], ToneWidth(|scale|, width))
      && notes[|notes| - 1].end == width
      && Contiguous(notes)
      && (forall k :: 0 <= k < |notes| ==> notes[k].start < notes[k].end)
      && TotalWidth(notes) == width - notes[0].start
  {
    DrawnHasNaturals(scale, width);
    var w := ToneWidth(|scale|, width);
    var count := SlotCount(width, w);
    var p, s := Provisional(scale, w, count), Slots(scale, count, true);
    ProvisionalEdges(scale, width, w);
    ClampedSmoothedTiles(p, width);
    var notes := LayoutOf(scale, width).value.whiteNotes;
    assert notes[0].start == p[0].start;
    assert p[0].start == ColumnStart(s[0], w);
  }

  /**
   * For a scale that starts on a natural, as every scale of the table does,
   * the white keys cover the whole canvas: they start at 0 and their widths
   * add up to `width`.
   */
  lemma WhiteNotesCoverCanvas(scale: seq<int>, width: real)
    requires |scale| > 0 && width > 0.0 && scale[0] == Natural
    ensures LayoutOf(scale, width).Some?
    ensures var notes := LayoutOf(scale, width).value.whiteNotes;
      notes[0].start == 0.0 && TotalWidth(notes) == width
  {
    var w := ToneWidth(|scale|, width);
    var count := SlotCount(width, w);
    var s := Slots(scale, count, true);
    LayoutDrawnIffNatural(scale, width);
    WhiteNotesTile(scale, width);
    SlotsExact(scale, count, true);
    VisitsWholeScale(|scale|, width);
    assert IsNaturalSlot(scale, 0);
    assert 0 in s;
    var j :| 0 <= j < |s| && s[j] == 0;
    assert s[0] >= 0;
    assert j == 0;
  }

  /**
   * The accidentals of a drawn frame are exactly one rectangle per accidental
   * column below the loop bound, in column order, each at `i * toneWidth`,
   * one column wide, 200 high, and coloured by that column's tone type.
   */
  lemma AccidentalsPerColumn(scale: seq<int>, width: real)
    requires |scale| > 0 && width >= 0.0
    requires LayoutOf(scale, width).Some?
    ensures var w := ToneWidth(|scale|, width);
      var count := SlotCount(width, w);
      var a, s := LayoutOf(scale, width).value.accidentals, Slots(scale, count, false);
      && |a| == |s|
      && (forall k :: 0 <= k < |a| ==>
            a[k] == Rect(ColumnStart(s[k], w), w, AccidentalHeight, scale[s[k] % |scale|])
            && a[k].toneType != Natural)
      && (forall i: nat :: i < count && !IsNaturalSlot(scale, i) ==> i in s)
  {
    var w := ToneWidth(|scale|, width);
    var count := SlotCount(width, w);
    AccidentalsExact(scale, w, count);
    SlotsExact(scale, count, false);
  }

  /** Accidental k of a drawn frame is the rectangle of the k-th accidental column. */
  lemma DrawnAccidental(scale: seq<int>, width: real, k: int)
    requires |scale| > 0 && width >= 0.0
    requires LayoutOf(scale, width).Some?
    requires 0 <= k < |LayoutOf(scale, width).value.accidentals|
    ensures width > 0.0
    ensures var w := ToneWidth(|scale|, width);
      var s := Slots(scale, SlotCount(width, w), false);
      && k < |s| && !IsNaturalSlot(scale, s[k])
      && LayoutOf(scale, width).value.accidentals[k] == AccidentalRect(scale, w, s[k])
  {
    DrawnHasNaturals(scale, width);
    var w := ToneWidth(|scale|, width);
    AccidentalsExact(scale, w, SlotCount(width, w));
  }

  // ---------------------------------------------------------------------------
  // The layout as the frame computes it, step by step
  // ---------------------------------------------------------------------------

  /**
   * The smoothing loop of `draw`, in place: for i = 1, 2, ... it sets the end
   * of entry i - 1 and the start of entry i to their midpoint. Each pass
   * reads an end and a start no earlier pass has written, and no later pass
   * writes a boundary an earlier pass has set.
   */
  method SmoothBoundaries(notes: array<Interval>)
    modifies notes
    ensures notes[..] == Smoothed(old(notes[..]))
  {
    ghost var original := notes[..];
    var i := 1;
    while i < notes.Length
      invariant 1 <= i && (notes.Length > 0 ==> i <= notes.Length)
      invariant forall k :: 0 <= k < i - 1 && k < notes.Length ==>
        notes[k] == Interval(SmoothedStart(original, k), SmoothedEnd(original, k))
      invariant i - 1 < notes.Length ==>
        notes[i - 1] == Interval(SmoothedStart(original, i - 1), original[i - 1].end)
      invariant forall k :: i <= k < notes.Length ==> notes[k] == original[k]
    {
      var lastNote := notes[i - 1];
      var thisNote := notes[i];
      var newValue := Mid(lastNote.end, thisNote.start);
      notes[i - 1] := lastNote.(end := newValue);
      notes[i] := thisNote.(start := newValue);
      i := i + 1;
    }
    SmoothedFrom(original, notes[..]);
  }

  /**
   * The first loop of `draw`: for every column below the real bound
   * `totalDrawn`, push the column's interval when its tone type is natural.
   */
  method RecordWhiteNotes(scale: seq<int>, toneWidth: real, totalDrawn: real)
    returns (whiteNotes: seq<Interval>)
    requires |scale| > 0 && totalDrawn >= 0.0
    ensures whiteNotes == Provisional(scale, toneWidth, Ceil(totalDrawn))
  {
    ghost var count := Ceil(totalDrawn);
    whiteNotes := [];
    var i: nat := 0;
    while (i as real) < totalDrawn
      invariant i <= count
      invariant whiteNotes == Provisional(scale, toneWidth, i)
      decreases count - i
    {
      var toneType := scale[i % |scale|];
      if toneType == Natural {
        whiteNotes := whiteNotes + [Interval(i as real * toneWidth, (i + 1) as real * toneWidth)];
        assert whiteNotes == Provisional(scale, toneWidth, i) + [SlotInterval(toneWidth, i)];
      }
      i := i + 1;
    }
  }

  /**
   * The last loop of `draw`: for every column below the real bound
   * `totalDrawn`, emit a rectangle when its tone type is not natural.
   */
  method EmitAccidentals(scale: seq<int>, toneWidth: real, totalDrawn: real)
    returns (accidentals: seq<Rect>)
    requires |scale| > 0 && totalDrawn >= 0.0
    ensures accidentals == Accidentals(scale, toneWidth, Ceil(totalDrawn))
  {
    ghost var count := Ceil(totalDrawn);
    accidentals := [];
    var i: nat := 0;
    while (i as real) < totalDrawn
      invariant i <= count
      invariant accidentals == Accidentals(scale, toneWidth, i)
      decreases count - i
    {
      var toneType := scale[i % |scale|];
      if toneType != Natural {
        accidentals := accidentals + [Rect(i as real * toneWidth, toneWidth, AccidentalHeight, toneType)];
        assert accidentals == Accidentals(scale, toneWidth, i) + [AccidentalRect(scale, toneWidth, i)];
      }
      i := i + 1;
    }
  }

  /**
   * The layout part of `draw`: record the white keys' provisional
   * intervals, smooth their boundaries in place, clamp the last end to the
   * canvas width, then emit the accidentals. None where the frame throws at
   * the clamp.
   */
  method DrawLayout(scale: seq<int>, width: real) returns (r: Option<Keys>)
    requires |scale| > 0 && width >= 0.0
    ensures r == LayoutOf(scale, width)
  {
    var toneCount := |scale|;
    var toneWidth := ToneWidth(toneCount, width);
    var totalDrawn := TotalDrawn(width, toneWidth);

    var whiteNotes := RecordWhiteNotes(scale, toneWidth, totalDrawn);
    if whiteNotes == [] {
      return None;
    }
    var notes := new Interval[|whiteNotes|](k requires 0 <= k < |whiteNotes| => whiteNotes[k]);
    assert notes[..] == whiteNotes;
    SmoothBoundaries(notes);
    notes[notes.Length - 1] := notes[notes.Length - 1].(end := width);

    var accidentals := EmitAccidentals(scale, toneWidth, totalDrawn);
    r := Some(Keys(notes[..], accidentals));
  }

  // ---------------------------------------------------------------------------
  // A 600-pixel canvas with the 12-tone scale
  // ---------------------------------------------------------------------------

  /**
   * At width 600 the column width is 600 / 13, and `600 / toneWidth` is
   * exactly 13, so the loops visit columns 0 to 12.
   */
  lemma Width600Columns()
    ensures ToneWidth(|Scale12|, 600.0) == 600.0 / 13.0
    ensures SlotCount(600.0, ToneWidth(|Scale12|, 600.0)) == 13
  {
    var w := ToneWidth(|Scale12|, 600.0);
    assert w == 600.0 / 13.0;
    assert TotalDrawn(600.0, w) == 13.0;
  }

  /** The natural columns among 0 to 12: the seven of the scale, and column 12, where the scale repeats. */
  lemma Width600Naturals()
    ensures Slots(Scale12, 13, true) == [0, 2, 4, 5, 7, 9, 11, 12]
  {
    assert Slots(Scale12, 0, true) == [];
    assert Slots(Scale12, 1, true) == [0];
    assert Slots(Scale12, 2, true) == [0];
    assert Slots(Scale12, 3, true) == [0, 2];
    assert Slots(Scale12, 4, true) == [0, 2];
    assert Slots(Scale12, 5, true) == [0, 2, 4];
    assert Slots(Scale12, 6, true) == [0, 2, 4, 5];
    assert Slots(Scale12, 7, true) == [0, 2, 4, 5];
    assert Slots(Scale12, 8, true) == [0, 2, 4, 5, 7];
    assert Slots(Scale12, 9, true) == [0, 2, 4, 5, 7];
    assert Slots(Scale12, 10, true) == [0, 2, 4, 5, 7, 9];
    assert Slots(Scale12, 11, true) == [0, 2, 4, 5, 7, 9];
    assert Slots(Scale12, 12, true) == [0, 2, 4, 5, 7, 9, 11];
  }

  /** The accidental columns among 0 to 12. */
  lemma Width600Accidentals()
    ensures Slots(Scale12, 13, false) == [1, 3, 6, 8, 10]
  {
    assert Slots(Scale12, 0, false) == [];
    assert Slots(Scale12, 1, false) == [];
    assert Slots(Scale12, 2, false) == [1];
    assert Slots(Scale12, 3, false) == [1];
    assert Slots(Scale12, 4, false) == [1, 3];
    assert Slots(Scale12, 5, false) == [1, 3];
    assert Slots(Scale12, 6, false) == [1, 3];
    assert Slots(Scale12, 7, false) == [1, 3, 6];
    assert Slots(Scale12, 8, false) == [1, 3, 6];
    assert Slots(Scale12, 9, false) == [1, 3, 6, 8];
    assert Slots(Scale12, 10, false) == [1, 3, 6, 8];
    assert Slots(Scale12, 11, false) == [1, 3, 6, 8, 10];
    assert Slots(Scale12, 12, false) == [1, 3, 6, 8, 10];
  }

  /** The black key of column 1. */
  lemma Width600FirstAccidental()
    ensures AccidentalRect(Scale12, 600.0 / 13.0, 1) == Rect(600.0 / 13.0, 600.0 / 13.0, AccidentalHeight, 1)
  {
    assert Scale12[1 % 12] == 1;
  }

  /**
   * The frame on a 600-pixel canvas: eight white keys spanning 0 to 600 and
   * five black keys, the first at column 1. Because the loop runs to the
   * ceiling of `width / toneWidth`, column 12 is drawn as an eighth white key.
   */
  lemma Width600Keyboard()
    ensures var k := LayoutOf(Scale12, 600.0);
      && k.Some?
      && |k.value.whiteNotes| == 8
      && k.value.whiteNotes[0].start == 0.0
      && k.value.whiteNotes[7].end == 600.0
      && |k.value.accidentals| == 5
      && k.value.accidentals[0] == Rect(600.0 / 13.0, 600.0 / 13.0, AccidentalHeight, 1)
  {
    Width600Columns();
    Width600Naturals();
    Width600Accidentals();
    var w := ToneWidth(|Scale12|, 600.0);
    ProvisionalExact(Scale12, w, 13);
    AccidentalsExact(Scale12, w, 13);
    DrawnIffNaturalColumn(Scale12, 600.0);
    WhiteNotesCoverCanvas(Scale12, 600.0);
    assert SlotCount(600.0, w) == 13;
    assert LayoutOf(Scale12, 600.0).value.accidentals == Accidentals(Scale12, w, 13);
    assert Accidentals(Scale12, w, 13)[0] == AccidentalRect(Scale12, w, 1);
    Width600FirstAccidental();
  }
}
