/**
 * `frequencyAt` (app.js:100-113): the frequency under a pointer position.
 * Rows above the canvas and from its bottom edge down play nothing; inside
 * the canvas the note is the index of the key column under the pointer.
 */
module Pointer {
  import opened Scales
  import Layout

  /**
   * The frequency `440 / 2 * 2^((n + 3) / toneCount)` Hz of note n of a
   * toneCount-tone scale, kept symbolic: two pitches are the same frequency
   * exactly when they have the same note index and scale length.
   */
  datatype Pitch = Freq(n: int, toneCount: nat)

  /** The JavaScript values `frequencyAt` returns and `currentFreq` holds: 0, null, or a frequency. */
  datatype FreqValue = Zero | Null | Hz(pitch: Pitch)

  /** JavaScript truthiness: every frequency is a positive number; 0 and null are falsy. */
  predicate Truthy(v: FreqValue)
  {
    v.Hz?
  }

  /** Key column n spans `[n * toneWidth, (n + 1) * toneWidth)` on the x axis. */
  predicate InColumn(n: int, w: real, x: real)
  {
    n as real * w <= x < (n + 1) as real * w
  }

  /** Dividing by a positive real and flooring gives the column the point lies in. */
  lemma FloorIsColumn(x: real, w: real)
    requires w > 0.0
    ensures InColumn((x / w).Floor, w, x)
  {
    var q := x / w;
    var n := q.Floor;
    assert q * w == x;
    Layout.MulMono(n as real, q, w);
    Layout.MulStrict(q, (n + 1) as real, w);
  }

  /** A point lies in one column only. */
  lemma ColumnUnique(n: int, m: int, w: real, x: real)
    requires w > 0.0 && InColumn(n, w, x) && InColumn(m, w, x)
    ensures n == m
  {
    if n < m {
      Layout.MulMono((n + 1) as real, m as real, w);
    } else if m < n {
      Layout.MulMono((m + 1) as real, n as real, w);
    }
  }

  /**
   * The frequency under the pointer at (x, y) on a canvas `width` wide:
   * null above the canvas and from its bottom edge down, otherwise the pitch
   * of the key column containing x.
   */
  function FrequencyAt(scale: seq<int>, width: real, x: real, y: real): (r: FreqValue)
    requires |scale| > 0 && width > 0.0
    ensures r != Zero
    ensures r == Null <==> y < 0.0 || KeyHeight <= y
    ensures r.Hz? ==>
              r.pitch.toneCount == |scale| && InColumn(r.pitch.n, Layout.ToneWidth(|scale|, width), x)
  {
    var toneWidth := Layout.ToneWidth(|scale|, width);
    FloorIsColumn(x, toneWidth);
    if y < 0.0 then Null
    else if y < KeyHeight then Hz(Freq((x / toneWidth).Floor, |scale|))
    else Null
  }

  /**
   * Every point of key column i inside the canvas plays note i: the pointer
   * mapping inverts the layout's column placement, so two points of one
   * column play the same note.
   */
  lemma ColumnPlaysItsNote(scale: seq<int>, width: real, i: int, x: real, y: real)
    requires |scale| > 0 && width > 0.0
    requires InColumn(i, Layout.ToneWidth(|scale|, width), x)
    requires 0.0 <= y < KeyHeight
    ensures FrequencyAt(scale, width, x, y) == Hz(Freq(i, |scale|))
  {
    var r := FrequencyAt(scale, width, x, y);
    ColumnUnique(r.pitch.n, i, Layout.ToneWidth(|scale|, width), x);
  }

  /**
   * Pressing inside an accidental key as drawn plays that key's own column:
   * the note whose column starts at the key's left edge, at a position of
   * the scale that has the key's tone type.
   */
  lemma AccidentalKeyPlaysItsColumn(scale: seq<int>, width: real, k: int, x: real, y: real)
    requires |scale| > 0 && width >= 0.0
    requires Layout.LayoutOf(scale, width).Some?
    requires 0 <= k < |Layout.LayoutOf(scale, width).value.accidentals|
    requires var key := Layout.LayoutOf(scale, width).value.accidentals[k];
      key.x <= x < key.x + key.width && 0.0 <= y < key.height
    ensures width > 0.0
    ensures var key := Layout.LayoutOf(scale, width).value.accidentals[k];
      var r := FrequencyAt(scale, width, x, y);
      && r.Hz? && r.pitch.n >= 0
      && Layout.ColumnStart(r.pitch.n, Layout.ToneWidth(|scale|, width)) == key.x
      && scale[r.pitch.n % |scale|] == key.toneType != Natural
  {
    Layout.DrawnAccidental(scale, width, k);
    var w := Layout.ToneWidth(|scale|, width);
    var s := Layout.Slots(scale, Layout.SlotCount(width, w), false);
    var key := Layout.AccidentalRect(scale, w, s[k]);
    assert InColumn(s[k], w, x) by {
      assert key.x == Layout.ColumnStart(s[k], w);
    }
    ColumnPlaysItsNote(scale, width, s[k], x, y);
  }
}
