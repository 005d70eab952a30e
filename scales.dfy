/**
 * The tuning table and the drawing constants shared by the keyboard layout
 * and the pointer mapping (app.js:5-14).
 */
module Scales {
  import opened Wrappers

  /** The widest a key column is ever drawn, in pixels. */
  const ToneMaxWidth: real := 50.0

  /** Canvas height: white keys are drawn this tall, and pointer rows from here down play nothing. */
  const KeyHeight: real := 300.0

  /** Accidental keys are drawn this tall, over the white keys. */
  const AccidentalHeight: real := 200.0

  /** The tone type of a natural (white) key; any other tone type is an accidental. */
  const Natural: int := 0

  /** The fill colour of each tone type. */
  const Colors: seq<string> := ["white", "black", "lightgreen", "brown"]

  const Scale12: seq<int> := [0, 1, 0, 1, 0, 0, 1, 0, 1, 0, 1, 0]
  const Scale19: seq<int> := [0, 1, 2, 0, 1, 2, 0, 3, 0, 1, 2, 0, 1, 2, 0, 1, 2, 0, 3]
  const Scale24: seq<int> := [0, 2, 1, 3, 0, 2, 1, 3, 0, 2, 0, 2, 1, 3, 0, 2, 1, 3, 0, 2, 1, 3, 0, 2]

  /** The scale the keyboard is drawn and played in. */
  const CurrentScale: int := 12

  /** Looks a scale up in the table by its number of tones per octave. */
  function ScaleFor(toneCount: int): (r: Option<seq<int>>)
    ensures r.Some? <==> toneCount == 12 || toneCount == 19 || toneCount == 24
    ensures r.Some? ==> |r.value| == toneCount && r.value[0] == Natural
    ensures r.Some? ==> forall i :: 0 <= i < |r.value| ==> 0 <= r.value[i] < |Colors|
  {
    if toneCount == 12 then Some(Scale12)
    else if toneCount == 19 then Some(Scale19)
    else if toneCount == 24 then Some(Scale24)
    else None
  }
}
