# Alternative-temperament keyboard, in Dafny

`app.js` draws an on-screen piano keyboard for scales of 12, 19 or 24
tones per octave and plays notes with the mouse. This project models its
core:

- **The scale table and its constants.** These are `scales`, `colors`, `toneMaxWidth` and the 300/200-pixel key heights (module `Scales`, `scales.dfy`).
- **The layout part of `draw`.** This is the column width, the push loop that records white-key intervals, the in-place smoothing of shared boundaries, the clamp of the last end, and the accidental rectangles (module `Layout`, `layout.dfy`).
  - `LayoutOf` is the pure specification of one frame.
  - `DrawLayout` and the methods it calls do the same steps imperatively: `whiteNotes` is pushed to, then smoothed in place in an `array`. `DrawLayout` is proved equal to `LayoutOf`.
- **`frequencyAt`.** This maps a pointer position to null or to the pitch of the key column under it (module `Pointer`, `pointer.dfy`).
- **The mouse handlers and `currentFreq`.** These are `mousePressed`, `mouseReleased` and `mouseDragged` (module `Mouse`, `mouse.dfy`).
  - The handlers are a class `Session` whose methods update `currentFreq` and append to a log of synthesizer calls.
  - A replay function `Play` gives the notes sounding after a log, and the one-voice property is proved over it.
- **`Option`** (module `Wrappers`, `wrappers.dfy`).

Coordinates are Dafny `real`s.

Pitches are kept symbolic as `Freq(n, toneCount)`, a datatype constructor. Two pitches are therefore equal exactly when they have the same note index and scale length.

`currentFreq` is modelled as the JavaScript value it holds: `Zero` (its initial 0 and the value after a release), `Null` (off the keys) or `Hz(pitch)`. JavaScript truthiness is `Hz?`, since every frequency is a positive number.

Two behaviours of the code are worth knowing:

- **Loop count.** The drawing loops run while `i < width / toneWidth` over a real bound, so they visit the ceiling of that quotient. On a 600-pixel canvas with the 12-tone scale that is 13 columns and 8 white keys; column 12 repeats the scale's first natural. `Layout.Width600Keyboard` proves this.
  - Because the count is a ceiling, it is sensitive to rounding in the source's doubles. At widths 15 and 30, for example, `width / toneWidth` comes out a hair above 13. The 12-tone loops then visit a 14th column that starts at the right edge and draw an accidental there.
  - The model's exact reals give 13, so `Layout.VisitedColumnStartsInside` holds in the model only.
- **Empty keyboard.** When no white key is recorded, the clamp at app.js:58 writes through `whiteNotes[-1]` and the frame throws. `LayoutOf` returns `None` in exactly that case. `Layout.LayoutDrawnIffNatural` proves this happens exactly when the canvas has zero width or the scale has no natural.

## Model

| member | source | states |
|---|---|---|
| Scales.ScaleFor | app.js:8-14 | the table has exactly the 12-, 19- and 24-tone scales. Each has as many entries as its tone count and starts on a natural. Every tone type indexes `colors`. |
| Layout.ToneWidth | app.js:34 | the column width is between 0 and 50, and is 0 exactly when the canvas width is 0 |
| Layout.ToneWidthFits | app.js:34 | N+1 columns fit in the canvas, and the column width is either the cap of 50 or exactly width/(N+1) |
| Layout.TotalDrawn | app.js:35 | the real loop bound `width / toneWidth` is never negative. Times the column width it gives back `width`. At width 0 it is 0, so the loops stop at once. |
| Layout.Ceil | app.js:41 | the result is the least integer not below the real bound |
| Layout.SlotCount | app.js:41 | the number of columns a `for (i = 0; i < totalDrawn; i++)` loop visits lies within one of the real bound, from above |
| Layout.VisitsWholeScale | app.js:34-41 | on a canvas of positive width the loops visit at least N+1 columns, so every scale position is visited |
| Layout.VisitedColumnStartsInside | app.js:41-44 | every visited column starts left of the canvas's right edge |
| Layout.Slots | app.js:41-43 | the columns below `count` of one kind, left to right: at most `count` of them. A column's kind is `IsNaturalSlot`, whether the tone type at scale position i mod N is natural. |
| Layout.SlotsExact | app.js:41-43 | the natural (or accidental) columns are listed in increasing order, each below the loop count and of the right kind, and none is missing |
| Layout.SlotsPartition | app.js:41-72 | every visited column is either natural or accidental |
| Layout.Provisional | app.js:41-46 | the push loop over `count` columns records at most `count` white keys |
| Layout.ProvisionalExact | app.js:41-46 | before smoothing, entry k of `whiteNotes` is `[i*w, (i+1)*w]` for the k-th natural column i |
| Layout.AccidentalRect | app.js:68-71 | the rectangle of column i is one column wide and 200 high, shorter than the 300-pixel white keys. Its tone type is not natural exactly when column i is an accidental column. |
| Layout.Accidentals | app.js:67-72 | the accidental loop over `count` columns emits at most `count` rectangles, each one column wide, 200 high and of an accidental tone type |
| Layout.AccidentalsExact | app.js:67-72 | there is one accidental rectangle per accidental column, in column order |
| Layout.Smoothed | app.js:49-57 | smoothing keeps the length, the first start and the last end. Each boundary becomes the midpoint of the old end and the next old start, shared by both neighbours. |
| Layout.SmoothedWithinGaps | app.js:53-56 | each smoothed boundary lies between the old end and the next old start, so every key only grows and the keys stay ordered |
| Layout.Clamp | app.js:58 | the last key's end becomes `width`; its start and every other key stay as they were |
| Layout.LayoutOf | app.js:32-73 | the keys of one frame; when it draws, there is at least one white key |
| Layout.KeyPerColumn | app.js:41-72 | a drawn frame has one key per visited column: the white keys and the accidentals together number the columns the loops visit |
| Layout.DrawnIffNaturalColumn | app.js:41-58 | a frame draws its keys exactly when some visited column is natural |
| Layout.LayoutDrawnIffNatural | app.js:33-58 | a frame draws its keys exactly when the width is positive and the scale contains a natural |
| Layout.Telescope | app.js:62-64 | the painted widths of contiguous keys add up to the last end minus the first start |
| Layout.ColumnIntervalsOrdered | app.js:44 | intervals of increasing columns have positive widths and do not overlap |
| Layout.ProvisionalOrdered | app.js:41-46 | the provisional white-key intervals have positive widths and do not overlap |
| Layout.ClampedSmoothedTiles | app.js:49-58 | smoothing then clamping ordered keys yields keys that share boundaries, have positive widths, end at `width` and keep the first start. Their widths sum to `width` minus the first start. |
| Layout.DrawnHasNaturals | app.js:34-58 | a drawn frame has a positive column width and its white keys are the clamped, smoothed provisional intervals |
| Layout.ProvisionalEdges | app.js:41-46 | the provisional keys start at the first natural column's edge, and the last one starts inside the canvas |
| Layout.WhiteNotesTile | app.js:41-64 | the white keys of a drawn frame start at the first natural column, end exactly at `width`, share every boundary and have positive widths. Their widths sum to `width` minus the first start. |
| Layout.WhiteNotesCoverCanvas | app.js:9-64 | for a scale starting on a natural, as every table scale does, the white keys start at 0 and their widths sum to the canvas width |
| Layout.AccidentalsPerColumn | app.js:66-72 | the accidentals are exactly one rectangle per accidental column below the loop bound, at `i*w`, width `w`, height 200 and the column's tone type, in column order |
| Layout.DrawnAccidental | app.js:67-72 | accidental k of a drawn frame is the rectangle of the k-th accidental column |
| Layout.SmoothBoundaries | app.js:49-57 | the in-place smoothing loop leaves the array equal to `Smoothed` of its old contents |
| Layout.RecordWhiteNotes | app.js:38-46 | the push loop builds exactly the provisional intervals of the columns below the ceiling of the bound |
| Layout.EmitAccidentals | app.js:67-73 | the accidental loop emits exactly the accidental rectangles of the columns below the ceiling of the bound |
| Layout.DrawLayout | app.js:32-73 | the imperative layout (push loop, in-place smoothing, clamp, accidental loop) computes `LayoutOf`, and gives `None` where the clamp throws |
| Layout.Width600Columns | app.js:34-41 | at width 600 on the 12-tone scale the column width is 600/13 and the loops visit 13 columns |
| Layout.Width600Naturals | app.js:41-43 | the natural columns among those 13 are 0, 2, 4, 5, 7, 9, 11 and 12 |
| Layout.Width600Accidentals | app.js:67-69 | the accidental columns among those 13 are 1, 3, 6, 8 and 10 |
| Layout.Width600Keyboard | app.js:32-73 | at width 600 the frame draws 8 white keys from 0 to 600 and 5 accidentals, the first at x = 600/13 |
| Pointer.FloorIsColumn | app.js:108 | `floor(x / toneWidth)` is the column containing x |
| Pointer.ColumnUnique | app.js:108 | a point lies in one column only |
| Pointer.FrequencyAt | app.js:100-113 | the result is never 0. It is null exactly when y < 0 or y >= 300. Otherwise it is a pitch of this scale whose column contains x. |
| Pointer.ColumnPlaysItsNote | app.js:105-109 | every point of column i on the keys plays note i, so two points of one column play the same note |
| Pointer.AccidentalKeyPlaysItsColumn | app.js:67-109 | pressing inside a drawn accidental plays the note of the column under it: the column starting at the key's left edge, whose tone type is the key's |
| Mouse.Respond | app.js:77-98 | one handler's effect: a release holds 0 and the others hold the value under the pointer. At most two calls are made. An attack comes last and is of the note now held. A release is always of the value held before. |
| Mouse.Run | app.js:76-98 | handlers run in order make at most two calls each, and afterwards `currentFreq` holds what the last handler left |
| Mouse.Perform | app.js:1 | one synthesizer call: only an attack adds a voice, a release of a frequency silences it, and `releaseAll` silences everything |
| Mouse.Play | app.js:1 | after a log of calls, every voice that was not already sounding was attacked somewhere in the log |
| Mouse.Delivered | app.js:77-98 | the order in which one button on one pointer reaches the handlers: a press comes first from the up state or right after a release, never while the button is down |
| Mouse.PlayAppend | app.js:77-98 | performing two logs of synthesizer calls one after the other is performing their concatenation |
| Mouse.RespondKeepsOneVoice | app.js:77-98 | each handler keeps exactly the held note sounding, if any, unless a press comes while a note is held |
| Mouse.DeliveredKeepsOneVoice | app.js:76-98 | over any sequence of handler calls from one button on one pointer (`Delivered`), starting with nothing held, at most one note sounds at any time, and it is the one `currentFreq` holds |
| Mouse.PressDragRelease | app.js:77-109 | press on column 0, drag to column 1, release: attack 0, release 0, attack 1, release 1, then `currentFreq` is 0 |
| Mouse.PressWhileHeldStacksVoices | app.js:77-87 | a press while another note is held leaves both notes sounding. The release that follows silences only the new one, and the old one sounds on with `currentFreq` at 0. |
| Mouse.RespondReleasingHeld | app.js:77-81 | the press handler that releases the held note first: same held value as `mousePressed` and the same other handlers, with a release of the held note put before the press's own calls |
| Mouse.ReleasingHeldKeepsOneVoice | app.js:77-98 | with that press handler, every handler keeps exactly the held note sounding, in any order of events |
| Mouse.KeepsOneVoice | app.js:77-98 | appending one handler's calls to a log keeps the one-voice invariant of the whole log |
| Mouse.Session.constructor | app.js:76 | `currentFreq` starts at 0, with no call made to the synthesizer |
| Mouse.Session.MousePressed | app.js:77-81 | attacks the frequency under the pointer only if it is truthy, then holds it. Keeps one voice when nothing was held. |
| Mouse.Session.MouseReleased | app.js:83-87 | releases the held value only if it is truthy, then holds 0. Afterwards nothing sounds. |
| Mouse.Session.MouseDragged | app.js:89-98 | off the keys it calls only `releaseAll`. On a new frequency it releases the old one and then attacks the new one. On the same frequency it makes no call. It always holds the new value and keeps one voice. |

## Left out

- The Tone.js `PolySynth` (app.js:1) is not part of this model. Its calls are recorded in a log, and `Mouse.Play` gives them their assumed meaning: an attack adds a voice, a release silences that frequency, `releaseAll` silences all. Its 10-voice polyphony limit is not modelled.
- The p5 calls are input/output: `setup`, `windowResized`, `createCanvas`, `select`, `parent`, `resizeCanvas`, `background`, `strokeWeight`, `fill` and `rect` (app.js:16-30, 61-64, 70-71). The model returns the key intervals and rectangles instead of painting them.
  - A window resize is a new `width` for the next frame.
  - The colour of a rectangle is given by its tone type, which indexes `Colors`.
- The numeric value `440 / 2 * 2^((n + 3) / N)` (app.js:109) is kept symbolic as `Pointer.Freq(n, N)`. Two different notes of the same scale could only compare equal through floating-point rounding, and that is not modelled. Notes of different scales can be the same frequency (note 1 of 12 and note 5 of 24), but the model keeps them distinct. Only one scale is ever in use, so this never matters here.
- IEEE double rounding is not modelled: all layout and pointer arithmetic is exact over `real`.
- Layout.TotalDrawn: at width 0 the source divides 0 by 0 and gets NaN. The model uses 0.0, which stops the loops in the same place.
- Pointer.FrequencyAt: requires a canvas of positive width. At width 0 the source divides by a zero column width, and the resulting infinities and NaN are not modelled.
- The tuples of `whiteNotes` are mutable arrays in the source. The model holds them as `Interval` values in an array, so aliasing between tuples is not modelled; the source creates none.
- `currentScale` is the constant 12 (`Scales.CurrentScale`). Every operation is stated for an arbitrary scale, which covers each table entry.
- Mouse.Session.MousePressed: keeps one voice only when nothing is held. A second button or a second finger does press while a note is held, and then the source stacks a second voice (see Findings).
- Mouse.DeliveredKeepsOneVoice: assumes one button on one pointer (`Mouse.Delivered`). With several buttons or touches, presses come while a note is held and one voice is not kept (`Mouse.PressWhileHeldStacksVoices`).

## Findings

| source | as written | input that shows it | evidently intended | confidence | as-written member | corrected member |
|---|---|---|---|---|---|---|
| app.js:77-81 | `mousePressed` attacks the new frequency without releasing the one held | with note a held, a press on note b (second button or second finger), then a release: a and b both sound, and the release frees only b, so a is stuck | release the held frequency before attacking, so one voice sounds in any order of events | medium, not executed | Mouse.PressWhileHeldStacksVoices | Mouse.RespondReleasingHeld |

The `Session` class models the handlers as written. `Mouse.ReleasingHeldKeepsOneVoice` proves the one-voice property for the corrected press handler without any assumption on event order.
