/**
 * The mouse handlers (app.js:76-98): `mousePressed`, `mouseDragged` and
 * `mouseReleased` update the global `currentFreq` and call the synthesizer.
 * The synthesizer is modelled as the log of calls made to it.
 */
module Mouse {
  import opened Scales
  import opened Pointer

  /**
   * One call made to the synthesizer. `triggerRelease` is passed whatever
   * `currentFreq` held, which need not be a frequency.
   */
  datatype SynthCall = Attack(pitch: Pitch) | Release(value: FreqValue) | ReleaseAll

  /** A handler invocation, with the value `frequencyAt` gives at the pointer for a press or a drag. */
  datatype Event = Pressed(freq: FreqValue) | Dragged(freq: FreqValue) | Released

  /** The new value of `currentFreq` and the synthesizer calls one handler makes, in order. */
  datatype Response = Response(currentFreq: FreqValue, calls: seq<SynthCall>)

  /** What each handler does, given the value `currentFreq` held before it ran. */
  function Respond(currentFreq: FreqValue, e: Event): (r: Response)
    ensures |r.calls| <= 2
    ensures e.Released? ==> r.currentFreq == Zero
    ensures !e.Released? ==> r.currentFreq == e.freq
    ensures forall k :: 0 <= k < |r.calls| && r.calls[k].Attack? ==>
      k == |r.calls| - 1 && Truthy(r.currentFreq) && r.calls[k].pitch == r.currentFreq.pitch
    ensures forall k :: 0 <= k < |r.calls| && r.calls[k].Release? ==> r.calls[k].value == currentFreq
  {
    match e
    case Pressed(freq) =>
      Response(freq, if Truthy(freq) then [Attack(freq.pitch)] else [])
    case Released =>
      Response(Zero, if Truthy(currentFreq) then [Release(currentFreq)] else [])
    case Dragged(freq) =>
      if !Truthy(freq) then Response(freq, [ReleaseAll])
      else if currentFreq != freq then Response(freq, [Release(currentFreq), Attack(freq.pitch)])
      else Response(freq, [])
  }

  /** The value `currentFreq` holds after a handler runs, whatever it held before. */
  function LastHeld(e: Event): FreqValue
  {
    if e.Released? then Zero else e.freq
  }

  /** The handlers run one after another from `currentFreq`: the final value and every call, in order. */
  function Run(currentFreq: FreqValue, events: seq<Event>): (r: Response)
    ensures |r.calls| <= 2 * |events|
    ensures events == [] ==> r == Response(currentFreq, [])
    ensures events != [] ==> r.currentFreq == LastHeld(events[|events| - 1])
    decreases |events|
  {
    if events == [] then Response(currentFreq, [])
    else
      var first := Respond(currentFreq, events[0]);
      var rest := Run(first.currentFreq, events[1..]);
      Response(rest.currentFreq, first.calls + rest.calls)
  }

  /**
   * The notes sounding after the synthesizer performs one call: an attack
   * adds a voice, a release silences every voice of that frequency (a
   * release of 0 or null silences nothing), and `releaseAll` silences
   * everything.
   */
  function Perform(voices: multiset<Pitch>, call: SynthCall): (r: multiset<Pitch>)
    ensures forall p :: p in r && p !in voices ==> call == Attack(p)
    ensures call.Release? && call.value.Hz? ==> call.value.pitch !in r
    ensures call.ReleaseAll? ==> r == multiset{}
  {
    match call
    case Attack(p) => voices + multiset{p}
    case Release(v) => if v.Hz? then voices[v.pitch := 0] else voices
    case ReleaseAll => multiset{}
  }

  /** The notes sounding after the synthesizer performs `calls` in order, starting from `voices`. */
  function Play(voices: multiset<Pitch>, calls: seq<SynthCall>): (r: multiset<Pitch>)
    ensures forall p :: p in r && p !in voices ==> Attack(p) in calls
    decreases |calls|
  {
    if calls == [] then voices else Play(Perform(voices, calls[0]), calls[1..])
  }

  /** Performing two runs of calls is performing them one after the other. */
  lemma {:induction false} PlayAppend(voices: multiset<Pitch>, a: seq<SynthCall>, b: seq<SynthCall>)
    ensures Play(voices, a + b) == Play(Play(voices, a), b)
    decreases |a|
  {
    if a != [] {
      assert (a + b)[0] == a[0];
      assert (a + b)[1..] == a[1..] + b;
      PlayAppend(Perform(voices, a[0]), a[1..], b);
    } else {
      assert a + b == b;
    }
  }

  /** Exactly the note `currentFreq` holds is sounding, once; nothing sounds when it holds 0 or null. */
  predicate Sounding(voices: multiset<Pitch>, currentFreq: FreqValue)
  {
    voices == if Truthy(currentFreq) then multiset{currentFreq.pitch} else multiset{}
  }

  /** A press from the idle state sounds exactly the note pressed, if any. */
  lemma PressKeepsOneVoice(freq: FreqValue)
    ensures var r := Respond(Zero, Pressed(freq));
      Sounding(Play(multiset{}, r.calls), r.currentFreq)
  {
    if Truthy(freq) {
      assert Play(multiset{}, [Attack(freq.pitch)]) == Play(multiset{freq.pitch}, []);
    }
  }

  /** A drag onto a new note releases the held one and then sounds only the new one. */
  lemma DragToNewKeepsOneVoice(voices: multiset<Pitch>, currentFreq: FreqValue, freq: FreqValue)
    requires Sounding(voices, currentFreq)
    requires Truthy(freq) && currentFreq != freq
    ensures Sounding(Play(voices, [Release(currentFreq), Attack(freq.pitch)]), freq)
  {
    PlayAppend(voices, [Release(currentFreq)], [Attack(freq.pitch)]);
    assert Play(voices, [Release(currentFreq)]) == multiset{};
    assert Play(multiset{}, [Attack(freq.pitch)]) == Play(multiset{freq.pitch}, []);
  }

  /**
   * Each handler keeps the one-voice invariant, as long as a press does not
   * come while a note is still held: a drag releases the old note before it
   * attacks the new one, and a release leaves nothing sounding.
   */
  lemma RespondKeepsOneVoice(voices: multiset<Pitch>, currentFreq: FreqValue, e: Event)
    requires Sounding(voices, currentFreq)
    requires e.Pressed? ==> !Truthy(currentFreq)
    ensures var r := Respond(currentFreq, e);
      Sounding(Play(voices, r.calls), r.currentFreq) && |Play(voices, r.calls)| <= 1
  {
    match e
    case Pressed(freq) =>
      assert Respond(currentFreq, e) == Respond(Zero, e);
      PressKeepsOneVoice(freq);
    case Released =>
    case Dragged(freq) =>
      if Truthy(freq) && currentFreq != freq {
        DragToNewKeepsOneVoice(voices, currentFreq, freq);
      }
  }

  /**
   * Handler calls as the browser delivers them: a press only while the
   * button is up, drags only while it is down, and a release at any time.
   */
  predicate Delivered(events: seq<Event>, down: bool)
    ensures Delivered(events, down) && events != [] && events[0].Pressed? ==> !down
    ensures Delivered(events, down) ==>
      forall k :: 0 < k < |events| && events[k].Pressed? ==> events[k - 1].Released?
    decreases |events|
  {
    events == [] ||
    match events[0]
    case Pressed(_) => !down && Delivered(events[1..], true)
    case Dragged(_) => down && Delivered(events[1..], true)
    case Released => Delivered(events[1..], false)
  }

  /**
   * Over any delivered sequence of handler calls, starting with the button
   * up and nothing held, at most one note sounds at the end, and it is the
   * note `currentFreq` holds: no two voices ever overlap.
   */
  lemma {:induction false} DeliveredKeepsOneVoice(
    voices: multiset<Pitch>, currentFreq: FreqValue, events: seq<Event>, down: bool)
    requires Delivered(events, down)
    requires Sounding(voices, currentFreq)
    requires !down ==> !Truthy(currentFreq)
    ensures var r := Run(currentFreq, events);
      Sounding(Play(voices, r.calls), r.currentFreq) && |Play(voices, r.calls)| <= 1
    decreases |events|
  {
    if events != [] {
      var e := events[0];
      var first := Respond(currentFreq, e);
      RespondKeepsOneVoice(voices, currentFreq, e);
      var next := Play(voices, first.calls);
      var nowDown := !e.Released?;
      DeliveredKeepsOneVoice(next, first.currentFreq, events[1..], nowDown);
      var rest := Run(first.currentFreq, events[1..]);
      PlayAppend(voices, first.calls, rest.calls);
    }
  }

  /**
   * A second press while a note is held (another mouse button, or a second
   * finger on a touch screen) attacks the new note without releasing the
   * old one, so two voices sound; the release that follows frees only the
   * new note, and the old one keeps sounding with nothing held.
   */
  lemma PressWhileHeldStacksVoices(a: Pitch, b: Pitch)
    requires a != b
    ensures Play(multiset{a}, Respond(Hz(a), Pressed(Hz(b))).calls) == multiset{a, b}
    ensures var r := Run(Hz(a), [Pressed(Hz(b)), Released]);
      r.currentFreq == Zero && Play(multiset{a}, r.calls) == multiset{a}
  {
    var r := Run(Hz(a), [Pressed(Hz(b)), Released]);
    assert [Pressed(Hz(b)), Released][1..] == [Released];
    assert Run(Hz(b), [Released]) == Response(Zero, [Release(Hz(b))]);
    assert r.calls == [Attack(b), Release(Hz(b))];
    assert r.calls[1..] == [Release(Hz(b))];
    assert Perform(multiset{a}, Attack(b)) == multiset{a, b};
    assert Play(multiset{a}, r.calls) == Play(multiset{a, b}, [Release(Hz(b))]);
    assert multiset{a, b}[b := 0] == multiset{a};
  }

  /**
   * `mousePressed` as evidently intended: release the held frequency, if
   * any, before attacking the one under the pointer; the other handlers
   * are unchanged.
   */
  function RespondReleasingHeld(currentFreq: FreqValue, e: Event): (r: Response)
    ensures r.currentFreq == Respond(currentFreq, e).currentFreq
    ensures !e.Pressed? ==> r == Respond(currentFreq, e)
    ensures e.Pressed? && Truthy(currentFreq) ==>
      r.calls == [Release(currentFreq)] + Respond(currentFreq, e).calls
  {
    match e
    case Pressed(freq) =>
      Response(freq, (if Truthy(currentFreq) then [Release(currentFreq)] else [])
                     + (if Truthy(freq) then [Attack(freq.pitch)] else []))
    case _ => Respond(currentFreq, e)
  }

  /** With the press releasing first, every handler keeps one voice, whatever the order of events. */
  lemma ReleasingHeldKeepsOneVoice(voices: multiset<Pitch>, currentFreq: FreqValue, e: Event)
    requires Sounding(voices, currentFreq)
    ensures var r := RespondReleasingHeld(currentFreq, e);
      Sounding(Play(voices, r.calls), r.currentFreq) && |Play(voices, r.calls)| <= 1
  {
    if e.Pressed? && Truthy(currentFreq) {
      RespondKeepsOneVoice(multiset{}, Zero, e);
      var r := RespondReleasingHeld(currentFreq, e);
      PlayAppend(voices, [Release(currentFreq)], Respond(currentFreq, e).calls);
      assert Play(voices, [Release(currentFreq)]) == multiset{};
      assert Respond(currentFreq, e) == Respond(Zero, e);
    } else {
      RespondKeepsOneVoice(voices, currentFreq, e);
    }
  }

  /**
   * On a 12-tone keyboard: press in the middle of column 0, drag to the
   * middle of column 1, let go. The synthesizer attacks note 0, releases it,
   * attacks note 1 and releases it, and nothing is held afterwards.
   */
  lemma PressDragRelease(width: real)
    requires width > 0.0
    ensures var w := Layout.ToneWidth(|Scale12|, width);
      var events := [
        Pressed(FrequencyAt(Scale12, width, 0.5 * w, 100.0)),
        Dragged(FrequencyAt(Scale12, width, 1.5 * w, 100.0)),
        Released];
      Run(Zero, events) == Response(Zero, [
        Attack(Freq(0, 12)), Release(Hz(Freq(0, 12))), Attack(Freq(1, 12)), Release(Hz(Freq(1, 12)))])
  {
    var w := Layout.ToneWidth(|Scale12|, width);
    ColumnPlaysItsNote(Scale12, width, 0, 0.5 * w, 100.0);
    ColumnPlaysItsNote(Scale12, width, 1, 1.5 * w, 100.0);
    var a := Hz(Freq(0, 12));
    var b := Hz(Freq(1, 12));
    assert [Pressed(a), Dragged(b), Released][1..] == [Dragged(b), Released];
    assert [Dragged(b), Released][1..] == [Released];
    assert Run(b, [Released]) == Response(Zero, [Release(b)]);
    assert Run(a, [Dragged(b), Released]) == Response(Zero, [Release(a), Attack(b.pitch), Release(b)]);
  }

  /**
   * The page's handler state: the frequency held by the pointer, and the
   * calls made so far to the synthesizer.
   */
  class Session {
    const scale: seq<int>
    const width: real
    var currentFreq: FreqValue
    var synth: seq<SynthCall>

    /** The canvas has width and the scale has notes; nothing else is required of the state. */
    predicate Valid()
    {
      |scale| > 0 && width > 0.0
    }

    /** The one-voice invariant, over everything the synthesizer has been told. */
    ghost predicate OneVoice()
      reads this
    {
      Sounding(Play(multiset{}, synth), currentFreq)
    }

    /** `let currentFreq = 0`, with no call made to the synthesizer yet. */
    constructor (scale: seq<int>, width: real)
      requires |scale| > 0 && width > 0.0
      ensures Valid() && this.scale == scale && this.width == width
      ensures currentFreq == Zero && synth == [] && OneVoice()
    {
      this.scale := scale;
      this.width := width;
      currentFreq := Zero;
      synth := [];
    }

    /** `mousePressed`: attack the frequency under the pointer, if any, and hold it. */
    method MousePressed(mouseX: real, mouseY: real)
      requires Valid()
      modifies this
      ensures var r := Respond(old(currentFreq), Pressed(FrequencyAt(scale, width, mouseX, mouseY)));
        currentFreq == r.currentFreq && synth == old(synth) + r.calls
      ensures old(OneVoice()) && !Truthy(old(currentFreq)) ==> OneVoice()
    {
      var freq := FrequencyAt(scale, width, mouseX, mouseY);
      if Truthy(freq) {
        synth := synth + [Attack(freq.pitch)];
      }
      currentFreq := freq;
      if old(OneVoice()) && !Truthy(old(currentFreq)) {
        KeepsOneVoice(old(currentFreq), old(synth), Pressed(freq));
      }
    }

    /** `mouseReleased`: release the held frequency, if any, and hold 0. */
    method MouseReleased()
      requires Valid()
      modifies this
      ensures var r := Respond(old(currentFreq), Released);
        currentFreq == r.currentFreq && synth == old(synth) + r.calls
      ensures old(OneVoice()) ==> OneVoice() && Play(multiset{}, synth) == multiset{}
    {
      var freq := currentFreq;
      if Truthy(freq) {
        synth := synth + [Release(freq)];
      }
      currentFreq := Zero;
      if old(OneVoice()) {
        KeepsOneVoice(old(currentFreq), old(synth), Released);
      }
    }

    /**
     * `mouseDragged`: off the canvas, release everything; onto a new
     * frequency, release the held one and then attack the new one; then
     * hold whatever the pointer is over.
     */
    method MouseDragged(mouseX: real, mouseY: real)
      requires Valid()
      modifies this
      ensures var r := Respond(old(currentFreq), Dragged(FrequencyAt(scale, width, mouseX, mouseY)));
        currentFreq == r.currentFreq && synth == old(synth) + r.calls
      ensures old(OneVoice()) ==> OneVoice()
    {
      var freq := FrequencyAt(scale, width, mouseX, mouseY);
      if !Truthy(freq) {
        synth := synth + [ReleaseAll];
      } else if currentFreq != freq {
        synth := synth + [Release(currentFreq)];
        synth := synth + [Attack(freq.pitch)];
      }
      currentFreq := freq;
      if old(OneVoice()) {
        KeepsOneVoice(old(currentFreq), old(synth), Dragged(freq));
      }
    }
  }

  /** A handler's calls, appended to the log, keep the one-voice invariant of the whole log. */
  lemma KeepsOneVoice(currentFreq: FreqValue, log: seq<SynthCall>, e: Event)
    requires Sounding(Play(multiset{}, log), currentFreq)
    requires e.Pressed? ==> !Truthy(currentFreq)
    ensures var r := Respond(currentFreq, e);
      Sounding(Play(multiset{}, log + r.calls), r.currentFreq)
  {
    var r := Respond(currentFreq, e);
    RespondKeepsOneVoice(Play(multiset{}, log), currentFreq, e);
    PlayAppend(multiset{}, log, r.calls);
  }
}
