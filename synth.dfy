/// The application shell around the engine: the table of note frequencies, the
/// octave selector, the waveform selector, starting the engine, and turning a
/// key or button press into a tone.
module Synth {
  import opened WebAudio
  import opened Engine
  import opened Keyboard

  datatype Option<T> = None | Some(value: T)

  /** Concert pitch: the note a of the fourth octave. */
  const A4: real := 440.0

  /** The scale holds the octaves whose a lies 2^i above A4, for i from -4 to 5. */
  const ScaleSize: nat := 10

  /** The starting octave when the application opens, and its bounds. */
  const InitialStartingOctave: int := 3
  const LowestStartingOctave: int := 0
  const HighestStartingOctave: int := 7

  /** The number of octaves the keyboard renders. */
  const KeyboardOctaves: int := 2

  /** 2^i, exactly, for any integer i. */
  function Pow2(i: int): (r: real)
    ensures r > 0.0
    decreases if i < 0 then -i else i
  {
    if i == 0 then 1.0
    else if i > 0 then 2.0 * Pow2(i - 1)
    else Pow2(i + 1) / 2.0
  }

  /** The frequency of a in octave table n. */
  function OctaveBase(n: int): (a: real)
    ensures a > 0.0
    ensures n == 4 ==> a == A4
  {
    A4 * Pow2(n - 4)
  }

  /** Each octave's a is exactly twice the one below. */
  lemma OctaveBasesDouble(n: int)
    ensures OctaveBase(n + 1) == 2.0 * OctaveBase(n)
  {
    if n - 4 < 0 {
      assert Pow2(n - 4) == Pow2(n - 3) / 2.0;
    }
  }

  /** Table 4 is concert pitch and table 3 an octave below it; the lowest table's a is
      27.5 Hz and the highest one's 14080 Hz. */
  lemma OctaveBaseValues()
    ensures OctaveBase(4) == 440.0 && OctaveBase(3) == 220.0
    ensures OctaveBase(0) == 27.5 && OctaveBase(9) == 14080.0
  {
    assert Pow2(-4) == 1.0 / 16.0 by {
      assert Pow2(-1) == 0.5;
      assert Pow2(-2) == 0.25;
      assert Pow2(-3) == 0.125;
    }
    assert Pow2(5) == 32.0 by {
      assert Pow2(2) == 4.0;
      assert Pow2(3) == 8.0;
      assert Pow2(4) == 16.0;
    }
  }

  /** The frequency k semitones away from a; `semitone` stands for the host's 2^(k/12). */
  function Transposed(a: real, semitone: int -> real, k: int): real {
    a * semitone(k)
  }

  /** One octave's table: each note name to its frequency, a being the given base and
      note i of the twelve lying i - 9 semitones away from it. */
  function GenerateOctave(a: real, semitone: int -> real): (octave: map<string, real>)
    ensures forall note :: note in octave <==> note in NoteNames
    ensures octave["a"] == a
  {
    map[
      "b" := Transposed(a, semitone, 2),
      "aSharp" := Transposed(a, semitone, 1),
      "a" := a,
      "gSharp" := Transposed(a, semitone, -1),
      "g" := Transposed(a, semitone, -2),
      "fSharp" := Transposed(a, semitone, -3),
      "f" := Transposed(a, semitone, -4),
      "e" := Transposed(a, semitone, -5),
      "dSharp" := Transposed(a, semitone, -6),
      "d" := Transposed(a, semitone, -7),
      "cSharp" := Transposed(a, semitone, -8),
      "c" := Transposed(a, semitone, -9)
    ]
  }

  // One lemma per entry of an octave table: each looks up a single key of the map
  // display, which keeps every proof small.

  lemma OctaveEntryC(a: real, semitone: int -> real)
    ensures GenerateOctave(a, semitone)["c"] == Transposed(a, semitone, -9)
  {
  }

  lemma OctaveEntryCSharp(a: real, semitone: int -> real)
    ensures GenerateOctave(a, semitone)["cSharp"] == Transposed(a, semitone, -8)
  {
  }

  lemma OctaveEntryD(a: real, semitone: int -> real)
    ensures GenerateOctave(a, semitone)["d"] == Transposed(a, semitone, -7)
  {
  }

  lemma OctaveEntryDSharp(a: real, semitone: int -> real)
    ensures GenerateOctave(a, semitone)["dSharp"] == Transposed(a, semitone, -6)
  {
  }

  lemma OctaveEntryE(a: real, semitone: int -> real)
    ensures GenerateOctave(a, semitone)["e"] == Transposed(a, semitone, -5)
  {
  }

  lemma OctaveEntryF(a: real, semitone: int -> real)
    ensures GenerateOctave(a, semitone)["f"] == Transposed(a, semitone, -4)
  {
  }

  lemma OctaveEntryFSharp(a: real, semitone: int -> real)
    ensures GenerateOctave(a, semitone)["fSharp"] == Transposed(a, semitone, -3)
  {
  }

  lemma OctaveEntryG(a: real, semitone: int -> real)
    ensures GenerateOctave(a, semitone)["g"] == Transposed(a, semitone, -2)
  {
  }

  lemma OctaveEntryGSharp(a: real, semitone: int -> real)
    ensures GenerateOctave(a, semitone)["gSharp"] == Transposed(a, semitone, -1)
  {
  }

  lemma OctaveEntryASharp(a: real, semitone: int -> real)
    ensures GenerateOctave(a, semitone)["aSharp"] == Transposed(a, semitone, 1)
  {
  }

  lemma OctaveEntryB(a: real, semitone: int -> real)
    ensures GenerateOctave(a, semitone)["b"] == Transposed(a, semitone, 2)
  {
  }

  /** A table holding every note name, with each entry other than a at its semitone
      distance from a, has note i of the twelve at i - 9 semitones from a. */
  lemma EntriesBySemitone(octave: map<string, real>, a: real, semitone: int -> real)
    requires forall note :: note in NoteNames ==> note in octave
    requires octave["c"] == Transposed(a, semitone, -9)
    requires octave["cSharp"] == Transposed(a, semitone, -8)
    requires octave["d"] == Transposed(a, semitone, -7)
    requires octave["dSharp"] == Transposed(a, semitone, -6)
    requires octave["e"] == Transposed(a, semitone, -5)
    requires octave["f"] == Transposed(a, semitone, -4)
    requires octave["fSharp"] == Transposed(a, semitone, -3)
    requires octave["g"] == Transposed(a, semitone, -2)
    requires octave["gSharp"] == Transposed(a, semitone, -1)
    requires octave["aSharp"] == Transposed(a, semitone, 1)
    requires octave["b"] == Transposed(a, semitone, 2)
    ensures forall i :: 0 <= i < |NoteNames| && i != 9 ==> octave[NoteNames[i]] == Transposed(a, semitone, i - 9)
  {
    forall i | 0 <= i < |NoteNames| && i != 9
      ensures octave[NoteNames[i]] == Transposed(a, semitone, i - 9)
    {
      assert NoteNames == ["c", "cSharp", "d", "dSharp", "e", "f", "fSharp", "g", "gSharp", "a", "aSharp", "b"];
    }
  }

  /** Note i of the twelve lies i - 9 semitones away from a. */
  lemma GenerateOctaveSemitones(a: real, semitone: int -> real)
    ensures forall i :: 0 <= i < |NoteNames| && i != 9 ==>
              GenerateOctave(a, semitone)[NoteNames[i]] == Transposed(a, semitone, i - 9)
  {
    OctaveEntryC(a, semitone);
    OctaveEntryCSharp(a, semitone);
    OctaveEntryD(a, semitone);
    OctaveEntryDSharp(a, semitone);
    OctaveEntryE(a, semitone);
    OctaveEntryF(a, semitone);
    OctaveEntryFSharp(a, semitone);
    OctaveEntryG(a, semitone);
    OctaveEntryGSharp(a, semitone);
    OctaveEntryASharp(a, semitone);
    OctaveEntryB(a, semitone);
    EntriesBySemitone(GenerateOctave(a, semitone), a, semitone);
  }

  /** The c of a table is nine semitones below its a. */
  lemma LowestNoteOfOctave(scale: seq<map<string, real>>, n: int, semitone: int -> real)
    requires 0 <= n < |scale| && scale[n] == GenerateOctave(OctaveBase(n), semitone)
    ensures Lookup(scale, n, "c") == Some(Transposed(OctaveBase(n), semitone, -9))
  {
    OctaveEntryC(OctaveBase(n), semitone);
  }

  /** Every octave table has an entry for each note name. */
  ghost predicate ScaleShaped(scale: seq<map<string, real>>) {
    && |scale| == ScaleSize
    && forall n, i :: 0 <= n < |scale| && 0 <= i < |NoteNames| ==> NoteNames[i] in scale[n]
  }

  /** Builds the ten octave tables, lowest first. */
  method InitializeScale(semitone: int -> real) returns (scale: seq<map<string, real>>)
    ensures |scale| == ScaleSize
    ensures forall n :: 0 <= n < |scale| ==> scale[n] == GenerateOctave(OctaveBase(n), semitone)
    ensures ScaleShaped(scale)
  {
    scale := [];
    var i := -4;
    while i < 6
      invariant -4 <= i <= 6 && |scale| == i + 4
      invariant forall n :: 0 <= n < |scale| ==> scale[n] == GenerateOctave(OctaveBase(n), semitone)
    {
      var a := A4 * Pow2(i);
      var octave := GenerateOctave(a, semitone);
      scale := scale + [octave];
      i := i + 1;
    }
  }

  /** `scale[octave][note]`, or None where the source would fail on a missing entry. */
  function Lookup(scale: seq<map<string, real>>, octave: int, note: string): (tone: Option<real>)
    ensures tone.Some? <==> 0 <= octave < |scale| && note in scale[octave]
  {
    if 0 <= octave < |scale| && note in scale[octave] then Some(scale[octave][note]) else None
  }

  /** With the starting octave in its bounds, every typed key finds its frequency. */
  lemma TypedKeysPlayable(scale: seq<map<string, real>>, startingOctave: int, key: string)
    requires ScaleShaped(scale) && LowestStartingOctave <= startingOctave <= HighestStartingOctave
    requires key in KeyMap
    ensures Lookup(scale, if key in UpperRowKeys then startingOctave + 1 else startingOctave, KeyMap[key]).Some?
  {
    KeyMapNotesAreButtons();
    var i :| 0 <= i < |NoteNames| && NoteNames[i] == KeyMap[key];
  }

  /** With the starting octave in its bounds, every rendered button finds its frequency. */
  lemma ButtonsPlayable(scale: seq<map<string, real>>, startingOctave: int, i: int, j: int)
    requires ScaleShaped(scale) && LowestStartingOctave <= startingOctave <= HighestStartingOctave
    requires 0 <= i < KeyboardOctaves && 0 <= j < |NoteNames|
    ensures var button := RenderKeyboardOctave(i + startingOctave)[j];
            Lookup(scale, button.octave, button.note).Some?
  {
  }

  /** A typed key plays a note the keyboard shows for the given starting octave. */
  lemma TypedKeyIsShown(startingOctave: int, key: string)
    requires key in KeyMap
    ensures exists o, j :: startingOctave <= o < startingOctave + KeyboardOctaves && 0 <= j < |NoteNames|
              && RenderKeyboardOctave(o)[j].octave == (if key in UpperRowKeys then startingOctave + 1 else startingOctave)
              && RenderKeyboardOctave(o)[j].note == KeyMap[key]
  {
    KeyMapNotesAreButtons();
    var j :| 0 <= j < |NoteNames| && NoteNames[j] == KeyMap[key];
    var o := if key in UpperRowKeys then startingOctave + 1 else startingOctave;
    assert RenderKeyboardOctave(o)[j].note == KeyMap[key];
  }

  /** The application: the scale, the selectors, and the engine once started. */
  class SynthApp {
    const math: HostMath
    const scale: seq<map<string, real>>
    var started: bool
    var waveForm: OscillatorType
    var startingOctave: int
    /** The starting octave the keydown listener saw when the keyboard was mounted. */
    var listenerOctave: int
    var engine: SynthEngine?

    ghost predicate Valid()
      reads this, engine, if engine == null then {} else engine.Repr()
    {
      && LowestStartingOctave <= startingOctave <= HighestStartingOctave
      && LowestStartingOctave <= listenerOctave <= HighestStartingOctave
      && ScaleShaped(scale)
      && (started <==> engine != null)
      && (engine != null ==> engine.Valid() && engine.settings.oscillator.waveForm == waveForm)
    }

    constructor (math: HostMath, semitone: int -> real)
      ensures Valid()
      ensures this.math == math && !started && engine == null
      ensures waveForm == Square && startingOctave == InitialStartingOctave
      ensures forall n :: 0 <= n < |scale| ==> scale[n] == GenerateOctave(OctaveBase(n), semitone)
    {
      this.math := math;
      var s := InitializeScale(semitone);
      scale := s;
      started := false;
      waveForm := Square;
      startingOctave := InitialStartingOctave;
      listenerOctave := InitialStartingOctave;
      engine := null;
    }

    /** Creates the engine and applies the selected waveform to it at once; the keyboard
        mounts with the current starting octave. */
    method Start(now: real)
      requires Valid() && !started
      modifies this
      ensures Valid()
      ensures started && fresh(engine) && fresh(engine.ToneFrame())
      ensures engine.settings == DefaultSettings.(oscillator := OscillatorSettings(waveForm))
      ensures engine.oscillator.oscillatorType == waveForm && engine.oscillator.started
      ensures waveForm == old(waveForm) && startingOctave == old(startingOctave)
      ensures listenerOctave == startingOctave
      ensures engine.edges == Wiring && engine.volume.gain.events == [Set(0.0, now)]
    {
      var e := new SynthEngine(now, math);
      e.SetWaveForm(waveForm);
      engine := e;
      started := true;
      listenerOctave := startingOctave;
    }

    /** A waveform button: selecting the current waveform does nothing, another one is
        stored and forwarded to the engine if there is one. */
    method ChangeWaveForm(w: OscillatorType)
      requires Valid()
      modifies this, if engine == null then {} else {engine, engine.oscillator}
      ensures Valid()
      ensures waveForm == w && engine == old(engine) && started == old(started)
      ensures startingOctave == old(startingOctave) && listenerOctave == old(listenerOctave)
      ensures engine != null ==> engine.oscillator.oscillatorType == w
      ensures engine != null ==> engine.settings == old(engine.settings).(oscillator := OscillatorSettings(w))
      ensures engine != null ==> engine.edges == old(engine.edges) && engine.oscillator.started == old(engine.oscillator.started)
    {
      if w != waveForm {
        waveForm := w;
        if engine != null {
          engine.SetWaveForm(w);
        }
      }
    }

    /** The octave-up button, disabled at the highest starting octave. */
    method OctaveUp()
      requires Valid()
      modifies this`startingOctave
      ensures Valid()
      ensures startingOctave == if old(startingOctave) == HighestStartingOctave then old(startingOctave)
                                else old(startingOctave) + 1
    {
      if startingOctave != HighestStartingOctave {
        startingOctave := startingOctave + 1;
      }
    }

    /** The octave-down button, disabled at the lowest starting octave. */
    method OctaveDown()
      requires Valid()
      modifies this`startingOctave
      ensures Valid()
      ensures startingOctave == if old(startingOctave) == LowestStartingOctave then old(startingOctave)
                                else old(startingOctave) - 1
    {
      if startingOctave != LowestStartingOctave {
        startingOctave := startingOctave - 1;
      }
    }

    /** Plays the note's frequency from the scale, if there is an engine and an entry. */
    method OnKeyPressed(octave: int, note: string, now: real) returns (tone: Option<real>)
      requires Valid()
      modifies if engine == null then {} else engine.ToneFrame()
      ensures Valid()
      ensures tone == if engine == null then None else Lookup(scale, octave, note)
      ensures tone.Some? ==> engine.oscillator.frequency.value == tone.value
      ensures tone.Some? ==>
                (engine.volume.gain.events
                   == EventsBefore(old(engine.volume.gain.events), now)
                      + AmpEnvelope(old(engine.volume.gain.value), now, engine.settings.master.level, engine.settings.amp))
      ensures tone.Some? ==>
                (engine.filter1.frequency.events
                   == EventsBefore(old(engine.filter1.frequency.events), now)
                      + FilterEnvelope(old(engine.filter1.frequency.value), now, engine.settings.filter))
      ensures tone.Some? ==> engine.filter1.frequency.value == old(engine.filter1.frequency.value)
      ensures tone.Some? ==> engine.volume.gain.value == old(engine.volume.gain.value)
      ensures tone.Some? ==> engine.filter1.q.value == engine.settings.filter.resonance
      ensures tone.Some? ==>
                engine.filter1.q.events == old(engine.filter1.q.events) && engine.filter2.q.events == old(engine.filter2.q.events)
      ensures tone.None? && engine != null ==> unchanged(engine.ToneFrame())
    {
      if engine == null {
        tone := None;
      } else {
        tone := Lookup(scale, octave, note);
        if tone.Some? {
          engine.PlayTone(tone.value, now);
        }
      }
    }

    /** A typed key, as the source handles it: the listener registered at mount plays
        from the starting octave it saw then. */
    method TypeKeyAsWritten(key: string, now: real) returns (press: KeyPress)
      requires Valid()
      modifies if engine == null then {} else engine.ToneFrame()
      ensures Valid()
      ensures press == Ignored <==> key !in KeyMap
      ensures key in KeyMap ==>
                press == Pressed(if key in UpperRowKeys then listenerOctave + 1 else listenerOctave, KeyMap[key])
      ensures key !in KeyMap && engine != null ==> unchanged(engine.ToneFrame())
      ensures key in KeyMap && engine != null ==>
                Lookup(scale, press.octave, press.note) == Some(engine.oscillator.frequency.value)
      ensures key in KeyMap && engine != null ==>
                (engine.volume.gain.events
                   == EventsBefore(old(engine.volume.gain.events), now)
                      + AmpEnvelope(old(engine.volume.gain.value), now, engine.settings.master.level, engine.settings.amp))
      ensures key in KeyMap && engine != null ==>
                (engine.filter1.frequency.events
                   == EventsBefore(old(engine.filter1.frequency.events), now)
                      + FilterEnvelope(old(engine.filter1.frequency.value), now, engine.settings.filter))
    {
      press := OnKeyDown(key, listenerOctave);
      if press.Pressed? {
        TypedKeysPlayable(scale, listenerOctave, key);
        var _ := OnKeyPressed(press.octave, press.note, now);
      }
    }

    /** A typed key, playing from the starting octave currently selected. */
    method TypeKey(key: string, now: real) returns (press: KeyPress)
      requires Valid()
      modifies if engine == null then {} else engine.ToneFrame()
      ensures Valid()
      ensures press == Ignored <==> key !in KeyMap
      ensures key in KeyMap ==>
                press == Pressed(if key in UpperRowKeys then startingOctave + 1 else startingOctave, KeyMap[key])
      ensures key in KeyMap && engine != null ==> Lookup(scale, press.octave, press.note).Some?
      ensures key !in KeyMap && engine != null ==> unchanged(engine.ToneFrame())
      ensures key in KeyMap && engine != null ==>
                Lookup(scale, press.octave, press.note) == Some(engine.oscillator.frequency.value)
      ensures key in KeyMap && engine != null ==>
                (engine.volume.gain.events
                   == EventsBefore(old(engine.volume.gain.events), now)
                      + AmpEnvelope(old(engine.volume.gain.value), now, engine.settings.master.level, engine.settings.amp))
      ensures key in KeyMap && engine != null ==>
                (engine.filter1.frequency.events
                   == EventsBefore(old(engine.filter1.frequency.events), now)
                      + FilterEnvelope(old(engine.filter1.frequency.value), now, engine.settings.filter))
    {
      press := OnKeyDown(key, startingOctave);
      if press.Pressed? {
        TypedKeysPlayable(scale, startingOctave, key);
        var _ := OnKeyPressed(press.octave, press.note, now);
      }
    }
  }

  /** The key "a" is mapped to c on the lower row. */
  lemma KeyAPlaysC()
    ensures "a" in KeyMap && KeyMap["a"] == "c" && "a" !in UpperRowKeys
  {
    assert LowerRowKeys[0] == "a";
    KeyMapLayout();
  }

  /** Opens the application, starts it and steps the octave up once. */
  method StartedOneOctaveUp(math: HostMath, semitone: int -> real, now: real) returns (app: SynthApp)
    ensures fresh(app) && app.Valid() && app.engine != null && fresh(app.engine.ToneFrame())
    ensures app.listenerOctave == InitialStartingOctave && app.startingOctave == InitialStartingOctave + 1
    ensures forall n :: 0 <= n < |app.scale| ==> app.scale[n] == GenerateOctave(OctaveBase(n), semitone)
  {
    app := new SynthApp(math, semitone);
    app.Start(now);
    app.OctaveUp();
  }

  /** Types the key "a" into a started application: it sounds the c of the octave the
      key listener holds. */
  method TypeKeyA(app: SynthApp, octave: int, semitone: int -> real, now: real) returns (typed: KeyPress, played: real)
    requires app.Valid() && app.engine != null && app.listenerOctave == octave
    requires 0 <= octave < |app.scale| && app.scale[octave] == GenerateOctave(OctaveBase(octave), semitone)
    modifies app.engine.ToneFrame()
    ensures typed == Pressed(octave, "c")
    ensures played == Transposed(OctaveBase(octave), semitone, -9)
  {
    LowestNoteOfOctave(app.scale, octave, semitone);
    KeyAPlaysC();
    typed := app.TypeKeyAsWritten("a", now);
    played := app.engine.oscillator.frequency.value;
  }

  /** After one step up from the opening octave, the keyboard shows octaves 4 and 5 but
      the key "a" still plays c in octave 3, at that note's frequency: a note no rendered
      button carries. */
  method StaleListenerOctave(math: HostMath, semitone: int -> real, now: real)
    returns (typed: KeyPress, played: real, shown: seq<seq<KeyButton>>)
    ensures typed == Pressed(3, "c")
    ensures played == Transposed(OctaveBase(3), semitone, -9)
    ensures shown == [RenderKeyboardOctave(4), RenderKeyboardOctave(5)]
    ensures forall i, j :: 0 <= i < |shown| && 0 <= j < |shown[i]| ==> shown[i][j].octave != typed.octave
  {
    var app := StartedOneOctaveUp(math, semitone, now);
    shown := RenderKeyboard(app.startingOctave, KeyboardOctaves);
    assert shown == [RenderKeyboardOctave(4), RenderKeyboardOctave(5)];
    typed, played := TypeKeyA(app, InitialStartingOctave, semitone, now);
  }
}
