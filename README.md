# web-audio-synth in Dafny

This project models the core of web-audio-synth, a monophonic synthesizer that runs in the browser. The model covers five parts:

- **Engine.** The synthesizer engine is a settings record and a fixed graph of audio nodes. An oscillator feeds two low-pass filter stages. These feed a convolution reverb, mixed as an equal-power dry/wet crossfade, and then an output gain, a compressor and the destination.
- **Envelopes.** Every note schedules time-stamped automation on the two filter cutoffs and on the output gain. Each envelope cancels what is pending, re-anchors at the current value, ramps to a peak over the attack, relaxes toward a rest value and pins the rest value at the end of the release.
- **Knob.** The rotary knob maps a drag rotation to a value between its bounds, and maps the value back to the rotation it is drawn at.
- **Keyboard.** The on-screen keyboard renders buttons for a range of octaves. It maps computer keys to notes, with the upper row playing one octave higher.
- **Application.** The application shell builds the table of note frequencies (ten octaves around concert pitch). It holds the octave and waveform selectors, starts the engine, and turns a key or button press into a tone.

The files are:

- `web_audio.dfy` (module `WebAudio`): the part of the host audio API the engine drives. An automatable parameter (`AudioParam`) is a class holding its intrinsic value and a timeline of scheduled events. The intrinsic value is the default or the last value written directly. Cancellation keeps the events strictly before the cancel time. The oscillator, biquad-filter and gain nodes are classes that hold their parameters.
- `engine.dfy` (module `Engine`): the settings, the equal-power crossfade, the filter-envelope peak, the envelope schedule, the wiring and the `SynthEngine` class.
  - The engine's invariant `Valid()` says three things. Its eight parameters are distinct objects. Both filters are low-pass, hold the same cutoff timeline and value, and have the same Q. The oscillator plays the stored waveform.
- `knob.dfy` (module `KnobMapping`): the rotation/value conversion and the `Knob` class.
- `keyboard.dfy` (module `Keyboard`): the key map, the keydown handler, the rendering of octaves and their button ids.
- `synth.dfy` (module `Synth`): the frequency tables and the `SynthApp` class (selectors, start, key handling). It also records the stale-octave finding below.

The current audio time (`audioContext.currentTime`) is a parameter `now` of the operations that read it. `Math.cos` and `Math.PI` are an uninterpreted record `HostMath`. The crossfade lemmas assume three facts about it (`CosineLaws`): cos 0 = 1, cos(π/2) = 0, and cos²x + cos²(π/2 − x) = 1. The ratio `Math.pow(2, k/12)` is an uninterpreted parameter `semitone`. `Math.pow(2, i)` for integer i is computed exactly (`Pow2`).

## Model

| member | source | states |
|---|---|---|
| WebAudio.EventsBefore | src/SynthEngine.ts:163-164 | cancelling at t keeps no more events than there were, and keeps an event exactly when it was scheduled and takes effect before t |
| WebAudio.EventsBeforeKeepsEarlier | src/SynthEngine.ts:194 | cancelling at t leaves a timeline whose events are all before t unchanged |
| WebAudio.EventsBeforeDropsLater | src/SynthEngine.ts:194 | cancelling at t empties a timeline with no event before t |
| WebAudio.EventsBeforeIsPrefix | src/SynthEngine.ts:163-164 | on a time-sorted timeline, cancellation keeps exactly a prefix, and every event after that prefix was at or after t |
| WebAudio.EventsBeforeKeepsOrder | src/SynthEngine.ts:194 | cancelling keeps a sorted timeline sorted |
| WebAudio.AudioParam.constructor | src/SynthEngine.ts:121 | a new parameter holds its default value and an empty timeline |
| WebAudio.AudioParam.SetValueAtTime | src/SynthEngine.ts:123 | appends a set event at the given time and leaves the intrinsic value alone |
| WebAudio.AudioParam.LinearRampToValueAtTime | src/SynthEngine.ts:196-199 | appends a linear-ramp event and leaves the intrinsic value alone |
| WebAudio.AudioParam.SetTargetAtTime | src/SynthEngine.ts:200-204 | appends a target event (target, start, time constant) and leaves the intrinsic value alone |
| WebAudio.AudioParam.CancelScheduledValues | src/SynthEngine.ts:194 | the new timeline is `EventsBefore` of the old one and the intrinsic value is unchanged |
| WebAudio.OscillatorNode.constructor | src/SynthEngine.ts:112 | a new oscillator is a stopped sine at 440 Hz with a fresh, empty frequency parameter |
| WebAudio.OscillatorNode.Start | src/SynthEngine.ts:53 | the oscillator is started and keeps its waveform |
| WebAudio.BiquadFilterNode.constructor | src/SynthEngine.ts:127-128 | a new filter is low-pass at 350 Hz with Q 1, each with a fresh, empty parameter |
| WebAudio.GainNode.constructor | src/SynthEngine.ts:121 | a new gain node has a fresh gain parameter at 1 with an empty timeline |
| Engine.EqualPowerCrossfade | src/SynthEngine.ts:63-65 | for every reverb level, dry gain² + wet gain² = 1 |
| Engine.DryGain | src/SynthEngine.ts:64 | the dry gain is full at reverb level 0 and silent at level 1 |
| Engine.WetGain | src/SynthEngine.ts:65 | the wet gain is silent at reverb level 0 and full at level 1 |
| Engine.FilterPeak | src/SynthEngine.ts:170 | envelope amount 0 peaks at the cutoff and amount 1 at the 15000 Hz ceiling |
| Engine.FilterPeakWithinHeadroom | src/SynthEngine.ts:170 | with the cutoff at most 15000 Hz and an envelope amount in [0, 1], the peak lies between the cutoff and 15000 Hz |
| Engine.FilterPeakOfDefaults | src/SynthEngine.ts:13-19 | the default settings give a peak of 4012.5 Hz |
| Engine.Envelope | src/SynthEngine.ts:194-205 | four events, first re-anchoring at now and last pinning the rest value at now + attack + release; with attack and release ≥ 0 they are time-sorted and all lie in [now, now + attack + release] |
| Engine.FilterEnvelope | src/SynthEngine.ts:165-188 | the ramp goes to a peak between the cutoff and 15000 Hz (for a cutoff at most 15000 Hz and an amount in [0, 1]), and the envelope ends back at the cutoff |
| Engine.AmpEnvelope | src/SynthEngine.ts:195-205 | the ramp goes to the master level over the attack, and the envelope ends in silence at now + attack + release |
| Engine.RetriggerKeepsOrder | src/SynthEngine.ts:160-206 | with attack and release ≥ 0, a trigger keeps a sorted timeline sorted; appending then agrees with the host's time-ordered insertion |
| Engine.RetriggerSettles | src/SynthEngine.ts:187-188 | after a trigger, the timeline ends by pinning the rest value at now + attack + release, with nothing later |
| Engine.RetriggerSupersedesPending | src/SynthEngine.ts:194-195 | after a trigger, every event at or after now is one of the four just scheduled, and the first of them re-anchors at the current value |
| Engine.WiringRises | src/SynthEngine.ts:43-51 | every connection leads from a node to one of higher rank |
| Engine.PathRises | src/SynthEngine.ts:43-51 | along any walk of the wiring, the rank strictly rises |
| Engine.WiringIsAcyclic | src/SynthEngine.ts:43-51 | no walk of the wiring returns to the node it started from |
| Engine.WiringCarriesBothPaths | src/SynthEngine.ts:43-51 | the oscillator reaches the destination both through the reverb's wet path and through the dry path |
| Engine.ScheduleEnvelope | src/SynthEngine.ts:194-205 | the five automation calls leave a timeline of the events before now followed by the four envelope events anchored at the old value; the intrinsic value is unchanged |
| Engine.SynthEngine.InitializeOscillatorNode | src/SynthEngine.ts:110-117 | a fresh, stopped oscillator with the given waveform at 440 Hz |
| Engine.SynthEngine.InitializeFilterNode | src/SynthEngine.ts:126-131 | two fresh low-pass filters with equal cutoff, timelines and Q |
| Engine.SynthEngine.InitializeGainNode | src/SynthEngine.ts:119-124 | a fresh output gain whose timeline holds one set-to-0 event at now |
| Engine.SynthEngine.InitializeReverb | src/SynthEngine.ts:133-136 | fresh wet and dry gains with empty timelines |
| Engine.SynthEngine.constructor | src/SynthEngine.ts:34-54 | the engine is valid, holds the default settings and the nine connections, its oscillator is started on a square wave at 440 Hz, the output is silenced at now, and the reverb gains follow the crossfade at level 0.25 |
| Engine.SynthEngine.SetLevel | src/SynthEngine.ts:56-58 | only the master level changes |
| Engine.SynthEngine.SetReverb | src/SynthEngine.ts:60-69 | stores the level and sets the dry and wet gains to the crossfade values without scheduling events; the invariant is kept |
| Engine.SynthEngine.SetAmpAttack | src/SynthEngine.ts:71-73 | stores the value plus 0.01 s, so a non-negative input gives an attack of at least 0.01 s; nothing else changes |
| Engine.SynthEngine.SetAmpRelease | src/SynthEngine.ts:75-77 | only the amplitude release changes |
| Engine.SynthEngine.SetFilterCutoff | src/SynthEngine.ts:79-81 | only the filter cutoff changes |
| Engine.SynthEngine.SetFilterResonance | src/SynthEngine.ts:83-85 | only the filter resonance changes |
| Engine.SynthEngine.SetFilterEnvelope | src/SynthEngine.ts:87-89 | only the filter envelope amount changes |
| Engine.SynthEngine.SetFilterAttack | src/SynthEngine.ts:91-93 | only the filter attack changes |
| Engine.SynthEngine.SetFilterRelease | src/SynthEngine.ts:95-97 | only the filter release changes |
| Engine.SynthEngine.SetWaveForm | src/SynthEngine.ts:99-102 | stores the waveform and applies it to the oscillator at once, which keeps the oscillator in line with the settings |
| Engine.SynthEngine.TriggerFilterEnvelope | src/SynthEngine.ts:160-189 | both filter cutoffs get the same new timeline: the events before now, then the filter envelope toward the peak; both Qs take the resonance; the filters stay in lock-step |
| Engine.SynthEngine.TriggerAmpEnvelope | src/SynthEngine.ts:191-206 | the output gain's timeline becomes the events before now, then the envelope to the master level and back to 0 |
| Engine.SynthEngine.PlayTone | src/SynthEngine.ts:208-213 | sets the pitch and fires both envelopes at the same now; the settings, the wiring, the waveform and the reverb gains are unchanged |
| KnobMapping.Range | src/stories/Knob.tsx:30 | the range is non-negative, is one of the two differences of the bounds, and is 0 exactly when the bounds are equal |
| KnobMapping.Position | src/stories/Knob.tsx:52-60 | the position lies in [0, 1]; it is rotation/300 + 1/2 within the drag bounds and clamps to 0 and 1 beyond them |
| KnobMapping.ValueAt | src/stories/Knob.tsx:62 | a rotation at or below -150 selects the minimum value, and one at or above 150 selects minimum + range |
| KnobMapping.RotationAt | src/stories/Knob.tsx:71-75 | the minimum value is drawn at -150, and minimum + range at 150 |
| KnobMapping.ValueWithinBounds | src/stories/Knob.tsx:62 | with ordered bounds, every rotation selects a value between them |
| KnobMapping.DragBoundsReachBounds | src/stories/Knob.tsx:43-46 | rotations -150 and 150 select exactly the minimum and maximum values |
| KnobMapping.RotationWithinBounds | src/stories/Knob.tsx:71-75 | a value between ordered bounds is drawn within the drag bounds |
| KnobMapping.RotationRoundTrip | src/stories/Knob.tsx:51-75 | drawing the value a rotation selects gives back that rotation, for every rotation within the drag bounds and distinct bounds in either order |
| KnobMapping.ValueRoundTrip | src/stories/Knob.tsx:51-75 | selecting the rotation a value is drawn at gives back that value, for every value between ordered bounds |
| KnobMapping.Knob.constructor | src/stories/Knob.tsx:23-28 | the knob holds its bounds and its initial value |
| KnobMapping.Knob.CalculateValue | src/stories/Knob.tsx:51-69 | the stored and emitted value is the value the rotation selects, and it lies between ordered bounds |
| Keyboard.IndexOfFrom | src/stories/Keyboard.tsx:67 | the result is -1 exactly when the key does not occur; otherwise it is the first position where the key occurs |
| Keyboard.IndexOf | src/stories/Keyboard.tsx:67 | the result is -1 exactly when the key occurs nowhere; otherwise it is the first position where it occurs |
| Keyboard.UpperKeysSearch | src/stories/Keyboard.tsx:67 | for a one-character key, the search in "kolp" succeeds exactly for the keys of the upper row |
| Keyboard.KeyMapLayout | src/stories/Keyboard.tsx:15-32 | the lower row maps onto the twelve notes in order, the upper row onto the first four, and no other key is mapped |
| Keyboard.KeyMapNotesAreButtons | src/stories/Keyboard.tsx:15-32 | every note a key produces is the note of a button |
| Keyboard.OnKeyDown | src/stories/Keyboard.tsx:63-72 | a key is ignored exactly when it is unmapped; a mapped key plays its note at the starting octave, or one higher for the upper row |
| Keyboard.NatToString | src/stories/Keyboard.tsx:37 | a printed number is a non-empty string of decimal digits |
| Keyboard.NatToStringInjective | src/stories/Keyboard.tsx:37 | different natural numbers print differently |
| Keyboard.NatToStringShort | src/stories/Keyboard.tsx:37 | a number prints as one digit exactly when it is below ten |
| Keyboard.IntToString | src/stories/Keyboard.tsx:37 | a printed integer is non-empty and starts with a minus sign exactly when it is negative |
| Keyboard.IntToStringInjective | src/stories/Keyboard.tsx:37 | different integers print differently |
| Keyboard.RenderKeyboardOctave | src/stories/Keyboard.tsx:34-51 | twelve buttons; button i has id note i followed by the octave, and plays note i at that octave |
| Keyboard.SplitAtNumber | src/stories/Keyboard.tsx:37-48 | a word of letters followed by a printed integer splits into its word and its number in only one way |
| Keyboard.NoteNamesAreWords | src/stories/Keyboard.tsx:37-48 | the note names are distinct words made of letters |
| Keyboard.ButtonIdsDistinct | src/stories/Keyboard.tsx:37-48 | two buttons share an id only when they are the same note of the same octave |
| Keyboard.RenderKeyboard | src/stories/Keyboard.tsx:74-76 | renders max(numOctaves, 0) octaves; octave i is the one for startingOctave + i |
| Synth.Pow2 | src/Synth.tsx:32 | 2^i is positive for every integer i |
| Synth.OctaveBase | src/Synth.tsx:32 | each table's a is positive, and table 4's is concert pitch 440 Hz |
| Synth.OctaveBasesDouble | src/Synth.tsx:31-35 | each table's a is exactly twice the one below |
| Synth.OctaveBaseValues | src/Synth.tsx:28-32 | table 4 is 440 Hz and table 3 220 Hz; the lowest table's a is 27.5 Hz and the highest one's 14080 Hz |
| Synth.GenerateOctave | src/Synth.tsx:9-24 | an octave table has exactly the twelve note names as keys, and its a is the given base |
| Synth.GenerateOctaveSemitones | src/Synth.tsx:11-22 | every other note i lies i − 9 semitones from a |
| Synth.InitializeScale | src/Synth.tsx:27-38 | ten tables; table n is the octave table built on 440·2^(n−4), so every table has every note |
| Synth.Lookup | src/Synth.tsx:58 | the lookup finds a frequency exactly when the octave indexes the scale and the note is in that table |
| Synth.TypedKeysPlayable | src/stories/Keyboard.tsx:63-68 | with the starting octave in 0..7, every mapped key finds its frequency |
| Synth.ButtonsPlayable | src/Synth.tsx:227-232 | with the starting octave in 0..7, every rendered button finds its frequency |
| Synth.TypedKeyIsShown | src/stories/Keyboard.tsx:63-76 | a mapped key typed at a starting octave plays a note that some button rendered for that starting octave plays |
| Synth.SynthApp.constructor | src/Synth.tsx:39-44 | not started, square wave, starting octave 3, with the scale built by `InitializeScale` |
| Synth.SynthApp.Start | src/Synth.tsx:50-65 | only before the synth has started (the start button is shown only then): a fresh engine is created with the nine connections and the output silenced at now, and is set to the selected waveform at once; the keyboard mounts with its listener seeing the current starting octave |
| Synth.SynthApp.ChangeWaveForm | src/Synth.tsx:46-48 | the new waveform is stored and, once the engine exists, applied to its oscillator and settings; the wiring and the oscillator's running state are unchanged |
| Synth.SynthApp.OctaveUp | src/Synth.tsx:90-96 | raises the starting octave by one, except at 7 where the button is disabled |
| Synth.SynthApp.OctaveDown | src/Synth.tsx:97-103 | lowers the starting octave by one, except at 0 where the button is disabled |
| Synth.SynthApp.OnKeyPressed | src/Synth.tsx:57-59 | with an engine and a scale entry, plays that frequency and fires both envelopes (exact new timelines), both Qs take the resonance, the Q timelines and intrinsic values are unchanged; otherwise no parameter changes |
| Synth.SynthApp.TypeKeyAsWritten | src/stories/Keyboard.tsx:63-72 | a mapped key is played from the starting octave the listener saw when it was registered: the engine sounds that note's frequency from the scale and fires both envelopes; an unmapped key changes nothing |
| Synth.SynthApp.TypeKey | src/stories/Keyboard.tsx:63-72 | a mapped key is played from the starting octave currently selected: its lookup always succeeds, the engine sounds that frequency and fires both envelopes; an unmapped key changes nothing |
| Synth.StaleListenerOctave | src/stories/Keyboard.tsx:63-72 | after start and one octave up, the key "a" plays c3, sounding the frequency nine semitones below table 3's a, while every rendered button is in octave 4 or 5 |

## Left out

- Sound itself is not modelled. That covers oscillation, filtering, convolution, compression and how the host renders automation curves between events. Only the scheduled events and the intrinsic values are modelled.
- The impulse-response request and `decodeAudioData` in `initializeReverb` are not modelled. They are network I/O with a callback. The convolver node and the compressor node hold no state the engine reads.
- Creating the audio context is not modelled. Its `currentTime` is the parameter `now`, and `PlayTone` uses one `now` for both envelopes.
- Numbers are exact reals, not floating point. `Math.cos`, `Math.PI` and `Math.pow(2, k/12)` are uninterpreted.
- `toFixed`/`parseFloat` rounding in the knob is not modelled. The knob value is exact.
- A direct `.value =` write is modelled as a plain write of the intrinsic value. The host's implicit scheduling of that write is not modelled.
- `value` is not tied to the timeline. The host's getter reports the level the automation has reached. The model's `value` is only the default or the last direct write. So where the envelopes re-anchor "at the current value" (src/SynthEngine.ts:165-166 and :195), the model anchors at that intrinsic value. For example, after the output is silenced at construction, the first trigger anchors the gain at 1, where the host would read 0.
- The host inserts events into a timeline in time order, and the model appends them. `Engine.RetriggerKeepsOrder` proves the two agree when attack and release are not negative.
- The source interleaves the automation calls for the two filter stages. The model schedules one stage fully, then the other. Each parameter receives the same calls in the same order, so the final state is the same.
- `initializeReverb` calls `setReverb` before the nodes are connected. The constructor model calls it after connecting. The connections do not touch the gains, so the resulting state is the same.
- The 'custom' oscillator type is left out. The application never selects it.
- `KEY_MAP[key]` in the source would also find inherited object properties. The model's key map holds only the sixteen keys.
- A missing scale entry makes the source throw a TypeError. In the model, `Lookup` returns None and nothing is played.
- The construction-time Q is left at the host default of 1. The code never sets it, although the settings record a resonance of 0.
- React rendering, gsap dragging, DOM highlighting of the pressed key and the view toggle are not modelled.
- The keydown listener is never removed, and development mode mounts it twice. Neither is modelled.
- The Button and Switch components and the entry point are not part of this model.
- KnobMapping.RotationAt: requires distinct bounds, because with equal bounds the source divides by zero.
- KnobMapping.ValueWithinBounds: assumes `minValue <= maxValue`. With reversed bounds, the source's absolute-value range overshoots, so no such bound holds.
- Engine.SynthEngine.PlayTone: its ensures does not state that the new timelines are sorted and settle. Those facts are in `Engine.RetriggerKeepsOrder` and `Engine.RetriggerSettles`, for every timeline.

## Findings

| source | as written | input that shows it | evidently intended | confidence | as-written member | corrected member |
|---|---|---|---|---|---|---|
| src/stories/Keyboard.tsx:63-72 | the keydown listener is registered once, with no dependencies, so it keeps the starting octave of the keyboard's first render | start the synth (starting octave 3), press octave up, type "a": it plays c in octave 3 while the keyboard shows octaves 4 and 5 | typing follows the octave selector, as the on-screen buttons do | high, not executed | Synth.StaleListenerOctave | Synth.SynthApp.TypeKey |
