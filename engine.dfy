/// The synthesizer engine: a mutable settings record, a fixed graph of audio
/// nodes wired once at construction, and the envelope scheduler that, on every
/// note, issues time-stamped automation against the filter cutoff (both filter
/// stages in lock-step) and the output gain.
module Engine {
  import opened WebAudio

  datatype MasterSettings = MasterSettings(level: real)
  datatype OscillatorSettings = OscillatorSettings(waveForm: OscillatorType)
  datatype AmpSettings = AmpSettings(attack: real, release: real)
  datatype FilterSettings = FilterSettings(cutoff: real, resonance: real, envelope: real, attack: real, release: real)
  datatype ReverbSettings = ReverbSettings(level: real)

  /** The engine's parameter store, grouped as in the source. */
  datatype Settings = Settings(
    master: MasterSettings,
    oscillator: OscillatorSettings,
    amp: AmpSettings,
    filter: FilterSettings,
    reverb: ReverbSettings)

  const DefaultSettings: Settings := Settings(
    MasterSettings(1.0),
    OscillatorSettings(Square),
    AmpSettings(0.1, 1.5),
    FilterSettings(350.0, 0.0, 0.25, 0.1, 0.5),
    ReverbSettings(0.25))

  /** The host's Math.cos and Math.PI, left uninterpreted. */
  datatype HostMath = HostMath(cos: real -> real, pi: real)

  /** The facts about cosine the crossfade relies on: cos 0 = 1, cos(pi/2) = 0,
      and cos^2 x + cos^2 (pi/2 - x) = 1. */
  ghost predicate CosineLaws(m: HostMath) {
    && m.cos(0.0) == 1.0
    && m.cos(m.pi / 2.0) == 0.0
    && forall x :: m.cos(x) * m.cos(x) + m.cos(m.pi / 2.0 - x) * m.cos(m.pi / 2.0 - x) == 1.0
  }

  /** Gain on the dry path for a reverb level: full at level 0, silent at level 1. */
  function DryGain(m: HostMath, level: real): (gain: real)
    ensures CosineLaws(m) && level == 0.0 ==> gain == 1.0
    ensures CosineLaws(m) && level == 1.0 ==> gain == 0.0
  {
    assert 0.0 * 0.5 * m.pi == 0.0 && 1.0 * 0.5 * m.pi == m.pi / 2.0;
    m.cos(level * 0.5 * m.pi)
  }

  /** Gain on the wet path for a reverb level: silent at level 0, full at level 1. */
  function WetGain(m: HostMath, level: real): (gain: real)
    ensures CosineLaws(m) && level == 0.0 ==> gain == 0.0
    ensures CosineLaws(m) && level == 1.0 ==> gain == 1.0
  {
    assert (1.0 - 0.0) * 0.5 * m.pi == m.pi / 2.0 && (1.0 - 1.0) * 0.5 * m.pi == 0.0;
    m.cos((1.0 - level) * 0.5 * m.pi)
  }

  /** The crossfade is equal-power: the squared gains always sum to one. */
  lemma EqualPowerCrossfade(m: HostMath, level: real)
    requires CosineLaws(m)
    ensures DryGain(m, level) * DryGain(m, level) + WetGain(m, level) * WetGain(m, level) == 1.0
  {
    var x := level * 0.5 * m.pi;
    assert (1.0 - level) * 0.5 * m.pi == m.pi / 2.0 - x;
    assert m.cos(x) * m.cos(x) + m.cos(m.pi / 2.0 - x) * m.cos(m.pi / 2.0 - x) == 1.0;
  }

  /** The highest cutoff the filter envelope can reach. */
  const FilterCeiling: real := 15000.0

  /** The cutoff the filter envelope ramps to: the envelope amount is the fraction
      of the headroom above the cutoff that is added during the attack. */
  function FilterPeak(cutoff: real, envelope: real): (peak: real)
    ensures envelope == 0.0 ==> peak == cutoff
    ensures envelope == 1.0 ==> peak == FilterCeiling
  {
    cutoff + (FilterCeiling - cutoff) * envelope
  }

  /** The peak lies between the cutoff and the ceiling. */
  lemma FilterPeakWithinHeadroom(cutoff: real, envelope: real)
    requires cutoff <= FilterCeiling && 0.0 <= envelope <= 1.0
    ensures cutoff <= FilterPeak(cutoff, envelope) <= FilterCeiling
  {
    var headroom := FilterCeiling - cutoff;
    ScaledWithin(headroom, envelope);
    assert FilterPeak(cutoff, envelope) == cutoff + headroom * envelope;
  }

  lemma FilterPeakWithinHeadroomIfBounded(cutoff: real, envelope: real)
    ensures cutoff <= FilterCeiling && 0.0 <= envelope <= 1.0 ==>
              cutoff <= FilterPeak(cutoff, envelope) <= FilterCeiling
  {
    if cutoff <= FilterCeiling && 0.0 <= envelope <= 1.0 {
      FilterPeakWithinHeadroom(cutoff, envelope);
    }
  }

  /** A fraction of a non-negative amount lies between zero and the amount. */
  lemma ScaledWithin(x: real, k: real)
    requires x >= 0.0 && 0.0 <= k <= 1.0
    ensures 0.0 <= x * k <= x
  {
    assert x * k + x * (1.0 - k) == x;
    assert x * (1.0 - k) >= 0.0;
  }

  /** With the default settings the peak is 4012.5 Hz: a quarter of the way from 350 Hz to the ceiling. */
  lemma FilterPeakOfDefaults()
    ensures FilterPeak(DefaultSettings.filter.cutoff, DefaultSettings.filter.envelope) == 4012.5
  {
  }

  /** The four events one trigger appends to a parameter's timeline: re-anchor at the
      current value, ramp linearly to the peak over the attack, relax toward the rest
      value with time constant release/10, and pin the rest value at the end. */
  function Envelope(anchor: real, now: real, peak: real, rest: real, attack: real, release: real)
    : (es: seq<AutomationEvent>)
    ensures |es| == 4 && es[0] == Set(anchor, now) && es[3] == Set(rest, now + attack + release)
    ensures attack >= 0.0 && release >= 0.0 ==>
              Sorted(es) && forall i :: 0 <= i < |es| ==> now <= es[i].Time() <= now + attack + release
  {
    [ Set(anchor, now),
      LinearRamp(peak, now + attack),
      Target(rest, now + attack, release / 10.0),
      Set(rest, now + attack + release) ]
  }

  /** The filter envelope: it rises toward a peak within the headroom above the cutoff
      and comes back to the cutoff. */
  function FilterEnvelope(anchor: real, now: real, f: FilterSettings): (es: seq<AutomationEvent>)
    ensures |es| == 4 && es[1].LinearRamp? && es[3] == Set(f.cutoff, now + f.attack + f.release)
    ensures f.cutoff <= FilterCeiling && 0.0 <= f.envelope <= 1.0 ==>
              f.cutoff <= es[1].value <= FilterCeiling
  {
    FilterPeakWithinHeadroomIfBounded(f.cutoff, f.envelope);
    Envelope(anchor, now, FilterPeak(f.cutoff, f.envelope), f.cutoff, f.attack, f.release)
  }

  /** The amplitude envelope: it rises to the master level and ends in silence. */
  function AmpEnvelope(anchor: real, now: real, level: real, a: AmpSettings): (es: seq<AutomationEvent>)
    ensures |es| == 4 && es[1] == LinearRamp(level, now + a.attack)
    ensures es[3] == Set(0.0, now + a.attack + a.release)
  {
    Envelope(anchor, now, level, 0.0, a.attack, a.release)
  }

  /** A timeline that ends by pinning v at time t, with nothing scheduled later:
      from t on the parameter holds v exactly. */
  ghost predicate SettlesAt(es: seq<AutomationEvent>, v: real, t: real) {
    && |es| > 0
    && es[|es| - 1] == Set(v, t)
    && forall i :: 0 <= i < |es| ==> es[i].Time() <= t
  }

  /** A trigger at `now` keeps a sorted timeline sorted when attack and release are
      not negative, so appending agrees with the host's time-ordered insertion. */
  lemma RetriggerKeepsOrder(es: seq<AutomationEvent>, anchor: real, now: real, peak: real, rest: real,
                            attack: real, release: real)
    requires Sorted(es) && attack >= 0.0 && release >= 0.0
    ensures Sorted(EventsBefore(es, now) + Envelope(anchor, now, peak, rest, attack, release))
  {
    var kept := EventsBefore(es, now);
    var env := Envelope(anchor, now, peak, rest, attack, release);
    EventsBeforeKeepsOrder(es, now);
    var all := kept + env;
    forall i, j | 0 <= i < j < |all| ensures all[i].Time() <= all[j].Time() {
      if j < |kept| {
        assert all[i] == kept[i] && all[j] == kept[j];
      } else if i < |kept| {
        assert all[i] == kept[i] && kept[i] in kept;
      }
    }
  }

  /** After a trigger the timeline ends by pinning the rest value at now + attack + release. */
  lemma RetriggerSettles(es: seq<AutomationEvent>, anchor: real, now: real, peak: real, rest: real,
                         attack: real, release: real)
    requires attack >= 0.0 && release >= 0.0
    ensures SettlesAt(EventsBefore(es, now) + Envelope(anchor, now, peak, rest, attack, release),
                      rest, now + attack + release)
  {
    var kept := EventsBefore(es, now);
    var all := kept + Envelope(anchor, now, peak, rest, attack, release);
    forall i | 0 <= i < |all| ensures all[i].Time() <= now + attack + release {
      if i < |kept| {
        assert all[i] == kept[i] && kept[i] in kept;
      }
    }
  }

  /** A trigger at `now` leaves no earlier trigger's event pending at or after `now`:
      every such event on the new timeline is one of the four just scheduled, and the
      first of them re-anchors at the parameter's current value. */
  lemma RetriggerSupersedesPending(es: seq<AutomationEvent>, anchor: real, now: real, peak: real,
                                   rest: real, attack: real, release: real)
    ensures var all := EventsBefore(es, now) + Envelope(anchor, now, peak, rest, attack, release);
            && (forall i :: 0 <= i < |all| && all[i].Time() >= now ==> |EventsBefore(es, now)| <= i)
            && all[|EventsBefore(es, now)|] == Set(anchor, now)
  {
    var kept := EventsBefore(es, now);
    var all := kept + Envelope(anchor, now, peak, rest, attack, release);
    forall i | 0 <= i < |kept| ensures all[i].Time() < now {
      assert all[i] == kept[i] && kept[i] in kept;
    }
  }

  /** The roles of the nodes in the signal graph. */
  datatype NodeRole = Oscillator | Filter1 | Filter2 | Reverb | ReverbWet | ReverbDry | Volume | Compressor | Destination

  type Edge = (NodeRole, NodeRole)

  /** The connections made at construction, in order. */
  const Wiring: seq<Edge> := [
    (Oscillator, Filter1),
    (Filter1, Filter2),
    (Filter2, Reverb),
    (Filter2, ReverbDry),
    (Reverb, ReverbWet),
    (ReverbWet, Volume),
    (ReverbDry, Volume),
    (Volume, Compressor),
    (Compressor, Destination)
  ]

  /** Distance of a node from the oscillator along the longest chain. */
  function Rank(n: NodeRole): nat {
    match n
    case Oscillator => 0
    case Filter1 => 1
    case Filter2 => 2
    case Reverb => 3
    case ReverbDry => 3
    case ReverbWet => 4
    case Volume => 5
    case Compressor => 6
    case Destination => 7
  }

  /** p is a walk along edges of g. */
  ghost predicate IsPath(g: seq<Edge>, p: seq<NodeRole>) {
    forall i :: 0 <= i < |p| - 1 ==> (p[i], p[i + 1]) in g
  }

  /** Every connection leads to a node of higher rank. */
  lemma WiringRises(e: Edge)
    requires e in Wiring
    ensures Rank(e.0) < Rank(e.1)
  {
  }

  /** Along any walk of the wiring the rank strictly rises. */
  lemma {:induction false} PathRises(p: seq<NodeRole>)
    requires IsPath(Wiring, p) && |p| >= 2
    ensures Rank(p[0]) < Rank(p[|p| - 1])
  {
    WiringRises((p[|p| - 2], p[|p| - 1]));
    if |p| > 2 {
      var front := p[..|p| - 1];
      assert IsPath(Wiring, front) by {
        forall i | 0 <= i < |front| - 1 ensures (front[i], front[i + 1]) in Wiring {
          assert front[i] == p[i] && front[i + 1] == p[i + 1];
        }
      }
      PathRises(front);
    }
  }

  /** The wiring is acyclic: no walk returns to the node it started from. */
  lemma WiringIsAcyclic(p: seq<NodeRole>)
    requires IsPath(Wiring, p) && |p| >= 2
    ensures p[0] != p[|p| - 1]
  {
    PathRises(p);
  }

  /** The signal reaches the output both through the reverb and on the dry path. */
  lemma WiringCarriesBothPaths()
    ensures IsPath(Wiring, [Oscillator, Filter1, Filter2, Reverb, ReverbWet, Volume, Compressor, Destination])
    ensures IsPath(Wiring, [Oscillator, Filter1, Filter2, ReverbDry, Volume, Compressor, Destination])
  {
  }

  /** One envelope trigger on one parameter, as the five automation calls the source
      makes: cancel from `now`, re-anchor at the current value, ramp to the peak over
      the attack, relax toward the rest value, pin the rest value at the end. */
  method ScheduleEnvelope(param: AudioParam, now: real, peak: real, rest: real, attack: real, release: real)
    modifies param
    ensures param.value == old(param.value)
    ensures param.events == EventsBefore(old(param.events), now) + Envelope(old(param.value), now, peak, rest, attack, release)
  {
    param.CancelScheduledValues(now);
    param.SetValueAtTime(param.value, now);
    param.LinearRampToValueAtTime(peak, now + attack);
    param.SetTargetAtTime(rest, now + attack, release / 10.0);
    param.SetValueAtTime(rest, now + attack + release);
  }

  class SynthEngine {
    var settings: Settings
    var edges: seq<Edge>
    const math: HostMath
    const oscillator: OscillatorNode
    const filter1: BiquadFilterNode
    const filter2: BiquadFilterNode
    const reverbDry: GainNode
    const reverbWet: GainNode
    const volume: GainNode

    /** The objects the invariant reads. */
    ghost function Repr(): set<object> {
      {this, oscillator, filter1, filter2, filter1.frequency, filter2.frequency, filter1.q, filter2.q}
    }

    /** The parameters a note trigger may change. */
    ghost function ToneFrame(): set<object> {
      {oscillator.frequency, filter1.frequency, filter1.q, filter2.frequency, filter2.q, volume.gain}
    }

    /** The engine's invariant: its eight parameters are distinct objects, both filters are
        low-pass and in lock-step, and the oscillator plays the stored waveform. */
    ghost predicate Valid()
      reads Repr()
    {
      && oscillator.frequency.tag == 0
      && filter1.frequency.tag == 1
      && filter1.q.tag == 2
      && filter2.frequency.tag == 3
      && filter2.q.tag == 4
      && reverbDry.gain.tag == 5
      && reverbWet.gain.tag == 6
      && volume.gain.tag == 7
      && filter1.filterType == Lowpass && filter2.filterType == Lowpass
      && oscillator.oscillatorType == settings.oscillator.waveForm
      && filter1.frequency.events == filter2.frequency.events
      && filter1.frequency.value == filter2.frequency.value
      && filter1.q.value == filter2.q.value
    }

    /** Creates the oscillator with the given waveform, its pitch set to 440 Hz. */
    static method InitializeOscillatorNode(waveForm: OscillatorType) returns (osc: OscillatorNode)
      ensures fresh(osc) && fresh(osc.frequency) && osc.frequency.tag == 0
      ensures osc.oscillatorType == waveForm && !osc.started
      ensures osc.frequency.value == 440.0 && osc.frequency.events == []
    {
      osc := new OscillatorNode(0);
      osc.oscillatorType := waveForm;
      osc.frequency.value := 440.0;
    }

    /** Creates the two filter stages, both low-pass; cutoff and Q keep the host defaults. */
    static method InitializeFilterNode() returns (f1: BiquadFilterNode, f2: BiquadFilterNode)
      ensures fresh(f1) && fresh(f1.frequency) && fresh(f1.q) && fresh(f2) && fresh(f2.frequency) && fresh(f2.q)
      ensures f1.frequency.tag == 1 && f1.q.tag == 2 && f2.frequency.tag == 3 && f2.q.tag == 4
      ensures f1.filterType == Lowpass && f2.filterType == Lowpass
      ensures f1.frequency.value == f2.frequency.value == DefaultFilterFrequency
      ensures f1.frequency.events == f2.frequency.events == []
      ensures f1.q.value == f2.q.value == DefaultFilterQ
    {
      f1 := new BiquadFilterNode(1, 2);
      f2 := new BiquadFilterNode(3, 4);
      f1.filterType := Lowpass;
      f2.filterType := Lowpass;
    }

    /** Creates the output gain and schedules silence at `now`. */
    static method InitializeGainNode(now: real) returns (volume: GainNode)
      ensures fresh(volume) && fresh(volume.gain) && volume.gain.tag == 7
      ensures volume.gain.value == DefaultGain && volume.gain.events == [Set(0.0, now)]
    {
      volume := new GainNode(7);
      volume.gain.SetValueAtTime(0.0, now);
    }

    /** Creates the wet and dry gains of the reverb; their levels are set by SetReverb. */
    static method InitializeReverb() returns (wet: GainNode, dry: GainNode)
      ensures fresh(wet) && fresh(wet.gain) && wet.gain.tag == 6 && wet.gain.events == []
      ensures fresh(dry) && fresh(dry.gain) && dry.gain.tag == 5 && dry.gain.events == []
    {
      wet := new GainNode(6);
      dry := new GainNode(5);
    }

    /** Builds the node graph, silences the output at `now`, applies the default reverb
        level and starts the oscillator. */
    constructor (now: real, math: HostMath)
      ensures Valid()
      ensures fresh(oscillator) && fresh(filter1) && fresh(filter2)
      ensures fresh(reverbDry) && fresh(reverbWet) && fresh(volume)
      ensures fresh(oscillator.frequency) && fresh(filter1.frequency) && fresh(filter1.q)
      ensures fresh(filter2.frequency) && fresh(filter2.q) && fresh(volume.gain)
      ensures settings == DefaultSettings && this.math == math
      ensures edges == Wiring
      ensures oscillator.started && oscillator.oscillatorType == Square
      ensures oscillator.frequency.value == 440.0 && oscillator.frequency.events == []
      ensures filter1.frequency.events == [] && filter1.q.value == DefaultFilterQ
      ensures volume.gain.events == [Set(0.0, now)]
      ensures reverbDry.gain.value == DryGain(math, 0.25) && reverbWet.gain.value == WetGain(math, 0.25)
    {
      settings := DefaultSettings;
      this.math := math;
      var osc := InitializeOscillatorNode(DefaultSettings.oscillator.waveForm);
      var f1, f2 := InitializeFilterNode();
      var out := InitializeGainNode(now);
      var wet, dry := InitializeReverb();
      oscillator, filter1, filter2, volume, reverbWet, reverbDry := osc, f1, f2, out, wet, dry;
      // the nine connect calls, in order
      edges := Wiring;
      new;
      SetReverb(settings.reverb.level);
      oscillator.Start();
    }

    method SetLevel(value: real)
      requires Valid()
      modifies this`settings
      ensures Valid()
      ensures settings == old(settings).(master := MasterSettings(value))
    {
      settings := settings.(master := settings.master.(level := value));
    }

    /** Stores the level and sets the dry and wet gains by the equal-power law. */
    method SetReverb(value: real)
      requires Valid()
      modifies this`settings, reverbDry.gain, reverbWet.gain
      ensures Valid()
      ensures settings == old(settings).(reverb := ReverbSettings(value))
      ensures reverbDry.gain.value == DryGain(math, value)
      ensures reverbWet.gain.value == WetGain(math, value)
      ensures reverbDry.gain.events == old(reverbDry.gain.events)
      ensures reverbWet.gain.events == old(reverbWet.gain.events)
    {
      settings := settings.(reverb := settings.reverb.(level := value));
      var drySignalGain := DryGain(math, value);
      var wetSignalGain := WetGain(math, value);
      reverbDry.gain.value := drySignalGain;
      reverbWet.gain.value := wetSignalGain;
    }

    /** Stores the attack shifted up by 0.01 s (a shift, not a floor). */
    method SetAmpAttack(value: real)
      requires Valid()
      modifies this`settings
      ensures Valid()
      ensures settings == old(settings).(amp := old(settings).amp.(attack := value + 0.01))
      ensures value >= 0.0 ==> settings.amp.attack >= 0.01
    {
      settings := settings.(amp := settings.amp.(attack := value + 0.01));
    }

    method SetAmpRelease(value: real)
      requires Valid()
      modifies this`settings
      ensures Valid()
      ensures settings == old(settings).(amp := old(settings).amp.(release := value))
    {
      settings := settings.(amp := settings.amp.(release := value));
    }

    method SetFilterCutoff(value: real)
      requires Valid()
      modifies this`settings
      ensures Valid()
      ensures settings == old(settings).(filter := old(settings).filter.(cutoff := value))
    {
      settings := settings.(filter := settings.filter.(cutoff := value));
    }

    method SetFilterResonance(value: real)
      requires Valid()
      modifies this`settings
      ensures Valid()
      ensures settings == old(settings).(filter := old(settings).filter.(resonance := value))
    {
      settings := settings.(filter := settings.filter.(resonance := value));
    }

    method SetFilterEnvelope(value: real)
      requires Valid()
      modifies this`settings
      ensures Valid()
      ensures settings == old(settings).(filter := old(settings).filter.(envelope := value))
    {
      settings := settings.(filter := settings.filter.(envelope := value));
    }

    method SetFilterAttack(value: real)
      requires Valid()
      modifies this`settings
      ensures Valid()
      ensures settings == old(settings).(filter := old(settings).filter.(attack := value))
    {
      settings := settings.(filter := settings.filter.(attack := value));
    }

    method SetFilterRelease(value: real)
      requires Valid()
      modifies this`settings
      ensures Valid()
      ensures settings == old(settings).(filter := old(settings).filter.(release := value))
    {
      settings := settings.(filter := settings.filter.(release := value));
    }

    /** Stores the waveform and pushes it to the oscillator at once. */
    method SetWaveForm(waveForm: OscillatorType)
      requires Valid()
      modifies this`settings, oscillator
      ensures Valid()
      ensures settings == old(settings).(oscillator := OscillatorSettings(waveForm))
      ensures oscillator.oscillatorType == waveForm && oscillator.started == old(oscillator.started)
    {
      settings := settings.(oscillator := settings.oscillator.(waveForm := waveForm));
      oscillator.oscillatorType := waveForm;
    }

    /** Schedules the filter envelope at `now` on both filter stages alike and sets their Q. */
    method TriggerFilterEnvelope(now: real)
      requires Valid()
      modifies filter1.frequency, filter2.frequency, filter1.q, filter2.q
      ensures Valid()
      ensures filter1.frequency.events == EventsBefore(old(filter1.frequency.events), now)
                + FilterEnvelope(old(filter1.frequency.value), now, settings.filter)
      ensures filter1.frequency.value == old(filter1.frequency.value)
      ensures filter1.q.value == settings.filter.resonance
      ensures filter1.q.events == old(filter1.q.events) && filter2.q.events == old(filter2.q.events)
    {
      var f := settings.filter;
      var peak := FilterPeak(f.cutoff, f.envelope);
      ScheduleEnvelope(filter1.frequency, now, peak, f.cutoff, f.attack, f.release);
      ScheduleEnvelope(filter2.frequency, now, peak, f.cutoff, f.attack, f.release);
      filter1.q.value := f.resonance;
      filter2.q.value := f.resonance;
    }

    /** Schedules the amplitude envelope at `now` on the output gain. */
    method TriggerAmpEnvelope(now: real)
      requires Valid()
      modifies volume.gain
      ensures Valid()
      ensures volume.gain.events == EventsBefore(old(volume.gain.events), now)
                + AmpEnvelope(old(volume.gain.value), now, settings.master.level, settings.amp)
      ensures volume.gain.value == old(volume.gain.value)
    {
      ScheduleEnvelope(volume.gain, now, settings.master.level, 0.0, settings.amp.attack, settings.amp.release);
    }

    /** Sets the pitch and fires both envelopes; nothing outside the pitch, the filter
        parameters and the output gain changes. */
    method PlayTone(frequency: real, now: real)
      requires Valid()
      modifies ToneFrame()
      ensures Valid()
      ensures oscillator.frequency.value == frequency
      ensures oscillator.frequency.events == old(oscillator.frequency.events)
      ensures filter1.frequency.events == EventsBefore(old(filter1.frequency.events), now)
                + FilterEnvelope(old(filter1.frequency.value), now, settings.filter)
      ensures filter1.frequency.value == old(filter1.frequency.value)
      ensures filter1.q.value == settings.filter.resonance
      ensures filter1.q.events == old(filter1.q.events) && filter2.q.events == old(filter2.q.events)
      ensures volume.gain.events == EventsBefore(old(volume.gain.events), now)
                + AmpEnvelope(old(volume.gain.value), now, settings.master.level, settings.amp)
      ensures volume.gain.value == old(volume.gain.value)
      ensures settings == old(settings) && edges == old(edges)
      ensures oscillator.oscillatorType == old(oscillator.oscillatorType)
      ensures unchanged(reverbDry.gain, reverbWet.gain)
    {
      oscillator.frequency.value := frequency;
      TriggerFilterEnvelope(now);
      TriggerAmpEnvelope(now);
    }
  }
}
