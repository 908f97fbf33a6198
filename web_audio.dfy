/// The part of the host audio API that the synthesizer engine drives, seen
/// abstractly: an automatable parameter is a timeline of scheduled events
/// plus its intrinsic value (the default, or the last value written directly),
/// and a node is an object holding its parameters and the few plain fields the
/// engine writes. The value the automation has reached at a given time is not
/// computed: `value` is not tied to the timeline.
/// Actual oscillation, filtering and the rendering of curves stay with the host.
module WebAudio {

  /** One event on a parameter's automation timeline. */
  datatype AutomationEvent =
    | Set(value: real, time: real)                               // setValueAtTime
    | LinearRamp(value: real, time: real)                        // linearRampToValueAtTime
    | Target(target: real, startTime: real, timeConstant: real)  // setTargetAtTime
  {
    /** The time at which the event takes effect; cancellation compares against it. */
    function Time(): real {
      match this
      case Set(_, t) => t
      case LinearRamp(_, t) => t
      case Target(_, t, _) => t
    }
  }

  /** Events appear in the order of their times. */
  ghost predicate Sorted(es: seq<AutomationEvent>) {
    forall i, j :: 0 <= i < j < |es| ==> es[i].Time() <= es[j].Time()
  }

  /** What cancelScheduledValues(t) leaves behind: the events strictly earlier than t, in order. */
  function EventsBefore(es: seq<AutomationEvent>, t: real): (kept: seq<AutomationEvent>)
    ensures |kept| <= |es|
    ensures forall e :: e in kept <==> e in es && e.Time() < t
  {
    if es == [] then []
    else if es[0].Time() < t then [es[0]] + EventsBefore(es[1..], t)
    else EventsBefore(es[1..], t)
  }

  /** Cancelling at t leaves a timeline alone when every event on it is earlier than t. */
  lemma {:induction false} EventsBeforeKeepsEarlier(es: seq<AutomationEvent>, t: real)
    requires forall i :: 0 <= i < |es| ==> es[i].Time() < t
    ensures EventsBefore(es, t) == es
  {
    if es != [] {
      EventsBeforeKeepsEarlier(es[1..], t);
    }
  }

  /** Cancelling at t empties a timeline none of whose events is earlier than t. */
  lemma {:induction false} EventsBeforeDropsLater(es: seq<AutomationEvent>, t: real)
    requires forall i :: 0 <= i < |es| ==> es[i].Time() >= t
    ensures EventsBefore(es, t) == []
  {
    if es != [] {
      EventsBeforeDropsLater(es[1..], t);
    }
  }

  /** Dropping the first event keeps a timeline sorted. */
  lemma SortedTail(es: seq<AutomationEvent>)
    requires Sorted(es) && es != []
    ensures Sorted(es[1..])
  {
    var tail := es[1..];
    forall i, j | 0 <= i < j < |tail| ensures tail[i].Time() <= tail[j].Time() {
      assert tail[i] == es[i + 1] && tail[j] == es[j + 1];
    }
  }

  /** On a sorted timeline cancellation cuts the timeline at t: it keeps exactly a prefix,
      and everything after that prefix was at or after t. */
  lemma {:induction false} EventsBeforeIsPrefix(es: seq<AutomationEvent>, t: real)
    requires Sorted(es)
    ensures EventsBefore(es, t) == es[..|EventsBefore(es, t)|]
    ensures forall i :: |EventsBefore(es, t)| <= i < |es| ==> es[i].Time() >= t
  {
    if es != [] {
      SortedTail(es);
      if es[0].Time() < t {
        EventsBeforeIsPrefix(es[1..], t);
        PrefixCons(es, EventsBefore(es[1..], t), t);
      } else {
        SortedFromFirst(es, t);
        EventsBeforeDropsLater(es, t);
      }
    }
  }

  /** The step of the prefix argument: a kept first event extends the tail's prefix by one. */
  lemma PrefixCons(es: seq<AutomationEvent>, rest: seq<AutomationEvent>, t: real)
    requires es != [] && |rest| <= |es| - 1 && rest == es[1..][..|rest|]
    requires forall i :: |rest| <= i < |es| - 1 ==> es[1..][i].Time() >= t
    ensures [es[0]] + rest == es[..1 + |rest|]
    ensures forall i :: 1 + |rest| <= i < |es| ==> es[i].Time() >= t
  {
    forall i | 1 + |rest| <= i < |es| ensures es[i].Time() >= t {
      assert es[i] == es[1..][i - 1];
    }
  }

  /** A prefix of a sorted timeline is sorted. */
  lemma SortedPrefix(es: seq<AutomationEvent>, n: nat)
    requires Sorted(es) && n <= |es|
    ensures Sorted(es[..n])
  {
    var p := es[..n];
    forall i, j | 0 <= i < j < |p| ensures p[i].Time() <= p[j].Time() {
      assert p[i] == es[i] && p[j] == es[j];
    }
  }

  /** Cancelling keeps a sorted timeline sorted. */
  lemma EventsBeforeKeepsOrder(es: seq<AutomationEvent>, t: real)
    requires Sorted(es)
    ensures Sorted(EventsBefore(es, t))
  {
    EventsBeforeIsPrefix(es, t);
    SortedPrefix(es, |EventsBefore(es, t)|);
  }

  /** On a sorted timeline whose first event is at or after t, every event is. */
  lemma SortedFromFirst(es: seq<AutomationEvent>, t: real)
    requires Sorted(es) && es != [] && es[0].Time() >= t
    ensures forall i :: 0 <= i < |es| ==> es[i].Time() >= t
  {
    forall i | 0 < i < |es| ensures es[i].Time() >= t {
      assert es[0].Time() <= es[i].Time();
    }
  }

  /** An automatable parameter: its intrinsic value (default or last direct write) and the
      scheduled events. */
  class AudioParam {
    /** Distinguishes the parameters of one engine from each other in proofs. */
    ghost const tag: nat
    var value: real
    var events: seq<AutomationEvent>

    constructor (ghost tag: nat, defaultValue: real)
      ensures this.tag == tag && value == defaultValue && events == []
    {
      this.tag := tag;
      value := defaultValue;
      events := [];
    }

    method SetValueAtTime(v: real, t: real)
      modifies this
      ensures value == old(value)
      ensures events == old(events) + [Set(v, t)]
    {
      events := events + [Set(v, t)];
    }

    method LinearRampToValueAtTime(v: real, t: real)
      modifies this
      ensures value == old(value)
      ensures events == old(events) + [LinearRamp(v, t)]
    {
      events := events + [LinearRamp(v, t)];
    }

    method SetTargetAtTime(target: real, startTime: real, timeConstant: real)
      modifies this
      ensures value == old(value)
      ensures events == old(events) + [Target(target, startTime, timeConstant)]
    {
      events := events + [Target(target, startTime, timeConstant)];
    }

    method CancelScheduledValues(cancelTime: real)
      modifies this
      ensures value == old(value)
      ensures events == EventsBefore(old(events), cancelTime)
    {
      events := EventsBefore(events, cancelTime);
    }
  }

  datatype OscillatorType = Sine | Square | Sawtooth | Triangle

  datatype FilterType = Lowpass | Highpass | Bandpass | Lowshelf | Highshelf | Peaking | Notch | Allpass

  /** Default values the host gives a freshly created node's parameters. */
  const DefaultOscillatorFrequency: real := 440.0
  const DefaultFilterFrequency: real := 350.0
  const DefaultFilterQ: real := 1.0
  const DefaultGain: real := 1.0

  class OscillatorNode {
    var oscillatorType: OscillatorType
    var started: bool
    const frequency: AudioParam

    constructor (ghost frequencyTag: nat)
      ensures oscillatorType == Sine && !started
      ensures fresh(frequency) && frequency.tag == frequencyTag
      ensures frequency.value == DefaultOscillatorFrequency && frequency.events == []
    {
      oscillatorType := Sine;
      started := false;
      frequency := new AudioParam(frequencyTag, DefaultOscillatorFrequency);
    }

    method Start()
      modifies this
      ensures started && oscillatorType == old(oscillatorType)
    {
      started := true;
    }
  }

  class BiquadFilterNode {
    var filterType: FilterType
    const frequency: AudioParam
    const q: AudioParam

    constructor (ghost frequencyTag: nat, ghost qTag: nat)
      ensures filterType == Lowpass
      ensures fresh(frequency) && frequency.tag == frequencyTag
      ensures frequency.value == DefaultFilterFrequency && frequency.events == []
      ensures fresh(q) && q.tag == qTag && q.value == DefaultFilterQ && q.events == []
    {
      filterType := Lowpass;
      frequency := new AudioParam(frequencyTag, DefaultFilterFrequency);
      q := new AudioParam(qTag, DefaultFilterQ);
    }
  }

  class GainNode {
    const gain: AudioParam

    constructor (ghost gainTag: nat)
      ensures fresh(gain) && gain.tag == gainTag
      ensures gain.value == DefaultGain && gain.events == []
    {
      gain := new AudioParam(gainTag, DefaultGain);
    }
  }
}
