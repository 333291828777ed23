/** The active-voice table of script.js (`active`, `startNote`, `stopNote`),
    stated on an immutable snapshot of the engine state. Audio nodes are
    opaque handles numbered in creation order; every automation, start and
    stop call made on them is appended to a log of commands for the audio
    thread. */
module Polyphony {
  import opened Wrappers
  import opened Pitch
  import opened Profiles

  /** An audio node created by the audio context, named by creation order. */
  type Node = nat

  /** A command handed to the audio thread: automation of a gain node's
      `gain` parameter, or the start or stop of a source node. */
  datatype Event =
    | CancelScheduled(param: Node, from: real)
    | SetValueAt(param: Node, value: real, time: real)
    | LinearRampTo(param: Node, value: real, time: real)
    | SetTargetAt(param: Node, target: real, start: real, timeConstant: real)
    | Start(source: Node, time: real)
    | Stop(source: Node, time: real)

  function EventNode(ev: Event): Node {
    match ev
    case CancelScheduled(p, _) => p
    case SetValueAt(p, _, _) => p
    case LinearRampTo(p, _, _) => p
    case SetTargetAt(p, _, _, _) => p
    case Start(s, _) => s
    case Stop(s, _) => s
  }

  /** The handles a profile's `setup` returns and the voice record keeps. */
  datatype Extras =
    | NoExtras                              // piano: setup returns nothing
    | Detuned(additionalOsc: Node)          // synth: a second, detuned oscillator
    | Harmonics(additionalOscs: seq<Node>)  // organ: one oscillator per upper harmonic
    | LfoDelay(lfo: Node, delay: Node)      // cosmic: filter vibrato and an echo send

  /** One entry of the active-voice table. */
  datatype Voice = Voice(osc: Node, gain: Node, filter: Node, extras: Extras)

  function ExtraOscillators(x: Extras): seq<Node> {
    match x
    case NoExtras => []
    case Detuned(o) => [o]
    case Harmonics(os) => os
    case LfoDelay(lfo, _) => [lfo]
  }

  /** The source nodes of a voice: its own oscillator and every auxiliary
      oscillator or LFO its setup started. */
  function Oscillators(v: Voice): seq<Node> {
    [v.osc] + ExtraOscillators(v.extras)
  }

  /** Every node handle a voice holds. */
  function Handles(v: Voice): set<Node> {
    {v.osc, v.gain, v.filter} + (set o | o in ExtraOscillators(v.extras))
      + (if v.extras.LfoDelay? then {v.extras.delay} else {})
  }

  /** Harmonic multiples of the organ; the first is the voice's own oscillator. */
  const OrganHarmonics: seq<nat> := [1, 2, 3, 4]

  /** Nodes created by `osc`, `gain` and `filter` before the setup runs. */
  const VoiceNodeCount: nat := 3

  /** Nodes a profile's setup creates: the synth's second oscillator and its
      gain, one oscillator and gain per upper organ harmonic, the cosmic LFO,
      its gain, the delay and its feedback gain. */
  function SetupNodeCount(s: Sound): nat {
    match s
    case Piano => 0
    case Synth => 2
    case Organ => 2 * (|OrganHarmonics| - 1)
    case Cosmic => 4
  }

  /** The handles returned by a setup whose first created node is `first`. */
  function SetupExtras(s: Sound, first: Node): Extras {
    match s
    case Piano => NoExtras
    case Synth => Detuned(first)
    case Organ =>
      Harmonics(seq(|OrganHarmonics| - 1, i requires 0 <= i < |OrganHarmonics| - 1 => first + 2 * i))
    case Cosmic => LfoDelay(first, first + 2)
  }

  /** The voice built when the next free node is `base`. */
  function NewVoice(s: Sound, base: Node): Voice {
    Voice(base, base + 1, base + 2, SetupExtras(s, base + VoiceNodeCount))
  }

  /** The `start()` calls of a setup: no time argument, that is time 0,
      meaning as soon as possible. */
  function SetupStarts(x: Extras): seq<Event> {
    seq(|ExtraOscillators(x)|, i requires 0 <= i < |ExtraOscillators(x)| => Start(ExtraOscillators(x)[i], 0.0))
  }

  /** The gain envelope and oscillator start scheduled by `startNote`. */
  function AttackEvents(osc: Node, gain: Node, p: Profile, velocity: real, now: real): seq<Event> {
    [ CancelScheduled(gain, now),
      SetValueAt(gain, 0.0, now),
      LinearRampTo(gain, velocity, now + p.attack),
      LinearRampTo(gain, p.sustain * velocity, now + p.attack + p.decay),
      Start(osc, now) ]
  }

  /** The common instant at which `stopNote` stops every source of a voice. */
  function ReleaseEnd(p: Profile, now: real): real {
    now + p.release + 0.02
  }

  function StopAll(nodes: seq<Node>, t: real): seq<Event> {
    seq(|nodes|, i requires 0 <= i < |nodes| => Stop(nodes[i], t))
  }

  /** The release commands of `stopNote`. */
  function ReleaseEvents(v: Voice, p: Profile, now: real): seq<Event> {
    [CancelScheduled(v.gain, now), SetTargetAt(v.gain, 0.0001, now, p.release / 3.0)]
      + StopAll(Oscillators(v), ReleaseEnd(p, now))
  }

  /** The engine state: the active-voice table, the next free node handle and
      the commands issued so far. */
  datatype Engine = Engine(active: map<string, Voice>, nextNode: Node, log: seq<Event>)

  /** How a `startNote` call ends: ignored because the name is already
      sounding, aborted because the pitch does not resolve (the oscillator
      rejects a NaN frequency), or started. */
  datatype StartOutcome = AlreadySounding | BadPitch | Started

  /** Every handle in the table has been allocated, and no two entries share
      a node. */
  ghost predicate WellFormed(e: Engine) {
    (forall name, h :: name in e.active && h in Handles(e.active[name]) ==> h < e.nextNode)
    && (forall a, b :: a in e.active && b in e.active && a != b ==>
          Handles(e.active[a]) !! Handles(e.active[b]))
  }

  /** `startNote(note, velocity, octaveOffset)` with `sound` current. */
  function StartNote(e: Engine, sound: Sound, note: string, velocity: real, octaveOffset: int, now: real)
    : (Engine, StartOutcome)
  {
    var name := OffsetName(note, octaveOffset);
    if name in e.active then (e, AlreadySounding)
    else if FreqOf(note, octaveOffset).None? then (e.(nextNode := e.nextNode + VoiceNodeCount), BadPitch)
    else
      var v := NewVoice(sound, e.nextNode);
      (Engine(e.active[name := v],
               e.nextNode + VoiceNodeCount + SetupNodeCount(sound),
               e.log + AttackEvents(v.osc, v.gain, SoundProfile(sound), velocity, now) + SetupStarts(v.extras)),
       Started)
  }

  /** `stopNote(note, octaveOffset)` with `sound` current. */
  function StopNote(e: Engine, sound: Sound, note: string, octaveOffset: int, now: real): Engine {
    var name := OffsetName(note, octaveOffset);
    if name !in e.active then e
    else Engine(e.active - {name}, e.nextNode, e.log + ReleaseEvents(e.active[name], SoundProfile(sound), now))
  }

  /** A new voice only holds nodes created for it. */
  lemma NewVoiceFresh(s: Sound, base: Node)
    ensures forall h :: h in Handles(NewVoice(s, base)) ==>
      base <= h < base + VoiceNodeCount + SetupNodeCount(s)
  {
  }

  /** Starting a name that is already sounding changes nothing. */
  lemma StartNoteIgnoresSounding(e: Engine, sound: Sound, note: string, velocity: real, octaveOffset: int, now: real)
    requires OffsetName(note, octaveOffset) in e.active
    ensures StartNote(e, sound, note, velocity, octaveOffset, now) == (e, AlreadySounding)
  {
  }

  /** A note whose pitch does not resolve registers no voice and issues no command. */
  lemma StartNoteBadPitch(e: Engine, sound: Sound, note: string, velocity: real, octaveOffset: int, now: real)
    requires FreqOf(note, octaveOffset).None?
    ensures var (r, outcome) := StartNote(e, sound, note, velocity, octaveOffset, now);
      r.active == e.active && r.log == e.log && outcome != Started
  {
  }

  /** Otherwise exactly the shifted name is added, with a voice built from
      fresh nodes, and every other entry keeps its voice. */
  lemma StartNoteAddsOne(e: Engine, sound: Sound, note: string, velocity: real, octaveOffset: int, now: real)
    requires OffsetName(note, octaveOffset) !in e.active && FreqOf(note, octaveOffset).Some?
    ensures var (r, outcome) := StartNote(e, sound, note, velocity, octaveOffset, now);
      var name := OffsetName(note, octaveOffset);
      outcome == Started
      && r.active.Keys == e.active.Keys + {name}
      && (forall k :: k in e.active ==> r.active[k] == e.active[k])
      && (forall h :: h in Handles(r.active[name]) ==> e.nextNode <= h < r.nextNode)
      && r.log[..|e.log|] == e.log
  {
    NewVoiceFresh(sound, e.nextNode);
  }

  /** A name that is not sounding yet and resolves to a pitch ends up sounding. */
  lemma StartNoteSounds(e: Engine, sound: Sound, note: string, velocity: real, octaveOffset: int, now: real)
    requires FreqOf(note, octaveOffset).Some?
    ensures var (r, outcome) := StartNote(e, sound, note, velocity, octaveOffset, now);
      outcome != BadPitch && OffsetName(note, octaveOffset) in r.active
  {
  }

  lemma StartPreservesWellFormed(e: Engine, sound: Sound, note: string, velocity: real, octaveOffset: int, now: real)
    requires WellFormed(e)
    ensures WellFormed(StartNote(e, sound, note, velocity, octaveOffset, now).0)
  {
    NewVoiceFresh(sound, e.nextNode);
  }

  /** The envelope rises from 0 at `now` to the velocity after the attack,
      then falls to the sustain level after the decay; times never go back
      and the sustain level lies strictly between silence and the peak. */
  lemma EnvelopeShape(s: Sound, osc: Node, gain: Node, velocity: real, now: real)
    requires 0.0 < velocity
    ensures var ev := AttackEvents(osc, gain, SoundProfile(s), velocity, now);
      ev[1].time < ev[2].time < ev[3].time
      && ev[1].value == 0.0 && ev[2].value == velocity
      && 0.0 < ev[3].value < ev[2].value
  {
    ProfilesWellShaped(s);
  }

  /** The commands `startNote` issues for voice `v`: the envelope on the
      voice's own gain node (silence at `now`, the velocity after the
      attack, the sustain level after the decay), then a start for every
      source of the voice, its oscillator at `now` and the sources of its
      setup at time 0. Every command is on a node of the voice. */
  ghost predicate SchedulesVoice(added: seq<Event>, v: Voice, p: Profile, velocity: real, now: real) {
    |added| == 4 + |Oscillators(v)|
    && added[..4] == [CancelScheduled(v.gain, now), SetValueAt(v.gain, 0.0, now),
                      LinearRampTo(v.gain, velocity, now + p.attack),
                      LinearRampTo(v.gain, p.sustain * velocity, now + p.attack + p.decay)]
    && (forall k :: 0 <= k < |Oscillators(v)| ==>
          added[4 + k] == Start(Oscillators(v)[k], if k == 0 then now else 0.0))
    && (forall ev :: ev in added ==> EventNode(ev) in Handles(v))
  }

  lemma VoiceCommands(v: Voice, p: Profile, velocity: real, now: real)
    ensures SchedulesVoice(AttackEvents(v.osc, v.gain, p, velocity, now) + SetupStarts(v.extras), v, p, velocity, now)
  {
    var attack := AttackEvents(v.osc, v.gain, p, velocity, now);
    var starts := SetupStarts(v.extras);
    var added := attack + starts;
    assert added[..4] == attack[..4];
    forall k | 0 <= k < |Oscillators(v)|
      ensures added[4 + k] == Start(Oscillators(v)[k], if k == 0 then now else 0.0)
    {
      if k > 0 {
        assert added[4 + k] == starts[k - 1];
      }
    }
    forall ev | ev in added
      ensures EventNode(ev) in Handles(v)
    {
      var i :| 0 <= i < |added| && added[i] == ev;
      if i >= 5 {
        assert ev == starts[i - 5];
        assert EventNode(ev) == ExtraOscillators(v.extras)[i - 5];
      }
    }
  }

  /** Starting a note issues exactly the commands of `SchedulesVoice` for the
      new voice, with the current profile. */
  lemma StartNoteSchedules(e: Engine, sound: Sound, note: string, velocity: real, octaveOffset: int, now: real)
    requires OffsetName(note, octaveOffset) !in e.active && FreqOf(note, octaveOffset).Some?
    ensures var r := StartNote(e, sound, note, velocity, octaveOffset, now).0;
      |e.log| <= |r.log|
      && SchedulesVoice(r.log[|e.log|..], r.active[OffsetName(note, octaveOffset)], SoundProfile(sound), velocity, now)
  {
    var r := StartNote(e, sound, note, velocity, octaveOffset, now).0;
    var v := NewVoice(sound, e.nextNode);
    var added := AttackEvents(v.osc, v.gain, SoundProfile(sound), velocity, now) + SetupStarts(v.extras);
    assert r.log == e.log + added;
    assert r.log[|e.log|..] == added;
    VoiceCommands(v, SoundProfile(sound), velocity, now);
  }

  /** Stopping a name that is not sounding changes nothing. */
  lemma StopNoteAbsentNoop(e: Engine, sound: Sound, note: string, octaveOffset: int, now: real)
    requires OffsetName(note, octaveOffset) !in e.active
    ensures StopNote(e, sound, note, octaveOffset, now) == e
  {
  }

  /** Stopping a sounding name removes exactly that entry. */
  lemma StopNoteRemovesOne(e: Engine, sound: Sound, note: string, octaveOffset: int, now: real)
    requires OffsetName(note, octaveOffset) in e.active
    ensures var r := StopNote(e, sound, note, octaveOffset, now);
      r.active.Keys == e.active.Keys - {OffsetName(note, octaveOffset)}
      && (forall k :: k in r.active ==> r.active[k] == e.active[k])
      && r.log[..|e.log|] == e.log
  {
  }

  /** Every source node of the stopped voice, and nothing else, is stopped,
      all at the same instant `now + R + 0.02`, where R is the release of the
      profile current at stop time. */
  lemma {:induction false} StopSilencesVoiceAtOnce(e: Engine, sound: Sound, note: string, octaveOffset: int, now: real)
    requires OffsetName(note, octaveOffset) in e.active
    ensures var v := e.active[OffsetName(note, octaveOffset)];
      var added := StopNote(e, sound, note, octaveOffset, now).log[|e.log|..];
      var t := now + SoundProfile(sound).release + 0.02;
      (forall o :: o in Oscillators(v) ==> Stop(o, t) in added)
      && (forall ev :: ev in added && ev.Stop? ==> ev.time == t && ev.source in Oscillators(v))
  {
    var v := e.active[OffsetName(note, octaveOffset)];
    var added := StopNote(e, sound, note, octaveOffset, now).log[|e.log|..];
    var t := now + SoundProfile(sound).release + 0.02;
    assert added == ReleaseEvents(v, SoundProfile(sound), now);
    var stops := StopAll(Oscillators(v), t);
    assert added == added[..2] + stops;
    forall o | o in Oscillators(v) ensures Stop(o, t) in added {
      var i :| 0 <= i < |Oscillators(v)| && Oscillators(v)[i] == o;
      assert stops[i] == Stop(o, t);
    }
  }

  /** The commands of a stop only touch the stopped voice's nodes, never a
      node of a voice that is still in the table. */
  lemma StopSparesOtherVoices(e: Engine, sound: Sound, note: string, octaveOffset: int, now: real)
    requires WellFormed(e) && OffsetName(note, octaveOffset) in e.active
    ensures var r := StopNote(e, sound, note, octaveOffset, now);
      forall ev, k :: ev in r.log[|e.log|..] && k in r.active ==> EventNode(ev) !in Handles(r.active[k])
  {
    var name := OffsetName(note, octaveOffset);
    var v := e.active[name];
    var r := StopNote(e, sound, note, octaveOffset, now);
    forall ev | ev in r.log[|e.log|..] ensures EventNode(ev) in Handles(v) {
      StopSilencesVoiceAtOnce(e, sound, note, octaveOffset, now);
    }
  }

  lemma StopPreservesWellFormed(e: Engine, sound: Sound, note: string, octaveOffset: int, now: real)
    requires WellFormed(e)
    ensures WellFormed(StopNote(e, sound, note, octaveOffset, now))
  {
  }

  /** Starting a silent name and later stopping it (under any profile)
      restores the table. */
  lemma StartThenStop(e: Engine, s1: Sound, s2: Sound, note: string, velocity: real, octaveOffset: int,
                      t1: real, t2: real)
    requires OffsetName(note, octaveOffset) !in e.active
    ensures StopNote(StartNote(e, s1, note, velocity, octaveOffset, t1).0, s2, note, octaveOffset, t2).active
      == e.active
  {
  }

  /** A voice started under one profile and stopped under another is released
      with the second profile's release time: the table does not remember the
      profile a voice was started with. */
  lemma ReleaseReadsCurrentProfile(e: Engine, velocity: real, t1: real, t2: real)
    requires "C4" !in e.active
    ensures var started := StartNote(e, Piano, "C4", velocity, 0, t1).0;
      var stopped := StopNote(started, Cosmic, "C4", 0, t2);
      |stopped.log| > 0 && stopped.log[|stopped.log| - 1] == Stop(e.nextNode, t2 + 2.0 + 0.02)
  {
    OffsetNameZero("C4");
    assert NoteName("C", 4) == "C4";
    FreqOfSemitones("C", 4, 0);
    var started := StartNote(e, Piano, "C4", velocity, 0, t1).0;
    assert started.active["C4"] == Voice(e.nextNode, e.nextNode + 1, e.nextNode + 2, NoExtras);
  }

  /** The two spellings of a black key are different table keys, so the same
      pitch can sound twice. */
  lemma SpellingsAreDistinctKeys(e: Engine, sound: Sound, velocity: real, now: real)
    requires e.active == map[]
    ensures var (e1, o1) := StartNote(e, sound, "C#4", velocity, 0, now);
      var (e2, o2) := StartNote(e1, sound, "Db4", velocity, 0, now);
      o1 == Started && o2 == Started && |e2.active| == 2
      && FreqOf("C#4", 0) == FreqOf("Db4", 0)
  {
    OffsetNameZero("C#4");
    OffsetNameZero("Db4");
    EnharmonicSameFrequency(0, 4, 0);
    assert NoteName("C#", 4) == "C#4" && NoteName("Db", 4) == "Db4";
  }
}
