/** The page's module-level mutable state (`active`, `currentSound`,
    `downKeys`, `capsLock`, `currentAngle`, `isDragging`) and the audio
    context's node allocator, as one object whose methods update it in
    place. Each method is proved to leave the object in the state the
    corresponding function of `Polyphony` or `Handlers` describes. */
module App {
  import opened Text
  import opened Pitch
  import opened Profiles
  import opened Polyphony
  import opened Keys
  import opened Knob
  import opened Handlers

  class Instrument {
    var active: map<string, Voice>
    var nextNode: Node
    var log: seq<Event>
    var currentSound: Sound
    var downKeys: map<string, Held>
    var capsLock: bool
    var currentAngle: real
    var isDragging: bool

    ghost function Snapshot(): State
      reads this
    {
      State(Engine(active, nextNode, log), currentSound, downKeys, capsLock, currentAngle, isDragging)
    }

    /** Page load: the shared compressor takes the first node. */
    constructor()
      ensures Snapshot() == Initial()
    {
      active := map[];
      nextNode := 1;
      log := [];
      currentSound := Piano;
      downKeys := map[];
      capsLock := false;
      currentAngle := InitialAngle as real;
      isDragging := false;
    }

    /** `ctx.createOscillator()`, `createGain()`, `createBiquadFilter()` or
        `createDelay()`: hands out the next node. */
    method CreateNode() returns (n: Node)
      modifies this
      ensures n == old(nextNode)
      ensures Snapshot() == old(Snapshot()).(engine := Engine(old(active), old(nextNode) + 1, old(log)))
    {
      n := nextNode;
      nextNode := nextNode + 1;
    }

    /** The organ setup: for each harmonic after the first, an oscillator
        and its gain, the oscillator started at once. */
    method OrganSetup() returns (oscs: seq<Node>)
      modifies this
      ensures Harmonics(oscs) == SetupExtras(Organ, old(nextNode))
      ensures Snapshot() == old(Snapshot()).(engine := Engine(old(active), old(nextNode) + SetupNodeCount(Organ),
                                                              old(log) + SetupStarts(Harmonics(oscs))))
    {
      ghost var first := nextNode;
      oscs := [];
      var i := 1;
      while i < |OrganHarmonics|
        invariant 1 <= i <= |OrganHarmonics|
        invariant nextNode == first + 2 * (i - 1)
        invariant |oscs| == i - 1 && forall j :: 0 <= j < |oscs| ==> oscs[j] == first + 2 * j
        invariant log == old(log) + SetupStarts(Harmonics(oscs))
        invariant Snapshot() == old(Snapshot()).(engine := Engine(old(active), nextNode, log))
      {
        var harmOsc := CreateNode();
        var harmGain := CreateNode();
        log := log + [Start(harmOsc, 0.0)];
        oscs := oscs + [harmOsc];
        i := i + 1;
      }
    }

    /** `profile.setup(...)`: creates the profile's extra nodes, starts its
        extra sources and returns their handles. */
    method Setup(s: Sound) returns (x: Extras)
      modifies this
      ensures x == SetupExtras(s, old(nextNode))
      ensures Snapshot() == old(Snapshot()).(engine := Engine(old(active), old(nextNode) + SetupNodeCount(s),
                                                              old(log) + SetupStarts(x)))
    {
      match s
      case Piano =>
        x := NoExtras;
      case Synth =>
        var osc2 := CreateNode();
        var gain2 := CreateNode();
        log := log + [Start(osc2, 0.0)];
        x := Detuned(osc2);
      case Organ =>
        var oscs := OrganSetup();
        x := Harmonics(oscs);
      case Cosmic =>
        var lfo := CreateNode();
        var lfoGain := CreateNode();
        log := log + [Start(lfo, 0.0)];
        var delay := CreateNode();
        var delayFeedback := CreateNode();
        x := LfoDelay(lfo, delay);
    }

    /** `startNote(note, velocity, octaveOffset)`. */
    method StartNote(note: string, velocity: real, octaveOffset: int, now: real) returns (outcome: StartOutcome)
      modifies this
      ensures (Snapshot().engine, outcome)
        == Polyphony.StartNote(old(Snapshot()).engine, old(currentSound), note, velocity, octaveOffset, now)
      ensures Snapshot() == old(Snapshot()).(engine := Snapshot().engine)
    {
      var name := OffsetName(note, octaveOffset);
      if name in active {
        return AlreadySounding;
      }
      var osc := CreateNode();
      var gain := CreateNode();
      var filter := CreateNode();
      if FreqOf(note, octaveOffset).None? {
        return BadPitch;
      }
      var p := SoundProfile(currentSound);
      ghost var before := log;
      log := log + AttackEvents(osc, gain, p, velocity, now);
      var extras := Setup(currentSound);
      var v := Voice(osc, gain, filter, extras);
      assert v == NewVoice(currentSound, old(nextNode));
      assert before == old(log);
      active := active[name := v];
      outcome := Started;
    }

    /** Stops each node of `nodes` at time `t`, in order. */
    method StopEach(nodes: seq<Node>, t: real)
      modifies this
      ensures Snapshot() == old(Snapshot()).(engine := Engine(old(active), old(nextNode), old(log) + StopAll(nodes, t)))
    {
      var i := 0;
      while i < |nodes|
        invariant 0 <= i <= |nodes|
        invariant log == old(log) + StopAll(nodes[..i], t)
        invariant Snapshot() == old(Snapshot()).(engine := Engine(old(active), old(nextNode), log))
      {
        assert StopAll(nodes[..i + 1], t) == StopAll(nodes[..i], t) + [Stop(nodes[i], t)];
        log := log + [Stop(nodes[i], t)];
        i := i + 1;
      }
      assert nodes[..i] == nodes;
    }

    /** `stopNote(note, octaveOffset)`. */
    method StopNote(note: string, octaveOffset: int, now: real)
      modifies this
      ensures Snapshot()
        == old(Snapshot()).(engine := Polyphony.StopNote(old(Snapshot()).engine, old(currentSound), note, octaveOffset, now))
    {
      var name := OffsetName(note, octaveOffset);
      if name !in active {
        return;
      }
      var v := active[name];
      var p := SoundProfile(currentSound);
      var t := ReleaseEnd(p, now);
      log := log + [CancelScheduled(v.gain, now), SetTargetAt(v.gain, 0.0001, now, p.release / 3.0)];
      assert StopAll(Oscillators(v), t) == [Stop(v.osc, t)] + StopAll(ExtraOscillators(v.extras), t);
      StopEach(Oscillators(v), t);
      active := active - {name};
    }

    /** The document and window `keydown` listeners, in that order. */
    method KeyDown(ev: KeyEvent, now: real)
      modifies this
      ensures Snapshot() == Handlers.KeyDown(old(Snapshot()), ev, now)
    {
      if !ev.repeat && ev.code !in downKeys {
        var isShifted := ev.shiftKey || ev.capsLockOn;
        var note := KeyToNote(ToLower(ev.key));
        if note.Some? {
          var octaveOffset := if isShifted then 2 else 0;
          downKeys := downKeys[ev.code := Held(note.value, isShifted)];
          var _ := StartNote(note.value, Velocity, octaveOffset, now);
        }
      }
      if ev.key == "CapsLock" {
        capsLock := !capsLock;
      }
    }

    /** The document `keyup` listener. */
    method KeyUp(code: string, now: real)
      modifies this
      ensures Snapshot() == Handlers.KeyUp(old(Snapshot()), code, now)
    {
      if code !in downKeys {
        return;
      }
      var held := downKeys[code];
      downKeys := downKeys - {code};
      StopNote(held.note, if held.shifted then 2 else 0, now);
    }

    method PointerDown(note: string, now: real)
      modifies this
      ensures Snapshot() == Handlers.PointerDown(old(Snapshot()), note, now)
    {
      var _ := StartNote(note, Velocity, if capsLock then 2 else 0, now);
    }

    method PointerUp(note: string, now: real)
      modifies this
      ensures Snapshot() == Handlers.PointerUp(old(Snapshot()), note, now)
    {
      StopNote(note, if capsLock then 2 else 0, now);
    }

    /** `updateSound(angle)`. */
    method UpdateSound(angle: real)
      modifies this
      ensures Snapshot() == Handlers.UpdateSound(old(Snapshot()), angle)
    {
      currentSound := Sounds[Index(Linear, angle)];
    }

    /** `mousedown` on the knob. */
    method KnobMouseDown()
      modifies this
      ensures Snapshot() == old(Snapshot()).(dragging := true)
    {
      isDragging := true;
    }

    method MouseMove(angle: real)
      modifies this
      ensures Snapshot() == Handlers.MouseMove(old(Snapshot()), angle)
    {
      if !isDragging {
        return;
      }
      currentAngle := angle;
      UpdateSound(currentAngle);
    }

    method MouseUp()
      modifies this
      ensures Snapshot() == Handlers.MouseUp(old(Snapshot()))
    {
      if isDragging {
        isDragging := false;
        UpdateSound(currentAngle);
      }
    }

    /** A click on the label at `index`. */
    method SelectLabel(index: nat)
      requires index < |SoundStops|
      modifies this
      ensures Snapshot() == Handlers.SelectLabel(old(Snapshot()), index)
    {
      currentAngle := SoundStops[index] as real;
      UpdateSound(currentAngle);
    }

    /** Dispatches one input to its listener. */
    method Handle(input: Input, now: real)
      modifies this
      ensures Snapshot() == Step(old(Snapshot()), input, now)
    {
      match input
      case KeyPressed(ev) => KeyDown(ev, now);
      case KeyReleased(code) => KeyUp(code, now);
      case PointerPressed(note) => PointerDown(note, now);
      case PointerReleased(note) => PointerUp(note, now);
      case KnobGrabbed => KnobMouseDown();
      case PointerMoved(angle) => MouseMove(angle);
      case MouseReleased => MouseUp();
      case LabelClicked(i) =>
        if i < |SoundStops| {
          SelectLabel(i);
        }
    }
  }
}
