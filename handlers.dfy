/** The input handlers of script.js (key, pointer, knob and label events),
    stated on an immutable snapshot of the page's module-level state. The
    audio clock `ctx.currentTime` at the moment of each event is a
    parameter `now`. */
module Handlers {
  import opened Wrappers
  import opened Text
  import opened Pitch
  import opened Profiles
  import opened Polyphony
  import opened Keys
  import opened Knob

  /** What `downKeys` remembers about a held key: the note it started and
      whether the two-octave shift was on when it went down. */
  datatype Held = Held(note: string, shifted: bool)

  /** The fields of a `KeyboardEvent` the handlers read;
      `capsLockOn` is `getModifierState("CapsLock")`. */
  datatype KeyEvent = KeyEvent(key: string, code: string, repeat: bool, shiftKey: bool, capsLockOn: bool)

  /** The page state: the voice table and audio command log, `currentSound`,
      `downKeys` (by physical key code), the `capsLock` flag toggled by the
      window listener, `currentAngle` and `isDragging`. */
  datatype State = State(
    engine: Engine,
    sound: Sound,
    downKeys: map<string, Held>,
    capsLock: bool,
    angle: real,
    dragging: bool)

  /** The velocity every key and pointer press plays with. */
  const Velocity: real := 0.35

  /** Octaves added by the shift: two when on. */
  function ShiftOffset(shifted: bool): int {
    if shifted then 2 else 0
  }

  /** The state when the page has loaded: the shared compressor is audio
      node 0, nothing sounds, nothing is held, the piano is selected and
      the knob sits at its initial angle. */
  function Initial(): State {
    State(Engine(map[], 1, []), Piano, map[], false, InitialAngle as real, false)
  }

  /** The document `keydown` listener. */
  function DocumentKeyDown(st: State, ev: KeyEvent, now: real): State {
    if ev.repeat || ev.code in st.downKeys then st
    else
      var shifted := ev.shiftKey || ev.capsLockOn;
      match KeyToNote(ToLower(ev.key))
      case None => st
      case Some(note) =>
        var (engine, _) := StartNote(st.engine, st.sound, note, Velocity, ShiftOffset(shifted), now);
        st.(engine := engine, downKeys := st.downKeys[ev.code := Held(note, shifted)])
  }

  /** A key press: the document listener runs first, then the window
      listener flips `capsLock` whenever the key is CapsLock. */
  function KeyDown(st: State, ev: KeyEvent, now: real): State {
    var r := DocumentKeyDown(st, ev, now);
    if ev.key == "CapsLock" then r.(capsLock := !r.capsLock) else r
  }

  /** The document `keyup` listener: stops the note recorded for the key
      code, with the shift recorded when it went down. */
  function KeyUp(st: State, code: string, now: real): State {
    if code !in st.downKeys then st
    else
      var held := st.downKeys[code];
      st.(downKeys := st.downKeys - {code},
          engine := StopNote(st.engine, st.sound, held.note, ShiftOffset(held.shifted), now))
  }

  /** Pressing an on-screen key whose `data-note` is `note`. */
  function PointerDown(st: State, note: string, now: real): State {
    st.(engine := StartNote(st.engine, st.sound, note, Velocity, ShiftOffset(st.capsLock), now).0)
  }

  /** Releasing an on-screen key: the shift is read again, at release time. */
  function PointerUp(st: State, note: string, now: real): State {
    st.(engine := StopNote(st.engine, st.sound, note, ShiftOffset(st.capsLock), now))
  }

  /** `updateSound(angle)`: selects the sound of the stop nearest by
      `Math.abs(stop - angle)`. */
  function UpdateSound(st: State, angle: real): State {
    st.(sound := SoundFor(angle))
  }

  /** `mousemove` with the pointer at `angle` degrees from twelve o'clock. */
  function MouseMove(st: State, angle: real): State {
    if !st.dragging then st else UpdateSound(st.(angle := angle), angle)
  }

  /** `mouseup` anywhere: ends a drag and snaps to the nearest stop. */
  function MouseUp(st: State): State {
    if st.dragging then UpdateSound(st.(dragging := false), st.angle) else st
  }

  /** A click on the label at `index`: the knob jumps to that label's stop. */
  function SelectLabel(st: State, index: nat): State
    requires index < |SoundStops|
  {
    UpdateSound(st.(angle := SoundStops[index] as real), SoundStops[index] as real)
  }

  /** Every input the page reacts to. Clicks on a label are by position;
      there are four labels. */
  datatype Input =
    | KeyPressed(ev: KeyEvent)
    | KeyReleased(code: string)
    | PointerPressed(note: string)
    | PointerReleased(note: string)
    | KnobGrabbed
    | PointerMoved(angle: real)
    | MouseReleased
    | LabelClicked(index: nat)

  function Step(st: State, input: Input, now: real): State {
    match input
    case KeyPressed(ev) => KeyDown(st, ev, now)
    case KeyReleased(code) => KeyUp(st, code, now)
    case PointerPressed(note) => PointerDown(st, note, now)
    case PointerReleased(note) => PointerUp(st, note, now)
    case KnobGrabbed => st.(dragging := true)
    case PointerMoved(angle) => MouseMove(st, angle)
    case MouseReleased => MouseUp(st)
    case LabelClicked(i) => if i < |SoundStops| then SelectLabel(st, i) else st
  }

  /** Feeds `inputs` in order, the i-th at audio time `times[i]`. */
  function Run(st: State, inputs: seq<Input>, times: seq<real>): State
    requires |inputs| == |times|
    decreases |inputs|
  {
    if inputs == [] then st
    else Run(Step(st, inputs[0], times[0]), inputs[1..], times[1..])
  }

  /** The table is well formed and every held key remembers a mapped note. */
  ghost predicate Invariant(st: State) {
    WellFormed(st.engine)
    && forall code :: code in st.downKeys ==> Mapped(st.downKeys[code].note)
  }

  lemma InitialInvariant()
    ensures Invariant(Initial())
    ensures Initial().sound == SoundFor(Initial().angle)
  {
    TieKeepsEarlierStop();
  }

  /** An auto-repeat, or a second keydown for a held code, starts nothing and
      records nothing; only the CapsLock flag may still flip. */
  lemma RepeatIgnored(st: State, ev: KeyEvent, now: real)
    requires ev.repeat || ev.code in st.downKeys
    ensures var r := KeyDown(st, ev, now);
      r.engine == st.engine && r.downKeys == st.downKeys
      && (r.capsLock <==> (st.capsLock != (ev.key == "CapsLock")))
  {
  }

  /** A key with no note starts nothing and records nothing. */
  lemma UnmappedKeyIgnored(st: State, ev: KeyEvent, now: real)
    requires KeyToNote(ToLower(ev.key)).None?
    ensures var r := KeyDown(st, ev, now);
      r.engine == st.engine && r.downKeys == st.downKeys
  {
  }

  /** Every CapsLock keydown flips the flag, repeats included; no other key
      touches it. */
  lemma CapsLockToggles(st: State, ev: KeyEvent, now: real)
    ensures KeyDown(st, ev, now).capsLock == (if ev.key == "CapsLock" then !st.capsLock else st.capsLock)
  {
  }

  /** A fresh press of a mapped key records the note with its shift and
      leaves the shifted name sounding; the pitch always resolves. */
  lemma MappedKeyStarts(st: State, ev: KeyEvent, now: real)
    requires !ev.repeat && ev.code !in st.downKeys
    requires KeyToNote(ToLower(ev.key)).Some?
    ensures var note := KeyToNote(ToLower(ev.key)).value;
      var shifted := ev.shiftKey || ev.capsLockOn;
      var r := KeyDown(st, ev, now);
      r.downKeys == st.downKeys[ev.code := Held(note, shifted)]
      && r.engine == StartNote(st.engine, st.sound, note, Velocity, ShiftOffset(shifted), now).0
      && StartNote(st.engine, st.sound, note, Velocity, ShiftOffset(shifted), now).1 != BadPitch
      && OffsetName(note, ShiftOffset(shifted)) in r.engine.active
  {
    var key := ToLower(ev.key);
    var note := KeyToNote(key).value;
    var shifted := ev.shiftKey || ev.capsLockOn;
    MappedNotesResolve(key);
    KeyDownPlays(st, ev, now, note);
    assert FreqOf(note, ShiftOffset(shifted)).Some?;
    StartNoteSounds(st.engine, st.sound, note, Velocity, ShiftOffset(shifted), now);
  }

  /** A fresh press of a key with a note starts the note and records it. */
  lemma KeyDownPlays(st: State, ev: KeyEvent, now: real, note: string)
    requires !ev.repeat && ev.code !in st.downKeys && KeyToNote(ToLower(ev.key)) == Some(note)
    ensures var shifted := ev.shiftKey || ev.capsLockOn;
      var r := KeyDown(st, ev, now);
      r.downKeys == st.downKeys[ev.code := Held(note, shifted)]
      && r.engine == StartNote(st.engine, st.sound, note, Velocity, ShiftOffset(shifted), now).0
  {
  }

  /** A keyup for a code that is not held changes nothing. */
  lemma KeyUpUnheldNoop(st: State, code: string, now: real)
    requires code !in st.downKeys
    ensures KeyUp(st, code, now) == st
  {
  }

  /** Releasing a key forgets the code and silences the name it started,
      with the shift captured at keydown, whatever `capsLock` says now. */
  lemma KeyUpStopsRecordedNote(st: State, code: string, now: real)
    requires code in st.downKeys
    ensures var held := st.downKeys[code];
      var r := KeyUp(st, code, now);
      r.downKeys == st.downKeys - {code}
      && OffsetName(held.note, ShiftOffset(held.shifted)) !in r.engine.active
      && r.capsLock == st.capsLock && r.sound == st.sound
  {
  }

  /** Pressing and releasing a mapped key restores the voice table and the
      held keys, even when the sound or the CapsLock flag changed in between. */
  lemma KeyPressRoundTrip(st: State, ev: KeyEvent, s2: Sound, caps2: bool, t1: real, t2: real)
    requires !ev.repeat && ev.code !in st.downKeys
    requires KeyToNote(ToLower(ev.key)).Some?
    requires OffsetName(KeyToNote(ToLower(ev.key)).value, ShiftOffset(ev.shiftKey || ev.capsLockOn)) !in st.engine.active
    ensures var mid := KeyDown(st, ev, t1).(sound := s2, capsLock := caps2);
      var r := KeyUp(mid, ev.code, t2);
      r.engine.active == st.engine.active && r.downKeys == st.downKeys
  {
    var note := KeyToNote(ToLower(ev.key)).value;
    var shifted := ev.shiftKey || ev.capsLockOn;
    KeyDownPlays(st, ev, t1, note);
    StartThenStop(st.engine, st.sound, s2, note, Velocity, ShiftOffset(shifted), t1, t2);
    var mid := KeyDown(st, ev, t1).(sound := s2, capsLock := caps2);
    assert mid.downKeys == st.downKeys[ev.code := Held(note, shifted)];
    ForgetNewKey(st.downKeys, ev.code, Held(note, shifted));
    assert KeyUp(mid, ev.code, t2).engine == StopNote(mid.engine, s2, note, ShiftOffset(shifted), t2);
  }

  lemma ForgetNewKey(m: map<string, Held>, code: string, held: Held)
    requires code !in m
    ensures m[code := held] - {code} == m
  {
    assert (m[code := held] - {code}).Keys == m.Keys;
  }

  /** On-screen keys read the shift again on release: after CapsLock flips
      between press and release, the release stops a different name and the
      pressed one keeps sounding. */
  lemma PointerReleaseAfterCapsLockFlip(st: State, t1: real, t2: real)
    requires !st.capsLock && st.engine.active == map[]
    ensures var pressed := PointerDown(st, "C4", t1);
      var released := PointerUp(pressed.(capsLock := true), "C4", t2);
      "C4" in released.engine.active && "C6" !in released.engine.active
  {
    OffsetNameZero("C4");
    FreqOfSemitones("C", 4, 0);
    assert NoteName("C", 4) == "C4";
    assert OffsetName("C4", 2) == "C6";
  }

  /** Changing the sound never touches sounding voices or the command log. */
  lemma SoundChangeKeepsVoices(st: State, input: Input, now: real)
    requires input.PointerMoved? || input.MouseReleased? || input.LabelClicked? || input.KnobGrabbed?
    ensures Step(st, input, now).engine == st.engine
    ensures Step(st, input, now).downKeys == st.downKeys
  {
  }

  /** A label click selects that label's sound and turns the knob to its stop. */
  lemma SelectLabelSelects(st: State, i: nat)
    requires i < 4
    ensures SelectLabel(st, i).sound == Sounds[i]
    ensures SelectLabel(st, i).angle == SoundStops[i] as real
  {
    LabelSelectsItsSound(i);
  }

  /** Moving the pointer without a drag in progress changes nothing. */
  lemma MoveWithoutDragIgnored(st: State, angle: real, now: real)
    requires !st.dragging
    ensures Step(st, PointerMoved(angle), now) == st
  {
  }

  /** A key press keeps the invariant: a recorded note comes from the map. */
  lemma KeyDownKeepsInvariant(st: State, ev: KeyEvent, now: real)
    requires Invariant(st)
    ensures Invariant(KeyDown(st, ev, now))
  {
    if !ev.repeat && ev.code !in st.downKeys && KeyToNote(ToLower(ev.key)).Some? {
      MappedKeyKeepsInvariant(st, ev, now);
    } else {
      assert DocumentKeyDown(st, ev, now) == st;
    }
  }

  lemma MappedKeyKeepsInvariant(st: State, ev: KeyEvent, now: real)
    requires Invariant(st)
    requires !ev.repeat && ev.code !in st.downKeys && KeyToNote(ToLower(ev.key)).Some?
    ensures Invariant(DocumentKeyDown(st, ev, now))
  {
    var key := ToLower(ev.key);
    var shifted := ev.shiftKey || ev.capsLockOn;
    var note := KeyToNote(key).value;
    assert Mapped(note);
    StartPreservesWellFormed(st.engine, st.sound, note, Velocity, ShiftOffset(shifted), now);
    var r := DocumentKeyDown(st, ev, now);
    assert r.downKeys == st.downKeys[ev.code := Held(note, shifted)];
  }

  /** A key release keeps the invariant. */
  lemma KeyUpKeepsInvariant(st: State, code: string, now: real)
    requires Invariant(st)
    ensures Invariant(KeyUp(st, code, now))
  {
    if code in st.downKeys {
      var held := st.downKeys[code];
      StopPreservesWellFormed(st.engine, st.sound, held.note, ShiftOffset(held.shifted), now);
    }
  }

  lemma StepPreservesInvariant(st: State, input: Input, now: real)
    requires Invariant(st)
    ensures Invariant(Step(st, input, now))
  {
    match input
    case KeyPressed(ev) =>
      KeyDownKeepsInvariant(st, ev, now);
    case KeyReleased(code) =>
      KeyUpKeepsInvariant(st, code, now);
    case PointerPressed(note) =>
      StartPreservesWellFormed(st.engine, st.sound, note, Velocity, ShiftOffset(st.capsLock), now);
    case PointerReleased(note) =>
      StopPreservesWellFormed(st.engine, st.sound, note, ShiftOffset(st.capsLock), now);
    case KnobGrabbed =>
    case PointerMoved(_) =>
    case MouseReleased =>
    case LabelClicked(_) =>
  }

  /** Any sequence of inputs from a state satisfying the invariant keeps it. */
  lemma {:induction false} RunPreservesInvariant(st: State, inputs: seq<Input>, times: seq<real>)
    requires |inputs| == |times|
    requires Invariant(st)
    ensures Invariant(Run(st, inputs, times))
    decreases |inputs|
  {
    if inputs != [] {
      StepPreservesInvariant(st, inputs[0], times[0]);
      RunPreservesInvariant(Step(st, inputs[0], times[0]), inputs[1..], times[1..]);
    }
  }
}
