# chromatic-keyboard in Dafny

A verified model of the core of `script.js`, the browser keyboard synthesizer of
chromatic-keyboard. The model covers:

- pitch resolution: the `pitchIndex` table, `freqOf`, and the octave-shifted note
  names that key the table of sounding voices;
- the four sound profiles with their envelope constants and `setup` node graphs;
- `startNote`/`stopNote` over the `active` table of voices. Audio nodes are opaque
  handles, numbered in creation order. Every scheduled gain change and every
  source start/stop is appended to a command log;
- the computer-keyboard map (`keyNoteMap`, `keyToNote`) and the `keydown`/`keyup`
  handlers with their `downKeys` table and CapsLock flag;
- the on-screen key handlers;
- the list logic of `drawKeyboard`: the chromatic key list, the cut after the last E,
  the white/black split, and the white key each black key is drawn after;
- the sound knob: `updateSound` snaps to the nearest stop with a strict-`<`
  `reduce`. Dragging, mouse release and label clicks all go through it.

## Modules

- `Text`, `Sequences` and `Wrappers` hold the JavaScript built-ins the core relies on:
  - `Text` covers number-to-string conversion, `parseInt` of one character,
    `slice(0, -1)` and ASCII `toLowerCase`;
  - `Sequences` covers `Array.prototype.indexOf`;
  - `Wrappers` holds an `Option` type.
- `Pitch` holds `pitchIndex` and `freqOf`. A frequency is the number of equal-tempered
  semitones from A4, so the frequency is 440·2^(d/12) Hz. The power itself is not
  computed. `None` stands for the NaN that an unknown spelling or a missing octave
  digit produces.
- `Profiles` holds the sound catalogue.
- `Polyphony` states `startNote`/`stopNote` as functions on an `Engine` snapshot.
  The snapshot holds the voice table, the next free node handle and the command log.
- `Keys` holds the key map as a table of (character, note) entries with a first-match
  lookup. Every property name of `keyNoteMap` is a single character, and no name
  repeats (`Keys.KeyNotesDistinct`). The lookup therefore gives what the property read
  gives (`Keys.LookupFindsEntry`, `Keys.KeyPlaysEntry`). The entries are listed in
  character order, which is how distinctness is shown.
- `Knob` holds the stops and the closest-stop reduction.
- `Handlers` states every listener as a function on a `State` snapshot of the page's
  module-level variables.
- `Layout` holds `drawKeyboard`. It is imperative: nested loops and `push`, proved
  against specification functions.
- `App` holds `Instrument`, a class with the page's mutable variables as fields.
  Each of its methods is proved to produce the snapshot that the matching `Polyphony`
  or `Handlers` function describes.

Some behaviours of the code worth knowing:

- There is no polyphony cap and no voice stealing, so the table is unbounded.
- `stopNote` releases with the profile that is current when the note stops, not the
  profile the note was started with (`Polyphony.ReleaseReadsCurrentProfile`).
- The sharp and flat spellings of a black key are different table keys
  (`Polyphony.SpellingsAreDistinctKeys`).
- A `setup` source started with `start()` and no time starts at time 0.
- The knob picks its stop by `Math.abs(stop - angle)`, as written. The distance round
  the dial is modelled beside it as the corrected knob (see Findings).

Assigning the NaN frequency of an unknown spelling to `osc.frequency.value` throws.
This happens after the oscillator, gain and filter nodes have been created, so
`startNote` ends with outcome `BadPitch`: three nodes are used, and no voice or
command is added. In the key handler, the key has already been recorded in
`downKeys` at that point.

## Model

| member | source | states |
|---|---|---|
| Sequences.IndexOf | script.js:205 | the first position holding the value, and -1 exactly when the value is absent |
| Pitch.FreqOf | script.js:112-119 | `freqOf`: the semitone distance from A4 of the note's spelling and last-character octave plus the offset, or none where the code yields NaN; its properties are the lemmas below |
| Pitch.OffsetName | script.js:122 | the `finalNote` key: the spelling followed by the shifted octave, as `startNote`, `stopNote` and `pressVisual` build it |
| Pitch.PitchIndexCoversOctave | script.js:107-110 | the offsets of the 17 spellings are exactly the twelve semitones 0..11 |
| Pitch.SameOffsetIffEnharmonic | script.js:107-110 | two spellings share an offset if and only if they are equal or the sharp and flat names of one black key |
| Pitch.NoteNameParts | script.js:113-114 | a note name splits back into its spelling (`slice(0,-1)`) and its octave digit (`at(-1)`) |
| Pitch.FreqOfSemitones | script.js:112-119 | a known spelling resolves to (octave + offset)·12 + index − 57 semitones from A4 |
| Pitch.A4IsReference | script.js:116-118 | "A4" with no offset is the 440 Hz reference, distance 0 |
| Pitch.FreqOfFails | script.js:112-119 | resolution fails if and only if the last character is not a digit or the spelling is not in the table |
| Pitch.EnharmonicSameFrequency | script.js:107-119 | the sharp and flat spellings of a black key give the same frequency in every octave, under every offset |
| Pitch.FreqOfMonotone | script.js:112-119 | the pitch rises strictly with octave plus offset, then with the index within the octave |
| Pitch.OffsetNameZero | script.js:122 | with offset 0 the shifted name is the note itself |
| Pitch.OffsetNameKeepsFrequency | script.js:122-131 | the table key resolves to the frequency the voice was started with while the shifted octave is one digit |
| Profiles.SoundProfile | script.js:18-105 | the oscillator, envelope and filter constants of the four profiles |
| Profiles.ProfilesWellShaped | script.js:18-105 | every profile has positive attack, decay and release, and a sustain strictly between 0 and 1 |
| Polyphony.StartNote | script.js:121-148 | `startNote` on a snapshot: the early return, the throw on a NaN pitch after three nodes, and otherwise the new voice, its nodes and its commands |
| Polyphony.StopNote | script.js:150-169 | `stopNote` on a snapshot: the early return, and otherwise the release commands with the current profile and the deletion |
| Polyphony.NewVoiceFresh | script.js:126-128 | a new voice holds only nodes created for it |
| Polyphony.StartNoteIgnoresSounding | script.js:122-123 | starting a name that is already sounding changes nothing |
| Polyphony.StartNoteBadPitch | script.js:126-131 | an unresolvable pitch adds no voice, issues no command and is not reported as started |
| Polyphony.StartNoteAddsOne | script.js:121-148 | otherwise exactly the shifted name is added, with fresh nodes; other entries and earlier commands are kept |
| Polyphony.StartPreservesWellFormed | script.js:121-148 | handles stay allocated and no two entries share a node |
| Polyphony.StartNoteSounds | script.js:121-148 | a name whose pitch resolves is never a bad pitch and is sounding afterwards, whether it was already or not |
| Polyphony.VoiceCommands | script.js:136-144 | the attack commands and setup starts of a voice put the envelope on its own gain node and start each of its sources once, in order, touching no other node |
| Polyphony.StartNoteSchedules | script.js:121-148 | a started note's new commands are exactly those: the 0 → velocity → sustain·velocity envelope on the new voice's gain at now, now + A and now + A + D, then a start for every source of the voice |
| Polyphony.EnvelopeShape | script.js:136-141 | the envelope rises from 0 to the velocity, then falls to sustain·velocity, at increasing times |
| Polyphony.StopNoteAbsentNoop | script.js:150-153 | stopping a name that is not sounding changes nothing |
| Polyphony.StopNoteRemovesOne | script.js:150-169 | stopping removes exactly that entry and keeps the others and the earlier commands |
| Polyphony.StopSilencesVoiceAtOnce | script.js:155-166 | every source of the voice, and nothing else, is stopped at now + R + 0.02, with R from the current profile |
| Polyphony.StopSparesOtherVoices | script.js:159-166 | no command of a stop touches a node of a voice still in the table |
| Polyphony.StopPreservesWellFormed | script.js:150-169 | stopping keeps the table well formed |
| Polyphony.StartThenStop | script.js:121-169 | starting a silent name and stopping it, under any profiles, restores the table |
| Polyphony.ReleaseReadsCurrentProfile | script.js:156-162 | a piano voice stopped after switching to cosmic stops at now + 2.0 + 0.02 |
| Polyphony.SpellingsAreDistinctKeys | script.js:122-147 | C#4 and Db4 both start, as two entries of equal frequency |
| Keys.KeyToNote | script.js:279 | `keyToNote` over the entries of `keyNoteMap` (script.js:176-186): the note of the key's entry, or none |
| Keys.Lookup | script.js:279 | a note is found only when an entry pairs it with the key, and nothing is found only when no entry has the key |
| Keys.LookupFindsEntry | script.js:279 | in a table whose keys do not repeat, looking up an entry's key finds that entry's note |
| Keys.KeyNotesDistinct | script.js:176-186 | the 34 entries of the map have 34 different keys |
| Keys.KeyPlaysEntry | script.js:176-186 | every key of the map plays exactly the note its entry names |
| Keys.MappedNotePlayable | script.js:177-186 | every mapped note is a known spelling followed by an octave digit from 3 to 5 |
| Keys.MappedNotesResolve | script.js:177-186 | every mapped key resolves with and without the shift, and the two shifted names differ |
| Keys.PlayableResolves | script.js:112-122 | a known spelling with an octave digit from 3 to 5 resolves with and without the two-octave shift, and the shift changes its name |
| Layout.LayoutKeys | script.js:198-206 | `finalKeyboard`: the chromatic list from octave 3 cut after the first end note |
| Layout.Keep | script.js:208-214 | the keys of one colour, in order |
| Layout.ReferenceNote | script.js:218-227 | the `switch`: the white key named by the black key's spelling and its last character |
| Layout.BetweenIndex | script.js:216-230 | `blackBetweenIndex`: each black key whose reference white key is found, at that white key's position |
| Layout.BuildFullKeyboard | script.js:196-202 | the nested loops build `numOctaves + 1` chromatic octaves from octave 3 |
| Layout.SplitKeys | script.js:208-214 | the loop yields the white and the black keys of the list, each in order |
| Layout.IndexBlackKeys | script.js:216-230 | the loop builds the black-key index of the specification function |
| Layout.DrawKeyboard | script.js:188-230 | the three lists are the white keys, the black keys and the black-key index of the cut list |
| Layout.KeyNameColour | script.js:209 | a key name is black exactly when its spelling is |
| Layout.KeyNameInjective | script.js:200 | different spellings or octaves give different key names |
| Layout.KeepMultiset | script.js:208-214 | the white and the black keys together are the keys, counted with multiplicity |
| Layout.KeepColour | script.js:208-214 | each list holds only keys of its colour |
| Layout.EndNoteNotBefore | script.js:203-206 | no key before the last E of the chromatic list is that E, so `indexOf` finds the last one |
| Layout.SplitIsPartition | script.js:208-214 | the split is a partition: together the two lists are a permutation of the keys, with each key on its colour's side |
| Layout.LayoutKeysShape | script.js:198-206 | n ≥ 0 octaves give 12n + 5 keys ending at E(3+n); a negative count gives none |
| Layout.LayoutWhites | script.js:198-214 | the white keys are n octaves of C D E F G A B, then C D E |
| Layout.LayoutBlacks | script.js:198-214 | the black keys are n octaves of Db Eb Gb Ab Bb, then Db Eb |
| Layout.WhiteKeyAt | script.js:208-214 | white key 7q + r is the r-th white spelling of octave 3 + q |
| Layout.BlackKeyAt | script.js:208-214 | black key 5q + r is the r-th black spelling of octave 3 + q |
| Layout.BetweenIndexContents | script.js:216-230 | a black key is indexed if and only if its reference white key is found, and it is indexed at that position |
| Layout.BlackReference | script.js:218-227 | the reference white key is a semitone below the black key |
| Layout.WhiteIndexOf | script.js:228 | `indexOf` finds each white key at its own position |
| Layout.BlackKeyPlacement | script.js:216-230 | black key 5q + r is indexed at white key 7q + LeftWhite[r], a semitone below |
| Layout.BlackKeyPlacementAt | script.js:216-230 | the same placement, stated per black-key position |
| Layout.BlackKeysIndexed | script.js:216-230 | up to six extra octaves, every black key is indexed after the white key a semitone below |
| Layout.BlackKeyIndicesIncrease | script.js:216-230 | up to six extra octaves, the indices strictly increase along the black keys |
| Layout.HighOctaveBlackKeyUnindexed | script.js:218-229 | from seven extra octaves on, "Db10" is a black key without an index |
| Knob.SoundFor | script.js:330-337 | the sound `updateSound` selects, by the nearest stop as written |
| Knob.Nearer | script.js:331-333 | the current stop replaces the kept one only when strictly nearer |
| Knob.Reduce | script.js:331-333 | the fold returns a nearest value; any replacement of the first is strictly nearer than everything before it |
| Knob.Closest | script.js:331-333 | the chosen stop is one of the stops, at least distance, and strictly nearer than every earlier stop |
| Knob.ClosestUnique | script.js:331-334 | those three properties determine the chosen stop |
| Knob.LinearDistance | script.js:332 | the distance is non-negative and zero only at the stop's own angle |
| Knob.DialDistance | script.js:332 | the distance round the dial lies in [0, 180] |
| Knob.Stop | script.js:331-333 | the knob always snaps to one of the four stops |
| Knob.Index | script.js:334 | the lit label is the position of the chosen stop |
| Knob.SameDistancesSameStop | script.js:331-333 | two angles at the same distances from every stop select the same stop |
| Knob.StopAtZero | script.js:331-334 | a stop at distance zero, with every earlier stop farther away, is chosen and its label lit |
| Knob.SameDialDistancesSameSound | script.js:330-337 | two angles equally far round the dial from every stop select the same stop, label and sound |
| Knob.StopsMatchSounds | script.js:327-328 | four distinct stops paired with four distinct sounds |
| Knob.DragNeverSelectsSynth | script.js:330-333 | as written, no drag angle in (-90, 270] selects the synth |
| Knob.DragToPianoMarkSelectsOrgan | script.js:330-337 | as written, dragging to the piano mark (240°) selects the organ |
| Knob.DialDistancePeriodic | script.js:332 | a full turn does not change the dial distance |
| Knob.SoundForDialPeriodic | script.js:330-337 | a full turn does not change the chosen stop or sound |
| Knob.DialStopAtMark | script.js:330-334 | at a stop's own mark, the knob snaps to that stop and its label |
| Knob.DialStopSelectsItsSound | script.js:330-337 | each stop's mark, plus any number of full turns, selects that stop's sound |
| Knob.DragReachesEverySound | script.js:349-357 | measured round the dial, every sound is reachable by a drag angle in (-90, 270] |
| Knob.LabelSelectsItsSound | script.js:369-373 | clicking a label selects its sound even with the code's linear distance |
| Knob.TieKeepsEarlierStop | script.js:326-333 | at a tie (-138°, equally far from piano and synth) the earlier-listed piano wins, and the initial angle selects the piano; both as written and round the dial |
| Handlers.KeyDown | script.js:281-305 | the document `keydown` listener, then the window listener's CapsLock flip |
| Handlers.KeyUp | script.js:294-302 | the `keyup` listener with the shift captured at keydown |
| Handlers.PointerDown | script.js:307-312 | `onPointerDown` with the current `capsLock` |
| Handlers.PointerUp | script.js:313-317 | `onPointerUp` with the `capsLock` of release time |
| Handlers.UpdateSound | script.js:330-342 | `updateSound`: the sound of the nearest stop by `Math.abs(stop - angle)` |
| Handlers.MouseMove | script.js:349-358 | a move during a drag sets the angle and updates the sound; otherwise nothing |
| Handlers.MouseUp | script.js:360-366 | the end of a drag snaps the sound to the angle |
| Handlers.SelectLabel | script.js:369-379 | a label click sets the angle to its stop and updates the sound |
| Handlers.Step | script.js:280-379 | each input goes to its listener |
| Handlers.InitialInvariant | script.js:391-393 | the page starts well formed, with nothing held, and its sound is the one `updateSound` picks at the initial angle |
| Handlers.RepeatIgnored | script.js:281-282 | an auto-repeat or a held code starts and records nothing; only CapsLock may flip |
| Handlers.UnmappedKeyIgnored | script.js:284-286 | a key with no note starts and records nothing |
| Handlers.CapsLockToggles | script.js:304-305 | each CapsLock keydown flips the flag, repeats included; no other key does |
| Handlers.MappedKeyStarts | script.js:281-291 | a fresh mapped key records its note and shift, never hits a bad pitch, and leaves the shifted name sounding |
| Handlers.KeyDownPlays | script.js:281-291 | a fresh press of a key with a note records the note with its shift and starts it at the shifted octave |
| Handlers.KeyUpUnheldNoop | script.js:294-296 | a keyup for a code that is not held changes nothing |
| Handlers.KeyUpStopsRecordedNote | script.js:294-302 | keyup forgets exactly that code, keeps every other held key as it was, and silences the name it started, using the shift captured at keydown |
| Handlers.KeyPressRoundTrip | script.js:281-302 | press then release restores the voice table and held keys, even if sound or CapsLock changed meanwhile |
| Handlers.PointerReleaseAfterCapsLockFlip | script.js:307-317 | an on-screen key released after CapsLock flips stops C6 instead of C4, so C4 keeps sounding |
| Handlers.SoundChangeKeepsVoices | script.js:330-379 | knob and label inputs never touch voices, commands or held keys |
| Handlers.SelectLabelSelects | script.js:369-373 | a label click sets the angle to its stop and, with the code's distance, selects its sound |
| Handlers.MoveWithoutDragIgnored | script.js:349-350 | pointer moves without a drag change nothing |
| Handlers.StepPreservesInvariant | script.js:280-389 | every input keeps the table well formed, and keeps every held key on a mapped note |
| Handlers.KeyDownKeepsInvariant | script.js:281-305 | a key press keeps the table well formed and records only notes some key plays |
| Handlers.MappedKeyKeepsInvariant | script.js:281-291 | the same for a fresh press of a key with a note |
| Handlers.KeyUpKeepsInvariant | script.js:294-302 | a key release keeps the invariant |
| Handlers.RunPreservesInvariant | script.js:280-389 | any input sequence keeps the invariant |
| App.Instrument.constructor | script.js:13-15 | the initial fields are the initial snapshot |
| App.Instrument.CreateNode | script.js:126-128 | hands out the next node handle and changes nothing else |
| App.Instrument.OrganSetup | script.js:62-76 | the harmonic loop creates an oscillator and a gain per upper harmonic and starts each oscillator |
| App.Instrument.Setup | script.js:39-103 | each profile's setup creates its nodes, starts its extra sources and returns their handles |
| App.Instrument.StartNote | script.js:121-148 | the in-place `startNote` yields exactly the snapshot and outcome of `Polyphony.StartNote` |
| App.Instrument.StopEach | script.js:162-166 | stops each node in order at one time |
| App.Instrument.StopNote | script.js:150-169 | the in-place `stopNote` yields exactly `Polyphony.StopNote` |
| App.Instrument.KeyDown | script.js:281-305 | both keydown listeners yield `Handlers.KeyDown` |
| App.Instrument.KeyUp | script.js:294-302 | the keyup listener yields `Handlers.KeyUp` |
| App.Instrument.PointerDown | script.js:307-312 | `onPointerDown` yields `Handlers.PointerDown` |
| App.Instrument.PointerUp | script.js:313-317 | `onPointerUp` yields `Handlers.PointerUp` |
| App.Instrument.UpdateSound | script.js:330-342 | `updateSound` yields `Handlers.UpdateSound` |
| App.Instrument.KnobMouseDown | script.js:344-347 | grabbing the knob starts a drag and changes nothing else |
| App.Instrument.MouseMove | script.js:349-358 | the mousemove listener yields `Handlers.MouseMove` |
| App.Instrument.MouseUp | script.js:360-366 | the mouseup listener yields `Handlers.MouseUp` |
| App.Instrument.SelectLabel | script.js:369-379 | a label click yields `Handlers.SelectLabel` |
| App.Instrument.Handle | script.js:280-389 | dispatching any input yields `Handlers.Step` |

## Left out

- WebAudio node settings and wiring are not modelled: oscillator types, filter settings, detune, harmonic gain values, LFO and delay parameters, `connect` calls and the compressor settings. The command log holds only the gain automation and the source starts and stops.
- Audio rendering is not modelled. The audio clock `ctx.currentTime` is a parameter `now`, and `ctx.resume()` is omitted.
- The float `440 * Math.pow(2, d / 12)` is not computed. A frequency is its semitone distance from A4.
- The `Math.random()` detune and LFO rates are not modelled. They only set node parameters.
- `Math.atan2` and the knob geometry are not modelled: the drag angle is a parameter. The range (-90, 270] that the drag handler produces is stated in the lemmas that use it.
- The DOM is not modelled: `pressVisual`, the knob's CSS rotation and transition, the `setTimeout` that clears the transition, the labels' `active` class, pixel widths and key elements. `Knob.Stop` and `Knob.Index` give the rotation and the lit label.
- Black keys without an index are not drawn, so they receive no pointer events. On-screen presses and releases (`mousedown`, `mouseup`, `mouseleave`, `touchstart`, `touchend`) arrive as inputs carrying the key's note.
- The octave toggle only calls `drawKeyboard`, so no input for it is modelled. Its list logic is `Layout.DrawKeyboard`. The available octave counts come from the page markup, which is not part of this model.
- Keys.KeyToNote: properties the object inherits (`constructor`, `toString` and the like) are not modelled; no lower-cased key value is one of their names.
- `toLowerCase` is modelled for ASCII letters only. Other characters are kept unchanged.
- The cosmic profile's delay and feedback nodes are never stopped or disconnected, in the model as in the code.
- Layout.BlackKeysIndexed: stated for at most six extra octaves only. From octave 10 on, the index is not found (`Layout.HighOctaveBlackKeyUnindexed`).
- Layout.BlackKeyIndicesIncrease: stated for at most six extra octaves, for the same reason.
- Times, gains, velocities and knob angles are Dafny `real`s, exact rationals, not JavaScript doubles: rounding is not modelled.

## Findings

| source | as written | input that shows it | evidently intended | confidence | as-written member | corrected member |
|---|---|---|---|---|---|---|
| script.js:330-333 | `updateSound` measures the distance to each stop as `Math.abs(stop - angle)`. The drag handler (script.js:354) reports angles in (-90, 270], while the stops are -120, -156, 156, 120 | dragging to the piano mark at eight o'clock gives angle 240 and selects the organ (stop 156). No drag angle selects the synth | measure the distance round the dial (modulo 360), so that 240 is the piano stop -120 and every stop is reachable by dragging | not executed | Knob.DragToPianoMarkSelectsOrgan | Knob.DragReachesEverySound |
