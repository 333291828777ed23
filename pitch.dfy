/** Pitch resolution (script.js, `pitchIndex` and `freqOf`) and the
    octave-shifted note names used as keys of the active-voice table. */
module Pitch {
  import opened Wrappers
  import opened Text

  /** Semitone offset within the octave for each of the 17 accepted spellings. */
  const PitchIndex: map<string, nat> := map[
    "C" := 0, "C#" := 1, "Db" := 1, "D" := 2, "D#" := 3, "Eb" := 3, "E" := 4,
    "F" := 5, "F#" := 6, "Gb" := 6, "G" := 7, "G#" := 8, "Ab" := 8, "A" := 9,
    "A#" := 10, "Bb" := 10, "B" := 11]

  /** The sharp and flat spelling of each black key. */
  const EnharmonicPairs: seq<(string, string)> :=
    [("C#", "Db"), ("D#", "Eb"), ("F#", "Gb"), ("G#", "Ab"), ("A#", "Bb")]

  /** Absolute semitone number of the tuning reference A4. */
  const A4Number: int := 4 * 12 + 9

  /** A frequency of 12-tone equal temperament, 440 * 2^(stepsFromA4 / 12) Hz.
      The power of two is not computed. */
  datatype Frequency = EqualTempered(stepsFromA4: int)

  /** `parseInt(note.at(-1), 10)`: the trailing octave digit, or None for NaN. */
  function OctaveDigit(note: string): Option<nat> {
    if |note| > 0 && IsDigit(note[|note| - 1]) then Some(DigitValue(note[|note| - 1])) else None
  }

  /** `note.slice(0, -1)`: the pitch-class spelling. */
  function PitchClass(note: string): string {
    DropLast(note)
  }

  /** `freqOf(note, octaveOffset)`; None stands for the NaN produced by an
      unknown pitch class or a missing octave digit. */
  function FreqOf(note: string, octaveOffset: int): Option<Frequency> {
    match OctaveDigit(note)
    case None => None
    case Some(d) =>
      if PitchClass(note) !in PitchIndex then None
      else
        var noteNum := (d + octaveOffset) * 12 + PitchIndex[PitchClass(note)];
        Some(EqualTempered(noteNum - A4Number))
  }

  /** The octave-shifted name built by `startNote`, `stopNote` and
      `pressVisual`: the pitch class followed by the shifted octave number
      (or "NaN" when there is no octave digit). */
  function OffsetName(note: string, octaveOffset: int): string {
    PitchClass(note) + match OctaveDigit(note)
      case Some(d) => IntToString(d + octaveOffset)
      case None => "NaN"
  }

  /** A note name made of a pitch-class spelling and one octave digit. */
  function NoteName(pc: string, octave: nat): string
    requires octave < 10
  {
    pc + [DigitChar(octave)]
  }

  lemma NoteNameParts(pc: string, octave: nat)
    requires octave < 10
    ensures OctaveDigit(NoteName(pc, octave)) == Some(octave)
    ensures PitchClass(NoteName(pc, octave)) == pc
  {
    var n := NoteName(pc, octave);
    assert n[..|n| - 1] == pc;
  }

  /** The offsets are exactly the twelve semitones of an octave. */
  lemma PitchIndexCoversOctave()
    ensures PitchIndex.Values == {0, 1, 2, 3, 4, 5, 6, 7, 8, 9, 10, 11}
  {
    var names := ["C", "C#", "D", "D#", "E", "F", "F#", "G", "G#", "A", "A#", "B"];
    forall k: nat | k < 12 ensures k in PitchIndex.Values {
      assert PitchIndex[names[k]] == k;
    }
  }

  /** Two spellings share an offset exactly when they are the same spelling
      or the two spellings of one black key. */
  lemma SameOffsetIffEnharmonic(a: string, b: string)
    requires a in PitchIndex && b in PitchIndex
    ensures PitchIndex[a] == PitchIndex[b] <==>
      a == b || (a, b) in EnharmonicPairs || (b, a) in EnharmonicPairs
  {
  }

  /** Enharmonic spellings resolve to the same frequency in every octave and
      under every octave offset. */
  lemma {:induction false} EnharmonicSameFrequency(i: nat, octave: nat, octaveOffset: int)
    requires i < |EnharmonicPairs| && octave < 10
    ensures var (sharp, flat) := EnharmonicPairs[i];
      FreqOf(NoteName(sharp, octave), octaveOffset).Some? &&
      FreqOf(NoteName(sharp, octave), octaveOffset) == FreqOf(NoteName(flat, octave), octaveOffset)
  {
    var (sharp, flat) := EnharmonicPairs[i];
    NoteNameParts(sharp, octave);
    NoteNameParts(flat, octave);
  }

  /** The resolved distance from A4 is (octave + offset) * 12 + offset-in-octave - 57. */
  lemma {:induction false} FreqOfSemitones(pc: string, octave: nat, octaveOffset: int)
    requires pc in PitchIndex && octave < 10
    ensures FreqOf(NoteName(pc, octave), octaveOffset)
      == Some(EqualTempered((octave + octaveOffset) * 12 + PitchIndex[pc] - A4Number))
  {
    NoteNameParts(pc, octave);
  }

  /** A4 is the reference pitch: distance 0, that is 440 Hz. */
  lemma A4IsReference()
    ensures FreqOf("A4", 0) == Some(EqualTempered(0))
  {
    NoteNameParts("A", 4);
    assert NoteName("A", 4) == "A4";
  }

  /** Resolution fails for a spelling outside the table or a missing octave digit. */
  lemma {:induction false} FreqOfFails(note: string, octaveOffset: int)
    ensures FreqOf(note, octaveOffset).None? <==>
      OctaveDigit(note).None? || PitchClass(note) !in PitchIndex
  {
  }

  /** The pitch rises strictly with the octave digit, with the octave offset,
      and with the offset within the octave. */
  lemma {:induction false} FreqOfMonotone(pc1: string, o1: nat, k1: int, pc2: string, o2: nat, k2: int)
    requires pc1 in PitchIndex && pc2 in PitchIndex && o1 < 10 && o2 < 10
    requires o1 + k1 < o2 + k2 || (o1 + k1 == o2 + k2 && PitchIndex[pc1] < PitchIndex[pc2])
    ensures FreqOf(NoteName(pc1, o1), k1).value.stepsFromA4 < FreqOf(NoteName(pc2, o2), k2).value.stepsFromA4
  {
    FreqOfSemitones(pc1, o1, k1);
    FreqOfSemitones(pc2, o2, k2);
    PitchIndexCoversOctave();
  }

  /** With no offset, the shifted name is the name itself. */
  lemma {:induction false} OffsetNameZero(note: string)
    requires OctaveDigit(note).Some?
    ensures OffsetName(note, 0) == note
  {
    var c := note[|note| - 1];
    SingleDigitText(c);
  }

  /** The name keyed in the active table resolves, with no further offset, to
      the frequency the voice was started with, as long as the shifted octave
      stays a single digit. */
  lemma {:induction false} OffsetNameKeepsFrequency(note: string, octaveOffset: int)
    requires FreqOf(note, octaveOffset).Some?
    requires 0 <= OctaveDigit(note).value + octaveOffset < 10
    ensures FreqOf(OffsetName(note, octaveOffset), 0) == FreqOf(note, octaveOffset)
  {
    var d := OctaveDigit(note).value;
    var pc := PitchClass(note);
    assert OffsetName(note, octaveOffset) == NoteName(pc, d + octaveOffset);
    NoteNameParts(pc, d + octaveOffset);
  }
}
