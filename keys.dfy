/** The computer-keyboard mapping of script.js (`keyNoteMap`, `keyToNote`). */
module Keys {
  import opened Wrappers
  import opened Text
  import opened Pitch

  /** `keyNoteMap`, one entry per property. Every property name is a single
      character, so an entry is keyed by that character. The entries are
      listed in character order rather than in the order the object literal
      lists them: the literal names no key twice, so the order changes no
      lookup, and the ascending order is what shows that no key repeats. */
  const KeyNotes: seq<(char, string)> := SymbolKeys + LowLetterKeys + HighLetterKeys

  /** The entries keyed by punctuation or a digit. */
  const SymbolKeys: seq<(char, string)> := [
    (',', "C4"), ('.', "D4"), ('/', "E4"), ('0', "Eb5"), ('2', "Db4"), ('3', "Eb4"),
    ('5', "Gb4"), ('6', "Ab4"), ('7', "Bb4"), ('9', "Db5"), (';', "Eb4")]

  /** The entries keyed by a letter from `b` to `n`. */
  const LowLetterKeys: seq<(char, string)> := [
    ('b', "G3"), ('c', "E3"), ('d', "Eb3"), ('e', "E4"), ('g', "Gb3"), ('h', "Ab3"),
    ('i', "C5"), ('j', "Bb3"), ('l', "Db4"), ('m', "B3"), ('n', "A3")]

  /** The entries keyed by a letter from `o` to `z`. */
  const HighLetterKeys: seq<(char, string)> := [
    ('o', "D5"), ('p', "E5"), ('q', "C4"), ('r', "F4"), ('s', "Db3"), ('t', "G4"),
    ('u', "B4"), ('v', "F3"), ('w', "D4"), ('x', "D3"), ('y', "A4"), ('z', "C3")]

  /** The note of the first entry for `key`, or nothing when no entry is
      for `key`. */
  function Lookup(table: seq<(char, string)>, key: char): (r: Option<string>)
    ensures r.Some? ==> exists i :: 0 <= i < |table| && table[i] == (key, r.value)
    ensures r.None? ==> forall i :: 0 <= i < |table| ==> table[i].0 != key
  {
    if table == [] then None
    else if table[0].0 == key then Some(table[0].1)
    else Lookup(table[1..], key)
  }

  /** No key has two entries. */
  predicate DistinctKeys(table: seq<(char, string)>) {
    forall i, j :: 0 <= i < j < |table| ==> table[i].0 != table[j].0
  }

  /** Keys strictly increase from each entry to the next. */
  predicate Ascending(table: seq<(char, string)>) {
    forall i :: 0 < i < |table| ==> table[i - 1].0 < table[i].0
  }

  /** Keys that increase from entry to entry never repeat. */
  lemma {:induction false} AscendingDistinct(table: seq<(char, string)>)
    requires Ascending(table)
    ensures DistinctKeys(table)
  {
    forall i, j | 0 <= i < j < |table|
      ensures table[i].0 < table[j].0
    {
      AscendingBelow(table, i, j);
    }
  }

  /** Two ascending tables, the first ending below where the second starts,
      join into an ascending table. */
  lemma AscendingJoin(a: seq<(char, string)>, b: seq<(char, string)>)
    requires Ascending(a) && Ascending(b)
    requires a != [] && b != [] && a[|a| - 1].0 < b[0].0
    ensures Ascending(a + b)
  {
    forall i | 0 < i < |a + b|
      ensures (a + b)[i - 1].0 < (a + b)[i].0
    {
      if i < |a| {
        assert (a + b)[i - 1] == a[i - 1] && (a + b)[i] == a[i];
      } else if i == |a| {
        assert (a + b)[i - 1] == a[|a| - 1] && (a + b)[i] == b[0];
      } else {
        assert (a + b)[i - 1] == b[i - 1 - |a|] && (a + b)[i] == b[i - |a|];
      }
    }
  }

  lemma {:induction false} AscendingBelow(table: seq<(char, string)>, i: nat, j: nat)
    requires Ascending(table) && i < j < |table|
    ensures table[i].0 < table[j].0
    decreases j - i
  {
    if i + 1 < j {
      AscendingBelow(table, i, j - 1);
    }
  }

  /** In a table without repeated keys, looking up an entry's key finds
      that entry's note, as a property read does on the object. */
  lemma {:induction false} LookupFindsEntry(table: seq<(char, string)>, i: nat)
    requires DistinctKeys(table) && i < |table|
    ensures Lookup(table, table[i].0) == Some(table[i].1)
  {
    if i > 0 {
      assert DistinctKeys(table[1..]) by {
        forall a, b | 0 <= a < b < |table| - 1
          ensures table[1..][a].0 != table[1..][b].0
        {
          assert table[1..][a] == table[a + 1] && table[1..][b] == table[b + 1];
        }
      }
      assert table[0].0 != table[i].0;
      LookupFindsEntry(table[1..], i - 1);
      assert table[1..][i - 1] == table[i];
    }
  }

  /** `keyToNote(key)`: `keyNoteMap[key] || null`. A key value of any
      other length than one names no property. */
  function KeyToNote(key: string): Option<string> {
    if |key| == 1 then Lookup(KeyNotes, key[0]) else None
  }

  /** A note some key plays. */
  ghost predicate Mapped(note: string) {
    exists key :: KeyToNote(key) == Some(note)
  }

  /** A mapped note: a known spelling followed by an octave digit from 3 to 5. */
  predicate PlayableNote(note: string) {
    OctaveDigit(note).Some? && 3 <= OctaveDigit(note).value <= 5 && PitchClass(note) in PitchIndex
  }

  lemma PlayableNoteName(pc: string, octave: nat)
    requires pc in PitchIndex && 3 <= octave <= 5
    ensures PlayableNote(NoteName(pc, octave))
  {
    NoteNameParts(pc, octave);
  }

  /** The mapped notes of octave 3 are playable. */
  lemma Octave3Playable(note: string)
    requires note in {"C3", "D3", "E3", "F3", "G3", "A3", "B3", "Db3", "Eb3", "Gb3", "Ab3", "Bb3"}
    ensures PlayableNote(note)
  {
    if note == "C3" {
      assert note == NoteName("C", 3);
      PlayableNoteName("C", 3);
    } else if note == "D3" {
      assert note == NoteName("D", 3);
      PlayableNoteName("D", 3);
    } else if note == "E3" {
      assert note == NoteName("E", 3);
      PlayableNoteName("E", 3);
    } else if note == "F3" {
      assert note == NoteName("F", 3);
      PlayableNoteName("F", 3);
    } else if note == "G3" {
      assert note == NoteName("G", 3);
      PlayableNoteName("G", 3);
    } else if note == "A3" {
      assert note == NoteName("A", 3);
      PlayableNoteName("A", 3);
    } else if note == "B3" {
      assert note == NoteName("B", 3);
      PlayableNoteName("B", 3);
    } else if note == "Db3" {
      assert note == NoteName("Db", 3);
      PlayableNoteName("Db", 3);
    } else if note == "Eb3" {
      assert note == NoteName("Eb", 3);
      PlayableNoteName("Eb", 3);
    } else if note == "Gb3" {
      assert note == NoteName("Gb", 3);
      PlayableNoteName("Gb", 3);
    } else if note == "Ab3" {
      assert note == NoteName("Ab", 3);
      PlayableNoteName("Ab", 3);
    } else {
      assert note == NoteName("Bb", 3);
      PlayableNoteName("Bb", 3);
    }
  }

  /** The mapped notes of octave 4 are playable. */
  lemma Octave4Playable(note: string)
    requires note in {"C4", "D4", "E4", "F4", "G4", "A4", "B4", "Db4", "Eb4", "Gb4", "Ab4", "Bb4"}
    ensures PlayableNote(note)
  {
    if note == "C4" {
      assert note == NoteName("C", 4);
      PlayableNoteName("C", 4);
    } else if note == "D4" {
      assert note == NoteName("D", 4);
      PlayableNoteName("D", 4);
    } else if note == "E4" {
      assert note == NoteName("E", 4);
      PlayableNoteName("E", 4);
    } else if note == "F4" {
      assert note == NoteName("F", 4);
      PlayableNoteName("F", 4);
    } else if note == "G4" {
      assert note == NoteName("G", 4);
      PlayableNoteName("G", 4);
    } else if note == "A4" {
      assert note == NoteName("A", 4);
      PlayableNoteName("A", 4);
    } else if note == "B4" {
      assert note == NoteName("B", 4);
      PlayableNoteName("B", 4);
    } else if note == "Db4" {
      assert note == NoteName("Db", 4);
      PlayableNoteName("Db", 4);
    } else if note == "Eb4" {
      assert note == NoteName("Eb", 4);
      PlayableNoteName("Eb", 4);
    } else if note == "Gb4" {
      assert note == NoteName("Gb", 4);
      PlayableNoteName("Gb", 4);
    } else if note == "Ab4" {
      assert note == NoteName("Ab", 4);
      PlayableNoteName("Ab", 4);
    } else {
      assert note == NoteName("Bb", 4);
      PlayableNoteName("Bb", 4);
    }
  }

  /** The mapped notes of octave 5 are playable. */
  lemma Octave5Playable(note: string)
    requires note in {"C5", "D5", "E5", "Db5", "Eb5"}
    ensures PlayableNote(note)
  {
    if note == "C5" {
      assert note == NoteName("C", 5);
      PlayableNoteName("C", 5);
    } else if note == "D5" {
      assert note == NoteName("D", 5);
      PlayableNoteName("D", 5);
    } else if note == "E5" {
      assert note == NoteName("E", 5);
      PlayableNoteName("E", 5);
    } else if note == "Db5" {
      assert note == NoteName("Db", 5);
      PlayableNoteName("Db", 5);
    } else {
      assert note == NoteName("Eb", 5);
      PlayableNoteName("Eb", 5);
    }
  }

  /** Every entry's note is a known spelling with an octave digit from 3 to 5. */
  lemma EntryPlayable(i: nat)
    requires i < |KeyNotes|
    ensures PlayableNote(KeyNotes[i].1)
  {
    var note := KeyNotes[i].1;
    if note in {"C3", "D3", "E3", "F3", "G3", "A3", "B3", "Db3", "Eb3", "Gb3", "Ab3", "Bb3"} {
      Octave3Playable(note);
    } else if note in {"C4", "D4", "E4", "F4", "G4", "A4", "B4", "Db4", "Eb4", "Gb4", "Ab4", "Bb4"} {
      Octave4Playable(note);
    } else {
      Octave5Playable(note);
    }
  }

  /** Every note a key plays is a known spelling with an octave digit from 3 to 5. */
  lemma MappedNotePlayable(note: string)
    requires Mapped(note)
    ensures PlayableNote(note)
  {
    var key :| KeyToNote(key) == Some(note);
    var i :| 0 <= i < |KeyNotes| && KeyNotes[i] == (key[0], note);
    EntryPlayable(i);
  }

  /** The object literal names no key twice, so the table is a map. */
  lemma KeyNotesDistinct()
    ensures DistinctKeys(KeyNotes)
  {
    assert Ascending(SymbolKeys);
    assert Ascending(LowLetterKeys);
    assert Ascending(HighLetterKeys);
    AscendingJoin(SymbolKeys, LowLetterKeys);
    AscendingJoin(SymbolKeys + LowLetterKeys, HighLetterKeys);
    AscendingDistinct(KeyNotes);
  }

  /** Every key of the table plays the note its entry names. */
  lemma KeyPlaysEntry(i: nat)
    requires i < |KeyNotes|
    ensures KeyToNote([KeyNotes[i].0]) == Some(KeyNotes[i].1)
  {
    KeyNotesDistinct();
    LookupFindsEntry(KeyNotes, i);
  }

  /** Every key that plays a note plays a note that resolves to a pitch, with
      or without the two-octave shift, and whose shifted octave stays a
      single digit. */
  lemma MappedNotesResolve(key: string)
    ensures KeyToNote(key).Some? ==>
      var note := KeyToNote(key).value;
      PlayableNote(note) && FreqOf(note, 0).Some? && FreqOf(note, 2).Some?
      && OffsetName(note, 2) != OffsetName(note, 0)
  {
    if KeyToNote(key).Some? {
      MappedNotePlayable(KeyToNote(key).value);
      PlayableResolves(KeyToNote(key).value);
    }
  }

  /** A playable note resolves to a pitch with or without the two-octave
      shift, and the shift changes its name. */
  lemma PlayableResolves(note: string)
    requires PlayableNote(note)
    ensures FreqOf(note, 0).Some? && FreqOf(note, 2).Some?
    ensures OffsetName(note, 2) != OffsetName(note, 0)
  {
    var d := OctaveDigit(note).value;
    assert OffsetName(note, 2) == PitchClass(note) + NatToString(d + 2);
    assert OffsetName(note, 0) == PitchClass(note) + NatToString(d);
    SingleDigitText(note[|note| - 1]);
    assert NatToString(d + 2) == [DigitChar(d + 2)];
    assert DigitChar(d + 2) != DigitChar(d);
  }
}
