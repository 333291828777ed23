/** The list logic of `drawKeyboard` (script.js): the chromatic key names,
    the cut after the last E, the white/black split and the index of the
    white key each black key is drawn after. Pixel geometry and DOM
    elements are not modelled. */
module Layout {
  import opened Wrappers
  import opened Text
  import opened Sequences
  import opened Pitch

  const StartOctave: nat := 3

  /** The spellings `drawKeyboard` uses, in pitch order (flats only). */
  const NoteOrder: seq<string> := ["C", "Db", "D", "Eb", "E", "F", "Gb", "G", "Ab", "A", "Bb", "B"]

  const WhiteOrder: seq<string> := ["C", "D", "E", "F", "G", "A", "B"]

  const BlackOrder: seq<string> := ["Db", "Eb", "Gb", "Ab", "Bb"]

  /** For each black key of an octave, the position among the octave's white
      keys of the white key a semitone below it. */
  const LeftWhite: seq<nat> := [0, 1, 3, 4, 5]

  /** `noteName + octave`. */
  function KeyName(pc: string, octave: int): string {
    pc + IntToString(octave)
  }

  function Named(pcs: seq<string>, octave: int): (r: seq<string>)
    ensures |r| == |pcs|
  {
    seq(|pcs|, i requires 0 <= i < |pcs| => KeyName(pcs[i], octave))
  }

  /** `count` octaves of the spellings `pcs`, from the start octave up. */
  function Rows(pcs: seq<string>, count: nat): seq<string> {
    if count == 0 then [] else Rows(pcs, count - 1) + Named(pcs, StartOctave + count - 1)
  }

  /** The `fullKeyboard` list for `count` octaves. */
  function Chromatic(count: nat): seq<string> {
    Rows(NoteOrder, count)
  }

  /** `note.includes('#') || note.includes('b')`. */
  predicate IsBlackKey(note: string) {
    '#' in note || 'b' in note
  }

  /** The keys pushed onto the black list (`black`) or the white list (`!black`),
      in order. */
  function Keep(s: seq<string>, black: bool): seq<string> {
    if s == [] then []
    else Keep(s[..|s| - 1], black) + if IsBlackKey(s[|s| - 1]) == black then [s[|s| - 1]] else []
  }

  function EndNote(numOctaves: int): string {
    KeyName("E", StartOctave + numOctaves)
  }

  /** `finalKeyboard`: the chromatic list cut after the first occurrence of
      the end note (nothing at all when the end note does not occur). */
  function LayoutKeys(numOctaves: int): seq<string> {
    var full := Chromatic(if numOctaves + 1 > 0 then numOctaves + 1 else 0);
    full[..IndexOf(full, EndNote(numOctaves)) + 1]
  }

  /** The `switch` of `drawKeyboard`: the white key named after the black
      key's pitch class and its last character read as the octave. */
  function ReferenceNote(note: string): Option<string> {
    var octave := match OctaveDigit(note) case Some(d) => NatToString(d) case None => "NaN";
    var pc := PitchClass(note);
    if pc == "Db" then Some("C" + octave)
    else if pc == "Eb" then Some("D" + octave)
    else if pc == "Gb" then Some("F" + octave)
    else if pc == "Ab" then Some("G" + octave)
    else if pc == "Bb" then Some("A" + octave)
    else None
  }

  /** `whiteKeysPhysical.indexOf(referenceNote)`. */
  function BlackIndex(note: string, whites: seq<string>): int {
    match ReferenceNote(note)
    case None => -1
    case Some(ref) => IndexOf(whites, ref)
  }

  /** `blackBetweenIndex` after visiting `blacks` in order. */
  function BetweenIndex(blacks: seq<string>, whites: seq<string>): map<string, nat> {
    if blacks == [] then map[]
    else
      var b := blacks[|blacks| - 1];
      var m := BetweenIndex(blacks[..|blacks| - 1], whites);
      var idx := BlackIndex(b, whites);
      if idx == -1 then m else m[b := idx]
  }

  /** The nested loops of `drawKeyboard` that build `fullKeyboard`. */
  method BuildFullKeyboard(numOctaves: int) returns (full: seq<string>)
    ensures full == Chromatic(if numOctaves + 1 > 0 then numOctaves + 1 else 0)
  {
    full := [];
    var o := 0;
    while o < numOctaves + 1
      invariant 0 <= o <= if numOctaves + 1 > 0 then numOctaves + 1 else 0
      invariant full == Chromatic(o)
    {
      var row := Named(NoteOrder, StartOctave + o);
      var j := 0;
      while j < |NoteOrder|
        invariant 0 <= j <= |NoteOrder|
        invariant full == Chromatic(o) + row[..j]
      {
        assert row[..j + 1] == row[..j] + [KeyName(NoteOrder[j], StartOctave + o)];
        full := full + [KeyName(NoteOrder[j], StartOctave + o)];
        j := j + 1;
      }
      assert row[..j] == row;
      assert Chromatic(o + 1) == Chromatic(o) + row;
      o := o + 1;
    }
  }

  /** The `forEach` that splits the final keys into white and black lists. */
  method SplitKeys(keys: seq<string>) returns (whites: seq<string>, blacks: seq<string>)
    ensures whites == Keep(keys, false) && blacks == Keep(keys, true)
  {
    whites, blacks := [], [];
    var i := 0;
    while i < |keys|
      invariant 0 <= i <= |keys|
      invariant whites == Keep(keys[..i], false) && blacks == Keep(keys[..i], true)
    {
      assert keys[..i + 1][..i] == keys[..i];
      if IsBlackKey(keys[i]) {
        blacks := blacks + [keys[i]];
      } else {
        whites := whites + [keys[i]];
      }
      i := i + 1;
    }
    assert keys[..i] == keys;
  }

  /** The `forEach` that fills `blackBetweenIndex`. */
  method IndexBlackKeys(blacks: seq<string>, whites: seq<string>) returns (between: map<string, nat>)
    ensures between == BetweenIndex(blacks, whites)
  {
    between := map[];
    var k := 0;
    while k < |blacks|
      invariant 0 <= k <= |blacks|
      invariant between == BetweenIndex(blacks[..k], whites)
    {
      assert blacks[..k + 1][..k] == blacks[..k];
      var idx := BlackIndex(blacks[k], whites);
      if idx != -1 {
        between := between[blacks[k] := idx];
      }
      k := k + 1;
    }
    assert blacks[..k] == blacks;
  }

  /** The list computations of `drawKeyboard(numOctaves)`: the new
      `whiteKeysPhysical`, `blackKeysPhysical` and `blackBetweenIndex`. */
  method DrawKeyboard(numOctaves: int) returns (whites: seq<string>, blacks: seq<string>, between: map<string, nat>)
    ensures whites == Keep(LayoutKeys(numOctaves), false)
    ensures blacks == Keep(LayoutKeys(numOctaves), true)
    ensures between == BetweenIndex(blacks, whites)
  {
    var full := BuildFullKeyboard(numOctaves);
    var endIndex := IndexOf(full, KeyName("E", StartOctave + numOctaves));
    ghost var keys := LayoutKeys(numOctaves);
    assert full[..endIndex + 1] == keys;
    whites, blacks := SplitKeys(full[..endIndex + 1]);
    between := IndexBlackKeys(blacks, whites);
  }

  // ---------------------------------------------------------------------
  // Properties of the layout

  predicate NoDigits(s: string) {
    forall i :: 0 <= i < |s| ==> !IsDigit(s[i])
  }

  lemma SpellingsHaveNoDigits()
    ensures forall i :: 0 <= i < |NoteOrder| ==> NoDigits(NoteOrder[i])
  {
  }

  /** A key name is black exactly when its spelling is. */
  lemma KeyNameColour(pc: string, octave: nat)
    ensures IsBlackKey(KeyName(pc, octave)) == IsBlackKey(pc)
  {
    var d := NatToString(octave);
    assert forall i :: 0 <= i < |d| ==> d[i] != '#' && d[i] != 'b';
    assert KeyName(pc, octave) == pc + d;
  }

  lemma DigitsFollowSpelling(p: string, d: string, j: nat)
    requires NoDigits(p) && AllDigits(d) && j < |p + d|
    ensures IsDigit((p + d)[j]) <==> j >= |p|
  {
  }

  /** Different spellings or octaves give different key names. */
  lemma {:induction false} KeyNameInjective(p1: string, o1: nat, p2: string, o2: nat)
    requires NoDigits(p1) && NoDigits(p2)
    requires KeyName(p1, o1) == KeyName(p2, o2)
    ensures p1 == p2 && o1 == o2
  {
    var x := KeyName(p1, o1);
    var d1, d2 := NatToString(o1), NatToString(o2);
    assert x == p1 + d1 && x == p2 + d2;
    if |p1| < |p2| {
      DigitsFollowSpelling(p1, d1, |p1|);
      assert false;
    } else if |p2| < |p1| {
      DigitsFollowSpelling(p2, d2, |p2|);
      assert false;
    } else {
      assert p1 == x[..|p1|] == p2;
      assert d1 == x[|p1|..] == d2;
      NatToStringInjective(o1, o2);
    }
  }

  lemma KeyNamesDiffer(p1: string, o1: nat, p2: string, o2: nat)
    requires NoDigits(p1) && NoDigits(p2) && (p1 != p2 || o1 != o2)
    ensures KeyName(p1, o1) != KeyName(p2, o2)
  {
    if KeyName(p1, o1) == KeyName(p2, o2) {
      KeyNameInjective(p1, o1, p2, o2);
      assert false;
    }
  }

  lemma {:induction false} KeepAppend(a: seq<string>, b: seq<string>, black: bool)
    ensures Keep(a + b, black) == Keep(a, black) + Keep(b, black)
    decreases |b|
  {
    if b != [] {
      var b' := b[..|b| - 1];
      assert (a + b)[..|a + b| - 1] == a + b';
      KeepAppend(a, b', black);
    } else {
      assert a + b == a;
    }
  }

  lemma {:induction false} KeepNamed(pcs: seq<string>, octave: nat, black: bool)
    ensures Keep(Named(pcs, octave), black) == Named(Keep(pcs, black), octave)
    decreases |pcs|
  {
    if pcs != [] {
      var init := pcs[..|pcs| - 1];
      var last := pcs[|pcs| - 1];
      assert Named(pcs, octave)[..|pcs| - 1] == Named(init, octave);
      KeepNamed(init, octave, black);
      KeyNameColour(last, octave);
      var tail := if IsBlackKey(last) == black then [last] else [];
      assert Named(Keep(init, black) + tail, octave) == Named(Keep(init, black), octave) + Named(tail, octave);
    }
  }

  lemma {:induction false} KeepRows(pcs: seq<string>, count: nat, black: bool)
    ensures Keep(Rows(pcs, count), black) == Rows(Keep(pcs, black), count)
  {
    if count > 0 {
      KeepRows(pcs, count - 1, black);
      KeepAppend(Rows(pcs, count - 1), Named(pcs, StartOctave + count - 1), black);
      KeepNamed(pcs, StartOctave + count - 1, black);
    }
  }

  lemma KeepStep(s: seq<string>, k: nat, black: bool)
    requires k < |s|
    ensures Keep(s[..k + 1], black) == Keep(s[..k], black) + if IsBlackKey(s[k]) == black then [s[k]] else []
  {
    assert s[..k + 1][..k] == s[..k];
  }

  /** The flats are black, the naturals white. */
  lemma SpellingColours()
    ensures IsBlackKey("Db") && IsBlackKey("Eb") && IsBlackKey("Gb") && IsBlackKey("Ab") && IsBlackKey("Bb")
    ensures !IsBlackKey("C") && !IsBlackKey("D") && !IsBlackKey("E") && !IsBlackKey("F")
    ensures !IsBlackKey("G") && !IsBlackKey("A") && !IsBlackKey("B")
  {
    assert "Db"[1] == 'b' && "Eb"[1] == 'b' && "Gb"[1] == 'b' && "Ab"[1] == 'b' && "Bb"[1] == 'b';
  }

  /** An octave's spellings up to E, and from F on. */
  lemma OctaveHalves()
    ensures NoteOrder[..5] == ["C", "Db", "D", "Eb", "E"]
    ensures NoteOrder == NoteOrder[..5] + ["F", "Gb", "G", "Ab", "A", "Bb", "B"]
  {
  }

  lemma KeepLow(black: bool)
    ensures Keep(["C", "Db", "D", "Eb", "E"], black) == if black then ["Db", "Eb"] else ["C", "D", "E"]
  {
    var s := ["C", "Db", "D", "Eb", "E"];
    SpellingColours();
    assert s[..0] == [];
    KeepStep(s, 0, black);
    KeepStep(s, 1, black);
    KeepStep(s, 2, black);
    KeepStep(s, 3, black);
    KeepStep(s, 4, black);
    assert s[..5] == s;
  }

  lemma KeepHigh(black: bool)
    ensures Keep(["F", "Gb", "G", "Ab", "A", "Bb", "B"], black)
      == if black then ["Gb", "Ab", "Bb"] else ["F", "G", "A", "B"]
  {
    var s := ["F", "Gb", "G", "Ab", "A", "Bb", "B"];
    SpellingColours();
    assert s[..0] == [];
    KeepStep(s, 0, black);
    KeepStep(s, 1, black);
    KeepStep(s, 2, black);
    KeepStep(s, 3, black);
    KeepStep(s, 4, black);
    KeepStep(s, 5, black);
    KeepStep(s, 6, black);
    assert s[..7] == s;
  }

  lemma KeepOctaveWhite()
    ensures Keep(NoteOrder[..5], false) == WhiteOrder[..3]
    ensures Keep(NoteOrder, false) == WhiteOrder
  {
    OctaveHalves();
    KeepAppend(NoteOrder[..5], ["F", "Gb", "G", "Ab", "A", "Bb", "B"], false);
    KeepLow(false);
    KeepHigh(false);
  }

  lemma KeepOctaveBlack()
    ensures Keep(NoteOrder[..5], true) == BlackOrder[..2]
    ensures Keep(NoteOrder, true) == BlackOrder
  {
    OctaveHalves();
    KeepAppend(NoteOrder[..5], ["F", "Gb", "G", "Ab", "A", "Bb", "B"], true);
    KeepLow(true);
    KeepHigh(true);
  }

  /** Row `q` of `Rows(pcs, count)` holds the spellings of octave 3 + q, in order. */
  lemma {:induction false} RowsAt(pcs: seq<string>, count: nat, q: nat, r: nat)
    requires q < count && r < |pcs|
    ensures |Rows(pcs, count)| == |pcs| * count
    ensures |pcs| * q + r < |pcs| * count
    ensures Rows(pcs, count)[|pcs| * q + r] == KeyName(pcs[r], StartOctave + q)
  {
    var w := |pcs|;
    RowsLength(pcs, count - 1);
    assert w * count == w * (count - 1) + w;
    if q < count - 1 {
      RowsAt(pcs, count - 1, q, r);
    } else {
      assert w * q == w * (count - 1);
    }
  }

  lemma {:induction false} RowsLength(pcs: seq<string>, count: nat)
    ensures |Rows(pcs, count)| == |pcs| * count
  {
    if count > 0 {
      RowsLength(pcs, count - 1);
      assert |pcs| * count == |pcs| * (count - 1) + |pcs|;
    }
  }

  lemma {:induction false} LayoutKeysEndAt(numOctaves: nat)
    ensures var full := Chromatic(numOctaves + 1);
      |full| == 12 * numOctaves + 12 && IndexOf(full, EndNote(numOctaves)) == 12 * numOctaves + 4
  {
    var n := numOctaves;
    var full := Chromatic(n + 1);
    var e := EndNote(n);
    RowsAt(NoteOrder, n + 1, n, 4);
    forall i | 0 <= i < 12 * n + 4 ensures full[i] != e {
      EndNoteNotBefore(n, i);
    }
    IndexOfFirst(full, e, 12 * n + 4);
  }

  lemma ChromaticAt(count: nat, q: nat, r: nat)
    requires q < count && r < 12
    ensures |Chromatic(count)| == 12 * count && 12 * q + r < 12 * count
    ensures Chromatic(count)[12 * q + r] == KeyName(NoteOrder[r], StartOctave + q)
  {
    RowsAt(NoteOrder, count, q, r);
  }

  lemma EndNoteNotBefore(n: nat, i: nat)
    requires i < 12 * n + 4
    ensures |Chromatic(n + 1)| == 12 * n + 12 && Chromatic(n + 1)[i] != EndNote(n)
  {
    var q, r := i / 12, i % 12;
    assert i == 12 * q + r;
    ChromaticAt(n + 1, q, r);
    NameBeforeEndNote(n, q, r);
  }

  /** The name of chromatic key 12q + r, before the end note, is not the end note. */
  lemma NameBeforeEndNote(n: nat, q: nat, r: nat)
    requires r < 12 && 12 * q + r < 12 * n + 4
    ensures KeyName(NoteOrder[r], StartOctave + q) != EndNote(n)
  {
    SpellingsHaveNoDigits();
    assert q == n ==> r < 4;
    assert r != 4 ==> NoteOrder[r] != NoteOrder[4];
    assert EndNote(n) == KeyName(NoteOrder[4], StartOctave + n);
    if KeyName(NoteOrder[r], StartOctave + q) == EndNote(n) {
      KeyNameInjective(NoteOrder[r], StartOctave + q, NoteOrder[4], StartOctave + n);
      assert false;
    }
  }

  /** For n extra octaves the keys are the first 12n + 5 names of the
      chromatic run from C3: n full octaves, then C, Db, D, Eb and E of
      octave 3 + n, which is the last key. A negative count draws nothing. */
  lemma {:induction false} LayoutKeysShape(numOctaves: int)
    ensures numOctaves < 0 ==> LayoutKeys(numOctaves) == []
    ensures numOctaves >= 0 ==>
      var keys := LayoutKeys(numOctaves);
      |keys| == 12 * numOctaves + 5
      && keys == Chromatic(numOctaves + 1)[..12 * numOctaves + 5]
      && keys == Chromatic(numOctaves) + Named(NoteOrder[..5], StartOctave + numOctaves)
      && keys[|keys| - 1] == EndNote(numOctaves)
  {
    if numOctaves >= 0 {
      var n: nat := numOctaves;
      LayoutKeysEndAt(n);
      RowsLength(NoteOrder, n);
      var row := Named(NoteOrder, StartOctave + n);
      assert Chromatic(n + 1) == Chromatic(n) + row;
      assert Chromatic(n + 1)[..12 * n + 5] == Chromatic(n) + row[..5];
      assert row[..5] == Named(NoteOrder[..5], StartOctave + n);
    }
  }

  /** The white/black split loses nothing, adds nothing, and no key is on
      both sides. */
  lemma SplitIsPartition(s: seq<string>)
    ensures multiset(Keep(s, false)) + multiset(Keep(s, true)) == multiset(s)
    ensures forall x :: x in Keep(s, false) ==> !IsBlackKey(x)
    ensures forall x :: x in Keep(s, true) ==> IsBlackKey(x)
  {
    KeepMultiset(s);
    KeepColour(s, false);
    KeepColour(s, true);
  }

  lemma {:induction false} KeepMultiset(s: seq<string>)
    ensures multiset(Keep(s, false)) + multiset(Keep(s, true)) == multiset(s)
  {
    if s != [] {
      var init, last := s[..|s| - 1], s[|s| - 1];
      KeepMultiset(init);
      assert s == init + [last];
      assert multiset(s) == multiset(init) + multiset{last};
    }
  }

  lemma {:induction false} KeepColour(s: seq<string>, black: bool)
    ensures forall x :: x in Keep(s, black) ==> IsBlackKey(x) == black
  {
    if s != [] {
      KeepColour(s[..|s| - 1], black);
    }
  }

  /** The white keys, in order: n octaves of C D E F G A B, then C D E. */
  lemma {:induction false} LayoutWhites(numOctaves: nat)
    ensures Keep(LayoutKeys(numOctaves), false)
      == Rows(WhiteOrder, numOctaves) + Named(WhiteOrder[..3], StartOctave + numOctaves)
  {
    var n := numOctaves;
    LayoutKeysShape(n);
    KeepAppend(Chromatic(n), Named(NoteOrder[..5], StartOctave + n), false);
    KeepRows(NoteOrder, n, false);
    KeepNamed(NoteOrder[..5], StartOctave + n, false);
    KeepOctaveWhite();
  }

  /** The black keys, in order: n octaves of Db Eb Gb Ab Bb, then Db Eb. */
  lemma {:induction false} LayoutBlacks(numOctaves: nat)
    ensures Keep(LayoutKeys(numOctaves), true)
      == Rows(BlackOrder, numOctaves) + Named(BlackOrder[..2], StartOctave + numOctaves)
  {
    var n := numOctaves;
    LayoutKeysShape(n);
    KeepAppend(Chromatic(n), Named(NoteOrder[..5], StartOctave + n), true);
    KeepRows(NoteOrder, n, true);
    KeepNamed(NoteOrder[..5], StartOctave + n, true);
    KeepOctaveBlack();
  }

  /** White key 7q + r is the r-th white spelling of octave 3 + q. */
  lemma {:induction false} WhiteKeyAt(numOctaves: nat, q: nat, r: nat)
    requires r < 7 && 7 * q + r < 7 * numOctaves + 3
    ensures var ws := Keep(LayoutKeys(numOctaves), false);
      |ws| == 7 * numOctaves + 3 && ws[7 * q + r] == KeyName(WhiteOrder[r], StartOctave + q)
  {
    var n := numOctaves;
    var rows, tail := Rows(WhiteOrder, n), Named(WhiteOrder[..3], StartOctave + n);
    LayoutWhites(n);
    RowsLength(WhiteOrder, n);
    assert |rows| == 7 * n;
    if q < n {
      RowsAt(WhiteOrder, n, q, r);
      assert (rows + tail)[7 * q + r] == rows[7 * q + r];
    } else {
      assert q == n && r < 3;
      assert (rows + tail)[7 * q + r] == tail[r];
    }
  }

  /** Black key 5q + r is the r-th black spelling of octave 3 + q. */
  lemma {:induction false} BlackKeyAt(numOctaves: nat, q: nat, r: nat)
    requires r < 5 && 5 * q + r < 5 * numOctaves + 2
    ensures var bs := Keep(LayoutKeys(numOctaves), true);
      |bs| == 5 * numOctaves + 2 && bs[5 * q + r] == KeyName(BlackOrder[r], StartOctave + q)
  {
    var n := numOctaves;
    var rows, tail := Rows(BlackOrder, n), Named(BlackOrder[..2], StartOctave + n);
    LayoutBlacks(n);
    RowsLength(BlackOrder, n);
    assert |rows| == 5 * n;
    if q < n {
      RowsAt(BlackOrder, n, q, r);
      assert (rows + tail)[5 * q + r] == rows[5 * q + r];
    } else {
      assert q == n && r < 2;
      assert (rows + tail)[5 * q + r] == tail[r];
    }
  }

  /** The index map holds exactly the black keys whose reference white key
      was found, each with that key's position. */
  lemma {:induction false} BetweenIndexContents(blacks: seq<string>, whites: seq<string>)
    ensures forall b :: b in BetweenIndex(blacks, whites) <==> b in blacks && BlackIndex(b, whites) != -1
    ensures forall b :: b in BetweenIndex(blacks, whites) ==> BetweenIndex(blacks, whites)[b] == BlackIndex(b, whites)
  {
    if blacks != [] {
      var init := blacks[..|blacks| - 1];
      BetweenIndexContents(init, whites);
      assert blacks == init + [blacks[|blacks| - 1]];
    }
  }

  lemma KeyNameIsNoteName(pc: string, octave: nat)
    requires octave < 10
    ensures KeyName(pc, octave) == NoteName(pc, octave)
  {
  }

  /** The white spellings are distinct and hold no digits. */
  lemma WhiteSpellings()
    ensures forall r :: 0 <= r < 7 ==> NoDigits(WhiteOrder[r])
    ensures forall a, b :: 0 <= a < b < 7 ==> WhiteOrder[a] != WhiteOrder[b]
  {
    SpellingsHaveNoDigits();
    assert WhiteOrder == [NoteOrder[0], NoteOrder[2], NoteOrder[4], NoteOrder[5], NoteOrder[7], NoteOrder[9], NoteOrder[11]];
  }

  /** The name of white key 7q + j differs from the name of every white key
      7p + i before it. */
  lemma WhiteNameBefore(p: nat, i: nat, q: nat, j: nat)
    requires i < 7 && j < 7 && 7 * p + i < 7 * q + j
    ensures KeyName(WhiteOrder[i], StartOctave + p) != KeyName(WhiteOrder[j], StartOctave + q)
  {
    WhiteSpellings();
    assert p == q ==> i < j;
    KeyNamesDiffer(WhiteOrder[i], StartOctave + p, WhiteOrder[j], StartOctave + q);
  }

  /** White key k = 7p + i, before white key 7q + j, has a different name. */
  lemma WhiteKeyBefore(numOctaves: nat, q: nat, j: nat, p: nat, i: nat, k: nat)
    requires j < 7 && 7 * q + j < 7 * numOctaves + 3 && i < 7 && k == 7 * p + i && k < 7 * q + j
    ensures var ws := Keep(LayoutKeys(numOctaves), false);
      |ws| == 7 * numOctaves + 3 && ws[k] != KeyName(WhiteOrder[j], StartOctave + q)
  {
    WhiteKeyAt(numOctaves, p, i);
    WhiteNameBefore(p, i, q, j);
  }

  lemma WhiteKeyBeforeAt(numOctaves: nat, q: nat, j: nat, k: nat)
    requires j < 7 && 7 * q + j < 7 * numOctaves + 3 && k < 7 * q + j
    ensures var ws := Keep(LayoutKeys(numOctaves), false);
      |ws| == 7 * numOctaves + 3 && ws[k] != KeyName(WhiteOrder[j], StartOctave + q)
  {
    WhiteKeyBefore(numOctaves, q, j, k / 7, k % 7, k);
  }

  /** The white key found for a black key of a one-digit octave is the white
      key of the same octave a semitone below. */
  lemma BlackReference(q: nat, r: nat)
    requires StartOctave + q < 10 && r < 5
    ensures var b := KeyName(BlackOrder[r], StartOctave + q);
      var w := KeyName(WhiteOrder[LeftWhite[r]], StartOctave + q);
      ReferenceNote(b) == Some(w)
      && FreqOf(b, 0).Some? && FreqOf(w, 0).Some?
      && FreqOf(w, 0).value.stepsFromA4 + 1 == FreqOf(b, 0).value.stepsFromA4
  {
    var o := StartOctave + q;
    KeyNameIsNoteName(BlackOrder[r], o);
    KeyNameIsNoteName(WhiteOrder[LeftWhite[r]], o);
    NoteNameParts(BlackOrder[r], o);
    FreqOfSemitones(BlackOrder[r], o, 0);
    FreqOfSemitones(WhiteOrder[LeftWhite[r]], o, 0);
  }

  /** `indexOf` finds white key 7q + j at its own position. */
  lemma WhiteIndexOf(numOctaves: nat, q: nat, j: nat)
    requires j < 7 && 7 * q + j < 7 * numOctaves + 3
    ensures IndexOf(Keep(LayoutKeys(numOctaves), false), KeyName(WhiteOrder[j], StartOctave + q)) == 7 * q + j
  {
    var ws := Keep(LayoutKeys(numOctaves), false);
    var w := KeyName(WhiteOrder[j], StartOctave + q);
    WhiteKeyAt(numOctaves, q, j);
    forall k | 0 <= k < 7 * q + j ensures ws[k] != w {
      WhiteKeyBeforeAt(numOctaves, q, j, k);
    }
    IndexOfFirst(ws, w, 7 * q + j);
  }

  /** Black key 5q + r is indexed by white key 7q + LeftWhite[r], one
      semitone below it. */
  lemma {:induction false} BlackKeyPlacement(numOctaves: nat, q: nat, r: nat)
    requires numOctaves <= 6 && r < 5 && 5 * q + r < 5 * numOctaves + 2
    ensures var ws := Keep(LayoutKeys(numOctaves), false);
      var bs := Keep(LayoutKeys(numOctaves), true);
      var between := BetweenIndex(bs, ws);
      |bs| == 5 * numOctaves + 2 && |ws| == 7 * numOctaves + 3
      && bs[5 * q + r] in between
      && between[bs[5 * q + r]] == 7 * q + LeftWhite[r] < |ws|
      && FreqOf(bs[5 * q + r], 0).Some? && FreqOf(ws[7 * q + LeftWhite[r]], 0).Some?
      && FreqOf(ws[7 * q + LeftWhite[r]], 0).value.stepsFromA4 + 1 == FreqOf(bs[5 * q + r], 0).value.stepsFromA4
  {
    var n := numOctaves;
    var ws := Keep(LayoutKeys(n), false);
    var bs := Keep(LayoutKeys(n), true);
    var j := LeftWhite[r];
    BlackKeyAt(n, q, r);
    WhiteKeyAt(n, q, j);
    BlackReference(q, r);
    WhiteIndexOf(n, q, j);
    BetweenIndexContents(bs, ws);
  }

  /** Black key k is block k / 5, position k % 5, of the placement lemma. */
  lemma BlackKeyPlacementAt(numOctaves: nat, k: nat)
    requires numOctaves <= 6 && k < 5 * numOctaves + 2
    ensures var ws := Keep(LayoutKeys(numOctaves), false);
      var bs := Keep(LayoutKeys(numOctaves), true);
      var between := BetweenIndex(bs, ws);
      |bs| == 5 * numOctaves + 2
      && bs[k] in between && between[bs[k]] == 7 * (k / 5) + LeftWhite[k % 5] < |ws|
      && FreqOf(bs[k], 0).Some? && FreqOf(ws[between[bs[k]]], 0).Some?
      && FreqOf(ws[between[bs[k]]], 0).value.stepsFromA4 + 1 == FreqOf(bs[k], 0).value.stepsFromA4
  {
    assert k == 5 * (k / 5) + k % 5;
    BlackKeyPlacement(numOctaves, k / 5, k % 5);
  }

  lemma LeftWhiteIncreasing(k: nat, k': nat)
    requires k < k'
    ensures 7 * (k / 5) + LeftWhite[k % 5] < 7 * (k' / 5) + LeftWhite[k' % 5]
  {
    assert k == 5 * (k / 5) + k % 5 && k' == 5 * (k' / 5) + k' % 5;
  }

  /** With at most six extra octaves (single-digit octave numbers), every
      black key is indexed by the white key a semitone below it. */
  lemma BlackKeysIndexed(numOctaves: nat)
    requires numOctaves <= 6
    ensures var ws := Keep(LayoutKeys(numOctaves), false);
      var bs := Keep(LayoutKeys(numOctaves), true);
      var between := BetweenIndex(bs, ws);
      forall k :: 0 <= k < |bs| ==>
        bs[k] in between && between[bs[k]] < |ws|
        && FreqOf(bs[k], 0).Some? && FreqOf(ws[between[bs[k]]], 0).Some?
        && FreqOf(ws[between[bs[k]]], 0).value.stepsFromA4 + 1 == FreqOf(bs[k], 0).value.stepsFromA4
  {
    BlackKeyAt(numOctaves, 0, 0);
    forall k | 0 <= k < 5 * numOctaves + 2 {
      BlackKeyPlacementAt(numOctaves, k);
    }
  }

  /** ... and the indices strictly increase along the black keys. */
  lemma BlackKeyIndicesIncrease(numOctaves: nat)
    requires numOctaves <= 6
    ensures var ws := Keep(LayoutKeys(numOctaves), false);
      var bs := Keep(LayoutKeys(numOctaves), true);
      var between := BetweenIndex(bs, ws);
      forall k, k' :: 0 <= k < k' < |bs| ==>
        bs[k] in between && bs[k'] in between && between[bs[k]] < between[bs[k']]
  {
    var ws := Keep(LayoutKeys(numOctaves), false);
    var bs := Keep(LayoutKeys(numOctaves), true);
    var between := BetweenIndex(bs, ws);
    BlackKeyAt(numOctaves, 0, 0);
    forall k, k' | 0 <= k < k' < |bs|
      ensures bs[k] in between && bs[k'] in between && between[bs[k]] < between[bs[k']]
    {
      BlackKeyPlacementAt(numOctaves, k);
      BlackKeyPlacementAt(numOctaves, k');
      LeftWhiteIncreasing(k, k');
    }
  }

  /** From seven extra octaves on, octave 10 is drawn and its black keys get
      no index: the octave is read from the last character only. */
  lemma HighOctaveBlackKeyUnindexed(numOctaves: nat)
    requires numOctaves >= 7
    ensures var ws := Keep(LayoutKeys(numOctaves), false);
      var bs := Keep(LayoutKeys(numOctaves), true);
      "Db10" in bs && "Db10" !in BetweenIndex(bs, ws)
  {
    var ws, bs := Keep(LayoutKeys(numOctaves), false), Keep(LayoutKeys(numOctaves), true);
    BlackKeyAt(numOctaves, 7, 0);
    OctaveTenUnreferenced();
    assert bs[35] == "Db10";
    BetweenIndexContents(bs, ws);
    assert BlackIndex("Db10", ws) == -1;
  }

  /** `Db10` is a key name, but its last character reads as octave 0 and
      what comes before it is no known spelling. */
  lemma OctaveTenUnreferenced()
    ensures KeyName(BlackOrder[0], StartOctave + 7) == "Db10"
    ensures ReferenceNote("Db10") == None
  {
    assert NatToString(10) == "10";
    assert PitchClass("Db10") == "Db1";
  }
}
