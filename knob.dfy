/** The sound-selector knob of script.js (`soundStops`, `sounds`,
    `updateSound`): an angle in degrees, measured clockwise from twelve
    o'clock, is snapped to the nearest of four marked stops. */
module Knob {
  import opened Sequences
  import opened Profiles

  /** Knob stops in degrees, in label order. */
  const SoundStops: seq<int> := [-120, -156, 156, 120]
  const Sounds: seq<Sound> := [Piano, Synth, Organ, Cosmic]
  /** `currentAngle` before any interaction. */
  const InitialAngle: int := -120

  function Abs(x: real): (r: real)
    ensures r >= 0.0 && (r == x || r == -x)
  {
    if x < 0.0 then -x else x
  }

  /** `Math.abs(stop - angle)`: the distance as written, blind to the fact
      that `a` and `a + 360` are the same knob position. */
  function LinearDistance(stop: int, angle: real): (d: real)
    ensures d >= 0.0
    ensures d == 0.0 <==> angle == stop as real
  {
    Abs(stop as real - angle)
  }

  /** The angle between two knob positions, going the shorter way round. */
  function DialDistance(stop: int, angle: real): (d: real)
    ensures 0.0 <= d <= 180.0
  {
    var x := stop as real - angle;
    var m := x - 360.0 * (x / 360.0).Floor as real;
    if m <= 180.0 then m else 360.0 - m
  }

  /** How the distance from the angle to a stop is measured: as the code
      does, or round the dial. */
  datatype Metric = Linear | RoundDial

  function Distance(m: Metric, stop: int, angle: real): real {
    match m
    case Linear => LinearDistance(stop, angle)
    case RoundDial => DialDistance(stop, angle)
  }

  /** The reducer's choice: the current stop replaces the one kept so far
      only when it is strictly nearer. */
  function Nearer(prev: int, curr: int, m: Metric, angle: real): (r: int)
    ensures r == prev || r == curr
    ensures Distance(m, r, angle) <= Distance(m, prev, angle)
    ensures Distance(m, r, angle) <= Distance(m, curr, angle)
    ensures r == curr && curr != prev <==> Distance(m, curr, angle) < Distance(m, prev, angle)
  {
    if Distance(m, curr, angle) < Distance(m, prev, angle) then curr else prev
  }

  /** `reduce` without an initial value, folding `Nearer` from the front. */
  function Reduce(prev: int, rest: seq<int>, m: Metric, angle: real): (r: int)
    ensures r == prev || r in rest
    ensures Distance(m, r, angle) <= Distance(m, prev, angle)
    ensures forall s :: s in rest ==> Distance(m, r, angle) <= Distance(m, s, angle)
    ensures r != prev ==> Distance(m, r, angle) < Distance(m, prev, angle)
    ensures r != prev ==>
      forall i :: 0 <= i < IndexOf(rest, r) ==> Distance(m, r, angle) < Distance(m, rest[i], angle)
    decreases |rest|
  {
    if rest == [] then prev
    else
      var next := Nearer(prev, rest[0], m, angle);
      var r := Reduce(next, rest[1..], m, angle);
      assert r != rest[0] && r in rest ==> IndexOf(rest, r) == IndexOf(rest[1..], r) + 1;
      assert forall s :: s in rest ==> s == rest[0] || s in rest[1..];
      r
  }

  /** The stop `updateSound` turns the knob to: a stop of least distance,
      and among equally near stops the first one listed. */
  function Closest(stops: seq<int>, m: Metric, angle: real): (r: int)
    requires |stops| > 0
    ensures r in stops
    ensures forall s :: s in stops ==> Distance(m, r, angle) <= Distance(m, s, angle)
    ensures forall i :: 0 <= i < IndexOf(stops, r) ==> Distance(m, r, angle) < Distance(m, stops[i], angle)
  {
    var r := Reduce(stops[0], stops[1..], m, angle);
    assert stops == [stops[0]] + stops[1..];
    assert r != stops[0] ==> IndexOf(stops, r) == IndexOf(stops[1..], r) + 1;
    r
  }

  /** The knob rotation after `updateSound(angle)`. */
  function Stop(m: Metric, angle: real): (r: int)
    ensures r in SoundStops
  {
    Closest(SoundStops, m, angle)
  }

  /** The label index lit after `updateSound(angle)`. */
  function Index(m: Metric, angle: real): (i: nat)
    ensures i < |Sounds| && SoundStops[i] == Stop(m, angle)
  {
    IndexOf(SoundStops, Stop(m, angle))
  }

  /** The sound selected at `angle` by the code as written. */
  function SoundFor(angle: real): Sound {
    Sounds[Index(Linear, angle)]
  }

  /** The knob rotation and lit label when distance is measured round the dial. */
  function DialStop(angle: real): int {
    Stop(RoundDial, angle)
  }

  function DialIndex(angle: real): nat {
    Index(RoundDial, angle)
  }

  /** The sound selected at `angle` when distance is measured round the dial. */
  function SoundForDial(angle: real): Sound {
    Sounds[DialIndex(angle)]
  }

  /** Every sound has one stop and every stop one sound. */
  lemma StopsMatchSounds()
    ensures |SoundStops| == |Sounds| == 4
    ensures forall i, j :: 0 <= i < j < 4 ==> SoundStops[i] != SoundStops[j] && Sounds[i] != Sounds[j]
  {
  }

  /** The position of a sound's label. */
  function LabelOf(s: Sound): (i: nat)
    ensures i < 4 && Sounds[i] == s
  {
    match s
    case Piano => 0
    case Synth => 1
    case Organ => 2
    case Cosmic => 3
  }

  /** `Closest` is characterised by its contract: a stop of least distance
      that is strictly nearer than every stop listed before it. */
  lemma ClosestUnique(stops: seq<int>, m: Metric, angle: real, r: int)
    requires r in stops
    requires forall s :: s in stops ==> Distance(m, r, angle) <= Distance(m, s, angle)
    requires forall i :: 0 <= i < IndexOf(stops, r) ==> Distance(m, r, angle) < Distance(m, stops[i], angle)
    ensures Closest(stops, m, angle) == r
  {
    var c := Closest(stops, m, angle);
    var ic, ir := IndexOf(stops, c), IndexOf(stops, r);
    assert 0 <= ic && stops[ic] == c && 0 <= ir && stops[ir] == r;
    var dc, dr := Distance(m, c, angle), Distance(m, r, angle);
    assert dc <= dr && dr <= dc;
    assert ic < ir ==> dr < dc;
    assert ir < ic ==> dc < dr;
    assert ic == ir;
  }

  /** Two angles at the same distance from every stop select the same stop. */
  lemma SameDistancesSameStop(m: Metric, a: real, b: real)
    requires forall i :: 0 <= i < |SoundStops| ==> Distance(m, SoundStops[i], a) == Distance(m, SoundStops[i], b)
    ensures Stop(m, a) == Stop(m, b)
  {
    var r := Stop(m, b);
    forall s | s in SoundStops
      ensures Distance(m, s, a) == Distance(m, s, b)
    {
      var i := IndexOf(SoundStops, s);
    }
    ClosestUnique(SoundStops, m, a, r);
  }

  /** A stop at distance zero from the angle, with every earlier stop
      farther away, is where the knob snaps. */
  lemma StopAtZero(m: Metric, i: nat, angle: real)
    requires i < 4 && Distance(m, SoundStops[i], angle) == 0.0
    requires forall j :: 0 <= j < i ==> Distance(m, SoundStops[j], angle) > 0.0
    ensures Stop(m, angle) == SoundStops[i] && Index(m, angle) == i
  {
    StopsMatchSounds();
    IndexOfFirst(SoundStops, SoundStops[i], i);
    forall s | s in SoundStops
      ensures Distance(m, SoundStops[i], angle) <= Distance(m, s, angle)
    {
      if m == RoundDial {
        assert DialDistance(s, angle) >= 0.0;
      } else {
        assert LinearDistance(s, angle) >= 0.0;
      }
    }
    ClosestUnique(SoundStops, m, angle, SoundStops[i]);
  }

  /** Within less than a full turn, the dial distance is zero only at the
      stop itself. */
  lemma DialZeroNear(stop: int, angle: real)
    requires -360.0 < stop as real - angle < 360.0
    ensures DialDistance(stop, angle) == 0.0 <==> stop as real == angle
  {
    var x := stop as real - angle;
    if x < 0.0 {
      assert (x / 360.0).Floor == -1;
    } else {
      assert (x / 360.0).Floor == 0;
    }
  }

  /** `Stop` folds `Nearer` over the four stops in label order. */
  lemma StopUnrolled(m: Metric, angle: real)
    ensures Stop(m, angle)
      == Nearer(Nearer(Nearer(-120, -156, m, angle), 156, m, angle), 120, m, angle)
  {
    var first := Nearer(-120, -156, m, angle);
    var second := Nearer(first, 156, m, angle);
    assert SoundStops[1..] == [-156, 156, 120];
    assert [-156, 156, 120][1..] == [156, 120];
    assert [156, 120][1..] == [120];
    assert Reduce(second, [120], m, angle) == Nearer(second, 120, m, angle);
    assert Reduce(first, [156, 120], m, angle) == Reduce(second, [120], m, angle);
  }

  /** The drag handler's angle, `atan2(...) * 180 / PI + 90`, lies in
      (-90, 270]. As written, no angle there is nearer to the synth stop
      (-156) than to the piano stop (-120), so dragging never selects the
      synth. */
  lemma DragNeverSelectsSynth(angle: real)
    requires -90.0 < angle <= 270.0
    ensures SoundFor(angle) != Synth
  {
    assert Nearer(-120, -156, Linear, angle) == -120;
    StopUnrolled(Linear, angle);
    assert Stop(Linear, angle) != SoundStops[1];
    assert Index(Linear, angle) != 1;
  }

  /** Dragging the pointer to the piano mark at eight o'clock, which the drag
      handler reports as 240 degrees, selects the organ as written. */
  lemma DragToPianoMarkSelectsOrgan()
    ensures DialDistance(-120, 240.0) == 0.0
    ensures SoundFor(240.0) == Organ
  {
    assert SoundStops[1..][1..][1..] == [120];
    assert Stop(Linear, 240.0) == 156;
  }

  /** `angle` turned `turns` full circles further. */
  function Turned(angle: real, turns: int): real {
    angle + 360.0 * turns as real
  }

  /** Turning the knob a full circle does not change the dial distance. */
  lemma DialDistancePeriodic(stop: int, angle: real, turns: int)
    ensures DialDistance(stop, Turned(angle, turns)) == DialDistance(stop, angle)
  {
    var x := stop as real - angle;
    var y := x - 360.0 * turns as real;
    assert y / 360.0 == x / 360.0 - turns as real;
    assert (y / 360.0).Floor == (x / 360.0).Floor - turns;
  }

  /** Two angles equally far round the dial from every stop select the
      same stop, label and sound. */
  lemma SameDialDistancesSameSound(a: real, b: real)
    requires forall i :: 0 <= i < |SoundStops| ==> DialDistance(SoundStops[i], a) == DialDistance(SoundStops[i], b)
    ensures DialStop(a) == DialStop(b) && DialIndex(a) == DialIndex(b) && SoundForDial(a) == SoundForDial(b)
  {
    SameDistancesSameStop(RoundDial, a, b);
  }

  /** The stop chosen round the dial, and so the sound, does not depend on
      how many full turns the angle includes. */
  lemma SoundForDialPeriodic(angle: real, turns: int)
    ensures DialStop(Turned(angle, turns)) == DialStop(angle)
    ensures DialIndex(Turned(angle, turns)) == DialIndex(angle)
    ensures SoundForDial(Turned(angle, turns)) == SoundForDial(angle)
  {
    forall i | 0 <= i < |SoundStops|
      ensures DialDistance(SoundStops[i], Turned(angle, turns)) == DialDistance(SoundStops[i], angle)
    {
      DialDistancePeriodic(SoundStops[i], angle, turns);
    }
    SameDialDistancesSameSound(Turned(angle, turns), angle);
  }

  /** At a stop's own mark, the knob snaps to that stop and lights its label. */
  lemma DialStopAtMark(i: nat)
    requires i < 4
    ensures DialStop(SoundStops[i] as real) == SoundStops[i]
    ensures DialIndex(SoundStops[i] as real) == i
  {
    var a := SoundStops[i] as real;
    StopsMatchSounds();
    forall j | 0 <= j < i
      ensures Distance(RoundDial, SoundStops[j], a) > 0.0
    {
      DialZeroNear(SoundStops[j], a);
    }
    DialZeroNear(SoundStops[i], a);
    StopAtZero(RoundDial, i, a);
  }

  /** Measured round the dial, each stop selects its own sound, however many
      full turns separate the angle from the stop's mark. */
  lemma DialStopSelectsItsSound(i: nat, turns: int)
    requires i < 4
    ensures SoundForDial(Turned(SoundStops[i] as real, turns)) == Sounds[i]
  {
    DialStopAtMark(i);
    SoundForDialPeriodic(SoundStops[i] as real, turns);
    assert DialIndex(Turned(SoundStops[i] as real, turns)) == i;
  }

  /** Every sound is reachable by dragging, measured round the dial: the
      drag handler's range (-90, 270] contains a mark for each stop. */
  lemma DragReachesEverySound(s: Sound)
    ensures exists angle: real :: -90.0 < angle <= 270.0 && SoundForDial(angle) == s
  {
    var i := LabelOf(s);
    var turns := if SoundStops[i] < -90 then 1 else 0;
    DialStopSelectsItsSound(i, turns);
    var angle := Turned(SoundStops[i] as real, turns);
    assert -90.0 < angle <= 270.0;
  }

  /** Clicking a label sets the angle to its stop, which selects that label's
      sound as written too. */
  lemma LabelSelectsItsSound(i: nat)
    requires i < 4
    ensures SoundFor(SoundStops[i] as real) == Sounds[i]
  {
    var a := SoundStops[i] as real;
    StopsMatchSounds();
    forall j | 0 <= j < i
      ensures Distance(Linear, SoundStops[j], a) > 0.0
    {
    }
    StopAtZero(Linear, i, a);
  }

  /** Halfway between the piano and synth stops, the earlier-listed piano
      wins the tie; the knob starts at the piano stop. Both hold as written
      and round the dial. */
  lemma TieKeepsEarlierStop()
    ensures SoundFor(-138.0) == Piano && SoundFor(InitialAngle as real) == Piano
    ensures SoundForDial(-138.0) == Piano && SoundForDial(InitialAngle as real) == Piano
  {
    LinearTie();
    DialTie();
    LabelSelectsItsSound(0);
    DialStopAtMark(0);
  }

  lemma LinearTie()
    ensures Stop(Linear, -138.0) == -120
  {
    StopUnrolled(Linear, -138.0);
    assert Nearer(-120, -156, Linear, -138.0) == -120;
    assert Nearer(-120, 156, Linear, -138.0) == -120;
  }

  lemma DialTie()
    ensures DialStop(-138.0) == -120
  {
    assert DialDistance(-120, -138.0) == 18.0 && DialDistance(-156, -138.0) == 18.0;
    assert DialDistance(156, -138.0) == 66.0 && DialDistance(120, -138.0) == 102.0;
    assert SoundStops[1..][1..][1..] == [120];
  }
}
