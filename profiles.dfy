/** The fixed catalogue of instrument voices (script.js, `soundProfiles`). */
module Profiles {

  datatype Sound = Piano | Synth | Organ | Cosmic

  datatype Waveform = Sine | Triangle | Square | Sawtooth

  datatype FilterKind = Lowpass | Bandpass

  /** Envelope timings are in seconds; `sustain` is a fraction of the peak. */
  datatype Profile = Profile(
    oscillator: Waveform,
    attack: real,
    decay: real,
    sustain: real,
    release: real,
    filterType: FilterKind,
    filterFreq: nat,
    filterQ: real)

  function SoundProfile(s: Sound): Profile {
    match s
    case Piano => Profile(Triangle, 0.012, 0.06, 0.26, 0.18, Lowpass, 5200, 0.8)
    case Synth => Profile(Sawtooth, 0.03, 0.1, 0.5, 0.4, Lowpass, 2500, 5.0)
    case Organ => Profile(Sine, 0.005, 0.01, 0.98, 0.08, Lowpass, 3000, 0.1)
    case Cosmic => Profile(Sine, 0.1, 0.4, 0.4, 2.0, Bandpass, 1000, 4.0)
  }

  /** Every profile has positive envelope times and a sustain strictly
      between silence and the peak. */
  lemma ProfilesWellShaped(s: Sound)
    ensures var p := SoundProfile(s);
      0.0 < p.attack && 0.0 < p.decay && 0.0 < p.release && 0.0 < p.sustain < 1.0
  {
  }
}
