/** The note record `{ note, start, duration, velocity, channel }` that the generators
    produce and both MIDI exporters consume. */
module MidiNotes {
  import opened Js

  /** Beats are `real`.  An absent `velocity` or `channel` is represented by 0: the exporters
      read both through `|| default`, which treats 0 and absent alike. */
  datatype Note = Note(note: int, start: real, duration: real, velocity: int, channel: int)

  const TICKS_PER_BEAT: int := 480

  /** `Math.round(beats * ticksPerBeat)` */
  function Ticks(beats: real): (r: int)
    ensures beats >= 0.0 ==> r >= 0
    ensures r as real - 0.5 <= beats * 480.0 < r as real + 0.5
  {
    Round(beats * TICKS_PER_BEAT as real)
  }

  /** The sort key of `(a, b) => a.start - b.start`. */
  function StartOf(n: Note): real
  {
    n.start
  }
}
