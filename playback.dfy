/** Vocabulary shared by the two video players. */
module Playback {

  /** The `phase` prop of a player. Any value other than 'initial' and
      'reveal' (the app passes a field the game state does not have, so
      undefined) is `Other`. */
  datatype VideoPhase = Initial | Reveal | Other

  /** A time as it arrives from a database column or a prop: either a value
      that `Number` converts to a finite number of seconds, or one that it
      turns into NaN (undefined, a non-numeric string). */
  datatype TimeValue = Finite(seconds: real) | NotANumber

  /** `Number(x) || 0`: NaN becomes 0, and so does 0 itself. */
  function Seconds(t: TimeValue): (s: real)
    ensures t.NotANumber? ==> s == 0.0
    ensures t.Finite? ==> s == t.seconds
  {
    match t
    case Finite(v) => v
    case NotANumber => 0.0
  }
}
