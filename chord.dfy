/**
 * Notes and chords of the chord player (lab4/src/Chord.h): the twelve pitch
 * classes, a note with its octave and `dim` (fade-out) flag, and a chord as
 * the notes that sound together.
 */
module Chords {

  /** The pitch classes in the source's order; `Ad` is A sharp, and so on. */
  datatype NoteType = A | Ad | B | C | Cd | D | Dd | E | F | Fd | G | Gd

  datatype Note = Note(noteType: NoteType, octave: int, dim: bool)

  type Chord = seq<Note>

  /** The letter a pitch class is written with. */
  function Letter(t: NoteType): char {
    match t
    case A | Ad => 'A'
    case B => 'B'
    case C | Cd => 'C'
    case D | Dd => 'D'
    case E => 'E'
    case F | Fd => 'F'
    case G | Gd => 'G'
  }

  predicate IsSharp(t: NoteType) {
    t == Ad || t == Cd || t == Dd || t == Fd || t == Gd
  }

  /** A pitch class is determined by its letter and whether it is sharp. */
  lemma LetterAndSharpIdentify(s: NoteType, t: NoteType)
    requires Letter(s) == Letter(t) && IsSharp(s) == IsSharp(t)
    ensures s == t
  {
  }
}
