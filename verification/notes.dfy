/** The twelve pitch-class names, sharps only.  `src/chordLibrary.js`, `src/musicData.js` and
    `src/songStructure.js` each declare the same `NOTES` array; it is defined once here. */
module Notes {
  import opened Js

  const NOTES: seq<string> := ["C", "C#", "D", "D#", "E", "F", "F#", "G", "G#", "A", "A#", "B"]

  predicate IsLetter(c: char)
  {
    'A' <= c <= 'G'
  }

  /** Every name is a letter A-G, optionally followed by a sharp, and no two are equal. */
  lemma NotesShape()
    ensures |NOTES| == 12
    ensures forall i :: 0 <= i < 12 ==>
      && 1 <= |NOTES[i]| <= 2 && IsLetter(NOTES[i][0])
      && (|NOTES[i]| == 2 ==> NOTES[i][1] == '#')
    ensures forall i, j :: 0 <= i < j < 12 ==> NOTES[i] != NOTES[j]
  {
  }

  /** `NOTES.indexOf(NOTES[i])` is `i`. */
  lemma IndexOfNote(i: nat)
    requires i < 12
    ensures IndexOf(NOTES, NOTES[i]) == i
  {
    NotesShape();
  }

  /** `NOTES.indexOf(root.replace('b', ''))` for a flat root, one semitone up from the
      name `NOTES[(idx - 1 + 12) % 12]` it is normalised to; -1 for a name not in the
      table (E# or B#), which the same formula turns into A#. */
  function FlatToSharp(root: string): (r: string)
    ensures r in NOTES
  {
    var idx := IndexOf(NOTES, ReplaceFirst(root, 'b'));
    NOTES[(idx - 1 + 12) % 12]
  }

  /** A letter with a flat is the sharp name one semitone below the letter. */
  lemma FlatOfNatural(i: nat)
    requires i < 12 && |NOTES[i]| == 1
    ensures FlatToSharp(NOTES[i] + "b") == NOTES[(i + 11) % 12]
  {
    assert ReplaceFirst(NOTES[i] + "b", 'b') == NOTES[i];
    IndexOfNote(i);
  }
}
