/** `src/chordLibrary.js`: note names to MIDI numbers, chord-name parsing, chord building,
    transposition, and flattening the artist progression table. */
module ChordLibrary {
  import opened Js
  import opened Notes
  import opened StableSort
  import opened ChordTypes

  // ---------------------------------------------------------------- note names

  predicate IsDigit(c: char)
  {
    '0' <= c <= '9'
  }

  /** The match of `/^([A-G]#?)(-?\d)$/`: the note part and the octave.  The sharp is taken
      whenever it is there, since the octave part cannot start with `#`. */
  function SplitNoteName(name: string): (r: Option<(string, int)>)
    ensures r.Some? ==> -9 <= r.value.1 <= 9
  {
    if |name| < 2 || !IsLetter(name[0]) then None
    else
      var k := if name[1] == '#' then 2 else 1;
      var rest := name[k..];
      if |rest| == 1 && IsDigit(rest[0]) then Some((name[..k], rest[0] as int - '0' as int))
      else if |rest| == 2 && rest[0] == '-' && IsDigit(rest[1]) then Some((name[..k], -(rest[1] as int - '0' as int)))
      else None
  }

  /** `noteNameToMidi(name)`: `(octave + 1) * 12 + index`, or 60 for anything else. */
  function NoteNameToMidi(name: string): int
  {
    match SplitNoteName(name)
    case None => 60
    case Some((note, octave)) =>
      var idx := IndexOf(NOTES, note);
      if idx == -1 then 60 else (octave + 1) * 12 + idx
  }

  /** The name of pitch class `pc` in octave `octave`, as `${note}${octave}` writes it. */
  function NoteName(pc: nat, octave: int): string
    requires pc < 12
  {
    NOTES[pc] + IntToString(octave)
  }

  /** The text of a table name: a letter with an optional sharp. */
  predicate IsNoteText(note: string)
  {
    1 <= |note| <= 2 && IsLetter(note[0]) && (|note| == 2 ==> note[1] == '#')
  }

  /** The octave part of a name: one digit, with a minus sign when negative. */
  lemma OctaveText(octave: int)
    requires -9 <= octave <= 9
    ensures var s, d := IntToString(octave), if octave < 0 then -octave else octave;
      if octave < 0 then s == ['-', DigitChar(d)] else s == [DigitChar(d)]
    ensures var d := if octave < 0 then -octave else octave;
      IsDigit(DigitChar(d)) && DigitChar(d) as int - '0' as int == d
  {
  }

  /** The pattern splits a note text followed by an octave at the join. */
  lemma SplitOf(note: string, octave: int)
    requires IsNoteText(note) && -9 <= octave <= 9
    ensures SplitNoteName(note + IntToString(octave)) == Some((note, octave))
  {
    var s := IntToString(octave);
    OctaveText(octave);
    var name := note + s;
    var k := |note|;
    assert name[..k] == note && name[k..] == s;
  }

  /** Whatever the pattern accepts is a note text followed by its octave, or by "-0", which
      `parseInt` reads as octave 0. */
  lemma SplitInverse(name: string)
    requires SplitNoteName(name).Some?
    ensures var (note, octave) := SplitNoteName(name).value;
      && IsNoteText(note)
      && (name == note + IntToString(octave) || (octave == 0 && name == note + "-0"))
  {
    var (note, octave) := SplitNoteName(name).value;
    var k := |note|;
    var rest := name[k..];
    OctaveText(octave);
    if |rest| == 1 {
      assert rest == [DigitChar(octave)];
    } else if octave != 0 {
      assert rest == ['-', DigitChar(-octave)];
    } else {
      assert rest == "-0";
    }
    assert name == name[..k] + name[k..];
  }

  /** Every name `NoteName` writes reads back as its MIDI number. */
  lemma NoteNameToMidiOf(pc: nat, octave: int)
    requires pc < 12 && -9 <= octave <= 9
    ensures NoteNameToMidi(NoteName(pc, octave)) == (octave + 1) * 12 + pc
  {
    NotesShape();
    SplitOf(NOTES[pc], octave);
    IndexOfNote(pc);
  }

  /** Octave "-0" reads as octave 0. */
  lemma NoteNameMinusZero(pc: nat)
    requires pc < 12
    ensures NoteNameToMidi(NOTES[pc] + "-0") == 12 + pc
  {
    NotesShape();
    SplitMinusZero(NOTES[pc]);
    IndexOfNote(pc);
  }

  lemma SplitMinusZero(note: string)
    requires IsNoteText(note)
    ensures SplitNoteName(note + "-0") == Some((note, 0))
  {
    var name := note + "-0";
    var k := |note|;
    assert name[..k] == note && name[k..] == "-0";
  }

  /** A string that is not such a name gives 60. */
  lemma NoteNameFallback(name: string)
    ensures || NoteNameToMidi(name) == 60
            || exists pc: nat, octave: int :: pc < 12 && -9 <= octave <= 9 &&
                 (name == NoteName(pc, octave) || (octave == 0 && name == NOTES[pc] + "-0"))
  {
    if SplitNoteName(name).Some? {
      SplitInverse(name);
      var (note, octave) := SplitNoteName(name).value;
      var idx := IndexOf(NOTES, note);
      if idx != -1 {
        assert name == NoteName(idx, octave) || (octave == 0 && name == NOTES[idx] + "-0");
      }
    }
  }

  // ---------------------------------------------------------------- chord types

  const CHORD_TYPES: seq<ChordType> := [
    ChordType("maj7", [0, 4, 7, 11], "Major 7"),
    ChordType("maj9", [0, 4, 7, 11, 14], "Major 9"),
    ChordType("min7", [0, 3, 7, 10], "Minor 7"),
    ChordType("min9", [0, 3, 7, 10, 14], "Minor 9"),
    ChordType("min11", [0, 3, 7, 10, 14, 17], "Minor 11"),
    ChordType("dom7", [0, 4, 7, 10], "Dominant 7"),
    ChordType("dom9", [0, 4, 7, 10, 14], "Dominant 9"),
    ChordType("7#9", [0, 4, 7, 10, 15], "7#9"),
    ChordType("13", [0, 4, 7, 10, 14, 21], "13th"),
    ChordType("sus2", [0, 2, 7], "Sus2"),
    ChordType("sus4", [0, 5, 7], "Sus4"),
    ChordType("add9", [0, 4, 7, 14], "Add9"),
    ChordType("dim7", [0, 3, 6, 9], "Dim7"),
    ChordType("m7b5", [0, 3, 6, 10], "Half Dim"),
    ChordType("6", [0, 4, 7, 9], "Major 6"),
    ChordType("m6", [0, 3, 7, 9], "Minor 6")
  ]

  /** Every interval list starts at the root and rises. */
  lemma ChordTypesShape()
    ensures forall i :: 0 <= i < |CHORD_TYPES| ==>
      |CHORD_TYPES[i].intervals| >= 3 && CHORD_TYPES[i].intervals[0] == 0 && StrictlyAscending(CHORD_TYPES[i].intervals)
  {
  }

  // ---------------------------------------------------------------- chord names

  /** The suffix alternatives of the three patterns, in the order they are tried. */
  const FULL_TYPES: seq<string> :=
    ["maj9", "maj7", "min11", "min9", "min7", "dom9", "dom7", "7#9", "13", "sus2", "sus4", "add9", "dim7", "m7b5", "m6", "6"]
  const SHORT_MINOR: seq<string> := ["m9", "m7", "m11"]
  const SHORT_DOMINANT: seq<string> := ["7", "9"]

  /** The lengths `([A-G]#?b?)` can take at the front of `name`, in the order the greedy
      optional parts try them when the rest fails. */
  function RootLengths(name: string): (r: seq<nat>)
    ensures forall i :: 0 <= i < |r| ==> 1 <= r[i] <= |name|
  {
    if |name| == 0 || !IsLetter(name[0]) then []
    else if |name| >= 2 && name[1] == '#' then
      (if |name| >= 3 && name[2] == 'b' then [3] else []) + [2, 1]
    else if |name| >= 2 && name[1] == 'b' then [2, 1]
    else [1]
  }

  /** The first split whose suffix is one of `types`: root text and suffix. */
  function MatchWith(name: string, lengths: seq<nat>, types: seq<string>): (r: Option<(string, string)>)
    requires forall i :: 0 <= i < |lengths| ==> lengths[i] <= |name|
    ensures r.Some? ==> r.value.0 + r.value.1 == name && r.value.1 in types
    ensures r.None? <==> forall i :: 0 <= i < |lengths| ==> name[lengths[i]..] !in types
  {
    if |lengths| == 0 then None
    else if name[lengths[0]..] in types then
      assert name[..lengths[0]] + name[lengths[0]..] == name;
      Some((name[..lengths[0]], name[lengths[0]..]))
    else MatchWith(name, lengths[1..], types)
  }

  /** The three patterns in order. */
  function MatchChordName(name: string): Option<(string, string)>
  {
    var lengths := RootLengths(name);
    match MatchWith(name, lengths, FULL_TYPES)
    case Some(m) => Some(m)
    case None =>
      match MatchWith(name, lengths, SHORT_MINOR)
      case Some(m) => Some(m)
      case None => MatchWith(name, lengths, SHORT_DOMINANT)
  }

  /** `typeMap[type] || type` */
  function NormalizeType(t: string): (r: string)
    ensures t in FULL_TYPES ==> r == t
  {
    if t == "m7" then "min7" else if t == "m9" then "min9" else if t == "m11" then "min11"
    else if t == "7" then "dom7" else if t == "9" then "dom9" else t
  }

  datatype ChordName = ChordName(root: string, chordType: string)

  /** `parseChordName(name)`: a flat root becomes the sharp below, short suffixes become
      full type names, and a name no pattern matches is C maj7. */
  function ParseChordName(name: string): (r: ChordName)
    ensures MatchChordName(name).None? ==> r == ChordName("C", "maj7")
    ensures r.chordType in Keys(CHORD_TYPES)
  {
    assert Keys(CHORD_TYPES)[0] == "maj7";
    match MatchChordName(name)
    case None => ChordName("C", "maj7")
    case Some((root, suffix)) =>
      SuffixesAreTypes(suffix);
      ChordName(if 'b' in root then FlatToSharp(root) else root, NormalizeType(suffix))
  }

  /** The suffixes the three patterns accept. */
  predicate IsSuffix(t: string)
  {
    t in FULL_TYPES || t in SHORT_MINOR || t in SHORT_DOMINANT
  }

  /** The keys of `CHORD_TYPES`, in declaration order. */
  lemma KeysOfTable()
    ensures Keys(CHORD_TYPES) == ["maj7", "maj9", "min7", "min9", "min11", "dom7", "dom9", "7#9", "13", "sus2", "sus4", "add9", "dim7", "m7b5", "6", "m6"]
  {
  }

  /** Every suffix a pattern accepts normalises to a key of `CHORD_TYPES`. */
  lemma SuffixesAreTypes(t: string)
    requires IsSuffix(t)
    ensures NormalizeType(t) in Keys(CHORD_TYPES)
  {
    KeysOfTable();
    if t in FULL_TYPES {
      assert NormalizeType(t) == t;
    }
  }

  /** The symbol of a chord on a table root: the root name and a suffix. */
  function ChordSymbol(pc: nat, suffix: string): string
    requires pc < 12
  {
    NOTES[pc] + suffix
  }

  /** No suffix starts with a sharp or a flat. */
  lemma SuffixStarts(t: string)
    requires IsSuffix(t)
    ensures |t| >= 1 && t[0] != '#' && t[0] != 'b'
  {
  }

  /** So a sharp or flat followed by a suffix is not itself one. */
  lemma NotSuffix(c: char, t: string)
    requires c == '#' || c == 'b'
    ensures !IsSuffix([c] + t)
  {
    if IsSuffix([c] + t) {
      SuffixStarts([c] + t);
    }
  }

  /** When the first candidate split leaves a suffix and every other one does not, the
      patterns split there. */
  lemma MatchSplit(name: string, k: nat)
    requires |RootLengths(name)| > 0 && RootLengths(name)[0] == k
    requires IsSuffix(name[k..])
    requires forall i :: 1 <= i < |RootLengths(name)| ==> !IsSuffix(name[RootLengths(name)[i]..])
    ensures MatchChordName(name) == Some((name[..k], name[k..]))
  {
    var lengths := RootLengths(name);
    SuffixPatterns(name[k..]);
    MatchFirst(name, lengths, FULL_TYPES);
    MatchFirst(name, lengths, SHORT_MINOR);
    MatchFirst(name, lengths, SHORT_DOMINANT);
  }

  lemma MatchFirst(name: string, lengths: seq<nat>, types: seq<string>)
    requires |lengths| > 0 && forall i :: 0 <= i < |lengths| ==> lengths[i] <= |name|
    requires forall i :: 1 <= i < |lengths| ==> name[lengths[i]..] !in types
    ensures MatchWith(name, lengths, types) == if name[lengths[0]..] in types then Some((name[..lengths[0]], name[lengths[0]..])) else None
  {
    if name[lengths[0]..] !in types {
      assert MatchWith(name, lengths, types) == MatchWith(name, lengths[1..], types);
    }
  }

  /** On a table root every suffix is read back: the root as written, the suffix through
      `typeMap`. */
  lemma ParseChordSymbol(pc: nat, suffix: string)
    requires pc < 12
    requires IsSuffix(suffix)
    ensures ParseChordName(ChordSymbol(pc, suffix)) == ChordName(NOTES[pc], NormalizeType(suffix))
  {
    var name := ChordSymbol(pc, suffix);
    SymbolSplits(pc, suffix);
    MatchSplit(name, |NOTES[pc]|);
    assert MatchChordName(name) == Some((NOTES[pc], suffix));
  }

  /** The candidate splits of a table root followed by a suffix: only the root's own one
      leaves a suffix. */
  lemma SymbolSplits(pc: nat, suffix: string)
    requires pc < 12
    requires IsSuffix(suffix)
    ensures var name, k := ChordSymbol(pc, suffix), |NOTES[pc]|;
      && k <= |name| && name[..k] == NOTES[pc] && name[k..] == suffix && 'b' !in NOTES[pc]
      && |RootLengths(name)| > 0 && RootLengths(name)[0] == k
      && forall i :: 1 <= i < |RootLengths(name)| ==> !IsSuffix(name[RootLengths(name)[i]..])
  {
    var name := ChordSymbol(pc, suffix);
    var note := NOTES[pc];
    NotesShape();
    SuffixStarts(suffix);
    var k := |note|;
    assert name[..k] == note && name[k..] == suffix;
    if k == 2 {
      assert RootLengths(name) == [2, 1];
      assert name[1..] == ['#'] + suffix;
      NotSuffix('#', suffix);
    } else {
      assert RootLengths(name) == [1];
    }
  }

  /** Each suffix belongs to exactly one pattern's list. */
  lemma SuffixPatterns(t: string)
    ensures t in SHORT_MINOR ==> t !in FULL_TYPES
    ensures t in SHORT_DOMINANT ==> t !in FULL_TYPES && t !in SHORT_MINOR
  {
  }

  /** A letter with a flat names the sharp one semitone below the letter. */
  lemma ParseFlatSymbol(pc: nat, suffix: string)
    requires pc < 12 && |NOTES[pc]| == 1
    requires IsSuffix(suffix)
    ensures ParseChordName(NOTES[pc] + "b" + suffix) == ChordName(NOTES[(pc + 11) % 12], NormalizeType(suffix))
  {
    var name := NOTES[pc] + "b" + suffix;
    NotesShape();
    SuffixStarts(suffix);
    assert name[..2] == NOTES[pc] + "b" && name[2..] == suffix;
    assert name[1..] == ['b'] + suffix;
    NotSuffix('b', suffix);
    assert RootLengths(name) == [2, 1];
    MatchSplit(name, 2);
    assert 'b' in name[..2];
    FlatOfNatural(pc);
  }

  // ---------------------------------------------------------------- chords

  /** The chord `buildChord` returns, without its colour. */
  datatype Chord = Chord(name: string, root: string, chordType: string, notes: seq<int>, bassNote: int, typeName: string)

  /** `CHORD_TYPES[type] || CHORD_TYPES['maj7']` */
  function TypeOf(key: string): (t: ChordType)
    ensures key in Keys(CHORD_TYPES) ==> t.key == key
    ensures |t.intervals| >= 3 && t.intervals[0] == 0 && StrictlyAscending(t.intervals)
  {
    ChordTypesShape();
    match Lookup(CHORD_TYPES, key)
    case Some(t) => t
    case None => CHORD_TYPES[0]
  }

  /** The chord of a parsed name: the intervals of its type above the root in `octave`. */
  function Voiced(chordName: string, p: ChordName, octave: int): (r: Chord)
    ensures var t, rootMidi := TypeOf(p.chordType), IndexOf(NOTES, p.root) + (octave + 1) * 12;
      && r.name == chordName && r.root == p.root && r.chordType == p.chordType && r.typeName == t.name
      && |r.notes| == |t.intervals| && r.bassNote == rootMidi - 12
      && StrictlyAscending(r.notes)
      && forall i :: 0 <= i < |r.notes| ==> r.notes[i] == rootMidi + t.intervals[i]
  {
    var rootMidi := IndexOf(NOTES, p.root) + (octave + 1) * 12;
    var t := TypeOf(p.chordType);
    Chord(chordName, p.root, p.chordType, Shifted(t.intervals, rootMidi), rootMidi - 12, t.name)
  }

  /** `buildChord(chordName, octave)`.  A root outside the table (E#, B#) has index -1. */
  function BuildChord(chordName: string, octave: int): (r: Chord)
    ensures |r.notes| >= 3 && r.notes[0] == r.bassNote + 12
    ensures StrictlyAscending(r.notes)
  {
    Voiced(chordName, ParseChordName(chordName), octave)
  }

  /** On a table root the chord is its intervals above `pc + 12 * (octave + 1)`, and the bass
      is the root an octave lower. */
  lemma BuildChordOf(pc: nat, suffix: string, octave: int)
    requires pc < 12
    requires IsSuffix(suffix)
    ensures var c, t := BuildChord(ChordSymbol(pc, suffix), octave), TypeOf(NormalizeType(suffix));
      && c.root == NOTES[pc] && c.chordType == NormalizeType(suffix) == t.key
      && |c.notes| == |t.intervals|
      && (forall i :: 0 <= i < |c.notes| ==> c.notes[i] == pc + 12 * (octave + 1) + t.intervals[i])
      && c.bassNote == pc + 12 * octave
  {
    SuffixesAreTypes(suffix);
    ParseChordSymbol(pc, suffix);
    IndexOfNote(pc);
  }

  /** `transposeChord(chord, semitones)` */
  function TransposeChord(c: Chord, semitones: int): (r: Chord)
    ensures semitones == 0 ==> r == c
    ensures r.name == c.name && r.root == c.root && r.chordType == c.chordType && r.typeName == c.typeName
    ensures |r.notes| == |c.notes| && r.bassNote == c.bassNote + semitones
    ensures forall i :: 0 <= i < |c.notes| ==> r.notes[i] == c.notes[i] + semitones
  {
    if semitones == 0 then c
    else c.(notes := Shifted(c.notes, semitones), bassNote := c.bassNote + semitones)
  }

  /** Transposing back undoes a transposition. */
  lemma TransposeBack(c: Chord, semitones: int)
    ensures TransposeChord(TransposeChord(c, semitones), -semitones) == c
  {
    var r := TransposeChord(TransposeChord(c, semitones), -semitones);
    assert r.notes == c.notes;
  }

  // ---------------------------------------------------------------- progressions

  datatype Progression = Progression(name: string, chords: seq<string>, desc: string)
  datatype Artist = Artist(name: string, color: string, progressions: seq<Progression>)

  /** A progression with the key, name and colour of its artist. */
  datatype ArtistProgression = ArtistProgression(progression: Progression, artistKey: string, artistName: string, artistColor: string)

  /** One artist's progressions, tagged. */
  function Tagged(key: string, a: Artist): (r: seq<ArtistProgression>)
    ensures |r| == |a.progressions|
    ensures forall j :: 0 <= j < |r| ==> r[j] == ArtistProgression(a.progressions[j], key, a.name, a.color)
  {
    seq(|a.progressions|, j requires 0 <= j < |a.progressions| => ArtistProgression(a.progressions[j], key, a.name, a.color))
  }

  function TaggedBlocks(artists: seq<(string, Artist)>): (r: seq<seq<ArtistProgression>>)
    ensures |r| == |artists|
    ensures forall k :: 0 <= k < |artists| ==> r[k] == Tagged(artists[k].0, artists[k].1)
  {
    seq(|artists|, k requires 0 <= k < |artists| => Tagged(artists[k].0, artists[k].1))
  }

  /** The progression lists of all artists. */
  function ProgressionLists(artists: seq<(string, Artist)>): (r: seq<seq<Progression>>)
    ensures |r| == |artists|
    ensures forall k :: 0 <= k < |artists| ==> r[k] == artists[k].1.progressions
  {
    seq(|artists|, k requires 0 <= k < |artists| => artists[k].1.progressions)
  }

  /** `getAllProgressions()` over the artist entries in `Object.entries` order. */
  function AllProgressions(artists: seq<(string, Artist)>): (r: seq<ArtistProgression>)
    ensures |r| == Total(ProgressionLists(artists))
  {
    TotalSameSizes(TaggedBlocks(artists), ProgressionLists(artists));
    Concat(TaggedBlocks(artists))
  }

  /** Artist `k`'s progressions follow those of the artists before it, in their own order,
      each tagged with that artist. */
  lemma AllProgressionsPlaced(artists: seq<(string, Artist)>, k: nat, j: nat)
    requires k < |artists| && j < |artists[k].1.progressions|
    ensures var r, at := AllProgressions(artists), Total(ProgressionLists(artists[..k]));
      var (key, a) := artists[k];
      at + j < |r| && r[at + j] == ArtistProgression(a.progressions[j], key, a.name, a.color)
  {
    var blocks := TaggedBlocks(artists);
    ConcatAt(blocks, k, j);
    TotalSameSizes(blocks[..k], ProgressionLists(artists[..k]));
  }
}
