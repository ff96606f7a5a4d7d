/** `src/songStructure.js`: its own chord builder, and the expansion of an artist's preferred
    song template into sections with bars, energy and chords, with the song's total length.
    Each `Math.random()` the expansion makes is a parameter: a real in [0, 1). */
module SongStructure {
  import opened Js
  import opened Notes
  import opened ChordTypes
  import opened Random
  import ChordLibrary

  type Chord = ChordLibrary.Chord

  // ---------------------------------------------------------------- object lookups

  function KeysOf<T>(table: seq<(string, T)>): (r: seq<string>)
    ensures |r| == |table| && forall i :: 0 <= i < |table| ==> r[i] == table[i].0
  {
    seq(|table|, i requires 0 <= i < |table| => table[i].0)
  }

  /** `table[key]` on an object literal: the value of the first entry with that key. */
  function Get<T(==)>(table: seq<(string, T)>, key: string): (r: Option<T>)
    ensures r.Some? <==> key in KeysOf(table)
    ensures r.Some? ==> (key, r.value) in table
  {
    if |table| == 0 then None
    else if table[0].0 == key then Some(table[0].1)
    else
      assert KeysOf(table)[1..] == KeysOf(table[1..]);
      Get(table[1..], key)
  }

  predicate DistinctKeys<T>(table: seq<(string, T)>)
  {
    forall i, j :: 0 <= i < j < |table| ==> table[i].0 != table[j].0
  }

  /** With distinct keys, looking up the key of entry `i` finds entry `i`. */
  lemma {:induction false} GetAt<T>(table: seq<(string, T)>, i: nat)
    requires DistinctKeys(table) && i < |table|
    ensures Get(table, table[i].0) == Some(table[i].1)
  {
    if i > 0 {
      GetAt(table[1..], i - 1);
    }
  }

  /** With distinct keys, a key has only the value `Get` finds. */
  lemma GetUnique<T>(table: seq<(string, T)>, key: string, v: T)
    requires DistinctKeys(table) && (key, v) in table
    ensures Get(table, key) == Some(v)
  {
    var i :| 0 <= i < |table| && table[i] == (key, v);
    GetAt(table, i);
  }

  // ---------------------------------------------------------------- chord types

  /** `CHORD_TYPES`, without colours, harmonic functions and moods. */
  const CHORD_TYPES: seq<ChordType> := [
    ChordType("maj7", [0, 4, 7, 11], "Major 7"),
    ChordType("maj9", [0, 4, 7, 11, 14], "Major 9"),
    ChordType("min7", [0, 3, 7, 10], "Minor 7"),
    ChordType("min9", [0, 3, 7, 10, 14], "Minor 9"),
    ChordType("min11", [0, 3, 7, 10, 14, 17], "Minor 11"),
    ChordType("dom7", [0, 4, 7, 10], "Dominant 7"),
    ChordType("dom9", [0, 4, 7, 10, 14], "Dominant 9"),
    ChordType("7#9", [0, 4, 7, 10, 15], "7#9 (Hendrix)"),
    ChordType("13", [0, 4, 7, 10, 14, 21], "13th"),
    ChordType("sus2", [0, 2, 7], "Sus2"),
    ChordType("sus4", [0, 5, 7], "Sus4"),
    ChordType("7sus4", [0, 5, 7, 10], "7sus4"),
    ChordType("add9", [0, 4, 7, 14], "Add9"),
    ChordType("dim7", [0, 3, 6, 9], "Dim7"),
    ChordType("m7b5", [0, 3, 6, 10], "Half Dim"),
    ChordType("maj7#11", [0, 4, 7, 11, 18], "Maj7#11")
  ]

  /** Every type has at least three strictly ascending intervals starting at the root. */
  lemma ChordTypesShape()
    ensures forall i :: 0 <= i < |CHORD_TYPES| ==>
      |CHORD_TYPES[i].intervals| >= 3 && CHORD_TYPES[i].intervals[0] == 0 && StrictlyAscending(CHORD_TYPES[i].intervals)
  {
  }

  /** The suffixes `buildChord` recognises, and the type each one names. */
  const TYPE_MAP: seq<(string, string)> := [
    ("maj7", "maj7"), ("Maj7", "maj7"), ("M7", "maj7"),
    ("maj9", "maj9"), ("Maj9", "maj9"), ("M9", "maj9"),
    ("m7", "min7"), ("min7", "min7"), ("-7", "min7"),
    ("m9", "min9"), ("min9", "min9"), ("-9", "min9"),
    ("m11", "min11"), ("min11", "min11"),
    ("7", "dom7"), ("dom7", "dom7"),
    ("9", "dom9"), ("dom9", "dom9"),
    ("7#9", "7#9"),
    ("13", "13"),
    ("sus2", "sus2"),
    ("sus4", "sus4"),
    ("7sus4", "7sus4"),
    ("add9", "add9"),
    ("dim7", "dim7"),
    ("m7b5", "m7b5"), ("ø7", "m7b5"),
    ("maj7#11", "maj7#11"), ("M7#11", "maj7#11")
  ]

  lemma SongTypeKeys()
    ensures Keys(CHORD_TYPES) == ["maj7", "maj9", "min7", "min9", "min11", "dom7", "dom9", "7#9", "13",
                                  "sus2", "sus4", "7sus4", "add9", "dim7", "m7b5", "maj7#11"]
  {
  }

  /** Every suffix names a type of the table. */
  lemma TypeMapTargets()
    ensures forall i :: 0 <= i < |TYPE_MAP| ==> TYPE_MAP[i].1 in Keys(CHORD_TYPES)
  {
    SongTypeKeys();
  }

  /** `typeMap[type] || 'maj7'` */
  function SongChordType(suffix: string): (r: string)
    ensures r in Keys(CHORD_TYPES)
    ensures suffix !in KeysOf(TYPE_MAP) ==> r == "maj7"
    ensures suffix in KeysOf(TYPE_MAP) ==> (suffix, r) in TYPE_MAP
  {
    match Get(TYPE_MAP, suffix)
    case Some(t) => TypeMapTargets(); t
    case None => SongTypeKeys(); "maj7"
  }

  /** `CHORD_TYPES[chordType] || CHORD_TYPES['maj7']` */
  function SongTypeOf(key: string): (t: ChordType)
    ensures t in CHORD_TYPES
    ensures key in Keys(CHORD_TYPES) ==> t.key == key
    ensures |t.intervals| >= 3 && t.intervals[0] == 0 && StrictlyAscending(t.intervals)
  {
    ChordTypesShape();
    match Lookup(CHORD_TYPES, key)
    case Some(t) => t
    case None => CHORD_TYPES[0]
  }

  // ---------------------------------------------------------------- buildChord

  /** A text `[A-G]#?b?` matches whole. */
  predicate IsRoot(t: string)
  {
    && 1 <= |t| <= 3 && IsLetter(t[0])
    && (|t| == 2 ==> t[1] == '#' || t[1] == 'b')
    && (|t| == 3 ==> t[1] == '#' && t[2] == 'b')
  }

  /** The length of the root `^([A-G]#?b?)` takes from the front of `name`, or 0 when the
      name does not start with a root.  The match is greedy: no longer prefix is a root. */
  function RootLength(name: string): (k: nat)
    ensures k <= |name|
    ensures k == 0 <==> |name| == 0 || !IsLetter(name[0])
    ensures k > 0 ==> IsRoot(name[..k])
    ensures forall j :: k < j <= |name| ==> !IsRoot(name[..j])
  {
    if |name| == 0 || !IsLetter(name[0]) then 0
    else
      var k1 := if |name| > 1 && name[1] == '#' then 2 else 1;
      var k := if |name| > k1 && name[k1] == 'b' then k1 + 1 else k1;
      k
  }

  predicate LineTerminator(c: char)
  {
    c == '\n' || c == '\r' || c == '\U{2028}' || c == '\U{2029}'
  }

  /** What `(.*)` matches: the text up to the first line terminator. */
  function FirstLine(s: string): (r: string)
    ensures r <= s
    ensures forall i :: 0 <= i < |r| ==> !LineTerminator(r[i])
    ensures |r| < |s| ==> LineTerminator(s[|r|])
  {
    if |s| == 0 || LineTerminator(s[0]) then "" else [s[0]] + FirstLine(s[1..])
  }

  /** The root after the flat handling of `buildChord`. */
  function RootName(rootText: string): string
  {
    if 'b' in rootText then FlatToSharp(rootText) else rootText
  }

  /** The chord `buildChord` assembles once it has its root and type: the type's intervals
      above `rootMidi`, and the bass an octave below the root. */
  function ChordOn(chordName: string, root: string, chordType: string, octave: int): Chord
  {
    var t := SongTypeOf(chordType);
    var rootMidi := IndexOf(NOTES, root) + (octave + 1) * 12;
    ChordLibrary.Chord(chordName, root, chordType, Shifted(t.intervals, rootMidi), rootMidi - 12, t.name)
  }

  /** `buildChord(chordName, octave)`: `None` where the source returns null.  A root outside
      the table (E#, B#) has index -1, as `indexOf` gives. */
  function BuildChord(chordName: string, octave: int): (r: Option<Chord>)
    ensures r.None? <==> |chordName| == 0 || !IsLetter(chordName[0])
    ensures r.Some? ==>
      && r.value.name == chordName && r.value.chordType in Keys(CHORD_TYPES)
      && |r.value.notes| >= 3 && r.value.notes[0] == r.value.bassNote + 12
      && StrictlyAscending(r.value.notes)
  {
    var k := RootLength(chordName);
    if k == 0 then None
    else Some(ChordOn(chordName, RootName(chordName[..k]), SongChordType(FirstLine(chordName[k..])), octave))
  }

  /** A suffix the root pattern cannot swallow and `(.*)` takes whole. */
  predicate PlainSuffix(suffix: string)
  {
    && (|suffix| == 0 || (suffix[0] != '#' && suffix[0] != 'b'))
    && forall i :: 0 <= i < |suffix| ==> !LineTerminator(suffix[i])
  }

  lemma FirstLineWhole(s: string)
    requires forall i :: 0 <= i < |s| ==> !LineTerminator(s[i])
    ensures FirstLine(s) == s
  {
  }

  lemma NoFlatInNotes(pc: nat)
    requires pc < 12
    ensures 'b' !in NOTES[pc]
  {
    NotesShape();
  }

  /** A table name followed by a plain suffix: the root is the whole name. */
  lemma RootOfNote(pc: nat, suffix: string)
    requires pc < 12 && PlainSuffix(suffix)
    ensures 1 <= RootLength(NOTES[pc] + suffix) == |NOTES[pc]|
  {
    NotesShape();
  }

  /** A name made of a table root and a suffix: the suffix's type stacked on
      `pc + 12 * (octave + 1)`, with the bass an octave below the root. */
  lemma BuildChordOf(pc: nat, suffix: string, octave: int)
    requires pc < 12 && PlainSuffix(suffix)
    ensures var r, t := BuildChord(NOTES[pc] + suffix, octave), SongTypeOf(SongChordType(suffix));
      && r.Some? && r.value.root == NOTES[pc] && r.value.chordType == SongChordType(suffix)
      && r.value.typeName == t.name && |r.value.notes| == |t.intervals|
      && (forall i :: 0 <= i < |t.intervals| ==> r.value.notes[i] == pc + 12 * (octave + 1) + t.intervals[i])
      && r.value.bassNote == pc + 12 * octave
  {
    var name := NOTES[pc] + suffix;
    var n := |NOTES[pc]|;
    RootOfNote(pc, suffix);
    assert name[..n] == NOTES[pc] && name[n..] == suffix;
    FirstLineWhole(suffix);
    NoFlatInNotes(pc);
    IndexOfNote(pc);
    assert RootName(name[..n]) == NOTES[pc];
    assert FirstLine(name[n..]) == suffix;
    assert BuildChord(name, octave) == Some(ChordOn(name, NOTES[pc], SongChordType(suffix), octave));
  }

  /** A natural letter with a flat names the sharp one semitone below it, and the chord is
      built on that pitch class in the same octave. */
  lemma BuildFlatChordOf(pc: nat, suffix: string, octave: int)
    requires pc < 12 && |NOTES[pc]| == 1
    requires forall i :: 0 <= i < |suffix| ==> !LineTerminator(suffix[i])
    ensures var r, t, flat := BuildChord(NOTES[pc] + "b" + suffix, octave), SongTypeOf(SongChordType(suffix)), (pc + 11) % 12;
      && r.Some? && r.value.root == NOTES[flat] && r.value.chordType == SongChordType(suffix)
      && |r.value.notes| == |t.intervals|
      && (forall i :: 0 <= i < |t.intervals| ==> r.value.notes[i] == flat + 12 * (octave + 1) + t.intervals[i])
      && r.value.bassNote == flat + 12 * octave
  {
    var name := NOTES[pc] + "b" + suffix;
    NotesShape();
    assert name[..2] == NOTES[pc] + "b" && name[2..] == suffix;
    assert RootLength(name) == 2;
    FirstLineWhole(suffix);
    FlatOfNatural(pc);
    IndexOfNote((pc + 11) % 12);
    assert BuildChord(name, octave) == Some(ChordOn(name, NOTES[(pc + 11) % 12], SongChordType(suffix), octave));
  }

  lemma Maj7Type()
    ensures SongTypeOf("maj7") == ChordType("maj7", [0, 4, 7, 11], "Major 7")
  {
    assert Lookup(CHORD_TYPES, "maj7") == Some(CHORD_TYPES[0]);
  }

  /** An unrecognised suffix, the empty one included, gives a major seventh. */
  lemma UnknownSuffix(pc: nat, suffix: string, octave: int)
    requires pc < 12 && PlainSuffix(suffix) && suffix !in KeysOf(TYPE_MAP)
    ensures var r, root := BuildChord(NOTES[pc] + suffix, octave), pc + 12 * (octave + 1);
      r.Some? && r.value.chordType == "maj7" && r.value.typeName == "Major 7"
      && |r.value.notes| == 4 && r.value.notes[0] == root && r.value.notes[1] == root + 4
      && r.value.notes[2] == root + 7 && r.value.notes[3] == root + 11
  {
    BuildChordOf(pc, suffix, octave);
    assert SongChordType(suffix) == "maj7";
    Maj7Type();
    var t := SongTypeOf(SongChordType(suffix));
    assert t.intervals == [0, 4, 7, 11];
    var r := BuildChord(NOTES[pc] + suffix, octave).value;
    assert r.notes[0] == pc + 12 * (octave + 1) + t.intervals[0];
    assert r.notes[1] == pc + 12 * (octave + 1) + t.intervals[1];
    assert r.notes[2] == pc + 12 * (octave + 1) + t.intervals[2];
    assert r.notes[3] == pc + 12 * (octave + 1) + t.intervals[3];
  }

  // ---------------------------------------------------------------- transposeChord

  /** `transposeChord(chord, semitones)` on a chord `buildChord` may have left null. */
  function SongTranspose(c: Option<Chord>, semitones: int): (r: Option<Chord>)
    ensures r.None? <==> c.None?
    ensures semitones == 0 ==> r == c
    ensures r.Some? ==>
      && r.value.name == c.value.name && r.value.root == c.value.root
      && r.value.chordType == c.value.chordType && r.value.typeName == c.value.typeName
      && |r.value.notes| == |c.value.notes| && r.value.bassNote == c.value.bassNote + semitones
      && forall i :: 0 <= i < |c.value.notes| ==> r.value.notes[i] == c.value.notes[i] + semitones
  {
    match c
    case None => None
    case Some(x) => Some(ChordLibrary.TransposeChord(x, semitones))
  }

  /** Transposing back undoes a transposition. */
  lemma SongTransposeBack(c: Option<Chord>, semitones: int)
    ensures SongTranspose(SongTranspose(c, semitones), -semitones) == c
  {
    if c.Some? {
      ChordLibrary.TransposeBack(c.value, semitones);
    }
  }

  // ---------------------------------------------------------------- tables

  /** An entry of `SECTION_TYPES`. */
  datatype SectionType = SectionType(name: string, bars: nat, energy: real, description: string)

  const SECTION_TYPES: seq<(string, SectionType)> := [
    ("intro", SectionType("Intro", 4, 0.3, "Set the mood")),
    ("verse", SectionType("Verse", 8, 0.5, "Tell the story - sparse m7 chords")),
    ("preChorus", SectionType("Pre-Chorus", 4, 0.7, "Build tension - 9, 11, 13 extensions")),
    ("chorus", SectionType("Chorus", 8, 1.0, "Main hook - lush Maj7/Maj9")),
    ("bridge", SectionType("Bridge", 4, 0.6, "Change it up - modal (Dorian/Melodic Minor)")),
    ("breakdown", SectionType("Breakdown", 4, 0.25, "Strip it back")),
    ("drop", SectionType("Drop", 4, 0.9, "Impact moment")),
    ("outro", SectionType("Outro", 4, 0.3, "Fade out"))
  ]

  /** An entry of `SONG_STRUCTURES`: a name and the section types in playing order. */
  datatype Structure = Structure(name: string, sections: seq<string>)

  const SONG_STRUCTURES: seq<(string, Structure)> := [
    ("standard", Structure("Standard R&B",
      ["intro", "verse", "preChorus", "chorus", "verse", "preChorus", "chorus", "bridge", "chorus", "outro"])),
    ("trapSoul", Structure("Trap Soul",
      ["intro", "verse", "chorus", "verse", "chorus", "breakdown", "drop", "chorus", "outro"])),
    ("darkMinimal", Structure("Dark Minimal",
      ["intro", "verse", "chorus", "verse", "chorus", "breakdown", "outro"])),
    ("balladSlow", Structure("Slow Ballad",
      ["intro", "verse", "verse", "chorus", "verse", "chorus", "bridge", "chorus", "outro"])),
    ("neoSoul", Structure("Neo Soul",
      ["intro", "verse", "preChorus", "chorus", "verse", "chorus", "bridge", "breakdown", "chorus", "outro"]))
  ]

  /** An entry of `ARTISTS`: what the arrangement reads from it.  `sections` maps a section
      type to the progressions (lists of chord names) to choose from. */
  datatype Artist = Artist(name: string, tempoMin: int, tempoMax: int, swing: real, chordBank: seq<string>,
                           preferredStructure: string, sections: seq<(string, seq<seq<string>>)>,
                           drumPattern: string, bassPattern: string)

  /** The entries of `ARTISTS`, without descriptions, colours, style tags, preferred chord
      types, prompt hints and melodic notes, which no operation here reads. */
  const SZA: Artist := Artist("SZA", 75, 85, 0.15,
    ["Cmaj7", "Fmaj9", "Am9", "Dm7", "E7#9", "Gadd9", "Em7", "Gsus2"],
    "standard",
    [
      ("intro", [["Fmaj9", "Gadd9"], ["Am9", "Fmaj9"]]),
      ("verse", [["Am9", "Fmaj9", "Cmaj7", "Gadd9"], ["Dm7", "Am9", "Fmaj9", "Em7"], ["Cmaj7", "Em7", "Am9", "Fmaj9"]]),
      ("preChorus", [["Dm7", "E7#9", "Am9", "Fmaj9"], ["Fmaj9", "Gadd9", "Am9", "Em7"]]),
      ("chorus", [["Cmaj7", "Gadd9", "Am9", "Fmaj9"], ["Fmaj9", "Cmaj7", "Gadd9", "Am9"], ["Am9", "Fmaj9", "Cmaj7", "Gadd9"]]),
      ("bridge", [["Dm7", "Cmaj7", "Am9", "E7#9"], ["Em7", "Fmaj9", "Dm7", "Gadd9"]]),
      ("breakdown", [["Am9", "Fmaj9"], ["Cmaj7", "Gadd9"]]),
      ("drop", [["Fmaj9", "Gadd9", "Am9"]]),
      ("outro", [["Fmaj9", "Cmaj7", "Am9"], ["Gadd9", "Fmaj9", "Cmaj7"]])
    ],
    "neoSoul", "rootFifth")

  const PND: Artist := Artist("PartyNextDoor", 65, 75, 0.08,
    ["Dm9", "Fmaj7#11", "Em11", "Gmaj7", "Bbmaj9", "Am9", "Cm9", "Ebmaj7"],
    "darkMinimal",
    [
      ("intro", [["Dm9", "Bbmaj9"], ["Am9", "Gmaj7"]]),
      ("verse", [["Dm9", "Bbmaj9", "Cmaj7"], ["Am9", "Dm9", "Gmaj7"], ["Em11", "Dm9", "Bbmaj9", "Am9"]]),
      ("preChorus", [["Fmaj7#11", "Em11", "Dm9", "Am9"], ["Gmaj7", "Am9", "Dm9", "Bbmaj9"]]),
      ("chorus", [["Am9", "Fmaj7#11", "Dm9", "Gmaj7"], ["Dm9", "Bbmaj9", "Gmaj7", "Am9"], ["Em11", "Dm9", "Bbmaj9", "Cmaj7"]]),
      ("bridge", [["Cm9", "Bbmaj9", "Ebmaj7", "Dm9"], ["Fmaj7#11", "Dm9", "Am9", "Gmaj7"]]),
      ("breakdown", [["Dm9", "Am9"], ["Bbmaj9", "Gmaj7"]]),
      ("drop", [["Dm9", "Bbmaj9", "Cmaj7"]]),
      ("outro", [["Dm9", "Bbmaj9", "Am9"], ["Gmaj7", "Dm9"]])
    ],
    "minimal", "sustained")

  const BRYSON: Artist := Artist("Bryson Tiller", 85, 100, 0.12,
    ["Am7", "Dm9", "G7sus4", "Em7b5", "Fmaj7", "Cmaj7", "Em7", "Bm7b5"],
    "trapSoul",
    [
      ("intro", [["Am7", "Fmaj7"], ["Dm9", "Em7"]]),
      ("verse", [["Am7", "Dm9", "Em7"], ["Am7", "Fmaj7", "Dm9", "Em7"], ["Dm9", "Am7", "G7sus4", "Fmaj7"]]),
      ("preChorus", [["Fmaj7", "G7sus4", "Am7", "Em7"], ["Dm9", "Em7b5", "Am7", "Fmaj7"]]),
      ("chorus", [["Am7", "Fmaj7", "G7sus4", "Cmaj7"], ["Dm9", "Am7", "Fmaj7", "G7sus4"], ["Am7", "Fmaj7", "Cmaj7", "G7sus4"]]),
      ("bridge", [["Em7b5", "Am7", "Dm9", "Fmaj7"], ["Bm7b5", "Am7", "G7sus4", "Fmaj7"]]),
      ("breakdown", [["Am7", "Fmaj7"], ["Dm9", "G7sus4"]]),
      ("drop", [["Am7", "Fmaj7", "G7sus4", "Cmaj7"]]),
      ("outro", [["Am7", "Fmaj7", "Dm9"], ["G7sus4", "Am7"]])
    ],
    "trapBounce", "trap")

  const SUMMER: Artist := Artist("Summer Walker", 72, 82, 0.18,
    ["Emaj7", "C#m7", "F#m9", "Amaj9", "B7", "G#m7", "Dmaj7", "F#m7"],
    "balladSlow",
    [
      ("intro", [["Emaj7", "Amaj9"], ["C#m7", "F#m9"]]),
      ("verse", [["Emaj7", "G#m7", "C#m7", "Amaj9"], ["F#m9", "Emaj7", "Amaj9", "B7"], ["C#m7", "Amaj9", "Emaj7", "G#m7"]]),
      ("preChorus", [["Amaj9", "B7", "C#m7", "G#m7"], ["F#m9", "G#m7", "Amaj9", "B7"]]),
      ("chorus", [["Emaj7", "C#m7", "Amaj9", "B7"], ["C#m7", "Amaj9", "Emaj7", "B7"], ["Amaj9", "Emaj7", "C#m7", "G#m7"]]),
      ("bridge", [["F#m7", "B7", "Emaj7"], ["Dmaj7", "C#m7", "F#m9", "Amaj9"]]),
      ("breakdown", [["Emaj7", "C#m7"], ["Amaj9", "B7"]]),
      ("drop", [["Emaj7", "C#m7", "Amaj9"]]),
      ("outro", [["Emaj7", "Amaj9", "C#m7"], ["F#m9", "Emaj7"]])
    ],
    "slowJam", "rootFifth")

  const DARK_RNB: Artist := Artist("Dark R&B", 65, 75, 0.06,
    ["Am9", "Fmaj7", "Gmaj7", "Em11", "Dm9", "Bbmaj9", "Cm9", "Ebmaj7"],
    "darkMinimal",
    [
      ("intro", [["Am9", "Fmaj7"], ["Em11", "Dm9"]]),
      ("verse", [["Am9", "Fmaj7", "Gmaj7"], ["Em11", "Dm9", "Am9", "Fmaj7"], ["Dm9", "Am9", "Gmaj7", "Fmaj7"]]),
      ("preChorus", [["Fmaj7", "Gmaj7", "Am9", "Em11"], ["Dm9", "Em11", "Am9", "Fmaj7"]]),
      ("chorus", [["Am9", "Fmaj7", "Gmaj7", "Em11"], ["Em11", "Am9", "Fmaj7", "Gmaj7"], ["Dm9", "Am9", "Fmaj7", "Gmaj7"]]),
      ("bridge", [["Cm9", "Bbmaj9", "Ebmaj7", "Am9"], ["Dm9", "Am9", "Em11", "Fmaj7"]]),
      ("breakdown", [["Am9", "Em11"], ["Fmaj7", "Dm9"]]),
      ("drop", [["Am9", "Fmaj7", "Gmaj7"]]),
      ("outro", [["Am9", "Fmaj7", "Gmaj7"], ["Em11", "Am9"]])
    ],
    "minimal", "sustained")

  const NEO_SOUL: Artist := Artist("Neo Soul", 80, 95, 0.22,
    ["Dm9", "G13", "Cmaj9", "Am9", "Fmaj9", "Em7", "Bbmaj7", "A7#9"],
    "neoSoul",
    [
      ("intro", [["Dm9", "G13"], ["Fmaj9", "Em7"]]),
      ("verse", [["Dm9", "G13", "Cmaj9", "Am9"], ["Fmaj9", "Em7", "Am9", "Dm9"], ["Am9", "Dm9", "G13", "Cmaj9"]]),
      ("preChorus", [["Fmaj9", "G13", "Am9", "Em7"], ["Dm9", "Em7", "Fmaj9", "G13"]]),
      ("chorus", [["Cmaj9", "Am9", "Dm9", "G13"], ["Fmaj9", "Em7", "Dm9", "G13"], ["Am9", "Fmaj9", "Dm9", "G13"]]),
      ("bridge", [["Bbmaj7", "A7#9", "Dm9", "G13"], ["Em7", "Am9", "Dm9", "G13"]]),
      ("breakdown", [["Dm9", "Am9"], ["Fmaj9", "G13"]]),
      ("drop", [["Dm9", "G13", "Cmaj9"]]),
      ("outro", [["Dm9", "G13", "Cmaj9"], ["Am9", "Dm9", "G13"]])
    ],
    "neoSoul", "walking")

  /** `ARTISTS`, in declaration order. */
  const ARTISTS: seq<(string, Artist)> := [
    ("sza", SZA),
    ("pnd", PND),
    ("bryson", BRYSON),
    ("summer", SUMMER),
    ("darkRnb", DARK_RNB),
    ("neoSoul", NEO_SOUL)
  ]

  /** An entry of `DRUM_PATTERNS`: hit positions in beats within a bar. */
  datatype DrumPattern = DrumPattern(name: string, kick: seq<real>, snare: seq<real>, hihat: seq<real>, openHat: seq<real>)

  const SIXTEENTHS: seq<real> := [0.0, 0.25, 0.5, 0.75, 1.0, 1.25, 1.5, 1.75, 2.0, 2.25, 2.5, 2.75, 3.0, 3.25, 3.5, 3.75]
  const EIGHTHS: seq<real> := [0.0, 0.5, 1.0, 1.5, 2.0, 2.5, 3.0, 3.5]

  const DRUM_PATTERNS: seq<(string, DrumPattern)> := [
    ("trapSoul", DrumPattern("Trap Soul", [0.0, 0.75, 2.0, 2.5], [1.0, 3.0], SIXTEENTHS, [1.75, 3.75])),
    ("trapBounce", DrumPattern("Trap Bounce", [0.0, 0.5, 2.0, 2.75, 3.5], [1.0, 3.0], SIXTEENTHS, [0.75, 2.75])),
    ("slowJam", DrumPattern("Slow Jam", [0.0, 2.5], [1.0, 3.0], EIGHTHS, [3.5])),
    ("neoSoul", DrumPattern("Neo Soul", [0.0, 1.5, 2.75], [1.0, 3.0], EIGHTHS, [1.5, 3.5])),
    ("minimal", DrumPattern("Minimal", [0.0, 2.0], [1.0, 3.0], [0.0, 1.0, 2.0, 3.0], [])),
    ("halfTime", DrumPattern("Half Time", [0.0, 3.0], [2.0], EIGHTHS, [1.5]))
  ]

  /** A bass note of a pattern: where it starts in the bar, how long it lasts, and its
      interval above the chord's bass. */
  datatype BassStep = BassStep(beat: real, duration: real, interval: int)
  datatype BassPattern = BassPattern(name: string, pattern: seq<BassStep>)

  const BASS_PATTERNS: seq<(string, BassPattern)> := [
    ("sustained", BassPattern("Sustained", [BassStep(0.0, 3.5, 0)])),
    ("rootFifth", BassPattern("Root-Fifth", [BassStep(0.0, 1.5, 0), BassStep(2.0, 1.5, 7)])),
    ("walking", BassPattern("Walking", [BassStep(0.0, 0.9, 0), BassStep(1.0, 0.9, 3), BassStep(2.0, 0.9, 5), BassStep(3.0, 0.9, 7)])),
    ("octave", BassPattern("Octave", [BassStep(0.0, 0.7, 0), BassStep(1.0, 0.7, 12), BassStep(2.0, 0.7, 0), BassStep(3.0, 0.7, 12)])),
    ("syncopated", BassPattern("Syncopated", [BassStep(0.0, 1.2, 0), BassStep(1.5, 0.5, 0), BassStep(2.5, 1.2, 7)])),
    ("trap", BassPattern("Trap 808", [BassStep(0.0, 1.8, 0), BassStep(2.5, 0.3, 0), BassStep(3.0, 0.8, -5)]))
  ]

  // ---------------------------------------------------------------- table consistency

  /** What an arrangement needs from an artist: a positive tempo range, a template, drum and
      bass patterns that exist, and at least one progression for every section type. */
  predicate WellFormedArtist(a: Artist)
  {
    && 0 < a.tempoMin <= a.tempoMax
    && a.preferredStructure in KeysOf(SONG_STRUCTURES)
    && a.drumPattern in KeysOf(DRUM_PATTERNS)
    && a.bassPattern in KeysOf(BASS_PATTERNS)
    && KeysOf(a.sections) == KeysOf(SECTION_TYPES)
    && forall j :: 0 <= j < |a.sections| ==> |a.sections[j].1| > 0
  }

  lemma TableKeys()
    ensures KeysOf(SECTION_TYPES) == ["intro", "verse", "preChorus", "chorus", "bridge", "breakdown", "drop", "outro"]
    ensures KeysOf(SONG_STRUCTURES) == ["standard", "trapSoul", "darkMinimal", "balladSlow", "neoSoul"]
    ensures KeysOf(DRUM_PATTERNS) == ["trapSoul", "trapBounce", "slowJam", "neoSoul", "minimal", "halfTime"]
    ensures KeysOf(BASS_PATTERNS) == ["sustained", "rootFifth", "walking", "octave", "syncopated", "trap"]
    ensures KeysOf(ARTISTS) == ["sza", "pnd", "bryson", "summer", "darkRnb", "neoSoul"]
  {
  }

  lemma ArtistsWellFormed()
    ensures forall i :: 0 <= i < |ARTISTS| ==> WellFormedArtist(ARTISTS[i].1)
  {
    SzaWellFormed();
    PndWellFormed();
    BrysonWellFormed();
    SummerWellFormed();
    DarkRnbWellFormed();
    NeoSoulWellFormed();
  }

  lemma SzaWellFormed()
    ensures WellFormedArtist(SZA)
  {
    TableKeys();
    assert KeysOf(SZA.sections) == KeysOf(SECTION_TYPES);
  }

  lemma PndWellFormed()
    ensures WellFormedArtist(PND)
  {
    TableKeys();
    assert KeysOf(PND.sections) == KeysOf(SECTION_TYPES);
  }

  lemma BrysonWellFormed()
    ensures WellFormedArtist(BRYSON)
  {
    TableKeys();
    assert KeysOf(BRYSON.sections) == KeysOf(SECTION_TYPES);
  }

  lemma SummerWellFormed()
    ensures WellFormedArtist(SUMMER)
  {
    TableKeys();
    assert KeysOf(SUMMER.sections) == KeysOf(SECTION_TYPES);
  }

  lemma DarkRnbWellFormed()
    ensures WellFormedArtist(DARK_RNB)
  {
    TableKeys();
    assert KeysOf(DARK_RNB.sections) == KeysOf(SECTION_TYPES);
  }

  lemma NeoSoulWellFormed()
    ensures WellFormedArtist(NEO_SOUL)
  {
    TableKeys();
    assert KeysOf(NEO_SOUL.sections) == KeysOf(SECTION_TYPES);
  }

  /** Every artist the table holds is well formed. */
  lemma ArtistWellFormed(key: string, a: Artist)
    requires (key, a) in ARTISTS
    ensures WellFormedArtist(a)
  {
    ArtistsWellFormed();
  }

  /** Every section type a template lists is a key of `SECTION_TYPES`. */
  lemma StructuresKnown()
    ensures forall i, j :: 0 <= i < |SONG_STRUCTURES| && 0 <= j < |SONG_STRUCTURES[i].1.sections| ==>
      SONG_STRUCTURES[i].1.sections[j] in KeysOf(SECTION_TYPES)
  {
    TableKeys();
  }

  lemma StructureKnown(key: string, st: Structure, j: nat)
    requires (key, st) in SONG_STRUCTURES && j < |st.sections|
    ensures st.sections[j] in KeysOf(SECTION_TYPES)
  {
    StructuresKnown();
  }

  /** Keys that differ in their first letter or their length are distinct. */
  lemma DistinctByKeys<T>(table: seq<(string, T)>)
    requires forall i, j :: 0 <= i < j < |table| ==>
      |table[i].0| != |table[j].0| || (|table[i].0| > 0 && |table[j].0| > 0 && table[i].0[0] != table[j].0[0])
    ensures DistinctKeys(table)
  {
  }

  lemma TablesDistinct()
    ensures DistinctKeys(SONG_STRUCTURES) && DistinctKeys(SECTION_TYPES)
    ensures DistinctKeys(DRUM_PATTERNS) && DistinctKeys(BASS_PATTERNS)
  {
    TableKeys();
    DistinctByKeys(SONG_STRUCTURES);
    DistinctByKeys(SECTION_TYPES);
    DistinctByKeys(DRUM_PATTERNS);
    DistinctByKeys(BASS_PATTERNS);
  }

  lemma ArtistKeysDistinct()
    ensures DistinctKeys(ARTISTS)
  {
    TableKeys();
  }

  // ---------------------------------------------------------------- generateSongArrangement

  /** `artist.sections[type]?.progressions || [artist.chordBank.slice(0, 4)]` */
  function Progressions(artist: Artist, sectionType: string): seq<seq<string>>
  {
    match Get(artist.sections, sectionType)
    case Some(p) => p
    case None => [artist.chordBank[..if |artist.chordBank| < 4 then |artist.chordBank| else 4]]
  }

  /** A section of an arrangement. */
  datatype Section = Section(sectionType: string, name: string, bars: nat, energy: real, description: string,
                             chords: seq<Option<Chord>>, progression: seq<string>)

  /** `progression.map(name => transposeChord(buildChord(name), transpose))` */
  function ChordsOf(progression: seq<string>, transpose: int): (r: seq<Option<Chord>>)
    ensures |r| == |progression|
    ensures forall j :: 0 <= j < |r| ==> r[j] == SongTranspose(BuildChord(progression[j], 3), transpose)
  {
    seq(|progression|, j requires 0 <= j < |progression| => SongTranspose(BuildChord(progression[j], 3), transpose))
  }

  /** One step of `structure.sections.map`, with `u` the draw that picks the progression.
      `None` where the source would throw: a section type with no definition, or an empty
      list of progressions. */
  function SectionOf(artist: Artist, sectionType: string, transpose: int, u: real): (r: Option<Section>)
    requires Unit(u)
    ensures r.Some? <==> sectionType in KeysOf(SECTION_TYPES) && |Progressions(artist, sectionType)| > 0
    ensures r.Some? ==>
      var s, d := r.value, Get(SECTION_TYPES, sectionType).value;
      && s.sectionType == sectionType && s.name == d.name && s.bars == d.bars && s.energy == d.energy
      && s.description == d.description
      && s.progression in Progressions(artist, sectionType)
      && |s.chords| == |s.progression|
      && forall j :: 0 <= j < |s.chords| ==> s.chords[j] == SongTranspose(BuildChord(s.progression[j], 3), transpose)
  {
    var progressions := Progressions(artist, sectionType);
    match Get(SECTION_TYPES, sectionType)
    case None => None
    case Some(d) =>
      if |progressions| == 0 then None
      else
        var progression := progressions[RandomIndex(u, |progressions|)];
        Some(Section(sectionType, d.name, d.bars, d.energy, d.description, ChordsOf(progression, transpose), progression))
  }

  /** `DRUM_PATTERNS[key] || DRUM_PATTERNS.trapSoul` */
  function DrumPatternOf(key: string): (r: DrumPattern)
    ensures key in KeysOf(DRUM_PATTERNS) ==> (key, r) in DRUM_PATTERNS
    ensures key !in KeysOf(DRUM_PATTERNS) ==> r == DRUM_PATTERNS[0].1
  {
    match Get(DRUM_PATTERNS, key)
    case Some(p) => p
    case None => DRUM_PATTERNS[0].1
  }

  /** `BASS_PATTERNS[key] || BASS_PATTERNS.rootFifth` */
  function BassPatternOf(key: string): (r: BassPattern)
    ensures key in KeysOf(BASS_PATTERNS) ==> (key, r) in BASS_PATTERNS
    ensures key !in KeysOf(BASS_PATTERNS) ==> r == BASS_PATTERNS[1].1
  {
    match Get(BASS_PATTERNS, key)
    case Some(p) => p
    case None => BASS_PATTERNS[1].1
  }

  /** What `generateSongArrangement` returns, without the artist's style tags, prompt hint
      and colour, which it copies through unchanged. */
  datatype SongArrangement = SongArrangement(
    artist: string, artistKey: string, structure: string, tempo: int, swing: real,
    sections: seq<Section>, totalBars: int, totalBeats: int, durationSeconds: real,
    durationFormatted: string, drumPattern: DrumPattern, bassPattern: BassPattern)

  /** The template an artist key leads to, if both lookups succeed. */
  function StructureOf(artistKey: string): Option<Structure>
  {
    match Get(ARTISTS, artistKey)
    case None => None
    case Some(a) => Get(SONG_STRUCTURES, a.preferredStructure)
  }

  /** How many progression draws the arrangement makes: one per section. */
  function DrawsNeeded(artistKey: string): nat
  {
    match StructureOf(artistKey)
    case None => 0
    case Some(st) => |st.sections|
  }

  predicate UnitDraws(us: seq<real>)
  {
    forall i :: 0 <= i < |us| ==> Unit(us[i])
  }

  /** The sections of a template, each with its own draw; some may be missing. */
  function Drafts(artist: Artist, names: seq<string>, transpose: int, picks: seq<real>): (r: seq<Option<Section>>)
    requires |picks| >= |names| && UnitDraws(picks)
    ensures |r| == |names|
    ensures forall i :: 0 <= i < |names| ==> r[i] == SectionOf(artist, names[i], transpose, picks[i])
  {
    seq(|names|, i requires 0 <= i < |names| => SectionOf(artist, names[i], transpose, picks[i]))
  }

  function BarsOf(sections: seq<Section>): (r: seq<int>)
    ensures |r| == |sections| && forall i :: 0 <= i < |sections| ==> r[i] == sections[i].bars
  {
    seq(|sections|, i requires 0 <= i < |sections| => sections[i].bars as int)
  }

  predicate AllSome<T>(xs: seq<Option<T>>)
  {
    forall i :: 0 <= i < |xs| ==> xs[i].Some?
  }

  function Values<T>(xs: seq<Option<T>>): (r: seq<T>)
    requires AllSome(xs)
    ensures |r| == |xs| && forall i :: 0 <= i < |xs| ==> r[i] == xs[i].value
  {
    seq(|xs|, i requires 0 <= i < |xs| => xs[i].value)
  }

  /** The arrangement of an artist once its template is expanded into `sections` and its
      tempo drawn: the totals, the duration and the artist's patterns. */
  function Song(artistKey: string, artist: Artist, structure: Structure, tempo: int, sections: seq<Section>): SongArrangement
    requires tempo > 0
  {
    var totalBars := Sum(BarsOf(sections));
    var totalBeats := totalBars * 4;
    var durationSeconds := Seconds(totalBeats, tempo);
    SongArrangement(artist.name, artistKey, structure.name, tempo, artist.swing, sections,
                    totalBars, totalBeats, durationSeconds, FormatDuration(durationSeconds),
                    DrumPatternOf(artist.drumPattern), BassPatternOf(artist.bassPattern))
  }

  /** `(totalBeats / tempo) * 60`: the length in seconds of `beats` beats at `tempo` beats
      per minute. */
  function Seconds(beats: int, tempo: int): (d: real)
    requires tempo > 0
    ensures d * tempo as real == beats as real * 60.0
    ensures beats >= 0 ==> d >= 0.0
  {
    PerMinute(beats as real, tempo as real);
    beats as real / tempo as real * 60.0
  }

  lemma PerMinute(b: real, t: real)
    requires t > 0.0
    ensures b / t * 60.0 * t == b * 60.0
    ensures b >= 0.0 ==> b / t * 60.0 >= 0.0
  {
  }

  lemma ArtistTempo(key: string, a: Artist)
    requires (key, a) in ARTISTS
    ensures 0 < a.tempoMin <= a.tempoMax
  {
    ArtistWellFormed(key, a);
  }

  /** `generateSongArrangement(artistKey, transpose)`, with `tempoDraw` the draw that picks
      the tempo and `picks[i]` the one that picks section `i`'s progression.  `None` for an
      unknown artist; also, unreachably with these tables, where the source would throw. */
  function GenerateSongArrangement(artistKey: string, transpose: int, tempoDraw: real, picks: seq<real>): (r: Option<SongArrangement>)
    requires Unit(tempoDraw) && UnitDraws(picks) && |picks| >= DrawsNeeded(artistKey)
    ensures r.Some? ==> artistKey in KeysOf(ARTISTS) && r.value.artistKey == artistKey
  {
    match Get(ARTISTS, artistKey)
    case None => None
    case Some(artist) =>
      match Get(SONG_STRUCTURES, artist.preferredStructure)
      case None => None
      case Some(structure) =>
        ArtistTempo(artistKey, artist);
        var tempo := RandomInt(tempoDraw, artist.tempoMin, artist.tempoMax);
        var drafts := Drafts(artist, structure.sections, transpose, picks);
        if AllSome(drafts) then Some(Song(artistKey, artist, structure, tempo, Values(drafts))) else None
  }

  /** An artist's progressions for a section type it declares: its own, non-empty list. */
  lemma ProgressionsOf(a: Artist, sectionType: string)
    requires WellFormedArtist(a) && sectionType in KeysOf(SECTION_TYPES)
    ensures Get(a.sections, sectionType).Some? && |Progressions(a, sectionType)| > 0
  {
    var p := Get(a.sections, sectionType).value;
    var j :| 0 <= j < |a.sections| && a.sections[j] == (sectionType, p);
  }

  /** Every section of a known artist's template can be built. */
  lemma DraftsBuilt(key: string, a: Artist, skey: string, st: Structure, transpose: int, picks: seq<real>)
    requires (key, a) in ARTISTS && (skey, st) in SONG_STRUCTURES
    requires |picks| >= |st.sections| && UnitDraws(picks)
    ensures AllSome(Drafts(a, st.sections, transpose, picks))
  {
    ArtistWellFormed(key, a);
    forall i | 0 <= i < |st.sections|
      ensures SectionOf(a, st.sections[i], transpose, picks[i]).Some?
    {
      StructureKnown(skey, st, i);
      ProgressionsOf(a, st.sections[i]);
    }
  }

  /** An arrangement exists exactly for the keys of `ARTISTS`: the lookups of the template
      and of every section type it lists always succeed. */
  lemma SongArrangementKnown(artistKey: string, transpose: int, tempoDraw: real, picks: seq<real>)
    requires Unit(tempoDraw) && UnitDraws(picks) && |picks| >= DrawsNeeded(artistKey)
    ensures GenerateSongArrangement(artistKey, transpose, tempoDraw, picks).Some? <==> artistKey in KeysOf(ARTISTS)
  {
    if artistKey in KeysOf(ARTISTS) {
      var a := Get(ARTISTS, artistKey).value;
      ArtistWellFormed(artistKey, a);
      var st := Get(SONG_STRUCTURES, a.preferredStructure).value;
      DraftsBuilt(artistKey, a, a.preferredStructure, st, transpose, picks);
    }
  }

  /** The tempo lies in the artist's range, and the name, swing, template name and patterns
      are the artist's; the pattern fallbacks are never taken. */
  lemma SongArtist(artistKey: string, transpose: int, tempoDraw: real, picks: seq<real>)
    requires Unit(tempoDraw) && UnitDraws(picks) && |picks| >= DrawsNeeded(artistKey)
    requires GenerateSongArrangement(artistKey, transpose, tempoDraw, picks).Some?
    ensures var r, a := GenerateSongArrangement(artistKey, transpose, tempoDraw, picks).value, Get(ARTISTS, artistKey).value;
      && a.tempoMin <= r.tempo <= a.tempoMax
      && r.artist == a.name && r.swing == a.swing
      && r.structure == StructureOf(artistKey).value.name
      && (a.drumPattern, r.drumPattern) in DRUM_PATTERNS
      && (a.bassPattern, r.bassPattern) in BASS_PATTERNS
  {
    var a := Get(ARTISTS, artistKey).value;
    ArtistWellFormed(artistKey, a);
  }

  /** The sections follow the artist's template in order: each takes its name, bars, energy
      and description from `SECTION_TYPES`, plays one of the artist's progressions for its
      type, and has one chord per chord name, built in octave 3 and transposed. */
  lemma SongSections(artistKey: string, transpose: int, tempoDraw: real, picks: seq<real>)
    requires Unit(tempoDraw) && UnitDraws(picks) && |picks| >= DrawsNeeded(artistKey)
    requires GenerateSongArrangement(artistKey, transpose, tempoDraw, picks).Some?
    ensures var r, a, st := GenerateSongArrangement(artistKey, transpose, tempoDraw, picks).value,
                            Get(ARTISTS, artistKey).value, StructureOf(artistKey).value;
      && |r.sections| == |st.sections|
      && forall i :: 0 <= i < |r.sections| ==>
           var s, d := r.sections[i], Get(SECTION_TYPES, st.sections[i]).value;
           && st.sections[i] in KeysOf(SECTION_TYPES)
           && s.sectionType == st.sections[i]
           && s.name == d.name && s.bars == d.bars && s.energy == d.energy && s.description == d.description
           && s.progression in Progressions(a, s.sectionType)
           && |s.chords| == |s.progression|
           && forall j :: 0 <= j < |s.chords| ==> s.chords[j] == SongTranspose(BuildChord(s.progression[j], 3), transpose)
  {
  }

  /** The bars of a template, as `SECTION_TYPES` gives them. */
  function TemplateBars(names: seq<string>): int
  {
    if |names| == 0 then 0
    else
      (match Get(SECTION_TYPES, names[0]) case Some(d) => d.bars as int case None => 0) + TemplateBars(names[1..])
  }

  lemma {:induction false} SectionBars(sections: seq<Section>, names: seq<string>)
    requires |sections| == |names|
    requires forall i :: 0 <= i < |names| ==>
      names[i] in KeysOf(SECTION_TYPES) && sections[i].bars == Get(SECTION_TYPES, names[i]).value.bars
    ensures Sum(BarsOf(sections)) == TemplateBars(names)
  {
    if |names| > 0 {
      assert BarsOf(sections)[1..] == BarsOf(sections[1..]);
      SectionBars(sections[1..], names[1..]);
    }
  }

  /** What `Song` computes from its sections and tempo. */
  lemma SongFields(artistKey: string, artist: Artist, structure: Structure, tempo: int, sections: seq<Section>)
    requires tempo > 0
    ensures var r := Song(artistKey, artist, structure, tempo, sections);
      && r.sections == sections && r.tempo == tempo
      && r.totalBars == Sum(BarsOf(sections)) >= 0 && r.totalBeats == 4 * r.totalBars
      && r.durationSeconds == Seconds(r.totalBeats, tempo)
      && r.durationFormatted == FormatDuration(r.durationSeconds)
  {
    BarsNonNegative(sections);
  }

  lemma {:induction false} BarsNonNegative(sections: seq<Section>)
    ensures Sum(BarsOf(sections)) >= 0
  {
    if |sections| > 0 {
      assert BarsOf(sections)[1..] == BarsOf(sections[1..]);
      BarsNonNegative(sections[1..]);
    }
  }

  /** An arrangement that exists is `Song` applied to the artist, its template, the drawn
      tempo and the built sections. */
  lemma SongOf(artistKey: string, transpose: int, tempoDraw: real, picks: seq<real>)
    requires Unit(tempoDraw) && UnitDraws(picks) && |picks| >= DrawsNeeded(artistKey)
    requires GenerateSongArrangement(artistKey, transpose, tempoDraw, picks).Some?
    ensures var a, st := Get(ARTISTS, artistKey).value, StructureOf(artistKey).value;
      && 0 < a.tempoMin <= a.tempoMax
      && var tempo := RandomInt(tempoDraw, a.tempoMin, a.tempoMax);
      && tempo > 0
      && var drafts := Drafts(a, st.sections, transpose, picks);
      && AllSome(drafts)
      && GenerateSongArrangement(artistKey, transpose, tempoDraw, picks).value == Song(artistKey, a, st, tempo, Values(drafts))
  {
    var a := Get(ARTISTS, artistKey).value;
    ArtistTempo(artistKey, a);
  }

  /** The totals: the bars of the template's sections, four beats to the bar, and
      `totalBeats / tempo` minutes. */
  lemma SongTotals(artistKey: string, transpose: int, tempoDraw: real, picks: seq<real>)
    requires Unit(tempoDraw) && UnitDraws(picks) && |picks| >= DrawsNeeded(artistKey)
    requires GenerateSongArrangement(artistKey, transpose, tempoDraw, picks).Some?
    ensures var r, st := GenerateSongArrangement(artistKey, transpose, tempoDraw, picks).value, StructureOf(artistKey).value;
      && r.totalBars == Sum(BarsOf(r.sections)) == TemplateBars(st.sections)
      && r.totalBeats == 4 * r.totalBars
      && r.tempo > 0 && r.durationSeconds == Seconds(r.totalBeats, r.tempo)
  {
    var r, a, st := GenerateSongArrangement(artistKey, transpose, tempoDraw, picks).value,
                    Get(ARTISTS, artistKey).value, StructureOf(artistKey).value;
    SongOf(artistKey, transpose, tempoDraw, picks);
    var tempo := RandomInt(tempoDraw, a.tempoMin, a.tempoMax);
    SongFields(artistKey, a, st, tempo, Values(Drafts(a, st.sections, transpose, picks)));
    SongSections(artistKey, transpose, tempoDraw, picks);
    SectionBars(r.sections, st.sections);
  }

  /** The formatted duration reads back as the whole seconds of the song. */
  lemma SongClock(artistKey: string, transpose: int, tempoDraw: real, picks: seq<real>)
    requires Unit(tempoDraw) && UnitDraws(picks) && |picks| >= DrawsNeeded(artistKey)
    requires GenerateSongArrangement(artistKey, transpose, tempoDraw, picks).Some?
    ensures var r := GenerateSongArrangement(artistKey, transpose, tempoDraw, picks).value;
      ClockSeconds(r.durationFormatted) == Floor(r.durationSeconds)
  {
    var r, a, st := GenerateSongArrangement(artistKey, transpose, tempoDraw, picks).value,
                    Get(ARTISTS, artistKey).value, StructureOf(artistKey).value;
    SongOf(artistKey, transpose, tempoDraw, picks);
    var tempo := RandomInt(tempoDraw, a.tempoMin, a.tempoMax);
    SongFields(artistKey, a, st, tempo, Values(Drafts(a, st.sections, transpose, picks)));
    DurationText(r.durationSeconds);
  }

  // ---------------------------------------------------------------- formatDuration

  /** `Math.floor(seconds / 60) + ':' + String(Math.floor(seconds % 60)).padStart(2, '0')`,
      with `%` taking the sign of the dividend as in JavaScript. */
  function FormatDuration(seconds: real): string
  {
    var mins := Floor(seconds / 60.0);
    var secs := Floor(RealRem(seconds, 60.0));
    IntToString(mins) + ":" + PadStart2(IntToString(secs))
  }

  /** Reading an `M:SS` text back: the seconds it names. */
  function ClockSeconds(text: string): int
  {
    var c := IndexOf(text, ':');
    if c < 0 then 0 else 60 * DecimalValue(text[..c]) + DecimalValue(text[c + 1..])
  }

  /** For a non-negative duration, the minutes and the seconds within the minute. */
  lemma DurationParts(seconds: real)
    requires seconds >= 0.0
    ensures var mins, secs := Floor(seconds / 60.0), Floor(RealRem(seconds, 60.0));
      mins >= 0 && 0 <= secs < 60 && 60 * mins + secs == Floor(seconds)
  {
    var q := seconds / 60.0;
    var mins := Floor(q);
    assert Trunc(q) == mins;
    assert RealRem(seconds, 60.0) == seconds - 60.0 * mins as real;
  }

  /** A number below 100, padded to two digits, reads back as itself. */
  lemma PaddedDigits(n: nat)
    requires n < 100
    ensures var t := PadStart2(NatToString(n));
      |t| == 2 && (forall i :: 0 <= i < |t| ==> '0' <= t[i] <= '9') && DecimalValue(t) == n
  {
    DecimalOfNatToString(n);
    if n < 10 {
      var t := PadStart2(NatToString(n));
      assert t == "0" + NatToString(n);
      assert t[..1] == "0";
    }
  }

  /** `r` is `M:SS`: digits, a colon and two more digits naming fewer than 60 seconds, the
      whole reading back as `total` seconds. */
  predicate IsClockText(r: string, total: int)
  {
    var c := IndexOf(r, ':');
    && c >= 1 && |r| == c + 3
    && (forall i :: 0 <= i < |r| && i != c ==> '0' <= r[i] <= '9')
    && DecimalValue(r[c + 1..]) < 60
    && ClockSeconds(r) == total
  }

  /** `formatDuration` of a non-negative duration is `M:SS` for its whole seconds. */
  lemma DurationText(seconds: real)
    requires seconds >= 0.0
    ensures IsClockText(FormatDuration(seconds), Floor(seconds))
  {
    DurationParts(seconds);
    var mins, secs := Floor(seconds / 60.0), Floor(RealRem(seconds, 60.0));
    assert FormatDuration(seconds) == NatToString(mins) + ":" + PadStart2(NatToString(secs));
    ClockText(mins, secs);
  }

  /** `M:SS` for `mins` minutes and `secs` seconds below 60 reads back as their total. */
  lemma ClockText(mins: nat, secs: nat)
    requires secs < 60
    ensures IsClockText(NatToString(mins) + ":" + PadStart2(NatToString(secs)), 60 * mins + secs)
  {
    PaddedDigits(secs);
    DecimalOfNatToString(mins);
    ClockOf(NatToString(mins), PadStart2(NatToString(secs)), mins, secs);
  }

  /** Two runs of digits around a colon, the second two digits below 60, are `M:SS`. */
  lemma ClockOf(m: string, t: string, mins: int, secs: int)
    requires |m| >= 1 && forall i :: 0 <= i < |m| ==> '0' <= m[i] <= '9'
    requires |t| == 2 && forall i :: 0 <= i < |t| ==> '0' <= t[i] <= '9'
    requires DecimalValue(m) == mins && DecimalValue(t) == secs && secs < 60
    ensures IsClockText(m + ":" + t, 60 * mins + secs)
  {
    ColonAt(m, t);
  }

  /** The colon between two runs of digits is the first one. */
  lemma ColonAt(m: string, t: string)
    requires forall i :: 0 <= i < |m| ==> '0' <= m[i] <= '9'
    ensures var r := m + ":" + t; IndexOf(r, ':') == |m| && r[..|m|] == m && r[|m| + 1..] == t
    ensures (forall i :: 0 <= i < |t| ==> '0' <= t[i] <= '9') ==>
      var r := m + ":" + t; forall i :: 0 <= i < |r| && i != |m| ==> '0' <= r[i] <= '9'
  {
    var r := m + ":" + t;
    assert r[|m|] == ':';
    assert forall i :: 0 <= i < |m| ==> r[i] == m[i];
    assert r[..|m|] == m && r[|m| + 1..] == t;
  }
}
