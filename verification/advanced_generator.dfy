/** `src/advancedGenerator.js`: chord voicings, randomised chord variations, a random-walk
    melody, and whole arrangements built from a Roman-numeral progression.  Every outcome of
    `Math.random()` is a parameter here: a real in [0, 1) that the functions below turn into
    a choice exactly as the source's `random`, `randomChoice` and `randomFloat` do. */
module AdvancedGenerator {
  import opened Js
  import opened Notes
  import opened ChordTypes
  import opened StableSort
  import opened MusicData
  import opened Random

  // ---------------------------------------------------------------- voicings

  /** An entry of `VOICINGS`.  A property the entry does not declare is `None`, `0` or
      `false`, which the source's truthiness tests treat alike. */
  datatype Voicing = Voicing(key: string, name: string, drop: Option<seq<nat>>, spread: int,
                             indices: Option<seq<nat>>, skipRoot: bool)

  const CLOSE: Voicing := Voicing("close", "Close Position", None, 0, None, false)

  /** `VOICINGS`, in declaration order. */
  const VOICINGS: seq<Voicing> := [
    CLOSE,
    Voicing("drop2", "Drop 2", Some([1]), 0, None, false),
    Voicing("drop3", "Drop 3", Some([2]), 0, None, false),
    Voicing("drop24", "Drop 2+4", Some([1, 3]), 0, None, false),
    Voicing("spread", "Spread", None, 12, None, false),
    Voicing("shell", "Shell (Root+3+7)", None, 0, Some([0, 1, 3]), false),
    Voicing("rootless", "Rootless", None, 0, None, true)
  ]

  /** `Object.keys(VOICINGS)`: none of the keys is an array index, so declaration order. */
  const VOICING_KEYS: seq<string> := ["close", "drop2", "drop3", "drop24", "spread", "shell", "rootless"]

  lemma VoicingKeysOf()
    ensures |VOICING_KEYS| == |VOICINGS|
    ensures forall i :: 0 <= i < |VOICINGS| ==> VOICINGS[i].key == VOICING_KEYS[i]
  {
  }

  /** No two entries share a key. */
  lemma VoicingKeysDistinct()
    ensures forall i, j :: 0 <= i < j < |VOICINGS| ==> VOICINGS[i].key != VOICINGS[j].key
  {
  }

  /** The first entry with the key. */
  function FindVoicing(table: seq<Voicing>, key: string): (r: Option<Voicing>)
    ensures r.Some? ==> r.value in table && r.value.key == key
    ensures r.None? ==> forall i :: 0 <= i < |table| ==> table[i].key != key
  {
    if |table| == 0 then None
    else if table[0].key == key then Some(table[0])
    else FindVoicing(table[1..], key)
  }

  /** `VOICINGS[voicingType] || VOICINGS.close` */
  function VoicingOf(key: string): (r: Voicing)
    ensures r in VOICINGS
    ensures key in VOICING_KEYS ==> r.key == key
    ensures key !in VOICING_KEYS ==> r == CLOSE
  {
    VoicingKeysOf();
    match FindVoicing(VOICINGS, key)
    case Some(v) => v
    case None => CLOSE
  }

  /** In a table whose keys are distinct, each entry is found under its own key. */
  lemma {:induction false} FindVoicingOf(table: seq<Voicing>, i: nat)
    requires i < |table|
    requires forall a, b :: 0 <= a < b < |table| ==> table[a].key != table[b].key
    ensures FindVoicing(table, table[i].key) == Some(table[i])
  {
    if i > 0 {
      assert table[0].key != table[i].key;
      FindVoicingOf(table[1..], i - 1);
    }
  }

  /** The keys name one entry each, so the lookup of a key is the entry declared under it. */
  lemma VoicingOfKey(i: nat)
    requires i < |VOICINGS|
    ensures VoicingOf(VOICING_KEYS[i]) == VOICINGS[i]
  {
    VoicingKeysOf();
    VoicingKeysDistinct();
    FindVoicingOf(VOICINGS, i);
  }

  /** `voicing.drop.forEach(idx => { if (result[idx] !== undefined) result[idx] -= 12 })` */
  function Lower(notes: seq<int>, drop: seq<nat>): (r: seq<int>)
    ensures |r| == |notes|
    decreases |drop|
  {
    if |drop| == 0 then notes
    else
      var idx := drop[0];
      Lower(if idx < |notes| then notes[idx := notes[idx] - 12] else notes, drop[1..])
  }

  /** How many times `i` is listed. */
  function Occurrences(drop: seq<nat>, i: nat): nat
  {
    if |drop| == 0 then 0 else (if drop[0] == i then 1 else 0) + Occurrences(drop[1..], i)
  }

  /** A note drops one octave for every time its index is listed; indices past the end are
      ignored. */
  lemma {:induction false} LowerVoices(notes: seq<int>, drop: seq<nat>, i: nat)
    requires i < |notes|
    ensures Lower(notes, drop)[i] == notes[i] - 12 * Occurrences(drop, i)
    decreases |drop|
  {
    if |drop| > 0 {
      var idx := drop[0];
      LowerVoices(if idx < |notes| then notes[idx := notes[idx] - 12] else notes, drop[1..], i);
    }
  }

  /** `result.map((note, i) => note + (i * Math.floor(spread / result.length)))` */
  function Spread(notes: seq<int>, spread: int): (r: seq<int>)
    ensures |r| == |notes|
  {
    if |notes| == 0 then []
    else
      var step := spread / |notes|;
      seq(|notes|, i requires 0 <= i < |notes| => notes[i] + i * step)
  }

  /** `indices.map(i => notes[i]).filter(n => n !== undefined)` */
  function Pick(notes: seq<int>, indices: seq<nat>): (r: seq<int>)
    ensures |r| <= |indices|
  {
    if |indices| == 0 then []
    else (if indices[0] < |notes| then [notes[indices[0]]] else []) + Pick(notes, indices[1..])
  }

  /** The steps of `applyVoicing` for a voicing already looked up, in the source's order: the
      kept indices read the notes as given, not the dropped or spread ones. */
  function Voice(notes: seq<int>, v: Voicing): seq<int>
  {
    var dropped := if v.drop.Some? then SortBy(Lower(notes, v.drop.value), NoteKey) else notes;
    var spread := if v.spread != 0 then Spread(dropped, v.spread) else dropped;
    var kept := if v.indices.Some? then Pick(notes, v.indices.value) else spread;
    if v.skipRoot && |kept| > 0 then kept[1..] else if v.skipRoot then [] else kept
  }

  /** `applyVoicing(notes, voicingType)`; the unused `octave` parameter is left out. */
  function ApplyVoicing(notes: seq<int>, key: string): (r: seq<int>)
  {
    Voice(notes, VoicingOf(key))
  }

  lemma VoiceDrop(notes: seq<int>, v: Voicing)
    requires v.drop.Some? && v.spread == 0 && v.indices.None? && !v.skipRoot
    ensures Voice(notes, v) == SortBy(Lower(notes, v.drop.value), NoteKey)
  {
  }

  lemma VoiceKeep(notes: seq<int>, v: Voicing)
    requires v.drop.None? && v.spread == 0 && v.indices.Some? && !v.skipRoot
    ensures Voice(notes, v) == Pick(notes, v.indices.value)
  {
  }

  lemma PickOne(notes: seq<int>, i: nat, rest: seq<nat>)
    ensures Pick(notes, [i] + rest) == (if i < |notes| then [notes[i]] else []) + Pick(notes, rest)
  {
    assert ([i] + rest)[1..] == rest;
  }

  /** The note at `i`, if there is one. */
  function NoteAt(notes: seq<int>, i: nat): seq<int>
  {
    if i < |notes| then [notes[i]] else []
  }

  /** The shell indices keep the voices that exist among 0, 1 and 3. */
  lemma PickShell(notes: seq<int>)
    ensures |notes| >= 4 ==> Pick(notes, [0, 1, 3]) == [notes[0], notes[1], notes[3]]
    ensures 2 <= |notes| < 4 ==> Pick(notes, [0, 1, 3]) == notes[..2]
  {
    PickShellSteps(notes);
    if |notes| >= 4 {
      ShellOfFour(notes);
    } else if |notes| >= 2 {
      ShellOfTriad(notes);
    }
  }

  lemma PickShellSteps(notes: seq<int>)
    ensures Pick(notes, [0, 1, 3]) == NoteAt(notes, 0) + (NoteAt(notes, 1) + (NoteAt(notes, 3) + []))
  {
    PickOne(notes, 3, []);
    assert [3] == [3] + [];
    PickOne(notes, 1, [3]);
    assert [1, 3] == [1] + [3];
    PickOne(notes, 0, [1, 3]);
    assert [0, 1, 3] == [0] + [1, 3];
  }

  lemma ShellOfFour(notes: seq<int>)
    requires |notes| >= 4
    ensures NoteAt(notes, 0) + (NoteAt(notes, 1) + (NoteAt(notes, 3) + [])) == [notes[0], notes[1], notes[3]]
  {
  }

  lemma ShellOfTriad(notes: seq<int>)
    requires 2 <= |notes| < 4
    ensures NoteAt(notes, 0) + (NoteAt(notes, 1) + (NoteAt(notes, 3) + [])) == notes[..2]
  {
    assert NoteAt(notes, 0) + (NoteAt(notes, 1) + (NoteAt(notes, 3) + [])) == [notes[0], notes[1]];
  }

  /** Close position, and any key `VOICINGS` does not have, copy the notes unchanged. */
  lemma CloseVoicing(notes: seq<int>, key: string)
    requires key == "close" || key !in VOICING_KEYS
    ensures ApplyVoicing(notes, key) == notes
  {
    VoicingOfKey(0);
  }

  /** The drop voicings and the indices each lowers. */
  predicate DropVoicing(key: string, drop: seq<nat>)
  {
    || (key == "drop2" && drop == [1])
    || (key == "drop3" && drop == [2])
    || (key == "drop24" && drop == [1, 3])
  }

  /** A drop voicing lowers the listed voices an octave, then sorts. */
  lemma DropVoicingOf(notes: seq<int>, key: string, drop: seq<nat>)
    requires DropVoicing(key, drop)
    ensures ApplyVoicing(notes, key) == SortBy(Lower(notes, drop), NoteKey)
  {
    var k := if key == "drop2" then 1 else if key == "drop3" then 2 else 3;
    VoicingOfKey(k);
    VoiceDrop(notes, VOICINGS[k]);
  }

  /** A drop voicing keeps every voice and comes out ascending. */
  lemma DropVoicingSorted(notes: seq<int>, key: string, drop: seq<nat>)
    requires DropVoicing(key, drop)
    ensures |ApplyVoicing(notes, key)| == |notes|
    ensures Sorted(ApplyVoicing(notes, key), NoteKey)
  {
    DropVoicingOf(notes, key, drop);
    SortBySorted(Lower(notes, drop), NoteKey);
  }

  /** A drop voicing holds exactly the lowered voices. */
  lemma DropVoicingNotes(notes: seq<int>, key: string, drop: seq<nat>)
    requires DropVoicing(key, drop)
    ensures multiset(ApplyVoicing(notes, key)) == multiset(Lower(notes, drop))
  {
    DropVoicingOf(notes, key, drop);
  }

  /** Spread moves voice `i` up by `i` times a twelfth of an octave's share per voice. */
  lemma SpreadVoicing(notes: seq<int>)
    ensures ApplyVoicing(notes, "spread") == Spread(notes, 12)
  {
    VoicingOfKey(4);
  }

  /** No voice of a spread moves by an octave or more, and an ascending chord stays
      ascending. */
  lemma SpreadWithinOctave(notes: seq<int>, i: nat)
    requires i < |notes|
    ensures 0 <= Spread(notes, 12)[i] - notes[i] < 12
  {
    var n := |notes|;
    var step := 12 / n;
    assert Spread(notes, 12)[i] - notes[i] == i * step;
    DivModUnique(12, n, step, 12 % n);
    MulMonotone(step, i, n - 1);
    if step > 0 {
      assert (n - 1) * step == n * step - step;
    }
  }

  lemma SpreadAscending(notes: seq<int>, spread: int)
    requires StrictlyAscending(notes) && spread >= 0
    ensures StrictlyAscending(Spread(notes, spread))
  {
    if |notes| > 0 {
      var step := spread / |notes|;
      forall i, j | 0 <= i < j < |notes|
        ensures Spread(notes, spread)[i] < Spread(notes, spread)[j]
      {
        MulMonotone(step, i, j);
      }
    }
  }

  /** Shell keeps the root, the third and the seventh: three voices from a chord of four or
      more, the lowest two from a triad. */
  lemma ShellVoicing(notes: seq<int>)
    ensures |notes| >= 4 ==> ApplyVoicing(notes, "shell") == [notes[0], notes[1], notes[3]]
    ensures 2 <= |notes| < 4 ==> ApplyVoicing(notes, "shell") == notes[..2]
  {
    VoicingOfKey(5);
    VoiceKeep(notes, VOICINGS[5]);
    PickShell(notes);
  }

  /** Rootless drops the lowest voice. */
  lemma RootlessVoicing(notes: seq<int>)
    ensures |notes| > 0 ==> ApplyVoicing(notes, "rootless") == notes[1..]
    ensures |notes| == 0 ==> ApplyVoicing(notes, "rootless") == []
  {
    VoicingOfKey(6);
  }

  /** Every voicing but shell and rootless keeps all the voices. */
  lemma VoicingKeepsVoices(notes: seq<int>, key: string)
    requires key != "shell" && key != "rootless"
    ensures |ApplyVoicing(notes, key)| == |notes|
  {
    if key == "close" || key !in VOICING_KEYS {
      CloseVoicing(notes, key);
    } else if key == "spread" {
      SpreadVoicing(notes);
    } else {
      var drop := if key == "drop2" then [1] else if key == "drop3" then [2] else [1, 3];
      DropVoicingSorted(notes, key, drop);
    }
  }

  // ---------------------------------------------------------------- rhythm and bass tables

  /** A chord hit: the beat it starts on and its length in beats. */
  datatype Hit = Hit(beat: real, duration: real)

  datatype ChordRhythm = ChordRhythm(name: string, pattern: seq<Hit>)

  /** A bass hit: its beat, its interval above the chord root and its length in beats. */
  datatype BassHit = BassHit(beat: real, interval: int, duration: real)

  datatype BassPattern = BassPattern(name: string, pattern: seq<BassHit>)

  /** `CHORD_RHYTHMS` */
  const CHORD_RHYTHMS: seq<ChordRhythm> := [
    ChordRhythm("Whole Notes", [Hit(0.0, 4.0)]),
    ChordRhythm("Half Notes", [Hit(0.0, 2.0), Hit(2.0, 2.0)]),
    ChordRhythm("Syncopated", [Hit(0.0, 1.5), Hit(1.5, 1.0), Hit(2.5, 1.5)]),
    ChordRhythm("R&B Pump", [Hit(0.0, 0.5), Hit(0.75, 0.5), Hit(2.0, 1.0), Hit(3.5, 0.5)]),
    ChordRhythm("Neo Soul Stabs", [Hit(0.0, 0.25), Hit(1.0, 0.5), Hit(2.5, 0.25), Hit(3.0, 0.5)]),
    ChordRhythm("Gospel Bounce", [Hit(0.0, 1.0), Hit(1.5, 0.5), Hit(2.0, 1.0), Hit(3.5, 0.5)]),
    ChordRhythm("Trap Soul", [Hit(0.0, 2.0), Hit(2.5, 1.5)]),
    ChordRhythm("Ballad", [Hit(0.0, 3.0), Hit(3.5, 0.5)])
  ]

  /** `BASS_PATTERNS` */
  const BASS_PATTERNS: seq<BassPattern> := [
    BassPattern("Simple Root-Fifth", [BassHit(0.0, 0, 1.5), BassHit(2.0, 7, 1.5)]),
    BassPattern("Walking", [BassHit(0.0, 0, 0.75), BassHit(1.0, 4, 0.75), BassHit(2.0, 7, 0.75), BassHit(3.0, 5, 0.75)]),
    BassPattern("Syncopated Groove", [BassHit(0.0, 0, 1.0), BassHit(1.5, 0, 0.5), BassHit(2.5, 7, 1.0), BassHit(3.75, 5, 0.25)]),
    BassPattern("Octave Bounce", [BassHit(0.0, 0, 0.5), BassHit(0.75, 12, 0.5), BassHit(2.0, 0, 0.5), BassHit(2.75, 12, 0.5)]),
    BassPattern("PND Dark", [BassHit(0.0, 0, 2.5), BassHit(3.0, -5, 1.0)]),
    BassPattern("Bryson Trap", [BassHit(0.0, 0, 0.75), BassHit(1.0, 0, 0.25), BassHit(1.5, 0, 0.25), BassHit(2.5, 7, 1.0)]),
    BassPattern("Gospel Run", [BassHit(0.0, 0, 0.5), BassHit(0.5, 2, 0.5), BassHit(1.0, 4, 0.5), BassHit(1.5, 5, 0.5), BassHit(2.0, 7, 1.5)]),
    BassPattern("Minimal", [BassHit(0.0, 0, 3.5)])
  ]

  /** Hits in order, none overlapping the next, all inside one four-beat bar. */
  predicate FitsBar(hits: seq<Hit>)
  {
    && (forall i :: 0 <= i < |hits| ==> 0.0 <= hits[i].beat && 0.0 < hits[i].duration && hits[i].beat + hits[i].duration <= 4.0)
    && (forall i :: 0 <= i < |hits| - 1 ==> hits[i].beat + hits[i].duration <= hits[i + 1].beat)
  }

  /** The timing of a bass pattern: its hits without their intervals. */
  function Timing(p: BassPattern): (r: seq<Hit>)
    ensures |r| == |p.pattern|
    ensures forall i :: 0 <= i < |r| ==> r[i].beat == p.pattern[i].beat && r[i].duration == p.pattern[i].duration
  {
    seq(|p.pattern|, i requires 0 <= i < |p.pattern| => Hit(p.pattern[i].beat, p.pattern[i].duration))
  }

  /** Every chord rhythm and every bass pattern plays inside one bar without overlaps, and
      the bass never moves more than an octave from the root. */
  lemma RhythmsFitBar(i: nat)
    requires i < |CHORD_RHYTHMS|
    ensures FitsBar(CHORD_RHYTHMS[i].pattern)
  {
  }

  lemma BassFitsBar(i: nat)
    requires i < |BASS_PATTERNS|
    ensures FitsBar(Timing(BASS_PATTERNS[i]))
    ensures forall j :: 0 <= j < |BASS_PATTERNS[i].pattern| ==> -12 <= BASS_PATTERNS[i].pattern[j].interval <= 12
  {
  }

  // ---------------------------------------------------------------- chord variations

  /** `CHORD_SUBSTITUTIONS`: a chord type and the types it may become. */
  const CHORD_SUBSTITUTIONS: seq<(string, seq<string>)> := [
    ("maj7", ["maj9", "maj7", "6/9", "add9"]),
    ("min7", ["min9", "min7", "min11", "min7"]),
    ("dom7", ["dom9", "dom7", "13", "dom7"]),
    ("7", ["9", "7", "13", "7"])
  ]

  /** `CHORD_SUBSTITUTIONS[type]`, empty when the type has no row. */
  function SubstitutesIn(table: seq<(string, seq<string>)>, t: string): (r: seq<string>)
    ensures |r| > 0 ==> exists i :: 0 <= i < |table| && table[i] == (t, r)
  {
    if |table| == 0 then []
    else if table[0].0 == t then table[0].1
    else
      var r := SubstitutesIn(table[1..], t);
      assert |r| > 0 ==> exists i :: 0 <= i < |table| - 1 && table[1..][i] == (t, r);
      r
  }

  function Substitutes(t: string): seq<string>
  {
    SubstitutesIn(CHORD_SUBSTITUTIONS, t)
  }

  /** A chord whose type, intervals and name are an entry of `CHORD_TYPES`. */
  predicate TableChord(c: NumeralChord)
  {
    Lookup(CHORD_TYPES, c.chordType) == Some(ChordType(c.chordType, c.intervals, c.typeName))
  }

  /** The random outcomes `generateChordVariation` consumes: whether to substitute, which
      substitute, the inversion and the voicing. */
  datatype VariationDraws = VariationDraws(substitute: real, choice: real, inversion: real, voicing: real)

  predicate ValidVariationDraws(d: VariationDraws)
  {
    Unit(d.substitute) && Unit(d.choice) && Unit(d.inversion) && Unit(d.voicing)
  }

  /** A chord after `generateChordVariation`: its type perhaps substituted, an inversion and
      a voicing key added. */
  datatype VariedChord = VariedChord(chord: NumeralChord, inversion: int, voicing: string)

  /** The substitution step: a random substitute, taken only when `CHORD_TYPES` has it. */
  function Substitute(base: NumeralChord, choice: real): (r: NumeralChord)
    requires Unit(choice)
    ensures r == base || (r.chordType in Substitutes(base.chordType) && TableChord(r))
    ensures r.root == base.root && r.rootName == base.rootName
  {
    var subs := Substitutes(base.chordType);
    if |subs| == 0 then base
    else
      var newType := subs[RandomIndex(choice, |subs|)];
      match Lookup(CHORD_TYPES, newType)
      case None => base
      case Some(entry) => base.(chordType := newType, typeName := entry.name, intervals := entry.intervals)
  }

  /** `generateChordVariation(baseChord, variationLevel)` */
  function GenerateChordVariation(base: NumeralChord, level: real, d: VariationDraws): (r: VariedChord)
    requires ValidVariationDraws(d)
    ensures r.chord.root == base.root && r.chord.rootName == base.rootName
    ensures 0 <= r.inversion <= 2 && r.voicing in VOICING_KEYS
    ensures !(d.substitute < level * 0.5) ==> r.chord == base
    ensures r.chord == base || (r.chord.chordType in Substitutes(base.chordType) && TableChord(r.chord))
  {
    var chord := if d.substitute < level * 0.5 then Substitute(base, d.choice) else base;
    VariedChord(chord, RandomInt(d.inversion, 0, 2), VOICING_KEYS[RandomIndex(d.voicing, |VOICING_KEYS|)])
  }

  /** A chord whose type is in `CHORD_TYPES` stays consistent with the table. */
  lemma VariationKeepsTableChord(base: NumeralChord, level: real, d: VariationDraws)
    requires ValidVariationDraws(d) && TableChord(base)
    ensures TableChord(GenerateChordVariation(base, level, d).chord)
  {
  }

  /** A parsed numeral is never of type `'7'`, so that row of substitutions is never used. */
  lemma SeventhRowUnused(numeral: string, keyRoot: int)
    ensures ParseNumeral(numeral, keyRoot).chordType != "7"
  {
    KeysRotated();
    assert "7" !in KEY_ORDER[1..] + [KEY_ORDER[0]];
  }

  /** Every substitute in the rows for maj7, min7 and dom7 is a key of `CHORD_TYPES`. */
  lemma SubstitutesInTable(t: string)
    requires t == "maj7" || t == "min7" || t == "dom7"
    ensures |Substitutes(t)| == 4
    ensures forall j :: 0 <= j < 4 ==> Substitutes(t)[j] in Keys(CHORD_TYPES)
  {
    KeysRotated();
  }

  /** For those three types the substitution, once the draw calls for it, always happens. */
  lemma SubstitutionHappens(base: NumeralChord, level: real, d: VariationDraws)
    requires ValidVariationDraws(d) && d.substitute < level * 0.5
    requires base.chordType == "maj7" || base.chordType == "min7" || base.chordType == "dom7"
    ensures var c := GenerateChordVariation(base, level, d).chord;
      && |Substitutes(base.chordType)| == 4
      && c.chordType == Substitutes(base.chordType)[RandomIndex(d.choice, 4)] && TableChord(c)
  {
    SubstitutesInTable(base.chordType);
  }

  // ---------------------------------------------------------------- random melody

  /** A row of `styleConfig` in `generateRandomMelody`. */
  datatype StyleConfig = StyleConfig(stepChance: real, leapMax: int, restChance: real)

  const BALANCED: StyleConfig := StyleConfig(0.6, 3, 0.1)

  const STYLE_CONFIGS: seq<(string, StyleConfig)> := [
    ("balanced", BALANCED),
    ("stepwise", StyleConfig(0.85, 2, 0.05)),
    ("leapy", StyleConfig(0.3, 5, 0.15)),
    ("rhythmic", StyleConfig(0.5, 3, 0.2))
  ]

  function StyleIn(table: seq<(string, StyleConfig)>, style: string): (r: Option<StyleConfig>)
    ensures r.Some? ==> (style, r.value) in table
    ensures r.None? ==> forall i :: 0 <= i < |table| ==> table[i].0 != style
  {
    if |table| == 0 then None
    else if table[0].0 == style then Some(table[0].1)
    else StyleIn(table[1..], style)
  }

  /** `styleConfig[style] || styleConfig.balanced` */
  function StyleOf(style: string): (r: StyleConfig)
    ensures (style, r) in STYLE_CONFIGS || r == BALANCED
  {
    match StyleIn(STYLE_CONFIGS, style)
    case Some(c) => c
    case None => BALANCED
  }

  /** What a rest advances by, and what a note lasts, in beats. */
  const REST_LENGTHS: seq<real> := [0.25, 0.5]
  const DURATIONS: seq<real> := [0.25, 0.33, 0.5, 0.75, 1.0]
  const STEPS: seq<int> := [-1, 1]

  /** The random outcomes one pass of the melody loop may consume: whether to rest, how
      long, whether to step or leap, by how much, and the note's duration. */
  datatype StepDraws = StepDraws(rest: real, restLength: real, step: real, move: real, duration: real)

  predicate ValidStepDraws(d: StepDraws)
  {
    Unit(d.rest) && Unit(d.restLength) && Unit(d.step) && Unit(d.move) && Unit(d.duration)
  }

  predicate ValidSteps(steps: seq<StepDraws>)
  {
    forall i :: 0 <= i < |steps| ==> ValidStepDraws(steps[i])
  }

  /** The loop variables: `currentBeat`, `lastIndex`, `melody` and `rhythm`. */
  datatype WalkState = WalkState(beat: real, lastIndex: int, notes: seq<int>, rhythm: seq<real>)

  /** `60 + scaleNotes[noteIndex] + octaveOffset * 12` for a clamped degree index. */
  function DegreeNote(scaleNotes: seq<int>, index: nat): int
    requires |scaleNotes| > 0
  {
    var len := |scaleNotes|;
    WrappedRemIsMod(index, len);
    60 + scaleNotes[Rem(Rem(index, len) + len, len)] + (index / len) * 12
  }

  /** One pass of the loop body: a rest, or a note on the current beat followed by a random
      duration. */
  function WalkStep(scaleNotes: seq<int>, config: StyleConfig, s: WalkState, d: StepDraws): (r: WalkState)
    requires |scaleNotes| > 0 && ValidStepDraws(d)
  {
    if d.rest < config.restChance then
      s.(beat := s.beat + REST_LENGTHS[RandomIndex(d.restLength, 2)])
    else
      var next := if d.step < config.stepChance then s.lastIndex + STEPS[RandomIndex(d.move, 2)]
                  else s.lastIndex + RandomInt(d.move, -config.leapMax, config.leapMax);
      var index := Clamp(0, |scaleNotes| + 3, next);
      WalkState(s.beat + DURATIONS[RandomIndex(d.duration, 5)], index,
                s.notes + [DegreeNote(scaleNotes, index)], s.rhythm + [s.beat])
  }

  /** `while (melody.length < length && currentBeat < 4)`, one draw record per pass. */
  function Walk(scaleNotes: seq<int>, config: StyleConfig, length: int, s: WalkState, steps: seq<StepDraws>): WalkState
    requires |scaleNotes| > 0 && ValidSteps(steps)
    decreases |steps|
  {
    if |s.notes| < length && s.beat < 4.0 && |steps| > 0 then
      Walk(scaleNotes, config, length, WalkStep(scaleNotes, config, s, steps[0]), steps[1..])
    else s
  }

  /** The melody: MIDI notes and the beat each starts on. */
  datatype RandomMelody = RandomMelody(notes: seq<int>, rhythm: seq<real>)

  /** Each pass advances at least a quarter beat, so sixteen passes always reach beat 4. */
  const MAX_PASSES: nat := 16

  /** `generateRandomMelody(chord, scale, length, style)` on the chord's root; `start` is the
      draw for the first degree, `steps` the draws of the loop. */
  function GenerateRandomMelody(root: int, scale: string, length: int, style: string, start: real,
                                steps: seq<StepDraws>): RandomMelody
    requires Unit(start) && |steps| >= MAX_PASSES && ValidSteps(steps)
  {
    var scaleNotes := ScaleNotes(root, ScaleIntervals(scale));
    var w := Walk(scaleNotes, StyleOf(style), length, WalkState(0.0, RandomInt(start, 0, 3), [], []), steps);
    RandomMelody(w.notes, w.rhythm)
  }

  /** Every pass moves the beat on by at least a quarter. */
  lemma WalkStepAdvances(scaleNotes: seq<int>, config: StyleConfig, s: WalkState, d: StepDraws)
    requires |scaleNotes| > 0 && ValidStepDraws(d)
    ensures WalkStep(scaleNotes, config, s, d).beat >= s.beat + 0.25
  {
    if d.rest < config.restChance {
      var k := RandomIndex(d.restLength, 2);
      assert REST_LENGTHS[k] >= 0.25;
    } else {
      var k := RandomIndex(d.duration, 5);
      assert DURATIONS[k] >= 0.25;
    }
  }

  /** With enough draws the loop ends by its own test, never by running out of draws. */
  lemma {:induction false} WalkStops(scaleNotes: seq<int>, config: StyleConfig, length: int, s: WalkState,
                                     steps: seq<StepDraws>)
    requires |scaleNotes| > 0 && ValidSteps(steps)
    requires s.beat + 0.25 * |steps| as real >= 4.0
    ensures var r := Walk(scaleNotes, config, length, s, steps); !(|r.notes| < length && r.beat < 4.0)
    decreases |steps|
  {
    if |s.notes| < length && s.beat < 4.0 {
      WalkStepAdvances(scaleNotes, config, s, steps[0]);
      WalkStops(scaleNotes, config, length, WalkStep(scaleNotes, config, s, steps[0]), steps[1..]);
    }
  }

  /** The loop pushes a note and its beat together and stops once `length` notes exist. */
  lemma {:induction false} WalkLengths(scaleNotes: seq<int>, config: StyleConfig, length: int, s: WalkState,
                                       steps: seq<StepDraws>)
    requires |scaleNotes| > 0 && ValidSteps(steps) && |s.notes| == |s.rhythm|
    ensures var r := Walk(scaleNotes, config, length, s, steps);
      |r.notes| == |r.rhythm| && |r.notes| <= (if |s.notes| < length then length else |s.notes|)
    decreases |steps|
  {
    if |s.notes| < length && s.beat < 4.0 && |steps| > 0 {
      WalkLengths(scaleNotes, config, length, WalkStep(scaleNotes, config, s, steps[0]), steps[1..]);
    }
  }

  /** Beats strictly increasing, inside the bar, all before the current beat. */
  predicate RhythmBefore(rhythm: seq<real>, beat: real)
  {
    && 0.0 <= beat
    && (forall i, j :: 0 <= i < j < |rhythm| ==> rhythm[i] < rhythm[j])
    && (forall i :: 0 <= i < |rhythm| ==> 0.0 <= rhythm[i] < 4.0 && rhythm[i] < beat)
  }

  lemma WalkStepRhythm(scaleNotes: seq<int>, config: StyleConfig, s: WalkState, d: StepDraws)
    requires |scaleNotes| > 0 && ValidStepDraws(d) && RhythmBefore(s.rhythm, s.beat) && s.beat < 4.0
    ensures var r := WalkStep(scaleNotes, config, s, d); RhythmBefore(r.rhythm, r.beat)
  {
    WalkStepAdvances(scaleNotes, config, s, d);
  }

  lemma {:induction false} WalkRhythm(scaleNotes: seq<int>, config: StyleConfig, length: int, s: WalkState,
                                      steps: seq<StepDraws>)
    requires |scaleNotes| > 0 && ValidSteps(steps) && RhythmBefore(s.rhythm, s.beat)
    ensures var r := Walk(scaleNotes, config, length, s, steps); RhythmBefore(r.rhythm, r.beat)
    decreases |steps|
  {
    if |s.notes| < length && s.beat < 4.0 && |steps| > 0 {
      WalkStepRhythm(scaleNotes, config, s, steps[0]);
      WalkRhythm(scaleNotes, config, length, WalkStep(scaleNotes, config, s, steps[0]), steps[1..]);
    }
  }

  /** A note from middle C up to the B an octave and a half above, whose pitch class is one
      of the scale's. */
  predicate InMelodyRange(m: int, scaleNotes: seq<int>)
  {
    60 <= m <= 83 && (m - 60) % 12 in scaleNotes
  }

  predicate AllInMelodyRange(notes: seq<int>, scaleNotes: seq<int>)
  {
    forall k :: 0 <= k < |notes| ==> InMelodyRange(notes[k], scaleNotes)
  }

  predicate PitchClasses(scaleNotes: seq<int>)
  {
    forall j :: 0 <= j < |scaleNotes| ==> 0 <= scaleNotes[j] < 12
  }

  /** The clamp keeps the degree below two scale lengths, so at most one octave up. */
  lemma DegreeNoteRange(scaleNotes: seq<int>, index: nat)
    requires |scaleNotes| >= 4 && PitchClasses(scaleNotes) && index <= |scaleNotes| + 3
    ensures InMelodyRange(DegreeNote(scaleNotes, index), scaleNotes)
  {
    var len := |scaleNotes|;
    WrappedRemIsMod(index, len);
    var o := if index < len then 0 else 1;
    DivModUnique(index, len, o, index - o * len);
    var m := scaleNotes[index - o * len];
    OctavesAndClass(o, m);
  }

  lemma WalkStepNotes(scaleNotes: seq<int>, config: StyleConfig, s: WalkState, d: StepDraws)
    requires |scaleNotes| >= 4 && PitchClasses(scaleNotes) && ValidStepDraws(d)
    requires AllInMelodyRange(s.notes, scaleNotes)
    ensures AllInMelodyRange(WalkStep(scaleNotes, config, s, d).notes, scaleNotes)
  {
    if !(d.rest < config.restChance) {
      var r := WalkStep(scaleNotes, config, s, d);
      DegreeNoteRange(scaleNotes, r.lastIndex);
      assert r.notes == s.notes + [DegreeNote(scaleNotes, r.lastIndex)];
    }
  }

  lemma {:induction false} WalkNotes(scaleNotes: seq<int>, config: StyleConfig, length: int, s: WalkState,
                                     steps: seq<StepDraws>)
    requires |scaleNotes| >= 4 && PitchClasses(scaleNotes) && ValidSteps(steps)
    requires AllInMelodyRange(s.notes, scaleNotes)
    ensures AllInMelodyRange(Walk(scaleNotes, config, length, s, steps).notes, scaleNotes)
    decreases |steps|
  {
    if |s.notes| < length && s.beat < 4.0 && |steps| > 0 {
      var next := WalkStep(scaleNotes, config, s, steps[0]);
      WalkStepNotes(scaleNotes, config, s, steps[0]);
      WalkNotes(scaleNotes, config, length, next, steps[1..]);
      assert Walk(scaleNotes, config, length, s, steps) == Walk(scaleNotes, config, length, next, steps[1..]);
    }
  }

  /** At most `length` notes, each with the beat it starts on. */
  lemma RandomMelodyLengths(root: int, scale: string, length: int, style: string, start: real, steps: seq<StepDraws>)
    requires Unit(start) && |steps| >= MAX_PASSES && ValidSteps(steps)
    ensures |GenerateRandomMelody(root, scale, length, style, start, steps).notes|
         == |GenerateRandomMelody(root, scale, length, style, start, steps).rhythm|
    ensures |GenerateRandomMelody(root, scale, length, style, start, steps).notes| <= (if length > 0 then length else 0)
  {
    var scaleNotes := ScaleNotes(root, ScaleIntervals(scale));
    WalkLengths(scaleNotes, StyleOf(style), length, WalkState(0.0, RandomInt(start, 0, 3), [], []), steps);
  }

  /** The beats rise strictly and all fall inside the first bar. */
  lemma RandomMelodyRhythm(root: int, scale: string, length: int, style: string, start: real, steps: seq<StepDraws>)
    requires Unit(start) && |steps| >= MAX_PASSES && ValidSteps(steps)
    ensures RhythmBefore(GenerateRandomMelody(root, scale, length, style, start, steps).rhythm, 4.0)
  {
    var scaleNotes := ScaleNotes(root, ScaleIntervals(scale));
    var s := WalkState(0.0, RandomInt(start, 0, 3), [], []);
    WalkRhythm(scaleNotes, StyleOf(style), length, s, steps);
  }

  /** Over a root from C upwards, every note lies in 60..83 and belongs to the scale on the
      root. */
  lemma RandomMelodyNotes(root: int, scale: string, length: int, style: string, start: real, steps: seq<StepDraws>, k: nat)
    requires Unit(start) && |steps| >= MAX_PASSES && ValidSteps(steps)
    requires root >= 0 && k < |GenerateRandomMelody(root, scale, length, style, start, steps).notes|
    ensures InMelodyRange(GenerateRandomMelody(root, scale, length, style, start, steps).notes[k],
                          ScaleNotes(root, ScaleIntervals(scale)))
  {
    var iv := ScaleIntervals(scale);
    var scaleNotes := ScaleNotes(root, iv);
    ScalePitchClasses(root, iv);
    var s := WalkState(0.0, RandomInt(start, 0, 3), [], []);
    var w := Walk(scaleNotes, StyleOf(style), length, s, steps);
    WalkNotes(scaleNotes, StyleOf(style), length, s, steps);
    assert GenerateRandomMelody(root, scale, length, style, start, steps).notes == w.notes;
  }

  lemma ScalePitchClasses(root: int, intervals: seq<int>)
    requires root >= 0 && forall j :: 0 <= j < |intervals| ==> 0 <= intervals[j]
    ensures PitchClasses(ScaleNotes(root, intervals))
  {
  }

  // ---------------------------------------------------------------- progression variations

  /** A chord of a variation: the varied chord, its voiced MIDI notes, and the numeral it
      came from. */
  datatype VariationChord = VariationChord(varied: VariedChord, midiNotes: seq<int>, numeral: string)

  /** A variation, without its `Date.now()` id. */
  datatype Variation = Variation(name: string, chords: seq<VariationChord>, chordRhythm: ChordRhythm,
                                 bassPattern: BassPattern, swing: real, velocity: int)

  /** The random outcomes one variation consumes: its rhythm, bass pattern, swing and velocity,
      and one record per chord. */
  datatype VariationSetDraws = VariationSetDraws(rhythm: real, bass: real, swing: real, velocity: real,
                                                 chords: seq<VariationDraws>)

  predicate ValidSetDraws(d: VariationSetDraws, n: nat)
  {
    && Unit(d.rhythm) && Unit(d.bass) && Unit(d.swing) && Unit(d.velocity) && |d.chords| >= n
    && forall i :: 0 <= i < |d.chords| ==> ValidVariationDraws(d.chords[i])
  }

  /** The notes the generators voice: `root + 3 * 12 + interval` per interval, raised by the
      inversion loop and sorted, which is `generateChordMidi` in octave 3. */
  function ChordNotes(v: VariedChord): (r: seq<int>)
    ensures |r| == |v.chord.intervals|
  {
    GenerateChordMidi(v.chord, 3, v.inversion)
  }

  /** One chord of `generateProgressionVariations`: parsed, varied, voiced. */
  function VariationChordOf(numeral: string, key: int, level: real, d: VariationDraws): (r: VariationChord)
    requires ValidVariationDraws(d)
    ensures r.numeral == numeral && r.varied.chord.root == ParseNumeral(numeral, key).root
    ensures TableChord(r.varied.chord)
  {
    var base := ParseNumeral(numeral, key);
    assert TableChord(base);
    var v := GenerateChordVariation(base, level, d);
    VariationKeepsTableChord(base, level, d);
    VariationChord(v, ApplyVoicing(ChordNotes(v), v.voicing), numeral)
  }

  /** Variation number `v` (counting from 0). */
  function VariationOf(numerals: seq<string>, key: int, level: real, v: nat, d: VariationSetDraws): (r: Variation)
    requires ValidSetDraws(d, |numerals|)
    ensures |r.chords| == |numerals|
    ensures 70 <= r.velocity <= 100 && 0.05 <= r.swing < 0.25
    ensures r.chordRhythm in CHORD_RHYTHMS && r.bassPattern in BASS_PATTERNS
  {
    Variation("Variation " + IntToString(v + 1),
              seq(|numerals|, i requires 0 <= i < |numerals| => VariationChordOf(numerals[i], key, level, d.chords[i])),
              CHORD_RHYTHMS[RandomIndex(d.rhythm, |CHORD_RHYTHMS|)],
              BASS_PATTERNS[RandomIndex(d.bass, |BASS_PATTERNS|)],
              RandomFloat(d.swing, 0.05, 0.25),
              RandomInt(d.velocity, 70, 100))
  }

  /** `generateProgressionVariations(baseProgression, key, count, variationLevel)` for the
      progression's numerals. */
  function GenerateProgressionVariations(numerals: seq<string>, key: int, count: int, level: real,
                                         draws: seq<VariationSetDraws>): (r: seq<Variation>)
    requires count <= |draws| && forall v :: 0 <= v < |draws| ==> ValidSetDraws(draws[v], |numerals|)
    ensures |r| == if count > 0 then count else 0
    ensures forall v :: 0 <= v < |r| ==> r[v].name == "Variation " + IntToString(v + 1)
    ensures forall v :: 0 <= v < |r| ==> |r[v].chords| == |numerals|
    ensures forall v :: 0 <= v < |r| ==> 70 <= r[v].velocity <= 100 && 0.05 <= r[v].swing < 0.25
  {
    var n := if count > 0 then count else 0;
    seq(n, v requires 0 <= v < n => VariationOf(numerals, key, level, v, draws[v]))
  }

  /** Chord `i` of every variation is the chord of numeral `i`: same root, and a type, name
      and intervals that agree with `CHORD_TYPES`. */
  lemma VariationChords(numerals: seq<string>, key: int, count: int, level: real, draws: seq<VariationSetDraws>,
                        v: nat, i: nat)
    requires count <= |draws| && forall w :: 0 <= w < |draws| ==> ValidSetDraws(draws[w], |numerals|)
    requires v < count && i < |numerals|
    ensures GenerateProgressionVariations(numerals, key, count, level, draws)[v].chords[i].numeral == numerals[i]
    ensures GenerateProgressionVariations(numerals, key, count, level, draws)[v].chords[i].varied.chord.root
         == ParseNumeral(numerals[i], key).root
    ensures TableChord(GenerateProgressionVariations(numerals, key, count, level, draws)[v].chords[i].varied.chord)
  {
    var r := GenerateProgressionVariations(numerals, key, count, level, draws);
    assert r[v] == VariationOf(numerals, key, level, v, draws[v]);
    assert r[v].chords[i] == VariationChordOf(numerals[i], key, level, draws[v].chords[i]);
  }

  // ---------------------------------------------------------------- arrangements

  /** The options `generateArrangement` reads, with its defaults already applied; an empty
      `scale` stands for an absent one.  `bars` is never read and is left out. */
  datatype ArrangementOptions = ArrangementOptions(variationLevel: real, melodyStyle: string, scale: string,
                                                   includeBass: bool, includeMelody: bool)

  /** A chord of an arrangement: the varied chord, carrying the voicing drawn for the
      arrangement, and its voiced notes. */
  datatype ArrangedChord = ArrangedChord(varied: VariedChord, midiNotes: seq<int>)

  /** One bass entry: the chord root two octaves up from octave 1, and the pattern to play. */
  datatype BassLine = BassLine(root: int, pattern: BassPattern)

  /** An arrangement, without its id.  `name` and `description` are set only by
      `generateMultipleArrangements`; `key` is absent when the index is not a pitch class. */
  datatype Arrangement = Arrangement(name: Option<string>, description: Option<string>, key: Option<string>,
                                     keyIndex: int, tempo: int, swing: real, chordRhythm: ChordRhythm,
                                     bassPattern: BassPattern, chords: seq<ArrangedChord>,
                                     melodies: Option<seq<RandomMelody>>, bassNotes: Option<seq<BassLine>>)

  /** The random outcomes for one chord: its variation, the voicing that replaces the
      variation's own, the melody length, and the melody's draws. */
  datatype ChordDraws = ChordDraws(variation: VariationDraws, voicing: real, melodyLength: real, melodyStart: real,
                                   melody: seq<StepDraws>)

  datatype ArrangementDraws = ArrangementDraws(tempo: real, swing: real, rhythm: real, bass: real,
                                               chords: seq<ChordDraws>)

  predicate ValidChordDraws(d: ChordDraws)
  {
    && ValidVariationDraws(d.variation) && Unit(d.voicing) && Unit(d.melodyLength) && Unit(d.melodyStart)
    && |d.melody| >= MAX_PASSES && ValidSteps(d.melody)
  }

  predicate ValidArrangementDraws(d: ArrangementDraws, n: nat)
  {
    && Unit(d.tempo) && Unit(d.swing) && Unit(d.rhythm) && Unit(d.bass) && |d.chords| >= n
    && forall i :: 0 <= i < |d.chords| ==> ValidChordDraws(d.chords[i])
  }

  /** One chord of `generateArrangement`: the variation's voicing is drawn again and the
      fresh one both voices the notes and replaces the variation's. */
  function ArrangedChordOf(numeral: string, key: int, level: real, d: ChordDraws): (r: ArrangedChord)
    requires ValidChordDraws(d)
    ensures r.varied.chord.root == ParseNumeral(numeral, key).root
    ensures TableChord(r.varied.chord) && 0 <= r.varied.inversion <= 2 && r.varied.voicing in VOICING_KEYS
    ensures r.midiNotes == ApplyVoicing(ChordNotes(r.varied), r.varied.voicing)
  {
    var base := ParseNumeral(numeral, key);
    assert TableChord(base);
    var v := GenerateChordVariation(base, level, d.variation);
    VariationKeepsTableChord(base, level, d.variation);
    var voicing := VOICING_KEYS[RandomIndex(d.voicing, |VOICING_KEYS|)];
    ArrangedChord(v.(voicing := voicing), ApplyVoicing(ChordNotes(v), voicing))
  }

  /** `generateRandomMelody(chord, scale, random(4, 8), melodyStyle)` for one chord. */
  function ChordMelody(c: ArrangedChord, opts: ArrangementOptions, d: ChordDraws): RandomMelody
    requires ValidChordDraws(d)
  {
    GenerateRandomMelody(c.varied.chord.root, opts.scale, RandomInt(d.melodyLength, 4, 8), opts.melodyStyle,
                         d.melodyStart, d.melody)
  }

  /** `generateArrangement(progression, key, options)` for the progression's numerals. */
  function GenerateArrangement(numerals: seq<string>, key: int, opts: ArrangementOptions, d: ArrangementDraws): (r: Arrangement)
    requires ValidArrangementDraws(d, |numerals|)
    ensures r.name.None? && r.description.None? && r.keyIndex == key
    ensures 70 <= r.tempo <= 100 && 0.08 <= r.swing < 0.22
    ensures r.chordRhythm in CHORD_RHYTHMS && r.bassPattern in BASS_PATTERNS
    ensures |r.chords| == |numerals|
    ensures r.melodies.Some? <==> opts.includeMelody
    ensures r.bassNotes.Some? <==> opts.includeBass
    ensures r.melodies.Some? ==> |r.melodies.value| == |numerals|
    ensures r.bassNotes.Some? ==> |r.bassNotes.value| == |numerals|
  {
    var n := |numerals|;
    var bassPattern := BASS_PATTERNS[RandomIndex(d.bass, |BASS_PATTERNS|)];
    var chords := seq(n, i requires 0 <= i < n => ArrangedChordOf(numerals[i], key, opts.variationLevel, d.chords[i]));
    Arrangement(None, None, if 0 <= key < 12 then Some(NOTES[key]) else None, key,
                RandomInt(d.tempo, 70, 100), RandomFloat(d.swing, 0.08, 0.22),
                CHORD_RHYTHMS[RandomIndex(d.rhythm, |CHORD_RHYTHMS|)], bassPattern, chords,
                if opts.includeMelody then Some(seq(n, i requires 0 <= i < n => ChordMelody(chords[i], opts, d.chords[i])))
                else None,
                if opts.includeBass then Some(seq(n, i requires 0 <= i < n => BassLine(chords[i].varied.chord.root + 36, bassPattern)))
                else None)
  }

  /** The bass follows the chord roots two octaves and a bit below middle C, all on the
      arrangement's one pattern. */
  lemma ArrangementBass(numerals: seq<string>, key: int, opts: ArrangementOptions, d: ArrangementDraws, i: nat)
    requires ValidArrangementDraws(d, |numerals|) && opts.includeBass && i < |numerals|
    ensures GenerateArrangement(numerals, key, opts, d).bassNotes.value[i].root == ParseNumeral(numerals[i], key).root + 36
    ensures GenerateArrangement(numerals, key, opts, d).bassNotes.value[i].pattern == GenerateArrangement(numerals, key, opts, d).bassPattern
    ensures key >= 0 ==> 36 <= GenerateArrangement(numerals, key, opts, d).bassNotes.value[i].root < 48
  {
    var r := GenerateArrangement(numerals, key, opts, d);
    assert r.chords[i] == ArrangedChordOf(numerals[i], key, opts.variationLevel, d.chords[i]);
  }

  /** Each chord's melody has at most eight notes, on rising beats inside the bar. */
  lemma ArrangementMelody(numerals: seq<string>, key: int, opts: ArrangementOptions, d: ArrangementDraws, i: nat)
    requires ValidArrangementDraws(d, |numerals|) && opts.includeMelody && i < |numerals|
    ensures |GenerateArrangement(numerals, key, opts, d).melodies.value[i].notes|
         == |GenerateArrangement(numerals, key, opts, d).melodies.value[i].rhythm| <= 8
    ensures RhythmBefore(GenerateArrangement(numerals, key, opts, d).melodies.value[i].rhythm, 4.0)
  {
    var r := GenerateArrangement(numerals, key, opts, d);
    var c := r.chords[i];
    var cd := d.chords[i];
    assert r.melodies.value[i] == ChordMelody(c, opts, cd);
    var length := RandomInt(cd.melodyLength, 4, 8);
    RandomMelodyLengths(c.varied.chord.root, opts.scale, length, opts.melodyStyle, cd.melodyStart, cd.melody);
    RandomMelodyRhythm(c.varied.chord.root, opts.scale, length, opts.melodyStyle, cd.melodyStart, cd.melody);
  }

  // ---------------------------------------------------------------- several arrangements

  const MELODY_STYLES: seq<string> := ["balanced", "stepwise", "leapy", "rhythmic"]
  const SCALE_CYCLE: seq<string> := ["pentatonicMinor", "dorian", "minor", "blues", "pentatonicMajor"]

  /** The options of arrangement `i`: `variationLevel` 0.3 + 0.1 i, the styles in turn, and
      the given scale or else the scales in turn. */
  function OptionsFor(opts: ArrangementOptions, i: nat): (r: ArrangementOptions)
  {
    opts.(variationLevel := 0.3 + i as real * 0.1, melodyStyle := MELODY_STYLES[i % |MELODY_STYLES|],
          scale := if opts.scale != "" then opts.scale else SCALE_CYCLE[i % |SCALE_CYCLE|])
  }

  /** The styles repeat every four arrangements and the default scales every five; the level
      rises by a tenth each time. */
  lemma OptionsCycle(opts: ArrangementOptions, i: nat)
    ensures OptionsFor(opts, i + 4).melodyStyle == OptionsFor(opts, i).melodyStyle
    ensures OptionsFor(opts, i + 5).scale == OptionsFor(opts, i).scale
    ensures OptionsFor(opts, i + 1).variationLevel == OptionsFor(opts, i).variationLevel + 0.1
    ensures OptionsFor(opts, i).includeBass == opts.includeBass && OptionsFor(opts, i).includeMelody == opts.includeMelody
  {
    NextQuotient(i, 4);
    NextQuotient(i + 1, 4);
    NextQuotient(i, 5);
  }

  /** `${chordRhythm.name} chords, ${bassPattern.name} bass` */
  function Description(a: Arrangement): string
  {
    a.chordRhythm.name + " chords, " + a.bassPattern.name + " bass"
  }

  /** Arrangement `i` of `generateMultipleArrangements`, named and described. */
  function NumberedArrangement(numerals: seq<string>, key: int, opts: ArrangementOptions, i: nat, d: ArrangementDraws): (r: Arrangement)
    requires ValidArrangementDraws(d, |numerals|)
    ensures r.name == Some("Version " + IntToString(i + 1)) && r.description == Some(Description(r))
    ensures |r.chords| == |numerals| && 70 <= r.tempo <= 100
  {
    var a := GenerateArrangement(numerals, key, OptionsFor(opts, i), d);
    a.(name := Some("Version " + IntToString(i + 1)), description := Some(Description(a)))
  }

  /** `generateMultipleArrangements(progression, key, count, options)` */
  function GenerateMultipleArrangements(numerals: seq<string>, key: int, count: int, opts: ArrangementOptions,
                                        draws: seq<ArrangementDraws>): (r: seq<Arrangement>)
    requires count <= |draws| && forall i :: 0 <= i < |draws| ==> ValidArrangementDraws(draws[i], |numerals|)
    ensures |r| == if count > 0 then count else 0
    ensures forall i :: 0 <= i < |r| ==> r[i].name == Some("Version " + IntToString(i + 1))
    ensures forall i :: 0 <= i < |r| ==> r[i].description == Some(Description(r[i]))
    ensures forall i :: 0 <= i < |r| ==> |r[i].chords| == |numerals| && 70 <= r[i].tempo <= 100
  {
    var n := if count > 0 then count else 0;
    seq(n, i requires 0 <= i < n => NumberedArrangement(numerals, key, opts, i, draws[i]))
  }

  /** Arrangement `i` is a single arrangement under the options of that position. */
  lemma MultipleArrangementOf(numerals: seq<string>, key: int, count: int, opts: ArrangementOptions,
                              draws: seq<ArrangementDraws>, i: nat)
    requires count <= |draws| && forall j :: 0 <= j < |draws| ==> ValidArrangementDraws(draws[j], |numerals|)
    requires i < count
    ensures GenerateMultipleArrangements(numerals, key, count, opts, draws)[i].(name := None, description := None)
         == GenerateArrangement(numerals, key, OptionsFor(opts, i), draws[i])
  {
  }

  // ---------------------------------------------------------------- humanising

  /** `humanizeVelocity(velocity, amount)`: a random offset in [-amount, amount], clamped to
      40..127. */
  function HumanizeVelocity(velocity: int, amount: int, u: real): (r: int)
    requires Unit(u)
    ensures 40 <= r <= 127
  {
    Clamp(40, 127, velocity + RandomInt(u, -amount, amount))
  }

  /** A velocity already in range moves by no more than the amount. */
  lemma HumanizeVelocityNear(velocity: int, amount: int, u: real)
    requires Unit(u) && 40 <= velocity <= 127 && amount >= 0
    ensures -amount <= HumanizeVelocity(velocity, amount, u) - velocity <= amount
  {
  }

  /** `humanize(time, amount)`: an offset of up to half the amount either way. */
  function Humanize(time: real, amount: real, u: real): (r: real)
    requires Unit(u)
    ensures amount >= 0.0 ==> time - amount / 2.0 <= r <= time + amount / 2.0
  {
    var w := amount;
    FloatScale(u, w);
    time + u * w - w / 2.0
  }
}
