/** `src/musicData.js`: Roman-numeral chords in a key, chord inversions, note names and
    scale-degree melodies. */
module MusicData {
  import opened Js
  import opened Notes
  import opened ChordTypes
  import opened StableSort
  import ChordLibrary

  // ---------------------------------------------------------------- tables

  /** `CHORD_TYPES`, in declaration order. */
  const CHORD_TYPES: seq<ChordType> := [
    ChordType("maj7", [0, 4, 7, 11], "Major 7th"),
    ChordType("min7", [0, 3, 7, 10], "Minor 7th"),
    ChordType("dom7", [0, 4, 7, 10], "Dominant 7th"),
    ChordType("min9", [0, 3, 7, 10, 14], "Minor 9th"),
    ChordType("maj9", [0, 4, 7, 11, 14], "Major 9th"),
    ChordType("dom9", [0, 4, 7, 10, 14], "Dominant 9th"),
    ChordType("min11", [0, 3, 7, 10, 14, 17], "Minor 11th"),
    ChordType("6/9", [0, 4, 7, 9, 14], "6/9"),
    ChordType("dim7", [0, 3, 6, 9], "Diminished 7th"),
    ChordType("aug", [0, 4, 8], "Augmented"),
    ChordType("sus4", [0, 5, 7], "Suspended 4th"),
    ChordType("add9", [0, 4, 7, 14], "Add 9"),
    ChordType("13", [0, 4, 7, 10, 14, 21], "13th")
  ]

  /** `SCALES`: name and intervals. */
  const SCALES: seq<(string, seq<int>)> := [
    ("major", [0, 2, 4, 5, 7, 9, 11]),
    ("minor", [0, 2, 3, 5, 7, 8, 10]),
    ("dorian", [0, 2, 3, 5, 7, 9, 10]),
    ("mixolydian", [0, 2, 4, 5, 7, 9, 10]),
    ("pentatonicMajor", [0, 2, 4, 7, 9]),
    ("pentatonicMinor", [0, 3, 5, 7, 10]),
    ("blues", [0, 3, 5, 6, 7, 10]),
    ("harmonicMinor", [0, 2, 3, 5, 7, 8, 11])
  ]

  const PENTATONIC_MINOR: seq<int> := [0, 3, 5, 7, 10]

  /** Every chord starts at its root and rises. */
  lemma ChordTypesShape()
    ensures forall i :: 0 <= i < |CHORD_TYPES| ==>
      |CHORD_TYPES[i].intervals| >= 3 && CHORD_TYPES[i].intervals[0] == 0 && StrictlyAscending(CHORD_TYPES[i].intervals)
  {
  }

  /** Every scale starts at its root, rises, and stays inside one octave. */
  lemma ScalesShape()
    ensures forall i :: 0 <= i < |SCALES| ==>
      && |SCALES[i].1| >= 5 && SCALES[i].1[0] == 0 && StrictlyAscending(SCALES[i].1)
      && forall j :: 0 <= j < |SCALES[i].1| ==> 0 <= SCALES[i].1[j] < 12
  {
  }

  // ---------------------------------------------------------------- key order

  /** A key the language treats as an array index: decimal digits, no leading zero. */
  predicate IsIndexKey(k: string)
  {
    && |k| >= 1
    && (forall i :: 0 <= i < |k| ==> '0' <= k[i] <= '9')
    && (|k| > 1 ==> k[0] != '0')
  }

  /** `Object.keys`: index keys in ascending numeric order, then the others in the order
      they were added. */
  function ObjectKeys(keys: seq<string>): (r: seq<string>)
  {
    SortBy(Filter(keys, IsIndexKey), IndexValue) + Filter(keys, IsNamedKey)
  }

  predicate IsNamedKey(k: string)
  {
    !IsIndexKey(k)
  }

  function IndexValue(k: string): real
  {
    DecimalValue(k) as real
  }

  /** The order `parseNumeral` tries the chord types in. */
  const KEY_ORDER: seq<string> := ["13", "maj7", "min7", "dom7", "min9", "maj9", "dom9", "min11", "6/9", "dim7", "aug", "sus4", "add9"]

  lemma NonDigitNotIndex(k: string, i: nat)
    requires i < |k| && !('0' <= k[i] <= '9')
    ensures !IsIndexKey(k)
  {
  }

  /** Only the first key is an index. */
  lemma OnlyFirstIsIndex()
    ensures IsIndexKey(KEY_ORDER[0])
    ensures forall i :: 1 <= i < |KEY_ORDER| ==> !IsIndexKey(KEY_ORDER[i])
  {
    forall i | 1 <= i < |KEY_ORDER|
      ensures !IsIndexKey(KEY_ORDER[i])
    {
      NonDigitNotIndex(KEY_ORDER[i], if i == 8 then 1 else 0);
    }
  }

  /** One index key after named keys is listed first. */
  lemma ObjectKeysOneIndex(named: seq<string>, index: string)
    requires IsIndexKey(index)
    requires forall i :: 0 <= i < |named| ==> !IsIndexKey(named[i])
    ensures ObjectKeys(named + [index]) == [index] + named
  {
    var keys := named + [index];
    FilterAppend(named, [index], IsIndexKey);
    FilterNone(named, IsIndexKey);
    assert Filter([index], IsIndexKey) == [index];
    assert Filter(keys, IsIndexKey) == [index];
    FilterAppend(named, [index], IsNamedKey);
    FilterAll(named, IsNamedKey);
    assert Filter([index], IsNamedKey) == [];
    assert Filter(keys, IsNamedKey) == named;
    assert SortBy([index], IndexValue) == [index];
  }

  /** "13" is the only index key, so it comes first and the rest keep their order. */
  lemma KeyOrder()
    ensures ObjectKeys(Keys(CHORD_TYPES)) == KEY_ORDER
  {
    KeysRotated();
    OnlyFirstIsIndex();
    ObjectKeysOneIndex(KEY_ORDER[1..], KEY_ORDER[0]);
    assert [KEY_ORDER[0]] + KEY_ORDER[1..] == KEY_ORDER;
  }

  lemma KeysRotated()
    ensures Keys(CHORD_TYPES) == KEY_ORDER[1..] + [KEY_ORDER[0]]
  {
  }

  /** Keys of the table, in the order tried. */
  lemma KeyOrderKeys()
    ensures forall k :: k in KEY_ORDER <==> k in Keys(CHORD_TYPES)
  {
    var keys := Keys(CHORD_TYPES);
    assert keys == ["maj7", "min7", "dom7", "min9", "maj9", "dom9", "min11", "6/9", "dim7", "aug", "sus4", "add9", "13"];
  }

  /** Two strings that differ `k` places from their ends end with neither one another. */
  lemma DifferAtEnd(a: string, b: string, k: nat)
    requires k < |a| && k < |b| && a[|a| - 1 - k] != b[|b| - 1 - k]
    ensures !EndsWith(a, b) && !EndsWith(b, a)
  {
    if |b| <= |a| {
      assert a[|a| - |b|..][|b| - 1 - k] == a[|a| - 1 - k];
    }
    if |a| <= |b| {
      assert b[|b| - |a|..][|a| - 1 - k] == b[|b| - 1 - k];
    }
  }

  /** No key ends with another key: any two differ within their last three characters. */
  lemma KeysSuffixFree()
    ensures forall i, j :: 0 <= i < |KEY_ORDER| && 0 <= j < |KEY_ORDER| && EndsWith(KEY_ORDER[i], KEY_ORDER[j]) ==> i == j
  {
    forall i, j | 0 <= i < |KEY_ORDER| && 0 <= j < |KEY_ORDER| && i != j
      ensures !EndsWith(KEY_ORDER[i], KEY_ORDER[j])
    {
      var a, b := KEY_ORDER[i], KEY_ORDER[j];
      if a[|a| - 1] != b[|b| - 1] {
        DifferAtEnd(a, b, 0);
      } else if a[|a| - 2] != b[|b| - 2] {
        DifferAtEnd(a, b, 1);
      } else {
        DifferAtEnd(a, b, 2);
      }
    }
  }

  /** Every key is at least two characters long, never contains a numeral letter, and
      never ends in the letters of "min". */
  lemma KeysShape()
    ensures forall i :: 0 <= i < |KEY_ORDER| ==>
      && |KEY_ORDER[i]| >= 2
      && KEY_ORDER[i][|KEY_ORDER[i]| - 1] != 'm' && KEY_ORDER[i][|KEY_ORDER[i]| - 1] != 'n'
      && forall c :: c in KEY_ORDER[i] ==> c != 'I' && c != 'V'
  {
  }

  // ---------------------------------------------------------------- numerals

  /** `numeralMap`: each numeral and its distance above the key in semitones. */
  const NUMERALS: seq<(string, int)> := [
    ("I", 0), ("II", 2), ("III", 4), ("IV", 5), ("V", 7), ("VI", 9), ("VII", 11),
    ("bII", 1), ("bIII", 3), ("bV", 6), ("bVI", 8), ("bVII", 10)
  ]

  /** Numerals are letters I and V, with a flat only at the front. */
  lemma NumeralsShape()
    ensures forall d :: 0 <= d < |NUMERALS| ==>
      var n := NUMERALS[d].0;
      && |n| >= 1 && (n[|n| - 1] == 'I' || n[|n| - 1] == 'V')
      && (forall c :: c in n[1..] ==> c == 'I' || c == 'V')
      && (n[0] == 'b' || n[0] == 'I' || n[0] == 'V')
      && (n[0] == 'b' ==> |n| >= 2)
    ensures forall d, e :: 0 <= d < e < |NUMERALS| ==> NUMERALS[d].0 != NUMERALS[e].0
    ensures forall d :: 0 <= d < |NUMERALS| ==> 0 <= NUMERALS[d].1 < 12
  {
  }

  /** `numeralMap[key] || 0` */
  function NumeralOffset(key: string): (r: int)
    ensures 0 <= r < 12
  {
    NumeralsShape();
    OffsetIn(NUMERALS, key)
  }

  /** Each numeral of the table is a numeral in the sense of `IsNumeral`, with its own offset. */
  lemma TableNumeral(d: nat)
    requires d < |NUMERALS|
    ensures IsNumeral(NUMERALS[d].0) && NumeralOffset(NUMERALS[d].0) == NUMERALS[d].1
  {
    NumeralsAreNumerals(d);
    NumeralOffsetOf(NUMERALS[d].0);
  }

  /** A numeral of the table has its own offset; any other name has offset 0. */
  lemma NumeralOffsetOf(key: string)
    ensures forall d :: 0 <= d < |NUMERALS| && NUMERALS[d].0 == key ==> NumeralOffset(key) == NUMERALS[d].1
    ensures (forall d :: 0 <= d < |NUMERALS| ==> NUMERALS[d].0 != key) ==> NumeralOffset(key) == 0
  {
    NumeralsShape();
  }

  function OffsetIn(table: seq<(string, int)>, key: string): (r: int)
    requires forall d :: 0 <= d < |table| ==> 0 <= table[d].1 < 12
    requires forall d, e :: 0 <= d < e < |table| ==> table[d].0 != table[e].0
    ensures 0 <= r < 12
    ensures forall d :: 0 <= d < |table| && table[d].0 == key ==> r == table[d].1
    ensures (forall d :: 0 <= d < |table| ==> table[d].0 != key) ==> r == 0
  {
    if |table| == 0 then 0
    else if table[0].0 == key then table[0].1
    else OffsetIn(table[1..], key)
  }

  /** The first of `keys` that `s` ends with. */
  function FirstSuffix(s: string, keys: seq<string>): (r: Option<string>)
    ensures r.Some? ==> r.value in keys && EndsWith(s, r.value)
  {
    if |keys| == 0 then None
    else if EndsWith(s, keys[0]) then Some(keys[0])
    else FirstSuffix(s, keys[1..])
  }

  /** No key is found when the string ends with none of them. */
  lemma {:induction false} FirstSuffixNone(s: string, keys: seq<string>)
    requires forall i :: 0 <= i < |keys| ==> !EndsWith(s, keys[i])
    ensures FirstSuffix(s, keys) == None
    decreases |keys|
  {
    if |keys| > 0 {
      assert !EndsWith(s, keys[0]);
      FirstSuffixNone(s, keys[1..]);
    }
  }

  /** `s.replace(/min|m$/, '')`: the leftmost "min", or a final "m", whichever starts first. */
  function ReplaceMinOrFinalM(s: string): (r: string)
    ensures |r| <= |s|
  {
    if |s| == 0 then s
    else if StartsWith(s, "min") then s[3..]
    else if s == "m" then []
    else [s[0]] + ReplaceMinOrFinalM(s[1..])
  }

  /** `s.slice(0, -1)` */
  function DropLast(s: string): (r: string)
    ensures |s| > 0 ==> r == s[..|s| - 1]
  {
    if |s| == 0 then s else s[..|s| - 1]
  }

  /** The loop over `Object.keys(CHORD_TYPES)`, which `KeyOrder` shows is `KEY_ORDER`: the
      first type the numeral ends with, cut off; maj7 and the whole numeral when there is
      none. */
  function MatchedType(root: string): (r: (string, string))
    ensures r.0 == "maj7" || r.0 in KEY_ORDER
  {
    match FirstSuffix(root, KEY_ORDER)
    case None => ("maj7", root)
    case Some(t) => (t, root[..|root| - |t|])
  }

  /** A numeral left ending in "min" or "m" makes the chord minor: min7 unless the type is
      already a minor one. */
  function MinorRewrite(t: string, root: string): (r: (string, string))
    ensures r.0 == t || r.0 == "min7"
  {
    if EndsWith(root, "min") || EndsWith(root, "m") then
      (if Includes(t, "min") then t else "min7", ReplaceMinOrFinalM(root))
    else (t, root)
  }

  /** A numeral left ending in "7" makes an unknown type dom7. */
  function SeventhRewrite(t: string, root: string): (r: (string, string))
    ensures t in Keys(CHORD_TYPES) ==> r == (t, root)
  {
    if EndsWith(root, "7") && t !in Keys(CHORD_TYPES) then ("dom7", DropLast(root)) else (t, root)
  }

  /** The three rewrites in order: the type and what is left of the numeral. */
  function Quality(root: string): (r: (string, string))
    ensures r.0 in Keys(CHORD_TYPES)
  {
    var (t1, r1) := MatchedType(root);
    var (t2, r2) := MinorRewrite(t1, r1);
    TypeKeys();
    SeventhRewrite(t2, r2)
  }

  /** The keys tried, and the two types the rewrites can set, are keys of the table. */
  lemma TypeKeys()
    ensures forall k :: k in KEY_ORDER ==> k in Keys(CHORD_TYPES)
    ensures "maj7" in Keys(CHORD_TYPES) && "min7" in Keys(CHORD_TYPES)
  {
    KeyOrderKeys();
    assert Keys(CHORD_TYPES)[0] == "maj7" && Keys(CHORD_TYPES)[1] == "min7";
  }

  /** A numeral without its flat. */
  function Unflat(n: string): string
  {
    if StartsWith(n, "b") then n[1..] else n
  }

  /** `numeralMap[flat ? 'b' + root : root] || 0` for what the rewrites leave of the numeral. */
  function NumeralInterval(numeral: string): (r: int)
    ensures 0 <= r < 12
  {
    var base := Quality(Unflat(numeral)).1;
    NumeralOffset(if StartsWith(numeral, "b") then "b" + base else base)
  }

  /** `(keyRoot + interval) % 12` with JavaScript's `%`, negative for a negative sum. */
  function ChordRoot(keyRoot: int, interval: int): (r: int)
    ensures -12 < r < 12
    ensures keyRoot + interval >= 0 ==> 0 <= r < 12 && (r - keyRoot - interval) % 12 == 0
  {
    Rem(keyRoot + interval, 12)
  }

  /** What `parseNumeral` returns, without the colour.  `rootName` is absent when the
      remainder is negative, where `NOTES[chordRoot]` is undefined. */
  datatype NumeralChord = NumeralChord(root: int, rootName: Option<string>, chordType: string, typeName: string, intervals: seq<int>)

  /** `parseNumeral(numeral, keyRoot)` */
  function ParseNumeral(numeral: string, keyRoot: int): (r: NumeralChord)
    ensures -12 < r.root < 12
    ensures keyRoot >= 0 ==> 0 <= r.root < 12 && r.rootName == Some(NOTES[r.root])
    ensures Lookup(CHORD_TYPES, r.chordType) == Some(ChordType(r.chordType, r.intervals, r.typeName))
  {
    var chordType := Quality(Unflat(numeral)).0;
    var chordRoot := ChordRoot(keyRoot, NumeralInterval(numeral));
    var entry := Lookup(CHORD_TYPES, chordType);
    NumeralChord(chordRoot, if chordRoot >= 0 then Some(NOTES[chordRoot]) else None, chordType,
                 if entry.Some? then entry.value.name else chordType,
                 if entry.Some? then entry.value.intervals else [0, 4, 7])
  }

  // ---------------------------------------------------------------- numeral lemmas

  predicate NumeralLetters(b: string)
  {
    |b| >= 1 && forall i :: 0 <= i < |b| ==> b[i] == 'I' || b[i] == 'V'
  }

  /** A numeral of the offset table: numeral letters, with or without a flat in front. */
  predicate IsNumeral(n: string)
  {
    NumeralLetters(Unflat(n)) && n == (if StartsWith(n, "b") then "b" else "") + Unflat(n)
  }

  lemma NumeralsAreNumerals(d: nat)
    requires d < |NUMERALS|
    ensures IsNumeral(NUMERALS[d].0)
  {
    NumeralsShape();
    var n := NUMERALS[d].0;
    if n[0] == 'b' {
      assert n == "b" + n[1..];
    } else {
      assert forall i :: 1 <= i < |n| ==> n[i] in n[1..];
    }
  }

  /** A suffix leaves the flat where it was. */
  lemma SplitNumeral(n: string, x: string)
    requires IsNumeral(n)
    ensures StartsWith(n + x, "b") == StartsWith(n, "b")
    ensures Unflat(n + x) == Unflat(n) + x
  {
    var b := Unflat(n);
    if StartsWith(n, "b") {
      assert n + x == "b" + (b + x);
    } else {
      assert (n + x)[0] == b[0];
    }
  }

  /** Of two suffixes of one string, the shorter is a suffix of the longer. */
  lemma SuffixOfSuffix(s: string, x: string, y: string)
    requires EndsWith(s, x) && EndsWith(s, y) && |x| <= |y|
    ensures EndsWith(y, x)
  {
    assert y[|y| - |x|..] == s[|s| - |x|..];
  }

  /** `FirstSuffix` finds the one key the string ends with. */
  lemma {:induction false} FirstSuffixUnique(s: string, keys: seq<string>, j: nat)
    requires j < |keys| && EndsWith(s, keys[j])
    requires forall i :: 0 <= i < |keys| && EndsWith(s, keys[i]) ==> keys[i] == keys[j]
    ensures FirstSuffix(s, keys) == Some(keys[j])
    decreases j
  {
    if !EndsWith(s, keys[0]) {
      FirstSuffixUnique(s, keys[1..], j - 1);
    }
  }

  /** A numeral followed by a type key ends with that key and no other. */
  lemma MatchedKey(b: string, j: nat)
    requires j < |KEY_ORDER|
    ensures MatchedType(b + KEY_ORDER[j]) == (KEY_ORDER[j], b)
  {
    var t := KEY_ORDER[j];
    var s := b + t;
    KeysSuffixFree();
    assert EndsWith(s, t);
    forall i | 0 <= i < |KEY_ORDER| && EndsWith(s, KEY_ORDER[i])
      ensures KEY_ORDER[i] == t
    {
      if |KEY_ORDER[i]| <= |t| {
        SuffixOfSuffix(s, KEY_ORDER[i], t);
      } else {
        SuffixOfSuffix(s, t, KEY_ORDER[i]);
      }
    }
    FirstSuffixUnique(s, KEY_ORDER, j);
    assert s[..|s| - |t|] == b;
  }

  /** Numeral letters followed by "7", "m" or "min" end with no type key. */
  lemma KeyNotSuffix(b: string, x: string, i: nat)
    requires NumeralLetters(b)
    requires x == "7" || x == "m" || x == "min"
    requires i < |KEY_ORDER|
    ensures !EndsWith(b + x, KEY_ORDER[i])
  {
    KeysShape();
    var s, k := b + x, KEY_ORDER[i];
    if |k| <= |s| {
      var tail := s[|s| - |k|..];
      if |k| <= |x| {
        assert tail[|k| - 1] != k[|k| - 1];
      } else {
        assert tail[|k| - |x| - 1] == b[|b| - 1];
        assert k[|k| - |x| - 1] in k;
      }
    }
  }

  lemma MatchedNothing(b: string, x: string)
    requires NumeralLetters(b)
    requires x == "7" || x == "m" || x == "min"
    ensures MatchedType(b + x) == ("maj7", b + x)
  {
    forall i | 0 <= i < |KEY_ORDER|
      ensures !EndsWith(b + x, KEY_ORDER[i])
    {
      KeyNotSuffix(b, x, i);
    }
    FirstSuffixNone(b + x, KEY_ORDER);
  }

  /** Numeral letters end in neither "min" nor "m". */
  lemma NotMinor(b: string)
    requires NumeralLetters(b)
    ensures !EndsWith(b, "min") && !EndsWith(b, "m") && !EndsWith(b, "7")
  {
    assert b[|b| - 1] == 'I' || b[|b| - 1] == 'V';
  }

  /** Numeral letters contain no "min" and no "m", so the rewrite removes exactly the
      letters that follow them. */
  lemma {:induction false} StripMinor(b: string, x: string)
    requires forall i :: 0 <= i < |b| ==> b[i] == 'I' || b[i] == 'V'
    requires x == "m" || x == "min"
    ensures ReplaceMinOrFinalM(b + x) == b
    decreases |b|
  {
    if |b| == 0 {
      assert b + x == x;
    } else {
      assert (b + x)[1..] == b[1..] + x;
      StripMinor(b[1..], x);
      assert [b[0]] + b[1..] == b;
    }
  }

  /** Once the rewrites have left the numeral letters followed by `y`, the offset looked up
      is that of the numeral followed by `y`, the flat put back. */
  lemma NumeralIntervalOf(n: string, x: string, y: string)
    requires IsNumeral(n)
    requires Quality(Unflat(n) + x).1 == Unflat(n) + y
    ensures NumeralInterval(n + x) == NumeralOffset(n + y)
  {
    SplitNumeral(n, x);
    SplitNumeral(n, y);
    var b := Unflat(n);
    var key := if StartsWith(n + x, "b") then "b" + (b + y) else b + y;
    assert NumeralInterval(n + x) == NumeralOffset(key);
    if StartsWith(n, "b") {
      assert key == "b" + (b + y) == n + y;
    } else {
      assert key == b + y == n + y;
    }
  }

  /** Once the rewrites have chosen the type and left the numeral letters followed by `y`,
      the root is the offset of the numeral followed by `y` above the key. */
  lemma ParseNumeralOfQuality(n: string, x: string, y: string, keyRoot: int, t: string)
    requires IsNumeral(n)
    requires Quality(Unflat(n) + x) == (t, Unflat(n) + y)
    ensures ParseNumeral(n + x, keyRoot).root == ChordRoot(keyRoot, NumeralOffset(n + y))
    ensures ParseNumeral(n + x, keyRoot).chordType == t
  {
    SplitNumeral(n, x);
    NumeralIntervalOf(n, x, y);
  }

  /** Numeral letters followed by a type key: that type, the letters left. */
  lemma QualityWithType(b: string, j: nat)
    requires NumeralLetters(b) && j < |KEY_ORDER|
    ensures Quality(b + KEY_ORDER[j]) == (KEY_ORDER[j], b + [])
  {
    MatchedKey(b, j);
    NotMinor(b);
    TypeKeys();
    assert b + [] == b;
  }

  /** Numeral letters followed by "m" or "min": min7, the letters left. */
  lemma QualityMinor(b: string, x: string)
    requires NumeralLetters(b)
    requires x == "m" || x == "min"
    ensures Quality(b + x) == ("min7", b + [])
  {
    MatchedNothing(b, x);
    StripMinor(b, x);
    assert EndsWith(b + x, x);
    IncludesChar("maj7", "min", 'i');
    TypeKeys();
    assert b + [] == b;
  }

  /** Numeral letters followed by "7": no type key matches and maj7 is a key, so the
      trailing-7 rewrite is skipped and the "7" stays. */
  lemma QualitySeventh(b: string)
    requires NumeralLetters(b)
    ensures Quality(b + "7") == ("maj7", b + "7")
  {
    MatchedNothing(b, "7");
    assert !EndsWith(b + "7", "min") && !EndsWith(b + "7", "m");
    TypeKeys();
  }

  /** A numeral followed by a type key: that type, at the numeral's offset above the key. */
  lemma ParseNumeralWithType(n: string, j: nat, keyRoot: int)
    requires IsNumeral(n) && j < |KEY_ORDER|
    ensures ParseNumeral(n + KEY_ORDER[j], keyRoot).root == ChordRoot(keyRoot, NumeralOffset(n))
    ensures ParseNumeral(n + KEY_ORDER[j], keyRoot).chordType == KEY_ORDER[j]
  {
    assert n + [] == n;
    QualityWithType(Unflat(n), j);
    ParseNumeralOfType(n, KEY_ORDER[j], KEY_ORDER[j], keyRoot);
  }

  lemma ParseNumeralOfType(n: string, x: string, t: string, keyRoot: int)
    requires IsNumeral(n)
    requires Quality(Unflat(n) + x) == (t, Unflat(n) + [])
    ensures ParseNumeral(n + x, keyRoot).root == ChordRoot(keyRoot, NumeralOffset(n))
    ensures ParseNumeral(n + x, keyRoot).chordType == t
  {
    assert n + [] == n;
    ParseNumeralOfQuality(n, x, [], keyRoot, t);
  }

  /** A numeral followed by "m" or "min": min7, at the numeral's offset above the key. */
  lemma ParseMinorNumeral(n: string, x: string, keyRoot: int)
    requires IsNumeral(n)
    requires x == "m" || x == "min"
    ensures var r := ParseNumeral(n + x, keyRoot);
      r.root == ChordRoot(keyRoot, NumeralOffset(n)) && r.chordType == "min7"
  {
    QualityMinor(Unflat(n), x);
    ParseNumeralOfType(n, x, "min7", keyRoot);
  }

  /** The dominant quirk: a numeral followed by "7" is read as maj7 on the key itself,
      because the numeral with its "7" is not in the offset table. */
  lemma DominantNumeralQuirk(n: string, keyRoot: int)
    requires IsNumeral(n)
    ensures var r := ParseNumeral(n + "7", keyRoot);
      r.root == ChordRoot(keyRoot, 0) && r.chordType == "maj7"
  {
    SeventhNotInOffsetTable(n);
    QualitySeventh(Unflat(n));
    ParseNumeralOfQuality(n, "7", "7", keyRoot, "maj7");
  }

  lemma SeventhNotInOffsetTable(n: string)
    ensures NumeralOffset(n + "7") == 0
  {
    var key := n + "7";
    assert key[|key| - 1] == '7';
    NotInOffsetTable(key);
  }

  /** A name ending in "7" is not in the offset table. */
  lemma NotInOffsetTable(key: string)
    requires |key| > 0 && key[|key| - 1] == '7'
    ensures NumeralOffset(key) == 0
  {
    NumeralsShape();
    NumeralOffsetOf(key);
  }

  // ---------------------------------------------------------------- inversions

  /** The voices before sorting after `inversion` steps of the loop of `generateChordMidi`:
      step `i` raises voice `i % n` by an octave.  With no voices `i % 0` is NaN and no
      voice changes. */
  function Inverted(intervals: seq<int>, base: int, inversion: int): (r: seq<int>)
    ensures |r| == |intervals|
    decreases inversion
  {
    if inversion <= 0 || |intervals| == 0 then Shifted(intervals, base)
    else
      var prev := Inverted(intervals, base, inversion - 1);
      var p := (inversion - 1) % |intervals|;
      prev[p := prev[p] + 12]
  }

  /** Counting one further either moves the remainder on or starts the next pass. */
  lemma NextDivMod(k: nat, n: nat)
    requires n > 0
    ensures k % n + 1 < n ==> (k + 1) / n == k / n && (k + 1) % n == k % n + 1
    ensures k % n + 1 == n ==> (k + 1) / n == k / n + 1 && (k + 1) % n == 0
  {
    var q, m := k / n, k % n;
    assert k == n * q + m;
    if m + 1 < n {
      DivModUnique(k + 1, n, q, m + 1);
    } else {
      assert n * (q + 1) == n * q + n;
      DivModUnique(k + 1, n, q + 1, 0);
    }
  }

  /** After `k` steps each voice has been raised once per full pass over the voices, and
      once more if the unfinished pass has reached it. */
  lemma {:induction false} InvertedVoices(intervals: seq<int>, base: int, k: nat)
    requires |intervals| > 0
    ensures forall j :: 0 <= j < |intervals| ==>
      Inverted(intervals, base, k)[j] == base + intervals[j] + 12 * (k / |intervals| + (if j < k % |intervals| then 1 else 0))
  {
    if k > 0 {
      InvertedVoices(intervals, base, k - 1);
      NextDivMod(k - 1, |intervals|);
    }
  }

  /** Each step raises one voice by an octave, so the total rises by 12 per step. */
  lemma {:induction false} InvertedSum(intervals: seq<int>, base: int, k: nat)
    requires |intervals| > 0
    ensures Sum(Inverted(intervals, base, k)) == Sum(Shifted(intervals, base)) + 12 * k
  {
    if k > 0 {
      InvertedSum(intervals, base, k - 1);
      var prev := Inverted(intervals, base, k - 1);
      SumUpdate(prev, (k - 1) % |intervals|, 12);
    }
  }

  /** A whole number of passes raises the whole chord by that many octaves. */
  lemma WholePasses(intervals: seq<int>, base: int, p: nat)
    requires |intervals| > 0
    ensures Inverted(intervals, base, p * |intervals|) == Shifted(intervals, base + 12 * p)
  {
    var n := |intervals|;
    InvertedVoices(intervals, base, p * n);
    DivModUnique(p * n, n, p, 0);
  }

  /** `(a, b) => a - b` */
  function NoteKey(x: int): real
  {
    x as real
  }

  lemma AscendingIsSorted(s: seq<int>)
    requires StrictlyAscending(s)
    ensures Sorted(s, NoteKey)
  {
  }

  /** The loop of `generateChordMidi`: `notes[i % notes.length] += 12` for each `i` below
      the inversion.  With no voices `i % 0` is NaN and no voice changes. */
  method RaiseVoices(intervals: seq<int>, base: int, inversion: int) returns (raised: seq<int>)
    ensures raised == Inverted(intervals, base, inversion)
  {
    var n := |intervals|;
    raised := Shifted(intervals, base);
    if n > 0 {
      var i := 0;
      while i < inversion
        invariant 0 <= i && (if inversion > 0 then i <= inversion else i == 0)
        invariant raised == Inverted(intervals, base, i)
      {
        raised := raised[i % n := raised[i % n] + 12];
        i := i + 1;
      }
    }
  }

  /** The MIDI number the chord's intervals count from: its root in `octave`. */
  function ChordBase(chord: NumeralChord, octave: int): int
  {
    chord.root + octave * 12
  }

  /** `generateChordMidi(chord, octave, inversion)`: the chord's notes from the given
      octave, with the inversion's voices raised, sorted ascending. */
  function GenerateChordMidi(chord: NumeralChord, octave: int, inversion: int): (r: seq<int>)
    ensures |r| == |chord.intervals|
  {
    SortBy(Inverted(chord.intervals, ChordBase(chord, octave), inversion), NoteKey)
  }

  /** The notes come out ascending. */
  lemma ChordMidiSorted(chord: NumeralChord, octave: int, inversion: int)
    ensures Sorted(GenerateChordMidi(chord, octave, inversion), NoteKey)
  {
    SortBySorted(Inverted(chord.intervals, ChordBase(chord, octave), inversion), NoteKey);
  }

  /** The notes are the raised voices, rearranged. */
  lemma ChordMidiPermutation(chord: NumeralChord, octave: int, inversion: int)
    ensures multiset(GenerateChordMidi(chord, octave, inversion)) == multiset(Inverted(chord.intervals, ChordBase(chord, octave), inversion))
  {
  }

  /** Each step of the inversion loop adds an octave to the chord's total. */
  lemma ChordMidiSum(chord: NumeralChord, octave: int, inversion: int)
    requires |chord.intervals| > 0 && inversion > 0
    ensures Sum(GenerateChordMidi(chord, octave, inversion)) == Sum(Shifted(chord.intervals, ChordBase(chord, octave))) + 12 * inversion
  {
    var raised := Inverted(chord.intervals, ChordBase(chord, octave), inversion);
    InvertedSum(chord.intervals, ChordBase(chord, octave), inversion);
    SumPermutation(SortBy(raised, NoteKey), raised);
  }

  /** Two ascending arrangements of the same notes are the same sequence. */
  lemma {:induction false} SortedUnique(a: seq<int>, b: seq<int>)
    requires Sorted(a, NoteKey) && Sorted(b, NoteKey) && multiset(a) == multiset(b)
    ensures a == b
    decreases |a|
  {
    SameLength(a, b);
    if |a| > 0 {
      SortedHeads(a, b);
      TailMultiset(a);
      TailMultiset(b);
      SortedTail(a);
      SortedTail(b);
      SortedUnique(a[1..], b[1..]);
      assert a == [a[0]] + a[1..] && b == [b[0]] + b[1..];
    }
  }

  lemma SameLength(a: seq<int>, b: seq<int>)
    requires multiset(a) == multiset(b)
    ensures |a| == |b|
  {
    assert |a| == |multiset(a)| && |b| == |multiset(b)|;
  }

  /** The least of the same notes heads both arrangements. */
  lemma SortedHeads(a: seq<int>, b: seq<int>)
    requires Sorted(a, NoteKey) && Sorted(b, NoteKey) && multiset(a) == multiset(b)
    requires |a| > 0 && |b| > 0
    ensures a[0] == b[0]
  {
    assert b[0] in multiset(a) && a[0] in multiset(b);
  }

  lemma SortedTail(a: seq<int>)
    requires |a| > 0 && Sorted(a, NoteKey)
    ensures Sorted(a[1..], NoteKey)
  {
  }

  /** Fewer steps than voices raise exactly the lowest `k` voices once. */
  lemma InvertedPartialPass(iv: seq<int>, base: int, k: nat)
    requires 0 < k < |iv|
    ensures Inverted(iv, base, k) == Shifted(iv[..k], base + 12) + Shifted(iv[k..], base)
  {
    var r, t := Inverted(iv, base, k), Shifted(iv[..k], base + 12) + Shifted(iv[k..], base);
    InvertedVoices(iv, base, k);
    DivModUnique(k, |iv|, 0, k);
    forall j | 0 <= j < |iv|
      ensures r[j] == t[j]
    {
      if j < k {
        assert r[j] == base + iv[j] + 12 * (0 + 1);
      } else {
        assert r[j] == base + iv[j] + 12 * (0 + 0);
      }
    }
  }

  /** The voices from `k` on, then the lower ones an octave up, rise when the chord spans
      less than an octave. */
  lemma RotationAscending(iv: seq<int>, base: int, k: nat)
    requires 0 < k < |iv|
    requires StrictlyAscending(iv) && iv[|iv| - 1] < iv[0] + 12
    ensures StrictlyAscending(Shifted(iv[k..], base) + Shifted(iv[..k], base + 12))
  {
    var r := Shifted(iv[k..], base) + Shifted(iv[..k], base + 12);
    var m := |iv| - k;
    forall i, j | 0 <= i < j < |r|
      ensures r[i] < r[j]
    {
      if j >= m && i < m {
        assert r[i] == iv[k + i] + base && r[j] == iv[j - m] + base + 12;
        assert iv[k + i] <= iv[|iv| - 1] && iv[0] <= iv[j - m];
      }
    }
  }

  lemma SwapMultiset(a: seq<int>, b: seq<int>)
    ensures multiset(a + b) == multiset(b + a)
  {
  }

  /** The voices from `k` on, from `base`, then the lower ones an octave higher. */
  function Rotation(iv: seq<int>, base: int, k: nat): seq<int>
    requires k <= |iv|
  {
    Shifted(iv[k..], base) + Shifted(iv[..k], base + 12)
  }

  /** Sorting the voices of a partial pass puts the raised ones on top, when the chord
      spans less than an octave. */
  lemma InversionRotates(iv: seq<int>, base: int, k: nat)
    requires 0 < k < |iv|
    requires StrictlyAscending(iv) && iv[|iv| - 1] < iv[0] + 12
    ensures SortBy(Inverted(iv, base, k), NoteKey) == Rotation(iv, base, k)
  {
    var low, high := Shifted(iv[..k], base + 12), Shifted(iv[k..], base);
    InvertedPartialPass(iv, base, k);
    RotationAscending(iv, base, k);
    AscendingIsSorted(high + low);
    SwapMultiset(low, high);
    SortByOfPermutation(Inverted(iv, base, k), high + low);
  }

  /** The `k`-th inversion of a chord spanning less than an octave, for `k` below the
      number of voices: the lowest `k` voices move up an octave, above the others. */
  lemma ChordMidiInversion(chord: NumeralChord, octave: int, k: nat)
    requires 0 < k < |chord.intervals|
    requires StrictlyAscending(chord.intervals)
    requires chord.intervals[|chord.intervals| - 1] < chord.intervals[0] + 12
    ensures GenerateChordMidi(chord, octave, k) == Rotation(chord.intervals, ChordBase(chord, octave), k)
  {
    InversionRotates(chord.intervals, ChordBase(chord, octave), k);
  }

  /** Sorting yields the one ascending arrangement of the same notes. */
  lemma SortByOfPermutation(s: seq<int>, t: seq<int>)
    requires Sorted(t, NoteKey) && multiset(s) == multiset(t)
    ensures SortBy(s, NoteKey) == t
  {
    SortBySorted(s, NoteKey);
    SortedUnique(SortBy(s, NoteKey), t);
  }

  /** Without inversion an ascending chord keeps its voicing: root position. */
  lemma ChordMidiRootPosition(chord: NumeralChord, octave: int, inversion: int)
    requires inversion <= 0 && StrictlyAscending(chord.intervals)
    ensures GenerateChordMidi(chord, octave, inversion) == Shifted(chord.intervals, ChordBase(chord, octave))
  {
    RootPositionSorted(chord.intervals, ChordBase(chord, octave), inversion);
  }

  lemma RootPositionSorted(iv: seq<int>, base: int, inversion: int)
    requires inversion <= 0 && StrictlyAscending(iv)
    ensures SortBy(Inverted(iv, base, inversion), NoteKey) == Shifted(iv, base)
  {
    var raised := Shifted(iv, base);
    AscendingIsSorted(raised);
    SortByOfSorted(raised, NoteKey);
  }

  // ---------------------------------------------------------------- note names

  /** `midiToNoteName(midi)`: the pitch-class name and the octave, counting from -1.
      Below MIDI 0 a non-zero remainder is negative and `NOTES` has no such entry. */
  function MidiToNoteName(midi: int): (r: string)
  {
    var pc := Rem(midi, 12);
    (if pc >= 0 then NOTES[pc] else "undefined") + IntToString(midi / 12 - 1)
  }

  /** From MIDI 0 on, the name is the note name of the pitch class and octave. */
  lemma MidiToNoteNameOf(midi: int, pc: nat, octave: int)
    requires midi >= 0 && pc == midi % 12 && octave == midi / 12 - 1
    ensures MidiToNoteName(midi) == ChordLibrary.NoteName(pc, octave)
  {
  }

  /** `noteNameToMidi(midiToNoteName(m)) == m` over the one-digit octaves, MIDI 0 to 131. */
  lemma NoteNameRoundTrip(midi: int)
    requires 0 <= midi < 132
    ensures ChordLibrary.NoteNameToMidi(MidiToNoteName(midi)) == midi
  {
    MidiToNoteNameOf(midi, midi % 12, midi / 12 - 1);
    ChordLibrary.NoteNameToMidiOf(midi % 12, midi / 12 - 1);
  }

  /** `midiToNoteName(noteNameToMidi(name)) == name` for every sharp name with an octave
      from -1 to 9. */
  lemma MidiRoundTrip(pc: nat, octave: int)
    requires pc < 12 && -1 <= octave <= 9
    ensures MidiToNoteName(ChordLibrary.NoteNameToMidi(ChordLibrary.NoteName(pc, octave))) == ChordLibrary.NoteName(pc, octave)
  {
    var name, m := ChordLibrary.NoteName(pc, octave), (octave + 1) * 12 + pc;
    ChordLibrary.NoteNameToMidiOf(pc, octave);
    MidiNameOf(m, pc, octave);
    RoundTripOf(name, m);
  }

  lemma RoundTripOf(name: string, m: int)
    requires ChordLibrary.NoteNameToMidi(name) == m && MidiToNoteName(m) == name
    ensures MidiToNoteName(ChordLibrary.NoteNameToMidi(name)) == name
  {
  }

  /** The MIDI number of a pitch class in an octave from -1 on is named by them. */
  lemma MidiNameOf(m: int, pc: nat, octave: int)
    requires pc < 12 && -1 <= octave && m == (octave + 1) * 12 + pc
    ensures MidiToNoteName(m) == ChordLibrary.NoteName(pc, octave)
  {
    MidiParts(m, pc, octave);
    MidiToNoteNameOf(m, pc, octave);
  }

  lemma MidiParts(m: int, pc: nat, octave: int)
    requires pc < 12 && -1 <= octave && m == (octave + 1) * 12 + pc
    ensures m >= 0 && m % 12 == pc && m / 12 - 1 == octave
  {
    DivModUnique(m, 12, octave + 1, pc);
  }

  // ---------------------------------------------------------------- melodies

  /** `SCALES[name]?.intervals`, the first entry with that name. */
  function ScaleLookup(table: seq<(string, seq<int>)>, name: string): (r: Option<seq<int>>)
    ensures r.Some? ==> (name, r.value) in table
    ensures r.None? ==> forall i :: 0 <= i < |table| ==> table[i].0 != name
  {
    if |table| == 0 then None
    else if table[0].0 == name then Some(table[0].1)
    else ScaleLookup(table[1..], name)
  }

  /** `SCALES[scale]?.intervals || SCALES.pentatonicMinor.intervals` */
  function ScaleIntervals(scale: string): (r: seq<int>)
    ensures |r| >= 5 && r[0] == 0 && StrictlyAscending(r)
    ensures forall j :: 0 <= j < |r| ==> 0 <= r[j] < 12
  {
    ScalesShape();
    match ScaleLookup(SCALES, scale)
    case Some(iv) => iv
    case None => PENTATONIC_MINOR
  }

  /** `scaleIntervals.map(i => (chord.root + i) % 12)` */
  function ScaleNotes(root: int, intervals: seq<int>): (r: seq<int>)
    ensures |r| == |intervals|
    ensures root >= 0 ==> forall i :: 0 <= i < |intervals| && intervals[i] >= 0 ==>
      r[i] == (root + intervals[i]) % 12
  {
    seq(|intervals|, i requires 0 <= i < |intervals| => Rem(root + intervals[i], 12))
  }

  /** One pattern step `p`: the scale degree `p` wraps into the scale and carries the
      octave, in both directions. */
  function MelodyNote(scaleNotes: seq<int>, baseOctave: int, p: int): int
    requires |scaleNotes| > 0
  {
    var len := |scaleNotes|;
    var index := Rem(Rem(p, len) + len, len);
    WrappedRemIsMod(p, len);
    baseOctave + scaleNotes[index] + (p / len) * 12
  }

  /** `generateMelody(chord, scale, pattern, octave)` */
  function GenerateMelody(chord: NumeralChord, scale: string, pattern: seq<int>, octave: int): (r: seq<int>)
    ensures |r| == |pattern|
  {
    Melody(chord.root, ScaleIntervals(scale), pattern, octave)
  }

  /** The melody over any non-empty list of scale intervals. */
  function Melody(root: int, intervals: seq<int>, pattern: seq<int>, octave: int): (r: seq<int>)
    requires |intervals| > 0
    ensures |r| == |pattern|
  {
    var notes := ScaleNotes(root, intervals);
    seq(|pattern|, k requires 0 <= k < |pattern| => MelodyNote(notes, octave * 12, pattern[k]))
  }

  /** A table with distinct names finds each entry by its name. */
  lemma {:induction false} ScaleLookupOf(table: seq<(string, seq<int>)>, i: nat)
    requires i < |table|
    requires forall a, b :: 0 <= a < b < |table| ==> table[a].0 != table[b].0
    ensures ScaleLookup(table, table[i].0) == Some(table[i].1)
    decreases i
  {
    if i > 0 {
      ScaleLookupOf(table[1..], i - 1);
    }
  }

  /** Each named scale has its own intervals; any other name falls back to the minor
      pentatonic. */
  lemma ScaleIntervalsOf(scale: string)
    ensures forall i :: 0 <= i < |SCALES| && SCALES[i].0 == scale ==> ScaleIntervals(scale) == SCALES[i].1
    ensures (forall i :: 0 <= i < |SCALES| ==> SCALES[i].0 != scale) ==> ScaleIntervals(scale) == PENTATONIC_MINOR
  {
    forall i | 0 <= i < |SCALES| && SCALES[i].0 == scale
      ensures ScaleIntervals(scale) == SCALES[i].1
    {
      ScaleLookupOf(SCALES, i);
    }
  }

  /** The double remainder is the Euclidean remainder, so a pattern step is the scale
      note of its degree modulo the scale length, `p / len` octaves up. */
  lemma MelodyNoteOf(scaleNotes: seq<int>, baseOctave: int, p: int)
    requires |scaleNotes| > 0
    ensures MelodyNote(scaleNotes, baseOctave, p) == baseOctave + scaleNotes[p % |scaleNotes|] + 12 * (p / |scaleNotes|)
  {
    WrappedRemIsMod(p, |scaleNotes|);
  }

  /** A degree one scale length higher is the same note an octave up, below zero too. */
  lemma MelodyNextOctave(scaleNotes: seq<int>, baseOctave: int, p: int)
    requires |scaleNotes| > 0
    ensures MelodyNote(scaleNotes, baseOctave, p + |scaleNotes|) == MelodyNote(scaleNotes, baseOctave, p) + 12
  {
    var n := |scaleNotes|;
    var q, m := p / n, p % n;
    MelodyNoteOf(scaleNotes, baseOctave, p);
    MelodyNoteOf(scaleNotes, baseOctave, p + n);
    NextQuotient(p, n);
  }

  lemma NextQuotient(p: int, n: int)
    requires n > 0
    ensures (p + n) / n == p / n + 1 && (p + n) % n == p % n
  {
    DivModUnique(p + n, n, p / n + 1, p % n);
  }

  /** Over a root from C upwards every melody note is in the scale on the root. */
  lemma MelodyInScale(root: int, intervals: seq<int>, pattern: seq<int>, octave: int, k: nat)
    requires |intervals| > 0 && root >= 0 && k < |pattern|
    requires forall j :: 0 <= j < |intervals| ==> intervals[j] >= 0
    ensures Melody(root, intervals, pattern, octave)[k] % 12 == (root + intervals[pattern[k] % |intervals|]) % 12
  {
    var notes := ScaleNotes(root, intervals);
    var p := pattern[k];
    var d, q := p % |intervals|, p / |intervals|;
    MelodyNoteOf(notes, octave * 12, p);
    var m := (root + intervals[d]) % 12;
    assert notes[d] == m;
    OctavesAndClass(octave + q, m);
  }

  lemma OctavesAndClass(o: int, m: int)
    requires 0 <= m < 12
    ensures (o * 12 + m) % 12 == m
  {
    DivModUnique(o * 12 + m, 12, o, m);
  }

  /** The degrees of the first scale length stay in the pattern's own octave. */
  lemma MelodyFirstOctave(root: int, intervals: seq<int>, pattern: seq<int>, octave: int, k: nat)
    requires |intervals| > 0 && root >= 0 && k < |pattern|
    requires forall j :: 0 <= j < |intervals| ==> intervals[j] >= 0
    requires 0 <= pattern[k] < |intervals|
    ensures octave * 12 <= Melody(root, intervals, pattern, octave)[k] < octave * 12 + 12
  {
    var notes := ScaleNotes(root, intervals);
    MelodyNoteOf(notes, octave * 12, pattern[k]);
    DivModUnique(pattern[k], |intervals|, 0, pattern[k]);
  }
}
