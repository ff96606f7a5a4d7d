/** `generateMidiEvents(arrangement, type)`: the note list of an arrangement, four beats per
    chord, for one instrument part or for all of them.  Each part plays on its own MIDI
    channel, so the full arrangement restricted to a part's channel is exactly that part. */
module MidiEvents {
  import opened MidiNotes
  import opened StableSort

  const BEATS_PER_CHORD: int := 4

  /** A chord as the arrangement holds it: its MIDI notes and its bass note. */
  datatype ChordVoicing = ChordVoicing(notes: seq<int>, bassNote: int)

  /** One bass hit of a pattern.  An absent interval is 0. */
  datatype BassHit = BassHit(beat: real, interval: int, duration: real)

  /** Drum hits as beat offsets within a chord.  An absent open hi-hat list is empty. */
  datatype DrumPattern = DrumPattern(kick: seq<real>, snare: seq<real>, hihat: seq<real>, openHat: seq<real>)

  datatype Arrangement = Arrangement(
    chords: seq<ChordVoicing>, bpm: real, drumPattern: DrumPattern, bassPattern: seq<BassHit>)

  /** The instrument parts, in the order their notes are pushed for each chord. */
  datatype Part = Keys | Pad | Strings | Guitar | Bass | Melody | Drums

  function PartChannel(p: Part): (r: int)
    ensures 0 <= r < 16
  {
    match p
    case Keys => 0
    case Pad => 1
    case Strings => 2
    case Guitar => 3
    case Bass => 4
    case Melody => 5
    case Drums => 9
  }

  /** Whether the export `kind` includes part `p`: "full" includes all, "piano" is another
      name for "chords", and any other string names a single part or none. */
  predicate Selects(kind: string, p: Part)
  {
    || kind == "full"
    || match p
       case Keys => kind == "chords" || kind == "piano"
       case Pad => kind == "pad"
       case Strings => kind == "strings"
       case Guitar => kind == "guitar"
       case Bass => kind == "bass"
       case Melody => kind == "melody"
       case Drums => kind == "drums"
  }

  // ---------------------------------------------------------------- the parts

  /** Every note of a chord struck at once. */
  function Strike(ns: seq<int>, transpose: int, start: real, duration: real, velocity: int, channel: int)
    : (r: seq<Note>)
    ensures |r| == |ns|
    ensures forall i :: 0 <= i < |ns| ==> r[i] == Note(ns[i] + transpose, start, duration, velocity, channel)
  {
    seq(|ns|, i requires 0 <= i < |ns| => Note(ns[i] + transpose, start, duration, velocity, channel))
  }

  /** Chords / piano: the chord on beats 0 and 2, 1.5 beats long, velocity 80, channel 0. */
  function KeysNotes(c: ChordVoicing, start: real): (r: seq<Note>)
    ensures |r| == 2 * |c.notes|
    ensures forall j :: 0 <= j < |c.notes| ==>
              && r[j] == Note(c.notes[j], start, 1.5, 80, 0)
              && r[|c.notes| + j] == Note(c.notes[j], start + 2.0, 1.5, 80, 0)
  {
    Strike(c.notes, 0, start, 1.5, 80, 0) + Strike(c.notes, 0, start + 2.0, 1.5, 80, 0)
  }

  /** Pad: the chord an octave up on beat 0, 3.8 beats long, velocity 60, channel 1. */
  function PadNotes(c: ChordVoicing, start: real): (r: seq<Note>)
    ensures |r| == |c.notes|
    ensures forall i :: 0 <= i < |r| ==> r[i] == Note(c.notes[i] + 12, start, 3.8, 60, 1)
  {
    Strike(c.notes, 12, start, 3.8, 60, 1)
  }

  /** Strings: the chord on beat 0, 3.8 beats long, velocity 55, channel 2. */
  function StringNotes(c: ChordVoicing, start: real): (r: seq<Note>)
    ensures |r| == |c.notes|
    ensures forall i :: 0 <= i < |r| ==> r[i] == Note(c.notes[i], start, 3.8, 55, 2)
  {
    Strike(c.notes, 0, start, 3.8, 55, 2)
  }

  /** Guitar: the chord arpeggiated upwards, note `i` 0.15·i beats late, 1.5 beats long,
      velocity 70, channel 3. */
  function GuitarNotes(c: ChordVoicing, start: real): (r: seq<Note>)
    ensures |r| == |c.notes|
    ensures forall i :: 0 <= i < |r| ==> r[i] == Note(c.notes[i], start + i as real * 0.15, 1.5, 70, 3)
  {
    seq(|c.notes|, i requires 0 <= i < |c.notes| => Note(c.notes[i], start + i as real * 0.15, 1.5, 70, 3))
  }

  predicate InChord(beat: real)
  {
    beat < BEATS_PER_CHORD as real
  }

  predicate HitInChord(h: BassHit)
  {
    InChord(h.beat)
  }

  /** Bass: each pattern hit before beat 4, in pattern order, at the bass note plus its
      interval, velocity 95, channel 4. */
  function BassNotes(c: ChordVoicing, start: real, hits: seq<BassHit>): (r: seq<Note>)
    ensures |r| == Count(hits, HitInChord)
    ensures forall i :: 0 <= i < |r| ==>
              var h := Filter(hits, HitInChord)[i];
              r[i] == Note(c.bassNote + h.interval, start + h.beat, h.duration, 95, 4)
    ensures forall n :: n in r ==>
              exists h :: h in hits && HitInChord(h) && n == Note(c.bassNote + h.interval, start + h.beat, h.duration, 95, 4)
  {
    if |hits| == 0 then []
    else
      var h := hits[0];
      var rest := BassNotes(c, start, hits[1..]);
      forall n | n in rest
        ensures exists h' :: h' in hits && HitInChord(h') && n == Note(c.bassNote + h'.interval, start + h'.beat, h'.duration, 95, 4)
      {
        var h' :| h' in hits[1..] && HitInChord(h') && n == Note(c.bassNote + h'.interval, start + h'.beat, h'.duration, 95, 4);
        assert h' in hits;
      }
      if HitInChord(h) then [Note(c.bassNote + h.interval, start + h.beat, h.duration, 95, 4)] + rest
      else rest
  }

  const MELODY_BEATS: seq<real> := [0.0, 0.5, 1.5, 2.5]

  /** Melody: the first four chord notes an octave up, on beats 0, 0.5, 1.5 and 2.5, 0.4
      beats long, velocity 85, channel 5. */
  function MelodyNotes(c: ChordVoicing, start: real): (r: seq<Note>)
    ensures |r| == if |c.notes| < 4 then |c.notes| else 4
    ensures forall i :: 0 <= i < |r| ==> r[i] == Note(c.notes[i] + 12, start + MELODY_BEATS[i], 0.4, 85, 5)
  {
    var k := if |c.notes| < 4 then |c.notes| else 4;
    // `melodyNotes[i % melodyNotes.length]` with `i < melodyNotes.length` is `melodyNotes[i]`.
    seq(k, i requires 0 <= i < k => Note(c.notes[i] + 12, start + MELODY_BEATS[i], 0.4, 85, 5))
  }

  /** A drum voice: its General MIDI note, and the length and velocity of every hit. */
  datatype DrumVoice = DrumVoice(note: int, duration: real, velocity: int)

  /** Notes `off`, `off + 1`, ... of `r` are voice `v` struck on the beats `f`, channel 9. */
  predicate VoiceAt(r: seq<Note>, off: nat, f: seq<real>, start: real, v: DrumVoice)
  {
    && off + |f| <= |r|
    && forall j :: 0 <= j < |f| ==> r[off + j] == Note(v.note, start + f[j], v.duration, v.velocity, 9)
  }

  /** One drum voice: each beat before beat 4, in pattern order, on channel 9. */
  function DrumHits(beats: seq<real>, start: real, note: int, duration: real, velocity: int): (r: seq<Note>)
    ensures |r| == Count(beats, InChord)
    ensures VoiceAt(r, 0, Filter(beats, InChord), start, DrumVoice(note, duration, velocity))
    ensures forall n :: n in r ==> exists b :: b in beats && InChord(b) && n == Note(note, start + b, duration, velocity, 9)
  {
    if |beats| == 0 then []
    else
      var rest := DrumHits(beats[1..], start, note, duration, velocity);
      forall n | n in rest
        ensures exists b :: b in beats && InChord(b) && n == Note(note, start + b, duration, velocity, 9)
      {
        var b :| b in beats[1..] && InChord(b) && n == Note(note, start + b, duration, velocity, 9);
        assert b in beats;
      }
      if InChord(beats[0]) then [Note(note, start + beats[0], duration, velocity, 9)] + rest
      else rest
  }

  lemma VoiceExtend(r: seq<Note>, post: seq<Note>, off: nat, f: seq<real>, start: real, v: DrumVoice)
    requires VoiceAt(r, off, f, start, v)
    ensures VoiceAt(r + post, off, f, start, v)
  {
    forall i | off <= i < off + |f|
      ensures (r + post)[i] == r[i]
    {
    }
  }

  lemma VoiceShift(pre: seq<Note>, w: seq<Note>, f: seq<real>, start: real, v: DrumVoice)
    requires VoiceAt(w, 0, f, start, v)
    ensures VoiceAt(pre + w, |pre|, f, start, v)
  {
    forall i | |pre| <= i < |pre| + |f|
      ensures (pre + w)[i] == w[i - |pre|]
    {
    }
  }

  /** Four voices played one after the other lie in four consecutive runs. */
  lemma FourVoices(k: seq<Note>, s: seq<Note>, h: seq<Note>, o: seq<Note>,
                   fk: seq<real>, fs: seq<real>, fh: seq<real>, fo: seq<real>,
                   start: real, vk: DrumVoice, vs: DrumVoice, vh: DrumVoice, vo: DrumVoice)
    requires VoiceAt(k, 0, fk, start, vk) && |k| == |fk|
    requires VoiceAt(s, 0, fs, start, vs) && |s| == |fs|
    requires VoiceAt(h, 0, fh, start, vh) && |h| == |fh|
    requires VoiceAt(o, 0, fo, start, vo) && |o| == |fo|
    ensures var r := k + s + h + o;
      && |r| == |fk| + |fs| + |fh| + |fo|
      && VoiceAt(r, 0, fk, start, vk)
      && VoiceAt(r, |fk|, fs, start, vs)
      && VoiceAt(r, |fk| + |fs|, fh, start, vh)
      && VoiceAt(r, |fk| + |fs| + |fh|, fo, start, vo)
  {
    VoiceExtend(k, s, 0, fk, start, vk);
    VoiceExtend(k + s, h, 0, fk, start, vk);
    VoiceExtend(k + s + h, o, 0, fk, start, vk);
    VoiceShift(k, s, fs, start, vs);
    VoiceExtend(k + s, h, |k|, fs, start, vs);
    VoiceExtend(k + s + h, o, |k|, fs, start, vs);
    VoiceShift(k + s, h, fh, start, vh);
    VoiceExtend(k + s + h, o, |k + s|, fh, start, vh);
    VoiceShift(k + s + h, o, fo, start, vo);
  }

  lemma OnChannel9(x: seq<Note>, y: seq<Note>)
    requires forall n :: n in x ==> n.channel == 9
    requires forall n :: n in y ==> n.channel == 9
    ensures forall n :: n in x + y ==> n.channel == 9
  {
  }

  /** Drums: kick (36), snare (38), closed hi-hat (42) and open hi-hat (46), every hit
      before beat 4 on channel 9. */
  function DrumNotes(d: DrumPattern, start: real): (r: seq<Note>)
    ensures |r| == Count(d.kick, InChord) + Count(d.snare, InChord) + Count(d.hihat, InChord)
                   + Count(d.openHat, InChord)
    ensures forall n :: n in r ==> n.channel == 9
  {
    var k := DrumHits(d.kick, start, 36, 0.25, 100);
    var s := DrumHits(d.snare, start, 38, 0.2, 90);
    var h := DrumHits(d.hihat, start, 42, 0.1, 65);
    var o := DrumHits(d.openHat, start, 46, 0.2, 60);
    OnChannel9(k, s);
    OnChannel9(k + s, h);
    OnChannel9(k + s + h, o);
    k + s + h + o
  }

  /** The drum notes are four consecutive runs: the in-chord kicks, then snares, closed
      hi-hats and open hi-hats, each voice in pattern order with its own duration and
      velocity. */
  lemma DrumNotesInOrder(d: DrumPattern, start: real)
    ensures var r := DrumNotes(d, start);
      var k, s, h, o := Filter(d.kick, InChord), Filter(d.snare, InChord), Filter(d.hihat, InChord),
                        Filter(d.openHat, InChord);
      && |r| == |k| + |s| + |h| + |o|
      && VoiceAt(r, 0, k, start, DrumVoice(36, 0.25, 100))
      && VoiceAt(r, |k|, s, start, DrumVoice(38, 0.2, 90))
      && VoiceAt(r, |k| + |s|, h, start, DrumVoice(42, 0.1, 65))
      && VoiceAt(r, |k| + |s| + |h|, o, start, DrumVoice(46, 0.2, 60))
  {
    FourVoices(DrumHits(d.kick, start, 36, 0.25, 100), DrumHits(d.snare, start, 38, 0.2, 90),
               DrumHits(d.hihat, start, 42, 0.1, 65), DrumHits(d.openHat, start, 46, 0.2, 60),
               Filter(d.kick, InChord), Filter(d.snare, InChord), Filter(d.hihat, InChord),
               Filter(d.openHat, InChord), start, DrumVoice(36, 0.25, 100), DrumVoice(38, 0.2, 90),
               DrumVoice(42, 0.1, 65), DrumVoice(46, 0.2, 60));
  }

  /** The notes part `p` plays over one chord starting at beat `start`. */
  function PartNotes(a: Arrangement, p: Part, c: ChordVoicing, start: real): (r: seq<Note>)
    ensures |r| == PartSize(a, p, c)
    ensures forall i :: 0 <= i < |r| ==> r[i].channel == PartChannel(p)
  {
    match p
    case Keys => KeysNotes(c, start)
    case Pad => PadNotes(c, start)
    case Strings => StringNotes(c, start)
    case Guitar => GuitarNotes(c, start)
    case Bass =>
      var r := BassNotes(c, start, a.bassPattern);
      assert forall i :: 0 <= i < |r| ==> r[i] in r;
      r
    case Melody => MelodyNotes(c, start)
    case Drums =>
      var r := DrumNotes(a.drumPattern, start);
      assert forall i :: 0 <= i < |r| ==> r[i] in r;
      r
  }

  /** How many notes part `p` plays over chord `c`, counted from the arrangement. */
  function PartSize(a: Arrangement, p: Part, c: ChordVoicing): nat
  {
    var d := a.drumPattern;
    match p
    case Keys => 2 * |c.notes|
    case Pad => |c.notes|
    case Strings => |c.notes|
    case Guitar => |c.notes|
    case Bass => Count(a.bassPattern, HitInChord)
    case Melody => if |c.notes| < 4 then |c.notes| else 4
    case Drums => Count(d.kick, InChord) + Count(d.snare, InChord) + Count(d.hihat, InChord) + Count(d.openHat, InChord)
  }

  function PartIfSelected(a: Arrangement, kind: string, p: Part, c: ChordVoicing, start: real): seq<Note>
  {
    if Selects(kind, p) then PartNotes(a, p, c, start) else []
  }

  const PARTS: seq<Part> := [Keys, Pad, Strings, Guitar, Bass, Melody, Drums]

  /** The notes the selected parts among `ps` play over one chord, in the order of `ps`. */
  function PartsNotes(a: Arrangement, kind: string, ps: seq<Part>, c: ChordVoicing, start: real): seq<Note>
  {
    if |ps| == 0 then [] else PartIfSelected(a, kind, ps[0], c, start) + PartsNotes(a, kind, ps[1..], c, start)
  }

  /** The notes of one chord: every selected part in turn. */
  function ChordNotes(a: Arrangement, kind: string, c: ChordVoicing, start: real): seq<Note>
  {
    PartsNotes(a, kind, PARTS, c, start)
  }

  /** The start beat of chord `i`. */
  function ChordStart(i: int): real
  {
    (i * BEATS_PER_CHORD) as real
  }

  /** The notes of chords `i`, `i + 1`, ... */
  function EventsFrom(a: Arrangement, kind: string, i: nat): seq<Note>
    decreases |a.chords| - i
  {
    if i >= |a.chords| then []
    else ChordNotes(a, kind, a.chords[i], ChordStart(i)) + EventsFrom(a, kind, i + 1)
  }

  /** `generateMidiEvents(arrangement, type)`.  The tempo is not used. */
  function GenerateMidiEvents(a: Arrangement, kind: string): seq<Note>
  {
    EventsFrom(a, kind, 0)
  }

  // ---------------------------------------------------------------- one part is one channel

  function OnChannel(ch: int): Note -> bool
  {
    (n: Note) => n.channel == ch
  }

  /** An export kind that names exactly one part. */
  predicate SingleKind(kind: string, p: Part)
  {
    kind != "full" && Selects(kind, p)
  }

  lemma SelectsOnly(kind: string, p: Part, q: Part)
    requires SingleKind(kind, p)
    ensures Selects(kind, q) <==> q == p
  {
  }

  /** Restricting a part's notes to the channel of part `p` keeps them when it is `p` and
      drops them otherwise: no two parts share a channel. */
  lemma PartFilter(a: Arrangement, p: Part, q: Part, c: ChordVoicing, start: real)
    ensures Filter(PartNotes(a, q, c, start), OnChannel(PartChannel(p)))
              == if q == p then PartNotes(a, p, c, start) else []
  {
    if q == p {
      FilterAll(PartNotes(a, q, c, start), OnChannel(PartChannel(p)));
    } else {
      FilterNone(PartNotes(a, q, c, start), OnChannel(PartChannel(p)));
    }
  }

  lemma {:induction false} PartsFilter(a: Arrangement, kind: string, p: Part, ps: seq<Part>, c: ChordVoicing, start: real)
    requires SingleKind(kind, p)
    ensures Filter(PartsNotes(a, "full", ps, c, start), OnChannel(PartChannel(p))) == PartsNotes(a, kind, ps, c, start)
    decreases |ps|
  {
    if |ps| > 0 {
      PartsFilter(a, kind, p, ps[1..], c, start);
      FilterAppend(PartNotes(a, ps[0], c, start), PartsNotes(a, "full", ps[1..], c, start), OnChannel(PartChannel(p)));
      PartFilter(a, p, ps[0], c, start);
      SelectsOnly(kind, p, ps[0]);
    }
  }

  lemma {:induction false} EventsFilter(a: Arrangement, kind: string, p: Part, i: nat)
    requires SingleKind(kind, p)
    ensures Filter(EventsFrom(a, "full", i), OnChannel(PartChannel(p))) == EventsFrom(a, kind, i)
    decreases |a.chords| - i
  {
    if i < |a.chords| {
      var c, start := a.chords[i], ChordStart(i);
      EventsFilter(a, kind, p, i + 1);
      FilterAppend(ChordNotes(a, "full", c, start), EventsFrom(a, "full", i + 1), OnChannel(PartChannel(p)));
      PartsFilter(a, kind, p, PARTS, c, start);
    }
  }

  /** Exporting one part gives exactly the full arrangement's notes on that part's channel,
      in the same order. */
  lemma SinglePartIsChannel(a: Arrangement, kind: string, p: Part)
    requires SingleKind(kind, p)
    ensures GenerateMidiEvents(a, kind) == Filter(GenerateMidiEvents(a, "full"), OnChannel(PartChannel(p)))
  {
    EventsFilter(a, kind, p, 0);
  }

  // ---------------------------------------------------------------- counts

  /** The notes part `p` plays over chords `i`, `i + 1`, ... */
  function PartTotal(a: Arrangement, p: Part, i: nat): nat
    decreases |a.chords| - i
  {
    if i >= |a.chords| then 0 else PartSize(a, p, a.chords[i]) + PartTotal(a, p, i + 1)
  }

  lemma {:induction false} PartsOfSingleKind(a: Arrangement, kind: string, p: Part, ps: seq<Part>, c: ChordVoicing, start: real)
    requires SingleKind(kind, p)
    ensures PartsNotes(a, kind, ps, c, start) == if p in ps then PartNotes(a, p, c, start) else []
    requires forall i, j :: 0 <= i < j < |ps| ==> ps[i] != ps[j]
    decreases |ps|
  {
    if |ps| > 0 {
      SelectsOnly(kind, p, ps[0]);
      PartsOfSingleKind(a, kind, p, ps[1..], c, start);
      if ps[0] == p {
        assert p !in ps[1..] by {
          forall j | 0 <= j < |ps[1..]|
            ensures ps[1..][j] != p
          {
            assert ps[1..][j] == ps[j + 1];
          }
        }
      }
    }
  }

  /** A single-part export holds, for every chord, exactly that part's notes. */
  lemma {:induction false} SinglePartCount(a: Arrangement, kind: string, p: Part, i: nat)
    requires SingleKind(kind, p)
    ensures |EventsFrom(a, kind, i)| == PartTotal(a, p, i)
    decreases |a.chords| - i
  {
    if i < |a.chords| {
      PartsOfSingleKind(a, kind, p, PARTS, a.chords[i], ChordStart(i));
      SinglePartCount(a, kind, p, i + 1);
    }
  }

  /** The number of chord notes from chord `i` on. */
  function NoteTotal(chords: seq<ChordVoicing>): nat
  {
    if |chords| == 0 then 0 else |chords[0].notes| + NoteTotal(chords[1..])
  }

  lemma {:induction false} KeysTotal(a: Arrangement, i: nat)
    requires i <= |a.chords|
    ensures PartTotal(a, Keys, i) == 2 * NoteTotal(a.chords[i..])
    decreases |a.chords| - i
  {
    if i < |a.chords| {
      KeysTotal(a, i + 1);
      assert a.chords[i..][1..] == a.chords[i + 1..];
    }
  }

  /** The "chords" (or "piano") export plays every chord twice: 2 notes per chord note. */
  lemma ChordsExportCount(a: Arrangement)
    ensures |GenerateMidiEvents(a, "chords")| == 2 * NoteTotal(a.chords)
  {
    SinglePartCount(a, "chords", Keys, 0);
    KeysTotal(a, 0);
    assert a.chords[0..] == a.chords;
  }

  /** A single-part export of one chord is exactly that part's notes. */
  lemma SingleChordNotes(a: Arrangement, kind: string, p: Part, c: ChordVoicing, start: real)
    requires SingleKind(kind, p)
    ensures ChordNotes(a, kind, c, start) == PartNotes(a, p, c, start)
  {
    PartsOfSingleKind(a, kind, p, PARTS, c, start);
  }

  /** The "chords" export of chord `i`: its notes at beat 4i, then again at beat 4i + 2,
      1.5 beats long, velocity 80, channel 0. */
  lemma ChordsExportNotes(a: Arrangement, i: nat)
    requires i < |a.chords|
    ensures var c := a.chords[i];
      ChordNotes(a, "chords", c, ChordStart(i)) == KeysNotes(c, (4 * i) as real)
  {
    SingleChordNotes(a, "chords", Keys, a.chords[i], ChordStart(i));
    assert PartNotes(a, Keys, a.chords[i], ChordStart(i)) == KeysNotes(a.chords[i], ChordStart(i));
    assert ChordStart(i) == (4 * i) as real;
  }

  /** The "drums" export of chord `i`: the pattern's in-chord hits from beat 4i, voice by
      voice as DrumNotes orders them. */
  lemma DrumsExportNotes(a: Arrangement, i: nat)
    requires i < |a.chords|
    ensures ChordNotes(a, "drums", a.chords[i], ChordStart(i)) == DrumNotes(a.drumPattern, (4 * i) as real)
  {
    SingleChordNotes(a, "drums", Drums, a.chords[i], ChordStart(i));
    assert PartNotes(a, Drums, a.chords[i], ChordStart(i)) == DrumNotes(a.drumPattern, ChordStart(i));
    assert ChordStart(i) == (4 * i) as real;
  }

  /** The "bass" export of chord `i`: one note per in-chord hit of the bass pattern, from
      beat 4i, in pattern order. */
  lemma BassExportNotes(a: Arrangement, i: nat)
    requires i < |a.chords|
    ensures ChordNotes(a, "bass", a.chords[i], ChordStart(i)) == BassNotes(a.chords[i], (4 * i) as real, a.bassPattern)
  {
    SingleChordNotes(a, "bass", Bass, a.chords[i], ChordStart(i));
    assert PartNotes(a, Bass, a.chords[i], ChordStart(i)) == BassNotes(a.chords[i], ChordStart(i), a.bassPattern);
    assert ChordStart(i) == (4 * i) as real;
  }

  lemma {:induction false} DrumsTotal(a: Arrangement, i: nat)
    requires i <= |a.chords|
    ensures PartTotal(a, Drums, i) == (|a.chords| - i) * PartSize(a, Drums, ChordVoicing([], 0))
    decreases |a.chords| - i
  {
    if i < |a.chords| {
      DrumsTotal(a, i + 1);
    }
  }

  /** The "drums" export: every chord gets the hits of the pattern that fall before beat 4. */
  lemma DrumsExportCount(a: Arrangement)
    ensures var d := a.drumPattern;
      |GenerateMidiEvents(a, "drums")|
        == |a.chords| * (Count(d.kick, InChord) + Count(d.snare, InChord) + Count(d.hihat, InChord) + Count(d.openHat, InChord))
  {
    SinglePartCount(a, "drums", Drums, 0);
    DrumsTotal(a, 0);
  }

  // ---------------------------------------------------------------- placement

  /** Pattern beats that are not negative. */
  predicate NonNegativeBeats(a: Arrangement)
  {
    var d := a.drumPattern;
    && (forall h :: h in a.bassPattern ==> h.beat >= 0.0)
    && (forall b :: b in d.kick ==> b >= 0.0)
    && (forall b :: b in d.snare ==> b >= 0.0)
    && (forall b :: b in d.hihat ==> b >= 0.0)
    && (forall b :: b in d.openHat ==> b >= 0.0)
  }

  lemma DrumWindow(d: DrumPattern, start: real, n: Note)
    requires forall b :: b in d.kick ==> b >= 0.0
    requires forall b :: b in d.snare ==> b >= 0.0
    requires forall b :: b in d.hihat ==> b >= 0.0
    requires forall b :: b in d.openHat ==> b >= 0.0
    requires n in DrumNotes(d, start)
    ensures start <= n.start < start + 4.0
  {
    var k, s, h, o :=
      DrumHits(d.kick, start, 36, 0.25, 100), DrumHits(d.snare, start, 38, 0.2, 90),
      DrumHits(d.hihat, start, 42, 0.1, 65), DrumHits(d.openHat, start, 46, 0.2, 60);
    assert n in k || n in s || n in h || n in o;
  }

  /** Every part but the guitar arpeggio sounds within its chord's four beats. */
  lemma PartWindow(a: Arrangement, p: Part, c: ChordVoicing, start: real)
    requires NonNegativeBeats(a)
    requires p != Guitar
    ensures forall n :: n in PartNotes(a, p, c, start) ==> start <= n.start < start + 4.0
  {
    var r := PartNotes(a, p, c, start);
    forall n | n in r
      ensures start <= n.start < start + 4.0
    {
      var j :| 0 <= j < |r| && r[j] == n;
      match p
      case Keys =>
        if j >= |c.notes| {
          assert r[|c.notes| + (j - |c.notes|)] == n;
        }
      case Drums =>
        DrumWindow(a.drumPattern, start, n);
      case _ =>
    }
  }

  /** The guitar arpeggio starts on the chord and spreads 0.15 beats per note. */
  lemma GuitarWindow(a: Arrangement, c: ChordVoicing, start: real)
    ensures forall n :: n in PartNotes(a, Guitar, c, start) ==>
              start <= n.start <= start + (|c.notes| - 1) as real * 0.15
  {
    var r := PartNotes(a, Guitar, c, start);
    forall n | n in r
      ensures start <= n.start <= start + (|c.notes| - 1) as real * 0.15
    {
      var j :| 0 <= j < |r| && r[j] == n;
    }
  }
}
