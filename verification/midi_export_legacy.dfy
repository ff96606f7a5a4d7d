/** The older Standard MIDI File writer of the repository's root `midiExport.js`.  It writes
    the same header and VLQ bytes as module `MidiExport`, but differs in the events: Set
    Tempo and the track name always come first, note events are sorted among themselves,
    the name is one code unit per code point, the default velocity is 100, and neither
    pitch, velocity nor channel is clamped or masked. */
module MidiExportLegacy {
  import opened Js
  import opened Smf
  import opened StableSort
  import opened MidiNotes
  import opened MidiExport
  import MidiEvents

  const DEFAULT_BPM: real := 90.0

  // ---------------------------------------------------------------- toVLQ

  /** `toVLQ(value)`, with its loop: the low seven bits, then while `(v >>= 7) > 0` the
      next group `(v & 0x7f) | 0x80` in front.  It writes the same bytes as `writeVLQ`. */
  method ToVlq(value: int) returns (bytes: seq<int>)
    ensures bytes == MidiExport.WriteVlq(value)
  {
    bytes := [And127(value)];
    var v := Shr(value, 7);
    while v > 0
      invariant -TWO_31 <= v < TWO_31
      invariant (if v > 0 then HighGroups(v) else []) + bytes == WriteVlq(value)
      decreases if v > 0 then v else 0
    {
      ShiftStep(v, bytes);
      // `x | 0x80` on a value below 0x80 adds 0x80.
      bytes := [And127(v) + 0x80] + bytes;
      v := Shr(v, 7);
    }
  }

  /** One turn of the loop moves the highest remaining group into the output. */
  lemma ShiftStep(v: int, bytes: seq<int>)
    requires 0 < v < TWO_31
    ensures 0 <= Shr(v, 7) < v
    ensures HighGroups(v) + bytes
              == (if Shr(v, 7) > 0 then HighGroups(Shr(v, 7)) else []) + ([And127(v) + 0x80] + bytes)
  {
    assert Shr(v, 7) == v / 128;
    assert And127(v) == v % 128;
    assert HighGroups(v) == HighGroups(v / 128) + [v % 128 + 128];
  }

  // ---------------------------------------------------------------- events

  /** The two events of one note, each as its tick and the message the delta loop later
      writes for it: `(type === 'on' ? 0x90 : 0x80) + channel`, the note, and the velocity
      (a missing or zero velocity is 100).  Nothing is clamped or masked. */
  function OnOff(n: Note): (r: seq<TimedEvent>)
    ensures |r| == 2 && IsNoteOn(r[0]) == (0 <= n.channel < 16) == IsNoteOff(r[1])
    ensures r[0].time == Ticks(n.start) && r[1].time == Ticks(n.start) + Ticks(n.duration)
    ensures r[0].data == [0x90 + n.channel, n.note, if n.velocity == 0 then 100 else n.velocity]
    ensures r[1].data == [0x80 + n.channel, n.note, 0]
  {
    var startTick := Ticks(n.start);
    [TimedEvent(startTick, [0x90 + n.channel, n.note, if n.velocity == 0 then 100 else n.velocity]),
     TimedEvent(startTick + Ticks(n.duration), [0x80 + n.channel, n.note, 0])]
  }

  /** Notes sorted by start, two events each, then all note events sorted by tick. */
  function NoteEvents(notes: seq<Note>): (r: seq<TimedEvent>)
    ensures |r| == 2 * |notes|
    ensures multiset(r) == multiset(FlatMap(SortBy(notes, StartOf), OnOff))
  {
    FlatMapLength(SortBy(notes, StartOf), OnOff, 2);
    SortBy(FlatMap(SortBy(notes, StartOf), OnOff), TimeOf)
  }

  /** The call that leaves out `bpm` writes tempo 90: round(666666.67) = 666667
      microseconds per beat, 0A 2C 2B. */
  lemma DefaultTempo()
    ensures MidiExport.TempoData(DEFAULT_BPM) == [0xFF, 0x51, 0x03, 0x0A, 0x2C, 0x2B]
  {
    assert Round(60000000.0 / DEFAULT_BPM) == 666667;
    assert Shr(666667, 16) == 0x0A;
    assert Shr(666667, 8) == 0x0A2C;
  }

  /** `[0xff, 0x03, nameBytes.length, ...nameBytes]` with the first UTF-16 unit of every
      code point. */
  function NameData(name: string): (r: seq<int>)
    ensures |r| == 3 + |name| && r[..3] == [0xFF, 0x03, |name|] && r[3..] == FirstUnits(name)
  {
    [0xFF, 0x03, |name|] + FirstUnits(name)
  }

  /** The meta events, pushed before any note event. */
  function MetaEvents(bpm: real, name: string): seq<TimedEvent>
  {
    [TimedEvent(0, MidiExport.TempoData(bpm)), TimedEvent(0, NameData(name))]
  }

  /** The track's events: tempo and name at delta 0, the note events with deltas counted
      from `lastTick = 0` among note events only, then End of Track at delta 0. */
  function TrackEvents(notes: seq<Note>, bpm: real, name: string): (r: seq<TrackEvent>)
    ensures |r| == 3 + 2 * |notes|
  {
    [TrackEvent(0, MidiExport.TempoData(bpm)), TrackEvent(0, NameData(name))]
    + ToDeltas(NoteEvents(notes), 0)
    + [TrackEvent(0, END_OF_TRACK)]
  }

  function TrackData(notes: seq<Note>, bpm: real, name: string): seq<int>
  {
    Serialize(TrackEvents(notes, bpm, name))
  }

  /** The hard-coded header chunk and the "MTrk" tag; the division is written as
      `(480 >> 8) & 0xff, 480 & 0xff`. */
  function HeaderAndTag(): seq<int>
  {
    [0x4D, 0x54, 0x68, 0x64, 0x00, 0x00, 0x00, 0x06, 0x00, 0x00, 0x00, 0x01,
     And255(Shr(TICKS_PER_BEAT, 8)), And255(TICKS_PER_BEAT),
     0x4D, 0x54, 0x72, 0x6B]
  }

  /** `createMidiFile(notes, bpm, name)`, where left-out arguments are `bpm` 90
      (DEFAULT_BPM) and the name "rnb_progression": the literal header, the track length written as
      four shifted bytes, and the track data, stored into a Uint8Array. */
  function CreateMidiFile(notes: seq<Note>, bpm: real, name: string): seq<int>
  {
    var track := TrackData(notes, bpm, name);
    ToUint8Seq(HeaderAndTag() + Write32(|track|) + track)
  }

  // ---------------------------------------------------------------- layout

  /** The literal header is the header chunk and tag the newer writer composes. */
  lemma HeaderAndTagBytes()
    ensures HeaderAndTag() == MTHD + [0, 0, 0, 6, 0, 0, 0, 1, 0x01, 0xE0] + MTRK
  {
    assert And255(Shr(TICKS_PER_BEAT, 8)) == 1;
    assert And255(TICKS_PER_BEAT) == 0xE0;
  }

  /** The legacy file is the newer writer's file layout around the legacy track. */
  lemma SameLayout(notes: seq<Note>, bpm: real, name: string)
    ensures CreateMidiFile(notes, bpm, name) == FileOf(TrackData(notes, bpm, name))
  {
    var track := TrackData(notes, bpm, name);
    HeaderAndTagBytes();
    StoredChunks(track);
    HeaderBytes();
    ChunkNames();
  }

  // ---------------------------------------------------------------- reading back

  /** All events in push order with absolute ticks: the meta events, then the note events. */
  function Timed(notes: seq<Note>, bpm: real, name: string): (r: seq<TimedEvent>)
    ensures |r| == 2 + 2 * |notes|
  {
    MetaEvents(bpm, name) + NoteEvents(notes)
  }

  /** Counting note deltas from tick 0 after two meta events at tick 0 is the same as
      counting deltas over all events. */
  lemma TrackEventsAsDeltas(notes: seq<Note>, bpm: real, name: string)
    ensures TrackEvents(notes, bpm, name) == ToDeltas(Timed(notes, bpm, name), 0) + [TrackEvent(0, END_OF_TRACK)]
  {
    var meta := MetaEvents(bpm, name);
    MetaDeltas(meta[0], meta[1], NoteEvents(notes));
  }

  lemma MetaDeltas(a: TimedEvent, b: TimedEvent, rest: seq<TimedEvent>)
    requires a.time == 0 && b.time == 0
    ensures ToDeltas([a, b] + rest, 0) == [TrackEvent(0, a.data), TrackEvent(0, b.data)] + ToDeltas(rest, 0)
  {
    var t := [a, b] + rest;
    assert t[1..][1..] == rest;
  }

  lemma {:induction false} SerializeAppend(a: seq<TrackEvent>, b: seq<TrackEvent>)
    ensures Serialize(a + b) == Serialize(a) + Serialize(b)
    decreases |a|
  {
    if |a| == 0 {
      assert a + b == b;
    } else {
      var head := WriteVlq(a[0].delta) + a[0].data;
      assert Serialize(a + b) == head + Serialize(a[1..] + b) by {
        TailOfConcat(a, b);
      }
      SerializeAppend(a[1..], b);
      Append3(head, Serialize(a[1..]), Serialize(b));
    }
  }

  /** Appending End of Track at delta 0 appends its four bytes. */
  lemma SerializeClosed(ds: seq<TrackEvent>)
    ensures Serialize(ds + [TrackEvent(0, END_OF_TRACK)]) == Serialize(ds) + WriteVlq(0) + [0xFF, 0x2F, 0x00]
  {
    var eot := [TrackEvent(0, END_OF_TRACK)];
    var closing := WriteVlq(0) + [0xFF, 0x2F, 0x00];
    SerializeAppend(ds, eot);
    assert Serialize(eot) == closing by {
      assert eot[1..] == [];
      assert WriteVlq(0) == [0];
    }
    Append3(Serialize(ds), WriteVlq(0), [0xFF, 0x2F, 0x00]);
  }

  /** The legacy track is the delta-encoded events closed by delta 0 and End of Track. */
  lemma TrackDataAsDeltas(notes: seq<Note>, bpm: real, name: string)
    ensures TrackData(notes, bpm, name)
              == Serialize(ToDeltas(Timed(notes, bpm, name), 0)) + WriteVlq(0) + [0xFF, 0x2F, 0x00]
  {
    TrackEventsAsDeltas(notes, bpm, name);
    SerializeClosed(ToDeltas(Timed(notes, bpm, name), 0));
  }

  /** A note the legacy writer stores as a Note-On and a Note-Off: nothing is masked, so
      the channel, pitch and velocity must already fit. */
  predicate Playable(n: Note)
  {
    TicksInRange(n) && 0 <= n.channel < 16 && 0 <= n.note < 128 && 0 <= n.velocity < 128
  }

  lemma OnOffStorable(n: Note)
    requires Playable(n)
    ensures Storable(OnOff(n)[0]) && Storable(OnOff(n)[1])
  {
    var r := OnOff(n);
    assert DataBytes(r[0].data[1..]);
    assert DataBytes(r[1].data[1..]);
  }

  lemma LegacyNameStorable(name: string)
    requires |name| < 128
    ensures Storable(TimedEvent(0, NameData(name)))
  {
    var prefix := [0xFF, 0x03, |name|];
    assert NameData(name) == prefix + FirstUnits(name);
    ToUint8SeqOfBytesPrefix(prefix, FirstUnits(name));
    var d := ToUint8Seq(NameData(name));
    assert d[0] == 0xFF && d[1] == 0x03 && d[2] == |name|;
    assert d != END_OF_TRACK;
  }

  /** The note events come out in tick order and the reader can take each of them. */
  lemma NoteEventsStorable(notes: seq<Note>)
    requires forall n :: n in notes ==> Playable(n)
    ensures var es := NoteEvents(notes);
      Sorted(es, TimeOf) && forall i :: 0 <= i < |es| ==> Storable(es[i])
  {
    var flat := FlatMap(SortBy(notes, StartOf), OnOff);
    forall n, e | n in notes && e in OnOff(n)
      ensures Storable(e)
    {
      var r := OnOff(n);
      OnOffStorable(n);
      assert e == r[0] || e == r[1];
    }
    FlatMapSortByAll(notes, StartOf, OnOff, Storable);
    SortBySorted(flat, TimeOf);
    var es := NoteEvents(notes);
    forall i | 0 <= i < |es|
      ensures Storable(es[i])
    {
      assert es[i] in multiset(flat);
    }
  }

  /** Both meta events sit at tick 0 in front of note events at non-negative ticks. */
  lemma TimedStorable(notes: seq<Note>, bpm: real, name: string)
    requires |name| < 128
    requires forall n :: n in notes ==> Playable(n)
    ensures var es := Timed(notes, bpm, name);
      Sorted(es, TimeOf) && forall i :: 0 <= i < |es| ==> Storable(es[i])
  {
    TempoStorable(bpm);
    LegacyNameStorable(name);
    NoteEventsStorable(notes);
    StorableAfterMeta(MetaEvents(bpm, name), NoteEvents(notes));
  }

  /** Events at tick 0 in front of sorted storable events keep the whole sorted. */
  lemma StorableAfterMeta(meta: seq<TimedEvent>, es: seq<TimedEvent>)
    requires forall i :: 0 <= i < |meta| ==> meta[i].time == 0 && Storable(meta[i])
    requires Sorted(es, TimeOf) && forall i :: 0 <= i < |es| ==> Storable(es[i])
    ensures Sorted(meta + es, TimeOf) && forall i :: 0 <= i < |meta + es| ==> Storable((meta + es)[i])
  {
    var all := meta + es;
    forall i, j | 0 <= i < j < |all|
      ensures TimeOf(all[i]) <= TimeOf(all[j])
    {
      if i >= |meta| {
        assert all[i] == es[i - |meta|] && all[j] == es[j - |meta|];
      } else if j >= |meta| {
        assert all[j] == es[j - |meta|];
      }
    }
  }

  /** Reading the legacy file back: format 0, one track, 480 ticks per beat, Set Tempo and
      the name first, and every event's stored message at its absolute tick. */
  lemma CreateMidiFileRoundTrip(notes: seq<Note>, bpm: real, name: string)
    requires |notes| < 0x10_0000
    requires |name| < 128
    requires forall n :: n in notes ==> Playable(n)
    ensures var es := Timed(notes, bpm, name);
      && ParseFile(CreateMidiFile(notes, bpm, name)).Some?
      && var f := ParseFile(CreateMidiFile(notes, bpm, name)).value;
      && f.format == 0 && f.tracks == 1 && f.division == 480
      && |f.events| == 2 + 2 * |notes|
      && f.events[0] == TrackEvent(0, TempoData(bpm))
      && f.events[1] == TrackEvent(0, ToUint8Seq(NameData(name)))
      && forall i :: 0 <= i < |es| ==>
           f.events[i].data == ToUint8Seq(es[i].data) && AbsoluteTick(f.events, i) == es[i].time
  {
    var es := Timed(notes, bpm, name);
    SameLayout(notes, bpm, name);
    TrackDataAsDeltas(notes, bpm, name);
    TimedStorable(notes, bpm, name);
    ParseSortedTrack(es);
    var f := ParseFile(CreateMidiFile(notes, bpm, name)).value;
    assert AbsoluteTick(f.events, 0) == f.events[0].delta;
    assert AbsoluteTick(f.events, 1) == f.events[0].delta + f.events[1].delta;
  }

  /** One Note-On and one Note-Off per note, on channels the status byte can carry. */
  lemma NoteEventCounts(notes: seq<Note>)
    requires forall n :: n in notes ==> 0 <= n.channel < 16
    ensures Count(NoteEvents(notes), IsNoteOn) == |notes|
    ensures Count(NoteEvents(notes), IsNoteOff) == |notes|
  {
    var sorted := SortBy(notes, StartOf);
    forall n | n in sorted
      ensures 0 <= n.channel < 16
    {
      assert n in multiset(notes);
    }
    CountSortBy(FlatMap(sorted, OnOff), TimeOf, IsNoteOn);
    CountSortBy(FlatMap(sorted, OnOff), TimeOf, IsNoteOff);
    CountOnOffPairs(sorted, IsNoteOn);
    CountOnOffPairs(sorted, IsNoteOff);
  }

  lemma {:induction false} CountOnOffPairs(s: seq<Note>, p: TimedEvent -> bool)
    requires forall n :: n in s ==> 0 <= n.channel < 16
    requires p == IsNoteOn || p == IsNoteOff
    ensures Count(FlatMap(s, OnOff), p) == |s|
    decreases |s|
  {
    if |s| > 0 {
      var pair := OnOff(s[0]);
      assert s[0] in s;
      CountOnOffPairs(s[1..], p);
      CountAppend(pair, FlatMap(s[1..], OnOff), p);
      assert pair[1..][1..] == [];
    }
  }

  // ---------------------------------------------------------------- note builders

  /** The fields of a chord the builders read. */
  datatype ChordTones = ChordTones(root: int, midiNotes: seq<int>)

  /** A melody per chord; a missing `rhythm` is `None`. */
  datatype MelodyLine = MelodyLine(notes: seq<int>, rhythm: Option<seq<real>>)

  /** `chordIndex * beatsPerChord` */
  function StartBeat(i: nat, beatsPerChord: real): real
  {
    i as real * beatsPerChord
  }

  /** Each chord's notes. */
  function Tones(chords: seq<ChordTones>): (r: seq<seq<int>>)
    ensures |r| == |chords| && forall i :: 0 <= i < |chords| ==> r[i] == chords[i].midiNotes
  {
    seq(|chords|, i requires 0 <= i < |chords| => chords[i].midiNotes)
  }

  /** The notes of all chords. */
  function ToneCount(chords: seq<ChordTones>): nat
  {
    Total(Tones(chords))
  }

  /** One chord: every note at the chord's start, held a quarter beat short of the chord. */
  function ChordBlock(c: ChordTones, startBeat: real, beatsPerChord: real, velocity: int): (r: seq<Note>)
    ensures |r| == |c.midiNotes|
    ensures forall j :: 0 <= j < |r| ==> r[j] == Note(c.midiNotes[j], startBeat, beatsPerChord - 0.25, velocity, 0)
  {
    seq(|c.midiNotes|, j requires 0 <= j < |c.midiNotes| =>
      Note(c.midiNotes[j], startBeat, beatsPerChord - 0.25, velocity, 0))
  }

  function ChordBlocks(chords: seq<ChordTones>, beatsPerChord: real, velocity: int): (r: seq<seq<Note>>)
    ensures |r| == |chords|
    ensures forall i :: 0 <= i < |chords| ==> r[i] == ChordBlock(chords[i], StartBeat(i, beatsPerChord), beatsPerChord, velocity)
  {
    seq(|chords|, i requires 0 <= i < |chords| =>
      ChordBlock(chords[i], StartBeat(i, beatsPerChord), beatsPerChord, velocity))
  }

  /** `generateChordMidiNotes(chords, beatsPerChord, velocity)` */
  function ChordMidiNotes(chords: seq<ChordTones>, beatsPerChord: real, velocity: int): (r: seq<Note>)
    ensures |r| == ToneCount(chords)
  {
    var blocks := ChordBlocks(chords, beatsPerChord, velocity);
    TotalSameSizes(blocks, Tones(chords));
    Concat(blocks)
  }

  /** Chord `i`'s notes follow the notes of the chords before it, at beat
      `i * beatsPerChord`, on channel 0. */
  lemma ChordNotesPlaced(chords: seq<ChordTones>, beatsPerChord: real, velocity: int, i: nat, j: nat)
    requires i < |chords| && j < |chords[i].midiNotes|
    ensures var r, at := ChordMidiNotes(chords, beatsPerChord, velocity), ToneCount(chords[..i]);
      && at + j < |r|
      && r[at + j] == Note(chords[i].midiNotes[j], StartBeat(i, beatsPerChord), beatsPerChord - 0.25, velocity, 0)
  {
    var blocks := ChordBlocks(chords, beatsPerChord, velocity);
    ConcatAt(blocks, i, j);
    TotalSameSizes(blocks[..i], Tones(chords[..i]));
  }

  /** `rhythm[i] || i * 0.5`: a missing or zero offset is replaced by half a beat per note. */
  function Offset(rhythm: seq<real>, i: nat): (r: real)
    ensures i < |rhythm| && rhythm[i] != 0.0 ==> r == rhythm[i]
    ensures !(i < |rhythm| && rhythm[i] != 0.0) ==> r == i as real * 0.5
  {
    if i < |rhythm| && rhythm[i] != 0.0 then rhythm[i] else i as real * 0.5
  }

  const DEFAULT_RHYTHM: seq<real> := [0.0, 0.5, 1.0, 1.5, 2.0]

  /** The default rhythm changes nothing: every offset is half a beat per note anyway. */
  lemma DefaultRhythmOffsets(i: nat)
    ensures Offset(DEFAULT_RHYTHM, i) == i as real * 0.5
  {
  }

  function MelodyBlock(m: MelodyLine, startBeat: real, velocity: int): (r: seq<Note>)
    ensures |r| == |m.notes|
    ensures forall j :: 0 <= j < |r| ==>
      r[j] == Note(m.notes[j], startBeat + Offset(if m.rhythm.Some? then m.rhythm.value else DEFAULT_RHYTHM, j), 0.4, velocity, 1)
  {
    var rhythm := if m.rhythm.Some? then m.rhythm.value else DEFAULT_RHYTHM;
    seq(|m.notes|, j requires 0 <= j < |m.notes| =>
      Note(m.notes[j], startBeat + Offset(rhythm, j), 0.4, velocity, 1))
  }

  function MelodyBlocks(melodies: seq<MelodyLine>, beatsPerChord: real, velocity: int): (r: seq<seq<Note>>)
    ensures |r| == |melodies|
    ensures forall i :: 0 <= i < |melodies| ==> r[i] == MelodyBlock(melodies[i], StartBeat(i, beatsPerChord), velocity)
  {
    seq(|melodies|, i requires 0 <= i < |melodies| =>
      MelodyBlock(melodies[i], StartBeat(i, beatsPerChord), velocity))
  }

  /** Each melody's notes. */
  function Lines(melodies: seq<MelodyLine>): (r: seq<seq<int>>)
    ensures |r| == |melodies| && forall i :: 0 <= i < |melodies| ==> r[i] == melodies[i].notes
  {
    seq(|melodies|, i requires 0 <= i < |melodies| => melodies[i].notes)
  }

  /** The notes of all melodies. */
  function MelodyCount(melodies: seq<MelodyLine>): nat
  {
    Total(Lines(melodies))
  }

  /** `generateMelodyMidiNotes(melodies, beatsPerChord, velocity)` */
  function MelodyMidiNotes(melodies: seq<MelodyLine>, beatsPerChord: real, velocity: int): (r: seq<Note>)
    ensures |r| == MelodyCount(melodies)
  {
    var blocks := MelodyBlocks(melodies, beatsPerChord, velocity);
    TotalSameSizes(blocks, Lines(melodies));
    Concat(blocks)
  }

  /** Melody `i`'s notes follow the notes of the melodies before it, each at its offset
      from beat `i * beatsPerChord`, for 0.4 beats on channel 1; without a rhythm the
      offset is half a beat per note. */
  lemma MelodyNotesPlaced(melodies: seq<MelodyLine>, beatsPerChord: real, velocity: int, i: nat, j: nat)
    requires i < |melodies| && j < |melodies[i].notes|
    ensures var r, at := MelodyMidiNotes(melodies, beatsPerChord, velocity), MelodyCount(melodies[..i]);
      var m := melodies[i];
      && at + j < |r|
      && r[at + j] == Note(m.notes[j],
                           StartBeat(i, beatsPerChord)
                           + (if m.rhythm.Some? then Offset(m.rhythm.value, j) else j as real * 0.5),
                           0.4, velocity, 1)
  {
    var blocks := MelodyBlocks(melodies, beatsPerChord, velocity);
    ConcatAt(blocks, i, j);
    TotalSameSizes(blocks[..i], Lines(melodies[..i]));
    DefaultRhythmOffsets(j);
  }

  /** Root two octaves up on the chord's first beat, and seven semitones above it two
      beats later. */
  function BassPair(c: ChordTones, startBeat: real): (r: seq<Note>)
    ensures |r| == 2
  {
    [Note(c.root + 36, startBeat, 1.5, 100, 2), Note(c.root + 36 + 7, startBeat + 2.0, 1.5, 90, 2)]
  }

  function BassBlocks(chords: seq<ChordTones>, beatsPerChord: real): (r: seq<seq<Note>>)
    ensures |r| == |chords|
    ensures forall i :: 0 <= i < |chords| ==> r[i] == BassPair(chords[i], StartBeat(i, beatsPerChord))
  {
    seq(|chords|, i requires 0 <= i < |chords| => BassPair(chords[i], StartBeat(i, beatsPerChord)))
  }

  /** `generateBassMidiNotes(chords, beatsPerChord)` */
  function BassMidiNotes(chords: seq<ChordTones>, beatsPerChord: real): seq<Note>
  {
    Concat(BassBlocks(chords, beatsPerChord))
  }

  /** Exactly two bass notes per chord: `root + 36` on its first beat and `root + 43` two
      beats later, both 1.5 beats on channel 2. */
  lemma BassNotesPlaced(chords: seq<ChordTones>, beatsPerChord: real, i: nat)
    requires i < |chords|
    ensures var r := BassMidiNotes(chords, beatsPerChord);
      && |r| == 2 * |chords|
      && 2 * i + 1 < |r|
      && r[2 * i] == Note(chords[i].root + 36, StartBeat(i, beatsPerChord), 1.5, 100, 2)
      && r[2 * i + 1] == Note(chords[i].root + 43, StartBeat(i, beatsPerChord) + 2.0, 1.5, 90, 2)
  {
    var blocks := BassBlocks(chords, beatsPerChord);
    var r := Concat(blocks);
    ConcatUniformBlock(blocks, 2, i);
    assert r[2 * i] == r[2 * i..2 * i + 2][0];
    assert r[2 * i + 1] == r[2 * i..2 * i + 2][1];
  }

  /** The notes of one drum instrument in one bar, on channel 9; no beat is dropped. */
  function Hits(beats: seq<real>, barStart: real, note: int, duration: real, velocity: int): (r: seq<Note>)
    ensures |r| == |beats|
    ensures forall j :: 0 <= j < |r| ==> r[j] == Note(note, barStart + beats[j], duration, velocity, 9)
  {
    seq(|beats|, j requires 0 <= j < |beats| => Note(note, barStart + beats[j], duration, velocity, 9))
  }

  /** A drum pattern as `generateDrumMidiNotes` reads it.  The open hi-hat list may be
      absent; unlike the newer exporter, this one calls `openHat.forEach` without checking. */
  datatype DrumPattern = DrumPattern(kick: seq<real>, snare: seq<real>, hihat: seq<real>, openHat: Option<seq<real>>)

  /** One bar: the kicks (36), snares (38), closed hi-hats (42) and open hi-hats (46), each
      voice in pattern order with its own duration and velocity.  `None` when the open
      hi-hat list is absent, where the bar throws after pushing the other three voices. */
  function BarHits(p: DrumPattern, barStart: real): (r: Option<seq<Note>>)
    ensures r.Some? <==> p.openHat.Some?
    ensures r.Some? ==>
      var k, s, h := |p.kick|, |p.snare|, |p.hihat|;
      && |r.value| == BarSize(p) == k + s + h + |p.openHat.value|
      && MidiEvents.VoiceAt(r.value, 0, p.kick, barStart, MidiEvents.DrumVoice(36, 0.25, 100))
      && MidiEvents.VoiceAt(r.value, k, p.snare, barStart, MidiEvents.DrumVoice(38, 0.25, 90))
      && MidiEvents.VoiceAt(r.value, k + s, p.hihat, barStart, MidiEvents.DrumVoice(42, 0.1, 60))
      && MidiEvents.VoiceAt(r.value, k + s + h, p.openHat.value, barStart, MidiEvents.DrumVoice(46, 0.2, 70))
  {
    match p.openHat
    case None => None
    case Some(open) =>
      var k := Hits(p.kick, barStart, 36, 0.25, 100);
      var s := Hits(p.snare, barStart, 38, 0.25, 90);
      var h := Hits(p.hihat, barStart, 42, 0.1, 60);
      var o := Hits(open, barStart, 46, 0.2, 70);
      MidiEvents.FourVoices(k, s, h, o, p.kick, p.snare, p.hihat, open, barStart,
                            MidiEvents.DrumVoice(36, 0.25, 100), MidiEvents.DrumVoice(38, 0.25, 90),
                            MidiEvents.DrumVoice(42, 0.1, 60), MidiEvents.DrumVoice(46, 0.2, 70));
      Some(k + s + h + o)
  }

  /** The notes of one complete bar. */
  function BarSize(p: DrumPattern): nat
  {
    |p.kick| + |p.snare| + |p.hihat| + (if p.openHat.Some? then |p.openHat.value| else 0)
  }

  function BarsOf(p: DrumPattern, bars: int): (r: seq<seq<Note>>)
    requires bars > 0 ==> p.openHat.Some?
    ensures |r| == if bars > 0 then bars else 0
    ensures forall b :: 0 <= b < |r| ==> BarHits(p, (4 * b) as real) == Some(r[b])
  {
    seq(if bars > 0 then bars else 0, b requires 0 <= b && p.openHat.Some? => BarHits(p, (4 * b) as real).value)
  }

  /** `generateDrumMidiNotes(pattern, bars)`: the pattern repeated `bars` times, four beats
      apart; a non-positive `bars` gives no notes, and a pattern without an open hi-hat list
      throws in the first bar. */
  function DrumMidiNotes(p: DrumPattern, bars: int): (r: Option<seq<Note>>)
    ensures r.None? <==> bars > 0 && p.openHat.None?
    ensures r.Some? && bars <= 0 ==> r.value == []
  {
    if bars > 0 && p.openHat.None? then None else Some(Concat(BarsOf(p, bars)))
  }

  /** Every bar holds the whole pattern shifted by four beats per bar. */
  lemma DrumNotesPlaced(p: DrumPattern, bars: int, b: nat)
    requires b < bars && p.openHat.Some?
    ensures var r, size := DrumMidiNotes(p, bars), BarSize(p);
      && r.Some? && |r.value| == bars * size
      && size * b + size <= |r.value|
      && BarHits(p, (4 * b) as real) == Some(r.value[size * b..size * b + size])
  {
    ConcatUniformBlock(BarsOf(p, bars), BarSize(p), b);
  }

  /** All drum notes are on channel 9. */
  lemma DrumChannel(p: DrumPattern, bars: int)
    ensures var r := DrumMidiNotes(p, bars);
      r.Some? ==> forall n :: n in r.value ==> n.channel == 9
  {
    if DrumMidiNotes(p, bars).Some? {
      var blocks := BarsOf(p, bars);
      forall n: Note | n in Concat(blocks)
        ensures n.channel == 9
      {
        ConcatMember(blocks, n);
        var b :| 0 <= b < |blocks| && n in blocks[b];
        var j :| 0 <= j < |blocks[b]| && blocks[b][j] == n;
        var k, s, h := |p.kick|, |p.snare|, |p.hihat|;
        if j >= k + s + h {
          assert blocks[b][k + s + h + (j - k - s - h)] == n;
        } else if j >= k + s {
          assert blocks[b][k + s + (j - k - s)] == n;
        } else if j >= k {
          assert blocks[b][k + (j - k)] == n;
        }
      }
    }
  }
}
