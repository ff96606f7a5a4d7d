/** The Standard MIDI File writer of `src/midiExport.js`: a format-0 file with one track
    holding a Set Tempo event, a Sequence/Track Name event, a Note-On and a Note-Off per
    note, and End of Track.  Its partner is the independent reader in module `Smf`. */
module MidiExport {
  import opened Js
  import opened Smf
  import opened StableSort
  import opened MidiNotes

  const DEFAULT_BPM: real := 80.0

  // ---------------------------------------------------------------- byte writers

  /** The bytes `writeVLQ`'s loop puts in front of the last group, for a non-negative
      32-bit value `u` already shifted right by seven: `(u & 0x7F) | 0x80` per group. */
  function HighGroups(u: int): (r: seq<int>)
    requires u >= 0
    ensures forall i :: 0 <= i < |r| ==> 128 <= r[i] < 256
    ensures VlqValue(r) == u
    ensures |r| == 0 <==> u == 0
    decreases u
  {
    if u == 0 then []
    else
      var high := HighGroups(u / 128);
      VlqValueSnoc(high, u % 128 + 128);
      high + [u % 128 + 128]
  }

  /** Seven bits per group: a value below 2^28 needs at most four groups. */
  lemma HighGroupsLength(u: int)
    ensures 0 <= u < 0x1000_0000 ==> |HighGroups(u)| <= 4
  {
    if 0 <= u < 0x1000_0000 {
      var u1 := u / 128;
      var u2 := u1 / 128;
      var u3 := u2 / 128;
      HighGroupsStep(u);
      HighGroupsStep(u1);
      HighGroupsStep(u2);
      HighGroupsStep(u3);
      assert u3 / 128 == 0;
    }
  }

  lemma HighGroupsStep(u: int)
    requires u >= 0
    ensures |HighGroups(u)| <= 1 + |HighGroups(u / 128)|
  {
  }

  /** `writeVLQ(value)`: the low seven bits last, then while `(v >>= 7) > 0` the next
      group with the continuation bit in front.  The shift is the 32-bit `>>`, so a value
      of 2^31 or more (negative as a 32-bit integer) is written as its low seven bits. */
  function WriteVlq(value: int): (r: seq<int>)
    ensures IsVlq(r)
    ensures |r| <= 5
    ensures 0 <= value < TWO_31 ==> VlqValue(r) == value
    ensures 0 <= value < 0x80 ==> r == [value]
    ensures 0x80 <= value < TWO_31 ==> |r| >= 2
  {
    var w := Shr(value, 7);
    var high := if w > 0 then HighGroups(w) else [];
    HighGroupsLength(w);
    VlqValueSnoc(high, And127(value));
    high + [And127(value)]
  }

  /** `writeString(str)`: the UTF-16 code units, as `charCodeAt` enumerates them. */
  function WriteString(s: string): (r: seq<int>)
    ensures forall i :: 0 <= i < |r| ==> 0 <= r[i] < 0x1_0000
    ensures (forall i :: 0 <= i < |s| ==> s[i] as int < 0x1_0000) ==>
              |r| == |s| && forall i :: 0 <= i < |s| ==> r[i] == s[i] as int
  {
    BmpUnits(s);
    Utf16Units(s)
  }

  /** A string of Basic Multilingual Plane characters has one code unit per character. */
  lemma {:induction false} BmpUnits(s: string)
    ensures (forall i :: 0 <= i < |s| ==> s[i] as int < 0x1_0000) ==>
              |Utf16Units(s)| == |s| && forall i :: 0 <= i < |s| ==> Utf16Units(s)[i] == s[i] as int
    decreases |s|
  {
    if |s| > 0 && forall i :: 0 <= i < |s| ==> s[i] as int < 0x1_0000 {
      BmpUnits(s[1..]);
      assert forall i :: 0 <= i < |s[1..]| ==> s[1..][i] as int < 0x1_0000;
    }
  }

  /** `write16(value)`: two bytes, big-endian. */
  function Write16(value: int): (r: seq<int>)
    ensures |r| == 2 && AllBytes(r)
    ensures BigEndian(r) == value % 0x1_0000
  {
    SplitBytes(ToInt32(value));
    Mod256OfInt32(value);
    Int32LowBits(value);
    var r := [And255(Shr(value, 8)), And255(value)];
    BigEndianOf(r[0], r[1], 0, 0);
    r
  }

  /** `write32(value)`: four bytes, big-endian. */
  function Write32(value: int): (r: seq<int>)
    ensures |r| == 4 && AllBytes(r)
    ensures BigEndian(r) == value % TWO_32
  {
    SplitBytes(ToInt32(value));
    Mod256OfInt32(value);
    var r := [And255(Shr(value, 24)), And255(Shr(value, 16)), And255(Shr(value, 8)), And255(value)];
    BigEndianOf(r[0], r[1], r[2], r[3]);
    r
  }

  /** The bytes of a 32-bit value, lowest first, reassemble to its residue. */
  lemma SplitBytes(t: int)
    ensures (t / 0x100) % 256 * 0x100 + t % 256 == t % 0x1_0000
    ensures (t / 0x1_0000) % 256 * 0x1_0000 + (t / 0x100) % 256 * 0x100 + t % 256 == t % 0x100_0000
    ensures (t / 0x100_0000) % 256 * 0x100_0000 + (t / 0x1_0000) % 256 * 0x1_0000
            + (t / 0x100) % 256 * 0x100 + t % 256 == t % TWO_32
  {
    var q1, m0 := t / 256, t % 256;
    var q2, m1 := q1 / 256, q1 % 256;
    var q3, m2 := q2 / 256, q2 % 256;
    var q4, m3 := q3 / 256, q3 % 256;
    DivModUnique(t, 0x1_0000, q2, 256 * m1 + m0);
    DivModUnique(t, 0x100_0000, q3, 0x1_0000 * m2 + 256 * m1 + m0);
    DivModUnique(t, TWO_32, q4, 0x100_0000 * m3 + 0x1_0000 * m2 + 256 * m1 + m0);
  }

  /** Agreeing modulo 2^32 means agreeing modulo 2^16 and 2^24. */
  lemma Int32LowBits(x: int)
    ensures ToInt32(x) % 0x1_0000 == x % 0x1_0000
    ensures ToInt32(x) % 0x100_0000 == x % 0x100_0000
  {
    var t := ToInt32(x);
    var r := x % TWO_32;
    var a, b := x / TWO_32, t / TWO_32;
    assert t == TWO_32 * b + r;
    DivModUnique(x, 0x1_0000, 0x1_0000 * a + r / 0x1_0000, r % 0x1_0000);
    DivModUnique(t, 0x1_0000, 0x1_0000 * b + r / 0x1_0000, r % 0x1_0000);
    DivModUnique(x, 0x100_0000, 0x100 * a + r / 0x100_0000, r % 0x100_0000);
    DivModUnique(t, 0x100_0000, 0x100 * b + r / 0x100_0000, r % 0x100_0000);
  }

  // ---------------------------------------------------------------- events

  /** An event before delta encoding: its absolute tick and its message bytes. */
  datatype TimedEvent = TimedEvent(time: int, data: seq<int>)

  /** The sort key of `(a, b) => a.time - b.time`. */
  function TimeOf(e: TimedEvent): real
  {
    e.time as real
  }

  /** `Math.round(60000000 / bpm)` followed by its three low bytes, big-endian.  A zero
      tempo divides to Infinity, which every bitwise operator reads as 0. */
  function TempoData(bpm: real): (r: seq<int>)
    ensures |r| == 6 && r[..3] == [0xFF, 0x51, 0x03] && AllBytes(r)
    ensures bpm == 0.0 ==> r[3..] == [0, 0, 0]
    ensures bpm != 0.0 ==> BigEndian(r[3..]) == Round(60000000.0 / bpm) % 0x100_0000
  {
    if bpm == 0.0 then [0xFF, 0x51, 0x03, 0, 0, 0]
    else
      var us := Round(60000000.0 / bpm);
      var b := [And255(Shr(us, 16)), And255(Shr(us, 8)), And255(us)];
      SplitBytes(ToInt32(us));
      Mod256OfInt32(us);
      Int32LowBits(us);
      BigEndianOf(b[0], b[1], b[2], 0);
      assert ([0xFF, 0x51, 0x03] + b)[3..] == b;
      [0xFF, 0x51, 0x03] + b
  }

  /** `[0xFF, 0x03, nameBytes.length, ...nameBytes]`: the length is written as one number,
      not as a variable-length quantity. */
  function NameData(name: string): (r: seq<int>)
    ensures |r| == 3 + |WriteString(name)|
    ensures r[..3] == [0xFF, 0x03, |WriteString(name)|] && r[3..] == WriteString(name)
  {
    [0xFF, 0x03, |WriteString(name)|] + WriteString(name)
  }

  /** The call that leaves out `bpm` writes tempo 80: 750000 microseconds per beat,
      0B 71 B0. */
  lemma DefaultTempo()
    ensures TempoData(DEFAULT_BPM) == [0xFF, 0x51, 0x03, 0x0B, 0x71, 0xB0]
  {
    assert Round(60000000.0 / DEFAULT_BPM) == 750000;
    assert Shr(750000, 16) == 0x0B;
    assert Shr(750000, 8) == 0x0B71;
  }

  predicate IsNoteOn(e: TimedEvent)
  {
    |e.data| == 3 && 0x90 <= e.data[0] < 0xA0
  }

  predicate IsNoteOff(e: TimedEvent)
  {
    |e.data| == 3 && 0x80 <= e.data[0] < 0x90
  }

  /** The two events of one note.  For a channel in 0..15, `0x90 | channel` is
      `0x90 + channel`. */
  function NoteOnOff(n: Note): (r: seq<TimedEvent>)
    ensures |r| == 2 && IsNoteOn(r[0]) && IsNoteOff(r[1])
    ensures r[0].time == Ticks(n.start) && r[1].time == Ticks(n.start) + Ticks(n.duration)
    ensures r[0].data[0] == 0x90 + n.channel % 16 && r[1].data[0] == 0x80 + n.channel % 16
    ensures r[0].data[1] == r[1].data[1] && 0 <= r[0].data[1] <= 127
    ensures 0 <= n.note <= 127 ==> r[0].data[1] == n.note
    ensures n.velocity == 0 ==> r[0].data[2] == 80
    ensures 0 < n.velocity <= 127 ==> r[0].data[2] == n.velocity
    ensures 0 <= r[0].data[2] <= 127 && r[1].data[2] == 0
    ensures AllBytes(r[0].data) && AllBytes(r[1].data)
  {
    var startTicks := Ticks(n.start);
    var durationTicks := Ticks(n.duration);
    var channel := And15(n.channel);
    var velocity := Clamp(0, 127, if n.velocity == 0 then 80 else n.velocity);
    var midiNote := Clamp(0, 127, n.note);
    [TimedEvent(startTicks, [0x90 + channel, midiNote, velocity]),
     TimedEvent(startTicks + durationTicks, [0x80 + channel, midiNote, 0])]
  }

  /** The events in push order: tempo, name, then each note (sorted by start) on and off. */
  function Events(notes: seq<Note>, bpm: real, name: string): seq<TimedEvent>
  {
    [TimedEvent(0, TempoData(bpm)), TimedEvent(0, NameData(name))]
    + FlatMap(SortBy(notes, StartOf), NoteOnOff)
  }

  /** `events.sort((a, b) => a.time - b.time)` */
  function SortedEvents(notes: seq<Note>, bpm: real, name: string): (r: seq<TimedEvent>)
    ensures |r| == 2 + 2 * |notes|
    ensures multiset(r) == multiset(Events(notes, bpm, name))
  {
    FlatMapLength(SortBy(notes, StartOf), NoteOnOff, 2);
    SortBy(Events(notes, bpm, name), TimeOf)
  }

  /** Delta times: each event's time minus the previous one's, starting from `last`. */
  function ToDeltas(es: seq<TimedEvent>, last: int): (r: seq<TrackEvent>)
    ensures |r| == |es|
    ensures forall i :: 0 <= i < |es| ==> r[i].data == es[i].data
    ensures |es| > 0 ==> r[0].delta == es[0].time - last
    ensures forall i :: 0 < i < |es| ==> r[i].delta == es[i].time - es[i - 1].time
  {
    if |es| == 0 then []
    else [TrackEvent(es[0].time - last, es[0].data)] + ToDeltas(es[1..], es[0].time)
  }

  /** Each event as its delta time followed by its message. */
  function Serialize(es: seq<TrackEvent>): (r: seq<int>)
    ensures |r| >= |es|
  {
    if |es| == 0 then [] else WriteVlq(es[0].delta) + es[0].data + Serialize(es[1..])
  }

  /** The track chunk's data: the events, then delta 0 and End of Track. */
  function TrackData(notes: seq<Note>, bpm: real, name: string): seq<int>
  {
    TrackBody(notes, bpm, name) + WriteVlq(0) + [0xFF, 0x2F, 0x00]
  }

  /** The serialised sorted events, before the closing End of Track. */
  function TrackBody(notes: seq<Note>, bpm: real, name: string): seq<int>
  {
    Serialize(ToDeltas(SortedEvents(notes, bpm, name), 0))
  }

  /** The header chunk: "MThd", length 6, format 0, one track, 480 ticks per beat. */
  function Header(): seq<int>
  {
    WriteString("MThd") + Write32(6) + Write16(0) + Write16(1) + Write16(TICKS_PER_BEAT)
  }

  /** The header chunk, then "MTrk", the 32-bit track length and the track data, stored
      into a Uint8Array. */
  function FileOf(track: seq<int>): (r: seq<int>)
    ensures AllBytes(r)
    ensures |r| == 22 + |track|
    ensures r[..14] == MTHD + [0, 0, 0, 6, 0, 0, 0, 1, 0x01, 0xE0]
    ensures r[14..18] == MTRK
    ensures BigEndian(r[18..22]) == |track| % TWO_32
    ensures r[22..] == ToUint8Seq(track)
  {
    StoredChunks(track);
    ChunkFields(Write32(|track|), ToUint8Seq(track));
    ToUint8Seq(Header() + WriteString("MTrk") + Write32(|track|) + track)
  }

  /** `createMidiFile(notes, bpm, name)`; a caller that leaves them out gets `bpm` 80
      (DEFAULT_BPM) and the name "R&B Track". */
  function CreateMidiFile(notes: seq<Note>, bpm: real, name: string): (r: seq<int>)
    ensures |r| == 22 + |TrackData(notes, bpm, name)|
  {
    FileOf(TrackData(notes, bpm, name))
  }

  /** The header chunk's bytes. */
  lemma HeaderBytes()
    ensures Header() == MTHD + [0, 0, 0, 6, 0, 0, 0, 1, 0x01, 0xE0]
  {
    ChunkNames();
    Write32Small(6);
    Write16Of(0, 0, 0);
    Write16Of(1, 0, 1);
    Write16Of(TICKS_PER_BEAT, 0x01, 0xE0);
  }

  /** A value below 256 is written as three zero bytes and itself. */
  lemma Write32Small(v: int)
    requires 0 <= v < 256
    ensures Write32(v) == [0, 0, 0, v]
  {
    var r := Write32(v);
    BigEndianOf(r[0], r[1], r[2], r[3]);
    assert r == [r[0], r[1], r[2], r[3]];
  }

  /** A 16-bit value is written as its high byte, then its low byte. */
  lemma Write16Of(v: int, hi: int, lo: int)
    requires 0 <= lo < 256 && 0 <= hi < 256 && v == hi * 256 + lo
    ensures Write16(v) == [hi, lo]
  {
    var r := Write16(v);
    BigEndianOf(r[0], r[1], 0, 0);
    assert r == [r[0], r[1]];
    DivModUnique(v, 256, r[0], r[1]);
    DivModUnique(v, 256, hi, lo);
  }

  /** The chunk names are ASCII, one code unit per character. */
  lemma ChunkNames()
    ensures WriteString("MThd") == MTHD
    ensures WriteString("MTrk") == MTRK
  {
    var h, t := WriteString("MThd"), WriteString("MTrk");
    assert forall i :: 0 <= i < 4 ==> "MThd"[i] as int < 0x1_0000;
    assert forall i :: 0 <= i < 4 ==> "MTrk"[i] as int < 0x1_0000;
    assert h[0] == 0x4D && h[1] == 0x54 && h[2] == 0x68 && h[3] == 0x64;
    assert t[0] == 0x4D && t[1] == 0x54 && t[2] == 0x72 && t[3] == 0x6B;
  }

  // ---------------------------------------------------------------- layout

  /** The track data always ends with delta 0 and End of Track. */
  lemma TrackDataEnd(notes: seq<Note>, bpm: real, name: string)
    ensures TrackData(notes, bpm, name) == TrackBody(notes, bpm, name) + [0x00, 0xFF, 0x2F, 0x00]
  {
    ClosedTrack(TrackBody(notes, bpm, name));
  }

  lemma ClosedTrack(body: seq<int>)
    ensures body + WriteVlq(0) + [0xFF, 0x2F, 0x00] == body + [0x00, 0xFF, 0x2F, 0x00]
  {
    assert WriteVlq(0) == [0];
  }

  /** The file starts with the fixed header chunk, "MTrk" and the track length. */
  lemma FileHeader(notes: seq<Note>, bpm: real, name: string)
    ensures var f := CreateMidiFile(notes, bpm, name);
      && f[..14] == MTHD + [0, 0, 0, 6, 0, 0, 0, 1, 0x01, 0xE0]
      && f[14..18] == MTRK
      && BigEndian(f[18..22]) == |TrackData(notes, bpm, name)| % TWO_32
  {
  }

  /** The file always ends with delta 0 and End of Track. */
  lemma FileEnd(notes: seq<Note>, bpm: real, name: string)
    ensures var f := CreateMidiFile(notes, bpm, name);
      f[|f| - 4..] == [0x00, 0xFF, 0x2F, 0x00]
  {
    TrackDataEnd(notes, bpm, name);
    FileOfEnd(TrackData(notes, bpm, name), TrackBody(notes, bpm, name));
  }

  /** A file ends with the bytes its track ends with. */
  lemma FileOfEnd(track: seq<int>, body: seq<int>)
    requires track == body + [0x00, 0xFF, 0x2F, 0x00]
    ensures var f := FileOf(track); f[|f| - 4..] == [0x00, 0xFF, 0x2F, 0x00]
  {
    var f := FileOf(track);
    var tail: seq<int> := [0x00, 0xFF, 0x2F, 0x00];
    assert AllBytes(tail);
    ToUint8SeqOfBytesPrefix(tail, []);
    assert tail + [] == tail;
    ToUint8SeqAppend(body, tail);
    EndsOfSuffix(f, 22, ToUint8Seq(body), tail);
  }

  /** With no notes the track is exactly tempo, name and End of Track, all at delta 0. */
  lemma EmptyTrack(bpm: real, name: string)
    ensures TrackData([], bpm, name) == [0] + TempoData(bpm) + [0] + NameData(name) + [0, 0xFF, 0x2F, 0x00]
  {
    EmptySorted(bpm, name);
    MetaOnlyBody(TempoData(bpm), NameData(name));
    TrackDataEnd([], bpm, name);
  }

  /** With no notes, sorting leaves the two meta events in push order. */
  lemma EmptySorted(bpm: real, name: string)
    ensures SortedEvents([], bpm, name) == [TimedEvent(0, TempoData(bpm)), TimedEvent(0, NameData(name))]
  {
    var es := Events([], bpm, name);
    assert SortBy([], StartOf) == [];
    assert es == [TimedEvent(0, TempoData(bpm)), TimedEvent(0, NameData(name))];
    SortByKeepsLeastFirst(es, TimeOf);
    SortByKeepsLeastFirst(es[1..], TimeOf);
    assert SortBy(es[1..][1..], TimeOf) == [];
  }

  /** Two events at time 0 serialise as a zero delta before each message. */
  lemma MetaOnlyBody(a: seq<int>, b: seq<int>)
    ensures Serialize(ToDeltas([TimedEvent(0, a), TimedEvent(0, b)], 0)) == [0] + a + [0] + b
  {
    var ds := ToDeltas([TimedEvent(0, a), TimedEvent(0, b)], 0);
    assert ds == [TrackEvent(0, a), TrackEvent(0, b)];
    assert WriteVlq(0) == [0];
    assert Serialize(ds[1..]) == [0] + b by {
      assert ds[1..] == [TrackEvent(0, b)];
      assert ds[1..][1..] == [];
      assert b + [] == b;
    }
    assert Serialize(ds) == [0] + a + ([0] + b);
    Append3([0] + a, [0], b);
  }

  /** When no note lies before tick 0, Set Tempo and the track name stay the first two
      events: the sort is stable and they were pushed first at time 0. */
  lemma MetaEventsFirst(notes: seq<Note>, bpm: real, name: string)
    requires forall n :: n in notes ==> n.start >= 0.0 && n.duration >= 0.0
    ensures var es := SortedEvents(notes, bpm, name);
      && es[0] == TimedEvent(0, TempoData(bpm))
      && es[1] == TimedEvent(0, NameData(name))
  {
    var es := Events(notes, bpm, name);
    NoteTimesNonNegative(notes, bpm, name);
    forall i | 0 < i < |es|
      ensures TimeOf(es[0]) <= TimeOf(es[i]) && (i > 1 ==> TimeOf(es[1]) <= TimeOf(es[i]))
    {
      assert es[i] in es;
    }
    SortByKeepsTwoFirst(es, TimeOf);
  }

  lemma NoteTimesNonNegative(notes: seq<Note>, bpm: real, name: string)
    requires forall n :: n in notes ==> n.start >= 0.0 && n.duration >= 0.0
    ensures forall e :: e in Events(notes, bpm, name) ==> e.time >= 0
  {
    var nonNegative := (e: TimedEvent) => e.time >= 0;
    forall n, e | n in notes && e in NoteOnOff(n)
      ensures nonNegative(e)
    {
      var r := NoteOnOff(n);
      assert e == r[0] || e == r[1];
    }
    FlatMapSortByAll(notes, StartOf, NoteOnOff, nonNegative);
  }

  /** Every note gives exactly one Note-On and one Note-Off, wherever the sort puts them. */
  lemma NoteEventCounts(notes: seq<Note>, bpm: real, name: string)
    ensures Count(SortedEvents(notes, bpm, name), IsNoteOn) == |notes|
    ensures Count(SortedEvents(notes, bpm, name), IsNoteOff) == |notes|
  {
    EventCount(notes, bpm, name, IsNoteOn);
    EventCount(notes, bpm, name, IsNoteOff);
  }

  lemma EventCount(notes: seq<Note>, bpm: real, name: string, p: TimedEvent -> bool)
    requires p == IsNoteOn || p == IsNoteOff
    ensures Count(SortedEvents(notes, bpm, name), p) == |notes|
  {
    var sorted := SortBy(notes, StartOf);
    var flat := FlatMap(sorted, NoteOnOff);
    var meta := [TimedEvent(0, TempoData(bpm)), TimedEvent(0, NameData(name))];
    CountSortBy(Events(notes, bpm, name), TimeOf, p);
    CountAppend(meta, flat, p);
    assert TempoData(bpm)[..3][0] == 0xFF && NameData(name)[..3][0] == 0xFF;
    MetaCount(meta[0], meta[1], p);
    CountFlatMapPairs(sorted, NoteOnOff, p);
  }

  lemma MetaCount(a: TimedEvent, b: TimedEvent, p: TimedEvent -> bool)
    requires p == IsNoteOn || p == IsNoteOff
    requires |a.data| > 0 && a.data[0] == 0xFF && |b.data| > 0 && b.data[0] == 0xFF
    ensures Count([a, b], p) == 0
  {
    assert !p(a) && !p(b);
    assert [b][1..] == [];
    assert Count([b], p) == 0;
    assert [a, b][1..] == [b];
  }

  lemma {:induction false} CountFlatMapPairs(s: seq<Note>, f: Note -> seq<TimedEvent>, p: TimedEvent -> bool)
    requires f == NoteOnOff
    requires p == IsNoteOn || p == IsNoteOff
    ensures Count(FlatMap(s, f), p) == |s|
    decreases |s|
  {
    if |s| > 0 {
      var pair := f(s[0]);
      CountFlatMapPairs(s[1..], f, p);
      CountAppend(pair, FlatMap(s[1..], f), p);
      assert pair[1..][1..] == [];
    }
  }

  /** Sorted ticks give non-negative deltas when no note starts or lasts a negative time. */
  lemma DeltasNonNegative(notes: seq<Note>, bpm: real, name: string)
    requires forall n :: n in notes ==> n.start >= 0.0 && n.duration >= 0.0
    ensures forall e :: e in ToDeltas(SortedEvents(notes, bpm, name), 0) ==> e.delta >= 0
  {
    var es := SortedEvents(notes, bpm, name);
    NoteTimesNonNegative(notes, bpm, name);
    SortBySorted(Events(notes, bpm, name), TimeOf);
    if |es| > 0 {
      assert es[0] in multiset(Events(notes, bpm, name));
    }
    SortedDeltasNonNegative(es);
    var ds := ToDeltas(es, 0);
    forall e | e in ds
      ensures e.delta >= 0
    {
      var i :| 0 <= i < |ds| && ds[i] == e;
    }
  }

  /** Ascending times from a non-negative first time give non-negative deltas. */
  lemma SortedDeltasNonNegative(es: seq<TimedEvent>)
    requires Sorted(es, TimeOf)
    requires |es| > 0 ==> es[0].time >= 0
    ensures forall i :: 0 <= i < |es| ==> ToDeltas(es, 0)[i].delta >= 0
  {
    forall i | 0 < i < |es|
      ensures ToDeltas(es, 0)[i].delta >= 0
    {
      assert TimeOf(es[i - 1]) <= TimeOf(es[i]);
    }
  }


  // ---------------------------------------------------------------- reading back

  /** Prefix sums of the deltas give back every event's absolute tick. */
  lemma {:induction false} AbsoluteTickOfDeltas(es: seq<TimedEvent>, last: int, i: nat)
    requires i < |es|
    ensures AbsoluteTick(ToDeltas(es, last), i) == es[i].time - last
  {
    if i > 0 {
      AbsoluteTickOfDeltas(es, last, i - 1);
    }
  }

  /** The same events with their message bytes stored into a Uint8Array. */
  function Stored(es: seq<TrackEvent>): (r: seq<TrackEvent>)
    ensures |r| == |es|
    ensures forall i :: 0 <= i < |es| ==> r[i] == TrackEvent(es[i].delta, ToUint8Seq(es[i].data))
  {
    if |es| == 0 then [] else [TrackEvent(es[0].delta, ToUint8Seq(es[0].data))] + Stored(es[1..])
  }

  lemma {:induction false} AbsoluteTickOfStored(es: seq<TrackEvent>, i: nat)
    requires i < |es|
    ensures AbsoluteTick(Stored(es), i) == AbsoluteTick(es, i)
  {
    if i > 0 {
      AbsoluteTickOfStored(es, i - 1);
    }
  }

  /** Storing the serialised bytes is serialising the stored messages: delta bytes are
      already bytes. */
  lemma {:induction false} SerializeStored(es: seq<TrackEvent>)
    ensures ToUint8Seq(Serialize(es)) == Serialize(Stored(es))
    decreases |es|
  {
    if |es| > 0 {
      var v := WriteVlq(es[0].delta);
      SerializeStored(es[1..]);
      assert Stored(es)[1..] == Stored(es[1..]);
      ToUint8SeqAppend(v + es[0].data, Serialize(es[1..]));
      ToUint8SeqAppend(v, es[0].data);
    }
  }

  /** An event the reader accepts as written. */
  predicate Readable(e: TrackEvent)
  {
    0 <= e.delta < TWO_31 && WellFormedMessage(e.data)
  }

  /** The reader returns exactly the serialised events. */
  lemma {:induction false} ParseSerialized(es: seq<TrackEvent>)
    requires forall i :: 0 <= i < |es| ==> Readable(es[i])
    ensures ParseTrack(Serialize(es) + WriteVlq(0) + END_OF_TRACK) == Some(es)
    decreases |es|
  {
    var z := WriteVlq(0);
    if |es| == 0 {
      assert Serialize(es) + z + END_OF_TRACK == z + END_OF_TRACK;
      ParseTrackEnd(z);
    } else {
      var e := es[0];
      var v := WriteVlq(e.delta);
      var rest := Serialize(es[1..]);
      var tail := rest + z + END_OF_TRACK;
      assert Readable(e);
      ParseSerialized(es[1..]);
      assert Serialize(es) == v + e.data + rest;
      ConcatAssoc(v, e.data, rest, z, END_OF_TRACK);
      ParseTrackCons(v, e.data, tail, es[1..]);
      assert TrackEvent(VlqValue(v), e.data) == e;
      HeadTail(es);
    }
  }

  /** Serialised length: at most five delta bytes per event plus its message, for
      messages of at most 131 bytes (a name of 128 units and its three-byte prefix). */
  lemma {:induction false} SerializeLength(es: seq<TrackEvent>)
    requires forall i :: 0 <= i < |es| ==> |es[i].data| <= 131
    ensures |Serialize(es)| <= 136 * |es|
    decreases |es|
  {
    if |es| > 0 {
      SerializeLength(es[1..]);
    }
  }

  /** The stored file is the fixed 22-byte prefix, ending in the track length, and the
      stored track data. */
  lemma StoredChunks(track: seq<int>)
    ensures ToUint8Seq(Header() + WriteString("MTrk") + Write32(|track|) + track)
              == MTHD + [0, 0, 0, 6, 0, 0, 0, 1, 0x01, 0xE0] + MTRK + Write32(|track|) + ToUint8Seq(track)
  {
    var hdr := MTHD + [0, 0, 0, 6, 0, 0, 0, 1, 0x01, 0xE0];
    var w := Write32(|track|);
    HeaderBytes();
    ChunkNames();
    SamePrefix(Header(), hdr, WriteString("MTrk"), MTRK, w, track);
    PrefixBytes(w);
    ToUint8SeqOfBytesPrefix(hdr + MTRK + w, track);
  }

  lemma PrefixBytes(w: seq<int>)
    requires AllBytes(w)
    ensures AllBytes(MTHD + [0, 0, 0, 6, 0, 0, 0, 1, 0x01, 0xE0] + MTRK + w)
  {
    var fixed := [0, 0, 0, 6, 0, 0, 0, 1, 0x01, 0xE0];
    assert AllBytes(MTHD) && AllBytes(MTRK) && AllBytes(fixed);
    BytesAppend(MTHD, fixed);
    BytesAppend(MTHD + fixed, MTRK);
    BytesAppend(MTHD + fixed + MTRK, w);
  }

  lemma SamePrefix(h: seq<int>, h': seq<int>, n: seq<int>, n': seq<int>, w: seq<int>, t: seq<int>)
    requires h == h' && n == n'
    ensures h + n + w + t == h' + n' + w + t
  {
  }

  lemma BytesAppend(a: seq<int>, b: seq<int>)
    requires AllBytes(a) && AllBytes(b)
    ensures AllBytes(a + b)
  {
  }

  /** The reader accepts a file whose track it accepts. */
  lemma ParseFileOf(track: seq<int>, es: seq<TrackEvent>)
    requires |track| < TWO_32
    requires ParseTrack(ToUint8Seq(track)) == Some(es)
    ensures ParseFile(FileOf(track)) == Some(MidiFile(0, 1, 480, es))
  {
    var w := Write32(|track|);
    StoredChunks(track);
    DivModUnique(|track|, TWO_32, 0, |track|);
    assert BigEndian(w) == |ToUint8Seq(track)|;
    ParseFileOfChunks(w, ToUint8Seq(track), es);
  }

  /** Notes whose ticks a 32-bit delta can carry. */
  predicate TicksInRange(n: Note)
  {
    && 0 <= Ticks(n.start) < TWO_31
    && 0 <= Ticks(n.start) + Ticks(n.duration) < TWO_31
  }

  /** An event the reader gets back once stored: a tick a delta can carry, a well-formed
      message, and at most 131 bytes. */
  predicate Storable(e: TimedEvent)
  {
    0 <= e.time < TWO_31 && WellFormedMessage(ToUint8Seq(e.data)) && |e.data| <= 131
  }

  lemma TempoStorable(bpm: real)
    ensures Storable(TimedEvent(0, TempoData(bpm)))
  {
  }

  lemma NameStorable(name: string)
    requires |WriteString(name)| < 128
    ensures Storable(TimedEvent(0, NameData(name)))
  {
    var units := WriteString(name);
    var prefix := [0xFF, 0x03, |units|];
    assert NameData(name) == prefix + units;
    ToUint8SeqOfBytesPrefix(prefix, units);
    var d := ToUint8Seq(NameData(name));
    assert d == prefix + ToUint8Seq(units);
    assert d[0] == 0xFF && d[1] == 0x03 && d[2] == |units|;
    assert d != END_OF_TRACK;
  }

  lemma NoteEventsStorable(n: Note)
    requires TicksInRange(n)
    ensures Storable(NoteOnOff(n)[0]) && Storable(NoteOnOff(n)[1])
  {
    var r := NoteOnOff(n);
    assert DataBytes(r[0].data[1..]);
    assert DataBytes(r[1].data[1..]);
  }

  /** Every event before sorting is storable. */
  lemma EventsStorable(notes: seq<Note>, bpm: real, name: string)
    requires forall n :: n in notes ==> TicksInRange(n)
    requires |WriteString(name)| < 128
    ensures forall e :: e in Events(notes, bpm, name) ==> Storable(e)
  {
    TempoStorable(bpm);
    NameStorable(name);
    forall n, e | n in notes && e in NoteOnOff(n)
      ensures Storable(e)
    {
      var r := NoteOnOff(n);
      NoteEventsStorable(n);
      assert e == r[0] || e == r[1];
    }
    FlatMapSortByAll(notes, StartOf, NoteOnOff, Storable);
  }

  /** Deltas of events in ascending time order, each storable, are all readable. */
  lemma StoredDeltasReadable(es: seq<TimedEvent>)
    requires forall i :: 0 <= i < |es| ==> Storable(es[i])
    requires Sorted(es, TimeOf)
    ensures forall i :: 0 <= i < |es| ==> Readable(Stored(ToDeltas(es, 0))[i])
  {
    var stored := Stored(ToDeltas(es, 0));
    forall i | 0 <= i < |es|
      ensures Readable(stored[i])
    {
      if i > 0 {
        assert TimeOf(es[i - 1]) <= TimeOf(es[i]);
      }
    }
  }

  /** Storing a whole track stores each message; the closing bytes are bytes already. */
  lemma StoredTrack(ds: seq<TrackEvent>)
    ensures ToUint8Seq(Serialize(ds) + WriteVlq(0) + END_OF_TRACK)
              == Serialize(Stored(ds)) + WriteVlq(0) + END_OF_TRACK
  {
    StoredClosing(Serialize(ds));
    SerializeStored(ds);
  }

  /** Delta 0 and End of Track are bytes already. */
  lemma StoredClosing(a: seq<int>)
    ensures ToUint8Seq(a + WriteVlq(0) + END_OF_TRACK) == ToUint8Seq(a) + WriteVlq(0) + END_OF_TRACK
  {
    var end := WriteVlq(0) + END_OF_TRACK;
    assert end == [0, 0xFF, 0x2F, 0x00];
    assert AllBytes(end);
    assert a + WriteVlq(0) + END_OF_TRACK == a + end;
    ToUint8SeqAppend(a, end);
  }

  /** The reader returns the stored events of any track of readable events. */
  lemma ParseTrackEvents(ds: seq<TrackEvent>)
    requires |ds| <= 0x20_0000
    requires forall i :: 0 <= i < |ds| ==> |ds[i].data| <= 131 && Readable(Stored(ds)[i])
    ensures ParseFile(FileOf(Serialize(ds) + WriteVlq(0) + END_OF_TRACK)) == Some(MidiFile(0, 1, 480, Stored(ds)))
  {
    var stored := Stored(ds);
    var track := Serialize(ds) + WriteVlq(0) + END_OF_TRACK;
    ParseSerialized(stored);
    StoredTrack(ds);
    SerializeLength(ds);
    ParseFileOf(track, stored);
  }

  /** The stored delta events carry each event's stored message at its absolute tick. */
  lemma StoredDeltas(es: seq<TimedEvent>)
    ensures var stored := Stored(ToDeltas(es, 0));
      && |stored| == |es|
      && forall i :: 0 <= i < |es| ==>
           stored[i].data == ToUint8Seq(es[i].data) && AbsoluteTick(stored, i) == es[i].time
  {
    var ds := ToDeltas(es, 0);
    forall i | 0 <= i < |es|
      ensures AbsoluteTick(Stored(ds), i) == es[i].time
    {
      AbsoluteTickOfStored(ds, i);
      AbsoluteTickOfDeltas(es, 0, i);
    }
  }

  /** Reading back a track of sorted storable events: every event's stored message at its
      absolute tick. */
  lemma ParseSortedTrack(es: seq<TimedEvent>)
    requires |es| <= 0x20_0000
    requires forall i :: 0 <= i < |es| ==> Storable(es[i])
    requires Sorted(es, TimeOf)
    ensures var p := ParseFile(FileOf(Serialize(ToDeltas(es, 0)) + WriteVlq(0) + [0xFF, 0x2F, 0x00]));
      && p.Some?
      && p.value.format == 0 && p.value.tracks == 1 && p.value.division == 480
      && |p.value.events| == |es|
      && forall i :: 0 <= i < |es| ==>
           p.value.events[i].data == ToUint8Seq(es[i].data) && AbsoluteTick(p.value.events, i) == es[i].time
  {
    var ds := ToDeltas(es, 0);
    StoredDeltasReadable(es);
    ParseTrackEvents(ds);
    assert END_OF_TRACK == [0xFF, 0x2F, 0x00];
    StoredDeltas(es);
  }

  /** After sorting, every event is still storable, and the times ascend. */
  lemma SortedEventsStorable(notes: seq<Note>, bpm: real, name: string)
    requires |WriteString(name)| < 128
    requires forall n :: n in notes ==> TicksInRange(n)
    ensures var es := SortedEvents(notes, bpm, name);
      Sorted(es, TimeOf) && forall i :: 0 <= i < |es| ==> Storable(es[i])
  {
    var es := SortedEvents(notes, bpm, name);
    EventsStorable(notes, bpm, name);
    SortBySorted(Events(notes, bpm, name), TimeOf);
    forall i | 0 <= i < |es|
      ensures Storable(es[i])
    {
      assert es[i] in multiset(Events(notes, bpm, name));
    }
  }

  /** Reading the file back: format 0, one track, 480 ticks per beat, and for every
      sorted event its stored message bytes at its absolute tick. */
  lemma CreateMidiFileRoundTrip(notes: seq<Note>, bpm: real, name: string)
    requires |notes| < 0x10_0000
    requires |WriteString(name)| < 128
    requires forall n :: n in notes ==> TicksInRange(n)
    ensures var es := SortedEvents(notes, bpm, name);
      && ParseFile(CreateMidiFile(notes, bpm, name)).Some?
      && var f := ParseFile(CreateMidiFile(notes, bpm, name)).value;
      && f.format == 0 && f.tracks == 1 && f.division == 480
      && |f.events| == |es|
      && forall i :: 0 <= i < |es| ==>
           f.events[i].data == ToUint8Seq(es[i].data) && AbsoluteTick(f.events, i) == es[i].time
  {
    var es := SortedEvents(notes, bpm, name);
    assert |es| <= 0x20_0000;
    SortedEventsStorable(notes, bpm, name);
    ParseSortedTrack(es);
    assert CreateMidiFile(notes, bpm, name) == FileOf(Serialize(ToDeltas(es, 0)) + WriteVlq(0) + [0xFF, 0x2F, 0x00]);
  }
}
