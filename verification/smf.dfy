/** A reader for the part of the Standard MIDI Files 1.0 format that the exporters
    write: the "MThd" header chunk, one "MTrk" track chunk, variable-length quantities,
    channel-voice messages with an explicit status byte, and meta events.  It is
    written independently of the writers and serves as their partner: every writer
    is proved to produce bytes this reader reads back. */
module Smf {
  import opened Js

  // ---------------------------------------------------------------- numbers

  /** The value of a variable-length quantity: its 7-bit groups, most significant first. */
  function VlqValue(b: seq<int>): int
  {
    if |b| == 0 then 0 else VlqValue(b[..|b| - 1]) * 128 + b[|b| - 1] % 128
  }

  /** Appending a 7-bit group shifts the value left by seven bits. */
  lemma VlqValueSnoc(b: seq<int>, x: int)
    ensures VlqValue(b + [x]) == VlqValue(b) * 128 + x % 128
  {
    assert (b + [x])[..|b|] == b;
  }

  /** A well-formed variable-length quantity: the continuation bit 0x80 is set on every
      byte but the last, which is below 0x80. */
  predicate IsVlq(b: seq<int>)
  {
    && |b| >= 1
    && (forall i :: 0 <= i < |b| - 1 ==> 128 <= b[i] < 256)
    && 0 <= b[|b| - 1] < 128
  }

  /** The unsigned big-endian value of a byte string. */
  function BigEndian(b: seq<int>): int
  {
    if |b| == 0 then 0 else BigEndian(b[..|b| - 1]) * 256 + b[|b| - 1]
  }

  lemma BigEndianOf(a: int, b: int, c: int, d: int)
    ensures BigEndian([a]) == a
    ensures BigEndian([a, b]) == a * 256 + b
    ensures BigEndian([a, b, c]) == (a * 256 + b) * 256 + c
    ensures BigEndian([a, b, c, d]) == ((a * 256 + b) * 256 + c) * 256 + d
  {
    assert [a, b, c, d][..3] == [a, b, c];
    assert [a, b, c][..2] == [a, b];
    assert [a, b][..1] == [a];
    assert [a][..0] == [];
  }

  /** The position of the first byte without the continuation bit. */
  function VlqEnd(b: seq<int>): (r: Option<nat>)
    ensures r.Some? ==> r.value < |b| && b[r.value] < 128
    ensures r.Some? ==> forall i :: 0 <= i < r.value ==> b[i] >= 128
  {
    if |b| == 0 then None
    else if b[0] < 128 then Some(0)
    else match VlqEnd(b[1..])
      case None => None
      case Some(k) => Some(k + 1)
  }

  /** Reads the variable-length quantity at the front of `b`: its value and its length. */
  function ReadVlq(b: seq<int>): (r: Option<(int, nat)>)
    ensures r.Some? ==> 1 <= r.value.1 <= |b|
  {
    match VlqEnd(b)
    case None => None
    case Some(k) => Some((VlqValue(b[..k + 1]), k + 1))
  }

  lemma {:induction false} VlqEndOf(v: seq<int>, tail: seq<int>)
    requires IsVlq(v)
    ensures VlqEnd(v + tail) == Some(|v| - 1)
    decreases |v|
  {
    if |v| > 1 {
      assert (v + tail)[1..] == v[1..] + tail;
      VlqEndOf(v[1..], tail);
    }
  }

  /** A reader finds exactly the quantity a writer put in front of the rest of the track. */
  lemma ReadVlqOf(v: seq<int>, tail: seq<int>)
    requires IsVlq(v)
    ensures ReadVlq(v + tail) == Some((VlqValue(v), |v|))
  {
    VlqEndOf(v, tail);
    assert (v + tail)[..|v|] == v;
  }

  // ---------------------------------------------------------------- events

  datatype TrackEvent = TrackEvent(delta: int, data: seq<int>)

  const END_OF_TRACK: seq<int> := [0xFF, 0x2F, 0x00]

  /** Number of bytes of a channel-voice message with status `s`: program change and
      channel pressure carry one data byte, the others two. */
  function ChannelMessageLength(s: int): nat
  {
    if 0xC0 <= s < 0xE0 then 2 else 3
  }

  predicate DataBytes(b: seq<int>)
  {
    forall i :: 0 <= i < |b| ==> 0 <= b[i] < 128
  }

  /** Reads a meta event `FF type length data` at the front of `b`: its length in bytes. */
  function ReadMeta(b: seq<int>): (r: Option<nat>)
    requires |b| >= 1 && b[0] == 0xFF
    ensures r.Some? ==> 1 <= r.value <= |b|
  {
    if |b| < 3 then None
    else match ReadVlq(b[2..])
      case None => None
      case Some((len, m)) =>
        if len < 0 || |b| < 2 + m + len then None else Some(2 + m + len)
  }

  /** Reads a channel-voice message with explicit status at the front of `b`: its length. */
  function ReadChannelMessage(b: seq<int>): (r: Option<nat>)
    requires |b| >= 1 && 0x80 <= b[0] < 0xF0
    ensures r.Some? ==> 1 <= r.value <= |b|
  {
    var n := ChannelMessageLength(b[0]);
    if |b| < n || !DataBytes(b[1..n]) then None else Some(n)
  }

  /** Reads one message at the front of `b`: its length in bytes. Running status and
      system-exclusive events are not accepted: the writers never produce them. */
  function ReadMessage(b: seq<int>): (r: Option<nat>)
    ensures r.Some? ==> 1 <= r.value <= |b|
  {
    if |b| == 0 then None
    else if b[0] == 0xFF then ReadMeta(b)
    else if 0x80 <= b[0] < 0xF0 then ReadChannelMessage(b)
    else None
  }

  /** Reads one event (delta time and message) at the front of `b`. */
  function ReadEvent(b: seq<int>): (r: Option<(TrackEvent, nat)>)
    ensures r.Some? ==> 1 <= r.value.1 <= |b|
  {
    match ReadVlq(b)
    case None => None
    case Some((delta, k)) =>
      match ReadMessage(b[k..])
      case None => None
      case Some(n) => Some((TrackEvent(delta, b[k..][..n]), k + n))
  }

  /** Reads the events of a track up to its End of Track meta event, which must be the
      last bytes of the chunk; the End of Track event itself is not returned. */
  function ParseTrack(b: seq<int>): Option<seq<TrackEvent>>
    decreases |b|
  {
    match ReadEvent(b)
    case None => None
    case Some((e, k)) =>
      if e.data == END_OF_TRACK then (if k == |b| then Some([]) else None)
      else match ParseTrack(b[k..])
        case None => None
        case Some(es) => Some([e] + es)
  }

  /** A message the reader accepts, other than End of Track. */
  predicate WellFormedMessage(d: seq<int>)
  {
    && |d| >= 1
    && d != END_OF_TRACK
    && (if d[0] == 0xFF then
          && |d| >= 3
          && 0 <= d[2] < 128
          && |d| == 3 + d[2]
       else
          && 0x80 <= d[0] < 0xF0
          && |d| == ChannelMessageLength(d[0])
          && DataBytes(d[1..]))
  }

  lemma ReadMessageOf(d: seq<int>, tail: seq<int>)
    requires WellFormedMessage(d)
    ensures ReadMessage(d + tail) == Some(|d|)
  {
    var b := d + tail;
    if d[0] == 0xFF {
      assert b[2..] == [d[2]] + (d[3..] + tail);
      ReadVlqOf([d[2]], d[3..] + tail);
      assert VlqValue([d[2]]) == d[2];
    } else {
      assert b[1..|d|] == d[1..];
    }
  }

  /** One step of reading: a quantity followed by a well-formed message. */
  lemma ReadEventOf(v: seq<int>, d: seq<int>, tail: seq<int>)
    requires IsVlq(v)
    requires WellFormedMessage(d)
    ensures ReadEvent(v + d + tail) == Some((TrackEvent(VlqValue(v), d), |v| + |d|))
  {
    var b := v + d + tail;
    assert b == v + (d + tail);
    ReadVlqOf(v, d + tail);
    assert b[|v|..] == d + tail;
    ReadMessageOf(d, tail);
    assert (d + tail)[..|d|] == d;
  }

  /** An event is a quantity followed by a message. */
  lemma ReadEventFrom(b: seq<int>, delta: int, k: nat, n: nat)
    requires ReadVlq(b) == Some((delta, k))
    requires ReadMessage(b[k..]) == Some(n)
    ensures ReadEvent(b) == Some((TrackEvent(delta, b[k..][..n]), k + n))
  {
  }

  /** End of Track is a meta event of length zero: three bytes. */
  lemma ReadEndOfTrackMessage()
    ensures ReadMessage(END_OF_TRACK) == Some(3)
  {
    assert END_OF_TRACK[2..] == [0] + [];
    ReadVlqOf([0], []);
    assert VlqValue([0]) == 0;
  }

  lemma ReadEndOfTrack(v: seq<int>)
    requires IsVlq(v)
    ensures ReadEvent(v + END_OF_TRACK) == Some((TrackEvent(VlqValue(v), END_OF_TRACK), |v| + 3))
  {
    var b := v + END_OF_TRACK;
    ReadVlqOf(v, END_OF_TRACK);
    ReadEndOfTrackMessage();
    assert b[|v|..] == END_OF_TRACK;
    assert b[|v|..][..3] == END_OF_TRACK;
    ReadEventFrom(b, VlqValue(v), |v|, 3);
  }

  /** Reading an event and then the rest of the track. */
  lemma ParseTrackCons(v: seq<int>, d: seq<int>, tail: seq<int>, es: seq<TrackEvent>)
    requires IsVlq(v)
    requires WellFormedMessage(d)
    requires ParseTrack(tail) == Some(es)
    ensures ParseTrack(v + d + tail) == Some([TrackEvent(VlqValue(v), d)] + es)
  {
    ReadEventOf(v, d, tail);
    assert (v + d + tail)[|v| + |d|..] == tail;
  }

  lemma ParseTrackEnd(v: seq<int>)
    requires IsVlq(v)
    ensures ParseTrack(v + END_OF_TRACK) == Some([])
  {
    ReadEndOfTrack(v);
  }

  /** The absolute tick of event `i`: the sum of the delta times up to and including it. */
  function AbsoluteTick(es: seq<TrackEvent>, i: nat): int
    requires i < |es|
  {
    if i == 0 then es[0].delta else AbsoluteTick(es, i - 1) + es[i].delta
  }

  // ---------------------------------------------------------------- file

  const MTHD: seq<int> := [0x4D, 0x54, 0x68, 0x64]
  const MTRK: seq<int> := [0x4D, 0x54, 0x72, 0x6B]

  datatype MidiFile = MidiFile(format: int, tracks: int, division: int, events: seq<TrackEvent>)

  /** Reads a single-track file: the header chunk with length 6, then one track chunk
      whose declared length is exactly the rest of the file. */
  function ParseFile(b: seq<int>): Option<MidiFile>
  {
    if |b| < 22 || b[..4] != MTHD || BigEndian(b[4..8]) != 6 || b[14..18] != MTRK
       || |b| != 22 + BigEndian(b[18..22])
    then None
    else match ParseTrack(b[22..])
      case None => None
      case Some(es) => Some(MidiFile(BigEndian(b[8..10]), BigEndian(b[10..12]), BigEndian(b[12..14]), es))
  }

  /** The fields of the 22 bytes in front of the track data. */
  lemma ChunkFields(w: seq<int>, t: seq<int>)
    requires |w| == 4
    ensures var b := MTHD + [0, 0, 0, 6, 0, 0, 0, 1, 0x01, 0xE0] + MTRK + w + t;
      && |b| == 22 + |t|
      && b[..14] == MTHD + [0, 0, 0, 6, 0, 0, 0, 1, 0x01, 0xE0]
      && b[..4] == MTHD && BigEndian(b[4..8]) == 6
      && BigEndian(b[8..10]) == 0 && BigEndian(b[10..12]) == 1 && BigEndian(b[12..14]) == 480
      && b[14..18] == MTRK && b[18..22] == w && b[22..] == t
  {
    var b := MTHD + [0, 0, 0, 6, 0, 0, 0, 1, 0x01, 0xE0] + MTRK + w + t;
    assert b[4..8] == [0, 0, 0, 6];
    assert b[8..10] == [0, 0];
    assert b[10..12] == [0, 1];
    assert b[12..14] == [0x01, 0xE0];
    BigEndianOf(0, 0, 0, 6);
    BigEndianOf(0, 1, 0, 0);
    BigEndianOf(0x01, 0xE0, 0, 0);
  }

  /** A format-0 header with one track at 480 ticks per beat, and a track chunk whose
      declared length is that of its data, read as a whole file. */
  lemma ParseFileOfChunks(w: seq<int>, t: seq<int>, es: seq<TrackEvent>)
    requires |w| == 4 && BigEndian(w) == |t|
    requires ParseTrack(t) == Some(es)
    ensures ParseFile(MTHD + [0, 0, 0, 6, 0, 0, 0, 1, 0x01, 0xE0] + MTRK + w + t)
              == Some(MidiFile(0, 1, 480, es))
  {
    ChunkFields(w, t);
  }
}
