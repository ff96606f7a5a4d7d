# RNBP core in Dafny

RNBP is a browser tool for R&B songwriters. It parses chord symbols and Roman-numeral
progressions and builds MIDI notes from them. It varies them with random substitutions,
inversions and voicings, generates melodies, bass lines and whole song arrangements for an
artist's style, and exports the result as a Standard MIDI File. This project models that
core as pure Dafny functions over immutable datatypes and proves what the code promises
about them.

Modules follow the source files:

- `Js` holds the JavaScript semantics the code relies on: 32-bit bit operators,
  `Math.round`, `Math.floor`, the truncating `%`, `indexOf`, `replace`, UTF-16 code units
  and the `Uint8Array` byte conversion.
- `Notes` and `ChordTypes` hold the shared `NOTES` array and the chord-type table shape.
- `StableSort` models `Array.prototype.sort` with a consistent comparator as a stable
  insertion sort. It also holds the counting, filtering and flattening facts the exporters
  need.
- `Smf` is an independent reader of Standard MIDI Files. It covers variable-length
  quantities, big-endian fields, the header and track chunks, and channel and meta events.
  It is the partner both writers are proved against: whatever the writers emit, the reader
  parses back into the events they were given.
- `MidiNotes` is the `{ note, start, duration, velocity, channel }` record.
- `MidiExport` models `src/midiExport.js`: `writeVLQ`, `writeString`, `write16`, `write32`
  and `createMidiFile`.
- `MidiEvents` models `generateMidiEvents` of the same file.
- `MidiExportLegacy` models the root `midiExport.js`: `toVLQ` as a loop, `createMidiFile`,
  and the chord, melody, bass and drum note builders.
- `ChordLibrary` models `src/chordLibrary.js`: `noteNameToMidi`, `parseChordName`,
  `buildChord`, `transposeChord` and `getAllProgressions`.
- `MusicData` models `src/musicData.js`: `parseNumeral`, `generateChordMidi`,
  `midiToNoteName` and `generateMelody`, with the `CHORD_TYPES` and `SCALES` tables.
- `Random` turns `Math.random()` into explicit draws `u` with `0 <= u < 1`, for the
  `random`, `randomChoice` and `randomFloat` helpers.
- `AdvancedGenerator` models `src/advancedGenerator.js`:
  - the chord variation and voicing logic;
  - the random melody walk;
  - progression variations, single and multiple arrangements;
  - humanising.
- `SongStructure` models `src/songStructure.js`: its `buildChord`, `transposeChord`,
  `generateSongArrangement` and `formatDuration`, with the section, structure, artist,
  drum and bass tables.

Some behaviour the code has as written is modelled as it is. Each is proved as a lemma:

- `parseNumeral` reads Object.keys of `CHORD_TYPES`. That list puts the integer-like key
  `'13'` first.
- A dominant numeral such as `V7` parses as a major-7 chord on the key root. `'maj7'` is
  present in the table, so the `dom7` rewrite never fires, and `'V7'` is not in the numeral
  map. See `MusicData.DominantNumeralQuirk`.
- The `'7'` row of `CHORD_SUBSTITUTIONS` can never be reached. See
  `AdvancedGenerator.SeventhRowUnused`.
- `writeVLQ` uses the 32-bit `>>`. A value of 2^31 or more is therefore written as one
  byte.

## Model

| member | source | states |
|---|---|---|
| MidiExport.HighGroups | src/midiExport.js:9-12 | the continuation groups of a value are bytes with the high bit set whose seven-bit digits spell the value, and there are none exactly when the value is 0 |
| MidiExport.WriteVlq | src/midiExport.js:6-14 | the output is a well-formed variable-length quantity of at most five bytes; for 0 <= v < 2^31 its value is v; a value below 0x80 is the single byte v, a larger one takes at least two bytes |
| MidiExport.HighGroupsLength | src/midiExport.js:10-12 | a value below 2^28 needs at most four continuation groups |
| Smf.ReadVlqOf | src/midiExport.js:6-14 | the independent reader decodes any well-formed quantity followed by anything to its value and its length: the inverse of writeVLQ |
| MidiExport.WriteString | src/midiExport.js:17-23 | the output is the string's UTF-16 code units, each below 0x10000; for text in the Basic Multilingual Plane it is one unit per character, equal to the character code |
| MidiExport.BmpUnits | src/midiExport.js:19-21 | charCodeAt over a Basic Multilingual Plane string yields exactly the character codes |
| MidiExport.Write16 | src/midiExport.js:26 | two bytes whose big-endian value is v mod 2^16, for every integer v |
| MidiExport.Write32 | src/midiExport.js:29-34 | four bytes whose big-endian value is v mod 2^32, for every integer v |
| MidiExport.Int32LowBits | src/midiExport.js:26-34 | the 32-bit conversion before `>>` and `&` does not change the low 16 or 24 bits |
| MidiExport.DefaultTempo | src/midiExport.js:43-61 | without a `bpm` argument the tempo is 80, written as 750000 microseconds per beat, 0B 71 B0 |
| MidiExport.TempoData | src/midiExport.js:53-61 | a Set Tempo meta event whose three data bytes are round(60000000 / bpm) mod 2^24, big-endian; a tempo of 0 writes three zero bytes |
| MidiExport.NameData | src/midiExport.js:63-68 | a Track Name meta event: FF 03, the code-unit count, then the code units |
| MidiExport.NoteOnOff | src/midiExport.js:71-89 | a Note On then a Note Off for the note at rounded start and end ticks; channel masked to 0..15; note and velocity clamped to 0..127; a missing velocity becomes 80; the off velocity is 0 |
| MidiExport.SortedEvents | src/midiExport.js:47-92 | the sorted event list holds two meta events plus two per note, and is a permutation of the events in push order |
| MidiExport.MetaEventsFirst | src/midiExport.js:92 | with non-negative note times, the stable sort keeps tempo then name at the front |
| MidiExport.NoteTimesNonNegative | src/midiExport.js:72-73 | notes with non-negative start and duration give events at non-negative ticks |
| MidiExport.NoteEventCounts | src/midiExport.js:71-92 | the sorted events hold exactly one Note On and one Note Off per input note |
| MidiExport.ToDeltas | src/midiExport.js:95-103 | each event keeps its message; the first delta is its time minus the start, and each later delta is its time minus the previous event's time |
| MidiExport.AbsoluteTickOfDeltas | src/midiExport.js:98-103 | summing the delta times back up recovers every event's absolute time |
| MidiExport.DeltasNonNegative | src/midiExport.js:95-103 | with non-negative note times every delta is non-negative: sorting before delta-encoding never produces a backward step |
| MidiExport.SerializeLength | src/midiExport.js:98-103 | a serialized event list is at most 136 bytes per event when each message is at most 131 bytes |
| MidiExport.TrackDataEnd | src/midiExport.js:106-107 | the track data ends with delta 0 and End of Track, 00 FF 2F 00 |
| MidiExport.HeaderBytes | src/midiExport.js:110-116 | the header chunk is "MThd", length 6, format 0, one track, 480 ticks per beat |
| MidiExport.FileOf | src/midiExport.js:118-124 | a file of 22 bytes plus the track: header chunk, "MTrk", the big-endian track length mod 2^32, then the track bytes reduced to 0..255 |
| MidiExport.CreateMidiFile | src/midiExport.js:43-125 | the file is 22 bytes longer than its track data |
| MidiExport.FileHeader | src/midiExport.js:110-122 | every exported file starts with the fixed header chunk and "MTrk", and records the track data length |
| MidiExport.FileEnd | src/midiExport.js:106-124 | every exported file ends with End of Track |
| MidiExport.EmptyTrack | src/midiExport.js:43-125 | with no notes the track is exactly tempo, name and End of Track, each at delta 0 |
| MidiExport.ParseFileOf | src/midiExport.js:109-124 | the independent reader parses the file around any readable track of fewer than 2^32 bytes as format 0, one track, 480 ticks, with that track's events |
| MidiExport.SortedEventsStorable | src/midiExport.js:47-92 | with a name of fewer than 128 code units and notes whose ticks fit, the sorted events are in time order and every one can be stored |
| MidiExport.CreateMidiFileRoundTrip | src/midiExport.js:43-125 | under those conditions the reader parses the exported file as format 0, one track, 480 ticks, with one event per sorted event, each with the same message bytes and absolute tick |
| MidiEvents.PartChannel | src/midiExport.js:153-293 | every part plays on a MIDI channel in 0..15 |
| MidiEvents.KeysNotes | src/midiExport.js:154-166 | the chord is struck on beats 0 and 2 of its slot, 1.5 beats long, velocity 80, channel 0 |
| MidiEvents.PadNotes | src/midiExport.js:169-179 | the chord an octave up on beat 0, 3.8 beats long, velocity 60, channel 1 |
| MidiEvents.StringNotes | src/midiExport.js:182-192 | the chord on beat 0, 3.8 beats long, velocity 55, channel 2 |
| MidiEvents.GuitarNotes | src/midiExport.js:195-205 | the chord arpeggiated, note i 0.15·i beats late, 1.5 beats long, velocity 70, channel 3 |
| MidiEvents.BassNotes | src/midiExport.js:208-220 | note i is the i-th pattern hit before beat 4, in pattern order, at the bass note plus its interval, with its beat and duration, velocity 95, channel 4 |
| MidiEvents.MelodyNotes | src/midiExport.js:223-236 | the first min(4, n) chord notes an octave up on beats 0, 0.5, 1.5 and 2.5, 0.4 beats long, velocity 85, channel 5 |
| MidiEvents.DrumHits | src/midiExport.js:241-291 | note i is struck on the i-th beat before beat 4, in pattern order, with the voice's note, duration and velocity on channel 9 |
| MidiEvents.DrumNotes | src/midiExport.js:239-293 | one channel-9 note per kick, snare, closed and open hi-hat beat before beat 4 |
| MidiEvents.DrumNotesInOrder | src/midiExport.js:239-293 | four consecutive runs: kicks (36, 0.25 beats, velocity 100), snares (38, 0.2, 90), closed hi-hats (42, 0.1, 65) and open hi-hats (46, 0.2, 60), each the voice's beats before beat 4 in pattern order |
| MidiEvents.PartNotes | src/midiExport.js:153-293 | each part's notes for one chord are all on that part's channel |
| MidiEvents.SelectsOnly | src/midiExport.js:154-239 | an export type other than "full" selects exactly one part |
| MidiEvents.SinglePartIsChannel | src/midiExport.js:145-297 | exporting one part gives exactly the notes of the full export on that part's channel, in the same order |
| MidiEvents.SinglePartCount | src/midiExport.js:150-294 | a single-part export holds exactly that part's notes for every chord |
| MidiEvents.ChordsExportCount | src/midiExport.js:154-166 | the "chords" export has two notes per chord note |
| MidiEvents.ChordsExportNotes | src/midiExport.js:150-166 | in the "chords" export, chord i contributes exactly its keys notes starting on beat 4i |
| MidiEvents.DrumsExportNotes | src/midiExport.js:150-293 | in the "drums" export, chord i contributes exactly the pattern's drum notes starting on beat 4i |
| MidiEvents.BassExportNotes | src/midiExport.js:150-220 | in the "bass" export, chord i contributes exactly its bass notes starting on beat 4i |
| MidiEvents.DrumsExportCount | src/midiExport.js:239-293 | the "drums" export has, per chord, the pattern's hits that fall before beat 4 |
| MidiEvents.PartWindow | src/midiExport.js:150-293 | with non-negative pattern beats, every part but the guitar sounds inside its chord's four beats |
| MidiEvents.GuitarWindow | src/midiExport.js:195-205 | the guitar arpeggio starts on the chord and ends 0.15·(n - 1) beats later |
| MidiExportLegacy.ToVlq | midiExport.js:4-12 | the shifting loop produces exactly the bytes of the variable-length encoding |
| MidiExportLegacy.OnOff | midiExport.js:38-56 | a note gives an on and an off event at the rounded ticks; the status is 0x90 or 0x80 plus the unmasked channel, so these are note events only for channels 0..15; a missing velocity becomes 100 |
| MidiExportLegacy.NoteEvents | midiExport.js:34-59 | two events per note, a permutation of the on/off pairs of the notes sorted by start |
| MidiExportLegacy.DefaultTempo | midiExport.js:15-24 | without a `bpm` argument the tempo is 90, written as round(666666.67) = 666667 microseconds per beat, 0A 2C 2B |
| MidiExportLegacy.NameData | midiExport.js:30-31 | the name event carries one byte per code point: the first UTF-16 unit of each |
| MidiExportLegacy.TrackEvents | midiExport.js:20-70 | tempo, name, two events per note and End of Track |
| MidiExportLegacy.TrackEventsAsDeltas | midiExport.js:61-70 | the legacy track events are the delta encoding of the timed events followed by End of Track |
| MidiExportLegacy.TrackDataAsDeltas | midiExport.js:73-76 | the legacy track data is byte for byte the same serialization as the newer writer's |
| MidiExportLegacy.HeaderAndTagBytes | midiExport.js:79-87 | the literal header is "MThd", length 6, format 0, one track, 480 ticks, then "MTrk" |
| MidiExportLegacy.SameLayout | midiExport.js:79-95 | the legacy file has the same chunk layout as the newer writer's file around its own track data |
| MidiExportLegacy.NoteEventCounts | midiExport.js:38-59 | for channels 0..15 there is exactly one Note On and one Note Off per note |
| MidiExportLegacy.TimedStorable | midiExport.js:23-59 | with a short name and playable notes the events are in time order and all storable |
| MidiExportLegacy.CreateMidiFileRoundTrip | midiExport.js:15-96 | the reader parses the legacy file as format 0, one track, 480 ticks; the first two events are tempo and name at tick 0, and every event keeps its bytes and absolute tick |
| MidiExportLegacy.ChordBlock | midiExport.js:115-126 | every chord tone starts at the chord's beat, lasts beatsPerChord - 0.25, on channel 0 |
| MidiExportLegacy.ChordMidiNotes | midiExport.js:112-130 | one note per chord tone over all chords |
| MidiExportLegacy.ChordNotesPlaced | midiExport.js:112-130 | tone j of chord i sits at its running position with start i·beatsPerChord |
| MidiExportLegacy.Offset | midiExport.js:140-141 | a rhythm entry that is present and non-zero is used; otherwise the offset is i·0.5 |
| MidiExportLegacy.DefaultRhythmOffsets | midiExport.js:140-141 | with the default rhythm every offset is i·0.5, because the zero first entry falls back to 0 |
| MidiExportLegacy.MelodyBlock | midiExport.js:139-150 | melody note j starts at the chord's beat plus its rhythm offset, 0.4 beats long, channel 1 |
| MidiExportLegacy.MelodyMidiNotes | midiExport.js:133-154 | one note per melody note over all chords |
| MidiExportLegacy.MelodyNotesPlaced | midiExport.js:133-154 | melody note j of chord i sits at its running position with the offset rule above |
| MidiExportLegacy.BassPair | midiExport.js:162-180 | two bass notes per chord |
| MidiExportLegacy.BassNotesPlaced | midiExport.js:157-184 | chord i gives the root at octave 2 on its first beat, velocity 100, and the fifth above two beats later, velocity 90, both 1.5 beats on channel 2 |
| MidiExportLegacy.Hits | midiExport.js:195-236 | one channel-9 note per pattern beat, offset by the bar start |
| MidiExportLegacy.BarHits | midiExport.js:194-236 | a bar is four consecutive runs: kicks (36, 0.25 beats, velocity 100), snares (38, 0.25, 90), closed hi-hats (42, 0.1, 60) and open hi-hats (46, 0.2, 70), every beat in order on channel 9; absent exactly when the open hi-hat list is |
| MidiExportLegacy.DrumMidiNotes | midiExport.js:187-240 | the call fails exactly when there is at least one bar and no open hi-hat list, and gives no notes for a non-positive bar count |
| MidiExportLegacy.BarsOf | midiExport.js:191-192 | bar b starts at beat 4b, and a non-positive bar count gives no bars |
| MidiExportLegacy.DrumNotesPlaced | midiExport.js:187-240 | with an open hi-hat list, the drum notes are the bar pattern repeated once per bar, bar b at its own slice |
| MidiExportLegacy.DrumChannel | midiExport.js:187-240 | every drum note of a successful call is on channel 9 |
| Notes.NotesShape | src/chordLibrary.js:6 | twelve distinct names, each a letter A-G optionally followed by a sharp |
| Notes.FlatToSharp | src/chordLibrary.js:53-56 | a flat root is normalised to a name in the table |
| Notes.FlatOfNatural | src/chordLibrary.js:53-56 | a letter with a flat becomes the sharp name one semitone below the letter |
| ChordLibrary.SplitOf | src/chordLibrary.js:10-12 | a note name and a one-digit octave, optionally negative, are matched back into those two parts |
| ChordLibrary.SplitInverse | src/chordLibrary.js:10-12 | every accepted name is exactly a note name and its octave text (or the octave written "-0") |
| ChordLibrary.NoteNameToMidiOf | src/chordLibrary.js:9-16 | the name of pitch class pc in octave o converts to (o + 1)·12 + pc, middle C being 60 |
| ChordLibrary.NoteNameMinusZero | src/chordLibrary.js:9-16 | octave "-0" reads as octave 0 |
| ChordLibrary.NoteNameFallback | src/chordLibrary.js:9-16 | any input is either such a name or converts to the fallback 60 |
| ChordLibrary.ChordTypesShape | src/chordLibrary.js:19-36 | every chord type has at least three intervals, starting at 0, strictly ascending |
| ChordLibrary.KeysOfTable | src/chordLibrary.js:19-36 | the chord-type keys in declaration order |
| ChordLibrary.MatchWith | src/chordLibrary.js:47-49 | a match splits the name into a root and a listed suffix, and there is no match exactly when no root length leaves a listed suffix |
| ChordLibrary.ParseChordName | src/chordLibrary.js:39-71 | the result is always a known chord type, and an unmatched name defaults to C major 7 |
| ChordLibrary.SuffixesAreTypes | src/chordLibrary.js:42-63 | every accepted suffix, after the short-form map, names a chord type |
| ChordLibrary.ParseChordSymbol | src/chordLibrary.js:39-71 | a note name followed by any accepted suffix parses back to that root and the normalised type |
| ChordLibrary.ParseFlatSymbol | src/chordLibrary.js:39-71 | a letter, a flat and an accepted suffix parse to the sharp name a semitone below and the normalised type |
| ChordLibrary.Voiced | src/chordLibrary.js:76-89 | the chord's notes are the root MIDI note plus each interval, strictly ascending, with the bass an octave below the root |
| ChordLibrary.BuildChord | src/chordLibrary.js:74-90 | every built chord has at least three strictly ascending notes and its bass note one octave under the first |
| ChordLibrary.BuildChordOf | src/chordLibrary.js:74-90 | a chord symbol builds the notes pc + 12(octave + 1) + interval of its type, with the bass at pc + 12·octave |
| ChordLibrary.TransposeChord | src/chordLibrary.js:93-101 | every note and the bass move by the interval and nothing else changes; 0 returns the chord |
| ChordLibrary.TransposeBack | src/chordLibrary.js:93-101 | transposing up then down by the same amount gives back the chord |
| ChordLibrary.Tagged | src/chordLibrary.js:287-293 | each progression of an artist is tagged with the artist's key, name and colour |
| ChordLibrary.AllProgressions | src/chordLibrary.js:284-297 | the flat list has one entry per progression over all artists |
| ChordLibrary.AllProgressionsPlaced | src/chordLibrary.js:284-297 | progression j of artist k sits after all earlier artists' progressions, tagged with artist k |
| MusicData.ChordTypesShape | src/musicData.js:4-18 | every chord type has at least three intervals, starting at 0, strictly ascending |
| MusicData.ScalesShape | src/musicData.js:82-91 | every scale has at least five strictly ascending degrees in 0..11 starting at 0 |
| MusicData.KeyOrder | src/musicData.js:170 | Object.keys of the chord-type table lists '13' first, then the others in declaration order |
| MusicData.KeysSuffixFree | src/musicData.js:170-176 | no chord-type key ends with another, so the first matching key is the only one |
| MusicData.TableNumeral | src/musicData.js:161-164 | every numeral of the map is looked up to its semitone offset |
| MusicData.NumeralOffsetOf | src/musicData.js:161-187 | a key in the numeral map gives its offset and any other key gives 0 |
| MusicData.ChordRoot | src/musicData.js:188 | the root is (key + interval) under the truncating `%`; for a non-negative sum it is the pitch class of the sum |
| MusicData.ParseNumeral | src/musicData.js:160-198 | the root lies in -11..11 and, for a non-negative key, is a pitch class whose name is set; the type, its name and intervals come from one table entry |
| MusicData.ParseNumeralWithType | src/musicData.js:166-188 | a numeral followed by a chord-type key gets that type on the numeral's degree |
| MusicData.ParseMinorNumeral | src/musicData.js:178-181 | a numeral followed by "m" or "min" is a minor 7 chord on the numeral's degree |
| MusicData.DominantNumeralQuirk | src/musicData.js:182-187 | a numeral followed by "7" parses as major 7 on the key root, whatever the degree |
| MusicData.InvertedVoices | src/musicData.js:205-207 | after k raises, voice j is raised by one octave per full pass plus one if j < k mod n |
| MusicData.InvertedSum | src/musicData.js:205-207 | each raise adds 12 to the sum of the voices |
| MusicData.WholePasses | src/musicData.js:205-207 | a whole number of passes raises the entire chord by that many octaves |
| MusicData.RaiseVoices | src/musicData.js:205-207 | the in-place raising loop computes the same voices as the step-by-step definition |
| MusicData.GenerateChordMidi | src/musicData.js:201-210 | one note per interval |
| MusicData.ChordMidiSorted | src/musicData.js:209 | the result is in ascending order |
| MusicData.ChordMidiPermutation | src/musicData.js:201-210 | the result is a permutation of the raised voices |
| MusicData.ChordMidiSum | src/musicData.js:201-210 | an inversion count k raises the sum of the chord by 12k |
| MusicData.ChordMidiInversion | src/musicData.js:201-210 | for a chord within an octave, inversion k (below the voice count) is the rotation that moves the lowest k voices up an octave |
| MusicData.ChordMidiRootPosition | src/musicData.js:201-210 | with no inversion an ascending chord is returned unchanged from its base note |
| MusicData.MidiToNoteNameOf | src/musicData.js:213-217 | a non-negative MIDI number names its pitch class and octave floor(m/12) - 1 |
| MusicData.NoteNameRoundTrip | src/musicData.js:213-217 | for 0 <= m < 132, reading back the note name of m with noteNameToMidi gives m |
| MusicData.MidiRoundTrip | src/musicData.js:213-217 | for octaves -1..9, naming the MIDI number of a note name gives back that name |
| MusicData.ScaleIntervals | src/musicData.js:221 | a scale's degrees, falling back to minor pentatonic, are at least five ascending pitch classes from 0 |
| MusicData.ScaleIntervalsOf | src/musicData.js:221 | a known scale gives its table entry and an unknown one gives minor pentatonic |
| MusicData.ScaleNotes | src/musicData.js:222 | for a non-negative root each scale note is the pitch class of root plus degree |
| MusicData.GenerateMelody | src/musicData.js:220-230 | one note per pattern entry |
| MusicData.MelodyNoteOf | src/musicData.js:225-229 | pattern entry p is the scale note at p mod n plus 12 per whole wrap, for negative p too |
| MusicData.MelodyNextOctave | src/musicData.js:225-229 | stepping a pattern entry by the scale length raises the note by one octave |
| MusicData.MelodyInScale | src/musicData.js:220-230 | every melody note has the pitch class of its scale degree |
| MusicData.MelodyFirstOctave | src/musicData.js:220-230 | a pattern entry inside the scale lands in the chosen octave |
| Random.RandomIndex | src/advancedGenerator.js:107 | a random choice picks an index inside the array |
| Random.RandomInt | src/advancedGenerator.js:106 | random(min, max) lies in min..max |
| Random.RandomFloat | src/advancedGenerator.js:108 | randomFloat(min, max) lies in [min, max) |
| AdvancedGenerator.VoicingOf | src/advancedGenerator.js:139 | a known voicing name gives its entry and any other name gives close position |
| AdvancedGenerator.VoicingOfKey | src/advancedGenerator.js:5-13 | every voicing in the table is found by its key |
| AdvancedGenerator.LowerVoices | src/advancedGenerator.js:142-147 | each voice drops one octave per time its index is listed, and indices past the end are ignored |
| AdvancedGenerator.CloseVoicing | src/advancedGenerator.js:138-164 | close position, or an unknown name, leaves the notes unchanged |
| AdvancedGenerator.DropVoicingOf | src/advancedGenerator.js:142-149 | a drop voicing lowers the listed voices an octave and sorts |
| AdvancedGenerator.DropVoicingSorted | src/advancedGenerator.js:142-149 | a drop voicing keeps every voice and returns them ascending |
| AdvancedGenerator.DropVoicingNotes | src/advancedGenerator.js:142-149 | a drop voicing's result is a permutation of the lowered voices |
| AdvancedGenerator.SpreadVoicing | src/advancedGenerator.js:151-153 | spread adds i·floor(12 / n) to voice i |
| AdvancedGenerator.SpreadWithinOctave | src/advancedGenerator.js:151-153 | spread moves each voice up by less than an octave |
| AdvancedGenerator.SpreadAscending | src/advancedGenerator.js:151-153 | spread keeps an ascending chord ascending |
| AdvancedGenerator.ShellVoicing | src/advancedGenerator.js:155-157 | shell keeps root, third and seventh of a four-voice chord, and the first two voices of a smaller one |
| AdvancedGenerator.RootlessVoicing | src/advancedGenerator.js:159-161 | rootless drops the lowest voice |
| AdvancedGenerator.VoicingKeepsVoices | src/advancedGenerator.js:138-164 | every voicing but shell and rootless keeps the number of voices |
| AdvancedGenerator.RhythmsFitBar | src/advancedGenerator.js:16-25 | every chord rhythm's hits start inside the bar and end by beat 4 |
| AdvancedGenerator.BassFitsBar | src/advancedGenerator.js:28-95 | every bass pattern's hits fit the bar and move at most an octave from the root |
| AdvancedGenerator.SubstitutesIn | src/advancedGenerator.js:98-103 | a non-empty substitution list is the table's row for that type |
| AdvancedGenerator.SubstitutesInTable | src/advancedGenerator.js:99-101 | the maj7, min7 and dom7 rows have four entries, each a known chord type |
| AdvancedGenerator.SeventhRowUnused | src/advancedGenerator.js:102 | parseNumeral never yields type '7', so that substitution row is never reached |
| AdvancedGenerator.Substitute | src/advancedGenerator.js:115-126 | the chord is kept or its type is replaced by one of its substitutes found in the table; the root never changes |
| AdvancedGenerator.GenerateChordVariation | src/advancedGenerator.js:111-135 | the root is kept; the inversion is 0..2; the voicing is a table key; with a draw at or above level/2 the chord is unchanged |
| AdvancedGenerator.VariationKeepsTableChord | src/advancedGenerator.js:111-135 | a chord whose type, name and intervals agree with the table still does after variation |
| AdvancedGenerator.SubstitutionHappens | src/advancedGenerator.js:115-126 | below the threshold a maj7, min7 or dom7 chord takes the substitute the draw selects |
| AdvancedGenerator.StyleOf | src/advancedGenerator.js:176-183 | a known style gives its configuration and any other gives balanced |
| AdvancedGenerator.WalkStepAdvances | src/advancedGenerator.js:185-216 | every pass of the melody loop advances the beat by at least a sixteenth |
| AdvancedGenerator.WalkStops | src/advancedGenerator.js:185 | the melody loop has ended once enough passes have moved the beat to 4 |
| AdvancedGenerator.WalkLengths | src/advancedGenerator.js:185-216 | the notes and the rhythm grow together and never pass the requested length |
| AdvancedGenerator.WalkRhythm | src/advancedGenerator.js:185-216 | every recorded onset is before the current beat |
| AdvancedGenerator.DegreeNoteRange | src/advancedGenerator.js:203-207 | the clamped index gives a note from the middle C octave up to the octave above |
| AdvancedGenerator.WalkNotes | src/advancedGenerator.js:185-216 | every melody note stays in that range |
| AdvancedGenerator.RandomMelodyLengths | src/advancedGenerator.js:167-219 | the melody has as many onsets as notes and at most the requested length |
| AdvancedGenerator.RandomMelodyRhythm | src/advancedGenerator.js:167-219 | every onset is before beat 4 |
| AdvancedGenerator.RandomMelodyNotes | src/advancedGenerator.js:167-219 | for a non-negative root every note lies in the scale's melody range |
| AdvancedGenerator.VariationChordOf | src/advancedGenerator.js:236-259 | each varied chord keeps its numeral and the parsed root, and agrees with the table |
| AdvancedGenerator.VariationOf | src/advancedGenerator.js:225-262 | a variation has one chord per numeral, velocity 70..100, swing in [0.05, 0.25), a table rhythm and bass pattern |
| AdvancedGenerator.GenerateProgressionVariations | src/advancedGenerator.js:222-266 | count variations named "Variation 1", "Variation 2", ..., each with those bounds |
| AdvancedGenerator.VariationChords | src/advancedGenerator.js:236-260 | chord i of every variation is numeral i on its parsed root |
| AdvancedGenerator.ArrangedChordOf | src/advancedGenerator.js:291-313 | each arranged chord keeps the parsed root, has inversion 0..2 and a table voicing, and its notes are that voicing applied to the inverted chord |
| AdvancedGenerator.GenerateArrangement | src/advancedGenerator.js:269-333 | tempo 70..100, swing in [0.08, 0.22), table rhythm and bass pattern, one chord per numeral, and melodies and bass lines present exactly when requested, one per chord |
| AdvancedGenerator.ArrangementBass | src/advancedGenerator.js:325-330 | bass line i is the chord's root plus 36, with the arrangement's bass pattern, in 36..47 for a non-negative key |
| AdvancedGenerator.ArrangementMelody | src/advancedGenerator.js:318-322 | each melody has as many onsets as notes, at most 8, all before beat 4 |
| AdvancedGenerator.OptionsCycle | src/advancedGenerator.js:339-348 | styles repeat every 4 versions and scales every 5; the variation level grows by 0.1 per version; bass and melody flags pass through |
| AdvancedGenerator.NumberedArrangement | src/advancedGenerator.js:350-351 | version i is named "Version i+1" and described by its rhythm and bass pattern names |
| AdvancedGenerator.GenerateMultipleArrangements | src/advancedGenerator.js:336-356 | count arrangements, each named and described, with one chord per numeral and tempo 70..100 |
| AdvancedGenerator.MultipleArrangementOf | src/advancedGenerator.js:342-352 | apart from name and description, arrangement i is generateArrangement with the options of version i |
| AdvancedGenerator.HumanizeVelocity | src/advancedGenerator.js:364-366 | the velocity is clamped to 40..127 |
| AdvancedGenerator.HumanizeVelocityNear | src/advancedGenerator.js:364-366 | for a velocity already in 40..127 the change is at most the amount |
| AdvancedGenerator.Humanize | src/advancedGenerator.js:359-361 | the time moves by at most half the amount either way |
| SongStructure.ChordTypesShape | src/songStructure.js:9-122 | every chord type has at least three intervals, starting at 0, strictly ascending |
| SongStructure.TypeMapTargets | src/songStructure.js:743-760 | every entry of the type map names a chord type |
| SongStructure.SongChordType | src/songStructure.js:762 | a mapped suffix gives its type and any other suffix gives maj7 |
| SongStructure.RootLength | src/songStructure.js:731 | the root is the longest prefix that is a letter A-G, an optional sharp and an optional flat; there is none exactly when the name does not start with a letter A-G |
| SongStructure.FirstLine | src/songStructure.js:731 | `.*` stops at the first line terminator |
| SongStructure.BuildChord | src/songStructure.js:730-778 | there is no chord exactly when the name does not start with A-G; otherwise it keeps the name, has a known type and three or more ascending notes with the bass an octave under the first |
| SongStructure.BuildChordOf | src/songStructure.js:730-778 | a note name and a plain suffix build the mapped type's notes on that pitch class, with the bass an octave lower |
| SongStructure.BuildFlatChordOf | src/songStructure.js:736-740 | a flat root builds on the pitch class a semitone below the letter |
| SongStructure.UnknownSuffix | src/songStructure.js:762-766 | an unmapped suffix builds a major 7 chord |
| SongStructure.SongTranspose | src/songStructure.js:781-788 | a missing chord stays missing, and otherwise every note and the bass move by the interval and nothing else changes |
| SongStructure.SongTransposeBack | src/songStructure.js:781-788 | transposing up then down gives back the chord, missing or not |
| SongStructure.TableKeys | src/songStructure.js:125-727 | the keys of the section, structure, drum, bass and artist tables |
| SongStructure.TablesDistinct | src/songStructure.js:125-727 | no table repeats a key |
| SongStructure.ArtistsWellFormed | src/songStructure.js:164-632 | every artist has a valid tempo range, a known structure, drum and bass pattern, and a progression for every section its structure uses |
| SongStructure.StructuresKnown | src/songStructure.js:137-158 | every section a structure lists is a known section type |
| SongStructure.DrumPatternOf | src/songStructure.js:840 | a known drum pattern is looked up and any other falls back to trapSoul |
| SongStructure.BassPatternOf | src/songStructure.js:841 | a known bass pattern is looked up and any other falls back to rootFifth |
| SongStructure.SectionOf | src/songStructure.js:798-821 | a section exists exactly for a known type with progressions; it copies the type's fields, uses one of the artist's progressions and builds and transposes each of its chords |
| SongStructure.Seconds | src/songStructure.js:827 | seconds times tempo equals beats times 60 |
| SongStructure.GenerateSongArrangement | src/songStructure.js:791-846 | a song is generated only for a known artist and keeps its key |
| SongStructure.SongArrangementKnown | src/songStructure.js:791-793 | a song is generated exactly for the artists in the table |
| SongStructure.SongArtist | src/songStructure.js:795-841 | the tempo is within the artist's range; name, swing, structure, drum and bass pattern come from the artist |
| SongStructure.SongSections | src/songStructure.js:798-821 | one section per entry of the structure, each a known type with the type's fields and the artist's transposed chords |
| SongStructure.SongFields | src/songStructure.js:824-839 | total bars are the sum of section bars, total beats four times that, and the duration follows from the tempo |
| SongStructure.SongTotals | src/songStructure.js:824-827 | the total bars are those of the structure's template and the duration is beats / tempo · 60 seconds |
| SongStructure.DurationText | src/songStructure.js:849-853 | the text is minutes, a colon and two-digit seconds below 60 that read back as floor(seconds) |
| SongStructure.SongClock | src/songStructure.js:839-853 | the formatted duration reads back as the whole seconds of the song |

## Left out

- `downloadMidi` in both MIDI files is left out. It only hands bytes to the browser through a Blob and a temporary link.
- The React components, the audio engine and the other files of the repository are not part of this model.
- Floating point: beats, tempi, swing and durations are exact reals. Rounding errors of JavaScript doubles are not modelled. Where the code rounds, `Math.round` and `Math.floor` are modelled exactly.
- `Math.random()` is not called. Every draw is a parameter in [0, 1), and the lemmas hold for every draw.
- Ids built from `Date.now()` and `Math.random().toString(36)` are left out. So are colours, descriptions, moods, style tags, AI hints and melodic notes, which are copied through and never computed on.
- Lookups see only a table's own keys. A key such as `"constructor"` that JavaScript would find on `Object.prototype` is not modelled.
- Inputs the code would throw a TypeError on are modelled as an absent result (`None`). In `generateSongArrangement` this covers an artist whose structure is not in the table, a section type with no definition, and a section whose progression list is empty: `progressions[0]` is then undefined and `.map` throws. These cases cannot arise with the tables as written. In the root `midiExport.js`, `generateDrumMidiNotes` fails the same way for a pattern without an open hi-hat list and at least one bar. An unknown artist is not a throw: the code returns `null`, which is also `None`.
- A drum pattern's kick, snare and closed hi-hat lists are always present in the model. Both exporters read them without a check and would throw if one were missing.
- MidiExport.WriteVlq: the round trip is stated for 0 <= v < 2^31 only, because the 32-bit `>>` turns larger values into a single byte.
- MidiExport.CreateMidiFileRoundTrip: it needs a name of fewer than 128 code units, because the code writes the length as one byte. It also needs tick values that fit a variable-length quantity.
- MidiExportLegacy.CreateMidiFileRoundTrip: it additionally needs channels 0..15 and notes and velocities in 0..127, because the legacy writer neither masks nor clamps them.
- MusicData.NoteNameRoundTrip: the round trip holds only below MIDI 132. Above that the octave needs two digits, which noteNameToMidi does not accept.
- MusicData.ChordMidiInversion: it is stated for inversions below the voice count and chords spanning less than an octave. Larger inversions are covered by InvertedVoices and WholePasses.
- The `octave` parameter of `applyVoicing`, the `bars` option of `generateArrangement` and the `bpm` of `generateMidiEvents` are never read by the code, and the model omits them.
- The data tables `ARTIST_PROGRESSIONS`, `DRUM_PATTERNS` and `BASS_PATTERNS` of `src/chordLibrary.js`, and `RNB_PROGRESSIONS`, `MELODY_PATTERNS` and `CATEGORIES` of `src/musicData.js`, are not transcribed. `getAllProgressions` is stated for any artist table.
- SongStructure.BuildChordOf: it covers only suffixes without a line terminator. For other suffixes BuildChord follows the code's `.*`, which keeps the text up to the first terminator.
