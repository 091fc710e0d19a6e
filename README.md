# Rhythm game and MIDI tools, modelled in Dafny

This project models the game logic of two rhythm-game demos and three MIDI
converters from the same repository.

- **Rhythm_Game.cpp** is a four-lane rhythm game.
  - It loads a chart of tap and hold notes (`readBeatmap`).
  - Each frame (`onAnimate`), it moves notes from a pending FIFO queue into
    an active set once they are within four seconds, and drops active notes
    half a second after they end. A note dropped with an open judgment is
    a MISS.
  - It judges key presses (`onKeyDown`, which writes `hit1`) and key
    releases (`onKeyUp`, which writes `hit2` of hold notes). Timing errors
    are classified as PERF, GOOD, OKAY, MISS or NONE (`getCurrentAccuracy`).
  - It keeps the `combo`, `totalHits` and `lastAccuracy` counters.
- **0Z_SineEnv.cpp** is its single-judgment predecessor. It plays a
  generated grid of one tap per beat (`randBeatmap`) and uses the same
  scheduler and press rule with one `hit` per note. Its `onKeyUp` changes
  no state.
- **MidiReader.java** prints a human-readable dump of a MIDI sequence:
  - note names with octaves;
  - command and controller names;
  - the channel-mismatch warning;
  - SysEx hex;
  - four forms of meta message.
- **MidiToBeatmap.java** turns drum notes 37 and 38 into chart lines that
  the game's loader reads.
- **MidiToSynthSequence2.java** turns every note into a pair of SineEnv
  voices (a sounding one and a silent echo), written as `+`/`-` lines.
- All three Java tools share `bytesToHex`, the upper-case Base16 encoding of
  section 8 of RFC 4648.

Layout, one module per file:

| file | module | models |
|---|---|---|
| hex.dfy | Base16 | `bytesToHex` and Java's signed bytes |
| decimal.dfy | Decimal | `Integer.toString` / string concatenation of integers |
| judgment.dfy | Judgment | `Quality`, `getCurrentAccuracy`, `keyToID`, the press tie-break, the counters |
| scheduling.dfy | Scheduling | the activation window and the expiry order (`NoteDataCompare`) |
| chart.dfy | Chart | a chart line, as written by the converter and read by the game |
| rhythm_notes.dfy | RhythmNotes | `NoteData`, the chart parse of `readBeatmap`, the sort by `NoteDataCompare2` |
| rhythm_game.dfy | RhythmGame | `MyApp` of Rhythm_Game.cpp as a class `Game` |
| sine_env.dfy | SineEnv | `MyApp` of 0Z_SineEnv.cpp as a class `Game` |
| midi.dfy | Midi | MIDI messages, events, tempo and the converters' clock |
| midi_reader.dfy | MidiReader | MidiReader.java |
| midi_to_beatmap.dfy | MidiToBeatmap | MidiToBeatmap.java |
| midi_to_synth_sequence.dfy | MidiToSynthSequence | MidiToSynthSequence2.java |

How the model is built:
- Times are reals.
- The game state is a class. Its pending queue and active notes are
  sequence fields that the methods reassign.
- Two ghost fields record every judgment made and every note that left the
  screen. The class invariant says the counters are the replay of those
  judgments (`Judgment.Replay`).
- Each handler is a method whose `ensures` ties the new state to a pure
  function of the old state (`JudgePress`, `JudgeRelease`, `Due`, `Expire`,
  `ParseChart`, `SortByStart`). The lemmas state what those functions
  promise.
- The converters' nested loops are methods, proved equal to functions over
  the tracks (`SongRun`, `SongDump`). One helper method handles one event.

Two behaviours of the code worth knowing, both modelled as written:
- `readBeatmap` has no error path: `atoi`/`atof` never fail, and a `+` on
  the last line keeps the previous tokens and becomes a tap
  (`RhythmNotes.ParseChart`, `RhythmNotes.ParseTrailingHold`).
- The press tie-break depends on scan order: the first candidate scanned
  is replaced only by a strictly earlier note of no worse accuracy
  (`Judgment.ScanOrderDecides`).

## Model

| member | source | states |
|---|---|---|
| Base16.BytesToHex | MidiParser/src/MidiReader.java:185-193 | the array it fills is the reference encoding `Hex`: two digits per byte |
| Base16.Unsigned | MidiParser/src/MidiReader.java:188 | `b & 0xFF` lies in 0..255 and is congruent to the signed byte modulo 256 |
| Base16.HexAt | MidiParser/src/MidiReader.java:186-191 | the encoding has 2n characters; characters 2j and 2j+1 are the upper-case digits of the high and low nibble of unsigned byte j |
| Base16.HexConcat | MidiParser/src/MidiToBeatmap.java:7-16 | the encoding of a concatenation is the concatenation of the encodings |
| Base16.HexPrefix | MidiParser/src/MidiToSynthSequence2.java:73-75 | the first 2k hex digits encode the first k bytes, which is what a prefix test on the hex looks at |
| Base16.UnhexHex | MidiParser/src/MidiToSynthSequence2.java:7-16 | decoding the hex gives back the unsigned byte values |
| Base16.HexInjective | MidiParser/src/MidiReader.java:185-193 | two byte arrays with the same hex are equal |
| Decimal.ParseIntToString | MidiParser/src/MidiToSynthSequence2.java:54 | the decimal rendering of any int reads back as that int |
| Decimal.IntToStringInjective | MidiParser/src/MidiToSynthSequence2.java:61 | distinct ints render differently |
| Judgment.AccuracyTiers | tutorials/synthesis/Rhythm_Game.cpp:507-514 | PERF iff the error is < 0.025, GOOD iff in [0.025, 0.05), OKAY iff in [0.05, 0.1), MISS iff ≥ 0.1 and (< 0.2 or a release), NONE iff a press with error ≥ 0.2 |
| Judgment.ReleaseNeverNone | tutorials/synthesis/Rhythm_Game.cpp:512 | a release is never NONE; it equals the press judgment at the same distance, with NONE turned into MISS |
| Judgment.CloserIsNotWorse | tutorials/synthesis/Rhythm_Game.cpp:508-513 | a smaller timing error never gives a lower quality |
| Judgment.KeyToId | tutorials/synthesis/Rhythm_Game.cpp:23-35 | -1 exactly for non-arrow keys; arrows map into lanes 1..4 (0Z_SineEnv.cpp:21-33 is identical) |
| Judgment.KeyToIdInjective | tutorials/synthesis/Rhythm_Game.cpp:24-33 | distinct arrows give distinct lanes |
| Judgment.PickUpTo | tutorials/synthesis/Rhythm_Game.cpp:522-534 | a chosen note is a same-lane note with an open press, and its quality is its own press accuracy |
| Judgment.PickExistsIff | tutorials/synthesis/Rhythm_Game.cpp:519-535 | a note is chosen iff the lane has a note with an open press |
| Judgment.PickUndominated | tutorials/synthesis/Rhythm_Game.cpp:529-532 | whatever the scan order, no candidate starts strictly earlier than the chosen note with an accuracy at least as good |
| Judgment.PickNoWorseThanFirst | tutorials/synthesis/Rhythm_Game.cpp:524-532 | the chosen note is the first candidate scanned, or starts strictly earlier with an accuracy at least as good |
| Judgment.DominatesTransitive | tutorials/synthesis/Rhythm_Game.cpp:529 | the replacement test is transitive |
| Judgment.ScanOrderDecides | tutorials/synthesis/Rhythm_Game.cpp:529 | notes at 1.0 s and 1.2 s pressed at 1.18 s: the first one scanned is chosen (MISS for the 1.0 s note, PERF for the 1.2 s note) |
| Judgment.Commit | tutorials/synthesis/Rhythm_Game.cpp:536-554 | the judgment becomes the last accuracy; MISS zeroes the combo and keeps the hit count; a hit adds one to both; NONE changes neither |
| Judgment.TotalHitsCountsHits | tutorials/synthesis/Rhythm_Game.cpp:243-245 | after any run of judgments, `totalHits` is the number of hits among them and `lastAccuracy` is the last judgment |
| Judgment.ComboWithoutMiss | tutorials/synthesis/Rhythm_Game.cpp:545 | with no MISS in a run, the combo grows by its number of hits |
| Judgment.ComboSinceLastMiss | tutorials/synthesis/Rhythm_Game.cpp:539 | after a MISS, the combo is the number of hits since the last MISS |
| Scheduling.Due | tutorials/synthesis/Rhythm_Game.cpp:322 | the notes moved are the longest prefix of the queue with start ≤ now + 4; the next one, if any, starts later |
| Scheduling.DueOnSorted | tutorials/synthesis/Rhythm_Game.cpp:322-327 | on a queue ordered by start time, every note left pending starts after now + 4 |
| Scheduling.DueMonotone | tutorials/synthesis/Rhythm_Game.cpp:320-322 | a later clock never activates fewer notes |
| Scheduling.MinIndex | tutorials/synthesis/Rhythm_Game.cpp:52-56 | the note at the top of the expiry order ends no later than any other (by end time, then start time) |
| Scheduling.RemoveAt | tutorials/synthesis/Rhythm_Game.cpp:339 | removing one note keeps all the others, in order |
| Scheduling.ExpireSplits | tutorials/synthesis/Rhythm_Game.cpp:330-341 | the expiry pass splits the active notes into remaining and expired, losing and inventing none |
| Scheduling.ExpireBounds | tutorials/synthesis/Rhythm_Game.cpp:330 | every expired note ended at or before now − 0.5, and every remaining note ends after it |
| Scheduling.ExpireInOrder | tutorials/synthesis/Rhythm_Game.cpp:329-340 | notes expire in order of end time, then start time |
| RhythmNotes.ParseChart | tutorials/synthesis/Rhythm_Game.cpp:277-303 | the loader makes at most one note per line, and every note starts unjudged |
| RhythmNotes.ParseCount | tutorials/synthesis/Rhythm_Game.cpp:280-302 | when every `+` line is followed by a closing line, there is exactly one note per `@` line and one per `+` line |
| RhythmNotes.ParseTapsOnly | tutorials/synthesis/Rhythm_Game.cpp:280-288 | a chart of `@` lines gives, line by line, taps in the line's lane with start = end = time + 2.08 and both judgments NONE |
| RhythmNotes.ParseHolds | tutorials/synthesis/Rhythm_Game.cpp:277-303 | when every `+` line has a line after it that opens no note, the k-th note is the one opened by the k-th `@` or `+` line: a tap at that line's time + 2.08, or a hold with the `+` line's lane and start and the next line's time + 2.08 as end, whatever that line's marker |
| RhythmNotes.ParseTrailingHold | tutorials/synthesis/Rhythm_Game.cpp:289-302 | a `+` on the last line adds one note after the others, in its lane, that ends where it starts |
| RhythmNotes.InsertByStart | tutorials/synthesis/Rhythm_Game.cpp:58-62 | inserting into a start-ordered list keeps it ordered and adds exactly that note |
| RhythmNotes.SortByStart | tutorials/synthesis/Rhythm_Game.cpp:305 | the result is ordered by start time and is a permutation of the input |
| RhythmGame.ForceResolve | tutorials/synthesis/Rhythm_Game.cpp:331-333 | an expired note leaves fully judged, and is changed exactly when it had an open judgment |
| RhythmGame.ForceResolveSettles | tutorials/synthesis/Rhythm_Game.cpp:331-333 | expiry never changes lane, times or a judgment already given |
| RhythmGame.FinalizeFullyJudged | tutorials/synthesis/Rhythm_Game.cpp:330-341 | every note that leaves the screen has its press and, if a hold, its release judged |
| RhythmGame.ForcedMissesScore | tutorials/synthesis/Rhythm_Game.cpp:331-335 | an expiry pass zeroes the combo and shows MISS iff some expired note had an open judgment; the hit count never changes |
| RhythmGame.PressEffect | tutorials/synthesis/Rhythm_Game.cpp:519-536 | a press judges at most one note, only an open note of its lane, with that note's press accuracy. It never changes an earlier judgment. A note is judged iff the lane has an open note; with none, nothing changes |
| RhythmGame.PressKeepsCoherent | tutorials/synthesis/Rhythm_Game.cpp:536 | after a press, every released note still has a scoring press |
| RhythmGame.ReleaseIndex | tutorials/synthesis/Rhythm_Game.cpp:567-568 | the released note is the first note in scan order of the lane that is a hold, pressed with a hit and not yet released |
| RhythmGame.ReleaseIndexIsFirst | tutorials/synthesis/Rhythm_Game.cpp:567-576 | that first position is unique |
| RhythmGame.ReleaseEffect | tutorials/synthesis/Rhythm_Game.cpp:563-590 | a release changes at most one note: the first releasable note of the lane, which becomes fully judged with `hit2` = the release accuracy at its end time (never NONE). That judgment is shown. A MISS zeroes the combo and keeps the hit count; any other judgment adds one to both. Some note changes iff the lane has a releasable note; with none, nothing changes |
| RhythmGame.ReleaseExample | tutorials/synthesis/Rhythm_Game.cpp:567-585 | a hold ending at 3.0 s, pressed PERF and released at 3.03 s, is judged GOOD; combo and hit count go from 4 to 5 |
| RhythmGame.SortKeepsUnjudged | tutorials/synthesis/Rhythm_Game.cpp:305-308 | the sorted chart notes are still unjudged |
| RhythmGame.Game.constructor | tutorials/synthesis/Rhythm_Game.cpp:242-247 | clock 0, combo 0, no hits, last accuracy NONE, both note lists empty |
| RhythmGame.Game.ReadChart | tutorials/synthesis/Rhythm_Game.cpp:277-303 | the reading loop yields exactly `ParseChart` of the lines |
| RhythmGame.Game.Load | tutorials/synthesis/Rhythm_Game.cpp:270-309 | the queue grows by the parsed notes sorted by start time; nothing else changes |
| RhythmGame.Game.Enqueue | tutorials/synthesis/Rhythm_Game.cpp:306-308 | the notes are appended to the queue in order |
| RhythmGame.Game.Advance | tutorials/synthesis/Rhythm_Game.cpp:316-342 | the clock is set; the due prefix of the queue joins the active notes; the expiry pass runs, recording one MISS per expired note with an open judgment |
| RhythmGame.Game.Activate | tutorials/synthesis/Rhythm_Game.cpp:322-327 | the due prefix of the queue moves, in FIFO order, to the end of the active notes; on a queue ordered by start time, every note left pending starts after now + 4 |
| RhythmGame.Game.ExpireDue | tutorials/synthesis/Rhythm_Game.cpp:329-341 | the active notes become those that stay after `Expire`; each expired note is recorded in its final state |
| RhythmGame.Game.DropAt | tutorials/synthesis/Rhythm_Game.cpp:330-340 | the note leaves; if it had an open judgment, that judgment becomes MISS, the combo is zeroed and MISS is recorded |
| RhythmGame.Game.ChooseNote | tutorials/synthesis/Rhythm_Game.cpp:519-534 | the scan's result is `PressPick` of the active notes |
| RhythmGame.Game.OnKeyDown | tutorials/synthesis/Rhythm_Game.cpp:516-561 | a non-arrow key changes nothing; an arrow key makes the notes and counters `JudgePress` of the old ones and records the judgment |
| RhythmGame.Game.RecordPress | tutorials/synthesis/Rhythm_Game.cpp:535-555 | the chosen note gets the press judgment and the counters are `Commit`ted |
| RhythmGame.Game.RecordRelease | tutorials/synthesis/Rhythm_Game.cpp:569-588 | the released note gets the release judgment and the counters are `Commit`ted |
| RhythmGame.Game.OnKeyUp | tutorials/synthesis/Rhythm_Game.cpp:563-594 | a non-arrow key changes nothing; an arrow key makes the notes and counters `JudgeRelease` of the old ones and records the judgment, if any |
| SineEnv.BeatCountIsLoopBound | tutorials/synthesis/0Z_SineEnv.cpp:219 | the loop condition `beat * beatLen < songLen` holds exactly for beats 0..332 |
| SineEnv.Beatmap | tutorials/synthesis/0Z_SineEnv.cpp:218-227 | 333 notes; note b is the tap at b · beatLen + 0.92 in the lane drawn for beat b |
| SineEnv.BeatmapNotes | tutorials/synthesis/0Z_SineEnv.cpp:220-224 | every generated note is an unjudged tap in lanes 1..4 starting in [0.92, 135.92) |
| SineEnv.BeatmapInOrder | tutorials/synthesis/0Z_SineEnv.cpp:222 | notes start exactly one beat apart, so strictly increasing |
| SineEnv.CurrentAccuracy | tutorials/synthesis/0Z_SineEnv.cpp:360-367 | each of the five tiers holds iff the start-time error is in its window |
| SineEnv.Settle | tutorials/synthesis/0Z_SineEnv.cpp:248-249 | an expired note leaves judged; only an unjudged one changes, and only its judgment |
| SineEnv.FinalizeJudged | tutorials/synthesis/0Z_SineEnv.cpp:247-255 | every note that leaves the screen is judged |
| SineEnv.MissesScore | tutorials/synthesis/0Z_SineEnv.cpp:248-252 | an expiry pass zeroes the combo and shows MISS iff some expired note was unjudged; the hit count never changes |
| SineEnv.PressEffect | tutorials/synthesis/0Z_SineEnv.cpp:376-409 | a press judges at most one unjudged note of its lane, with its accuracy. A note is chosen iff one exists. A NONE judgment leaves the notes, combo and hit count unchanged |
| SineEnv.Game.constructor | tutorials/synthesis/0Z_SineEnv.cpp:191-196 | clock 0, combo 0, no hits, last accuracy NONE, both note lists empty |
| SineEnv.Game.RandBeatmap | tutorials/synthesis/0Z_SineEnv.cpp:218-227 | the queue grows by exactly `Beatmap` of the lane draws |
| SineEnv.Game.Advance | tutorials/synthesis/0Z_SineEnv.cpp:234-256 | the clock is set; the due prefix joins the active notes; the expiry pass runs, recording one MISS per unjudged expired note |
| SineEnv.Game.Activate | tutorials/synthesis/0Z_SineEnv.cpp:240-245 | the due prefix moves in FIFO order; afterwards the queue is empty or its front starts after now + 4 |
| SineEnv.Game.ExpireDue | tutorials/synthesis/0Z_SineEnv.cpp:246-255 | the active notes become those that stay after `Expire`; each expired note is recorded settled |
| SineEnv.Game.DropAt | tutorials/synthesis/0Z_SineEnv.cpp:247-254 | the note leaves; if unjudged, it becomes MISS, the combo is zeroed and MISS is recorded |
| SineEnv.Game.ChooseNote | tutorials/synthesis/0Z_SineEnv.cpp:373-388 | the scan's result is `PressPick` of the active notes |
| SineEnv.Game.OnKeyDown | tutorials/synthesis/0Z_SineEnv.cpp:369-414 | a non-arrow key changes nothing; an arrow key makes the notes and counters `JudgePress` of the old ones |
| SineEnv.Game.RecordPress | tutorials/synthesis/0Z_SineEnv.cpp:389-409 | the chosen note gets the judgment and the counters are `Commit`ted |
| SineEnv.Game.OnKeyUp | tutorials/synthesis/0Z_SineEnv.cpp:416-422 | reports the key handled and changes no state (it has no `modifies` clause) |
| Midi.Command | MidiParser/src/MidiReader.java:38 | `getCommand` is a multiple of 16 between 0x80 and the status byte |
| Midi.Channel | MidiParser/src/MidiReader.java:66 | `getChannel` is in 0..15 |
| Midi.CommandChannel | MidiParser/src/MidiReader.java:38 | the command plus the channel is the status byte |
| Midi.NoteStartsIff | MidiParser/src/MidiToBeatmap.java:54-57 | a note starts iff it is NOTE_ON with velocity > 0; no message both starts and ends a note |
| Midi.ReadVarLenOfVarLen | MidiParser/src/MidiReader.java:122 | the length field of a meta message's bytes reads back as the data length |
| Midi.MetaBytes | MidiParser/src/MidiToBeatmap.java:64 | a meta message's bytes start with FF and the type, end with the data, and the bytes between them read back, as a variable-length quantity, as the data length |
| Midi.TempoMetaIff | MidiParser/src/MidiToBeatmap.java:66 | the hex starts with FF5103 iff the type is 0x51 with three data bytes |
| Midi.EndOfTrackIff | MidiParser/src/MidiReader.java:125 | the hex starts with FF2F00 iff the type is 0x2F with no data |
| Midi.TrackNameIff | MidiParser/src/MidiReader.java:135 | the hex starts with FF03 iff the type is 3 |
| Midi.Micros | MidiParser/src/MidiToBeatmap.java:67 | `Long.decode("0x" + hex)` is the big-endian unsigned value, below 256 to the number of bytes |
| Midi.TempoOf | MidiParser/src/MidiToBeatmap.java:67 | the rounded tempo is at least 4 BPM for every 24-bit value (zero gives `Long.MAX_VALUE`) |
| Midi.TempoExamples | MidiParser/src/MidiToSynthSequence2.java:76 | 500000 µs is 120 BPM, 400000 µs 150 BPM, 600000 µs 100 BPM |
| Midi.Tick | MidiParser/src/MidiToBeatmap.java:45-46 | advancing to an event keeps the tempo and sets `prevTick` to its tick |
| Midi.Retempo | MidiParser/src/MidiToBeatmap.java:62-68 | only a tempo change changes the tempo, and never the time or tick |
| Midi.ClockStep | MidiParser/src/MidiToSynthSequence2.java:44-45 | after an event the tempo is positive and `prevTick` is the event's tick |
| Midi.ClockAfter | MidiParser/src/MidiToBeatmap.java:41-46 | after a run of events the tempo is positive and `prevTick` is the last event's tick |
| Midi.ClockAfterConcat | MidiParser/src/MidiToBeatmap.java:34-46 | the clock is never reset between tracks: two runs walked in turn are their concatenation |
| Midi.ClockTelescopes | MidiParser/src/MidiToBeatmap.java:45 | at constant tempo the time after a run is the time before plus seconds per tick times (last tick − prevTick) |
| Midi.SongTimeAtConstantTempo | MidiParser/src/MidiToSynthSequence2.java:33-45 | with no tempo change, the time at an event is tick / (2 · resolution), the 120 BPM start tempo |
| Midi.TimeRunsBack | MidiParser/src/MidiToBeatmap.java:35-46 | an event at an earlier tick than `prevTick` moves the time backwards |
| MidiToBeatmap.EventLinesIff | MidiParser/src/MidiToBeatmap.java:54-60 | note-on 37 writes `@`, note-on 38 `+`, note-off 38 (or note-on 38 at velocity 0) `-`; nothing else writes a line |
| MidiToBeatmap.EventStep | MidiParser/src/MidiToBeatmap.java:45-68 | the clock steps over the event and its line is stamped with the time reached before any tempo change |
| MidiToBeatmap.TrackRun | MidiParser/src/MidiToBeatmap.java:41-69 | after a track the clock is `ClockAfter` of its events |
| MidiToBeatmap.SongRun | MidiParser/src/MidiToBeatmap.java:39-70 | after the song the clock is `ClockAfter` of all tracks' events in order |
| MidiToBeatmap.TrackRunLanes | MidiParser/src/MidiToBeatmap.java:55-59 | every line a track writes is in that track's lane |
| MidiToBeatmap.BeatmapLanes | MidiParser/src/MidiToBeatmap.java:37-40 | every chart line's lane is a 1-based track index, and its marker is `@`, `+` or `-` |
| MidiToBeatmap.TrackRunTaps | MidiParser/src/MidiToBeatmap.java:58 | a track without note 38 writes only taps |
| MidiToBeatmap.SongRunTaps | MidiParser/src/MidiToBeatmap.java:58 | a song none of whose tracks holds note 38 writes only taps |
| MidiToBeatmap.TapsOnlyLoad | MidiParser/src/MidiToBeatmap.java:57-59 | a song without note 38 gives a chart that the game's loader reads back line by line as taps at the line's time plus 2.08 |
| MidiToBeatmap.LastLineTime | MidiParser/src/MidiToBeatmap.java:45-58 | with no tempo change, a line written by the song's last event is last and stamped tick / (2 · resolution) |
| MidiToBeatmap.Run | MidiParser/src/MidiToBeatmap.java:23-72 | the loops write exactly `Beatmap` of the sequence |
| MidiToBeatmap.RunTrack | MidiParser/src/MidiToBeatmap.java:41-69 | the inner loop yields `TrackRun` from the clock it starts with |
| MidiToBeatmap.HandleEvent | MidiParser/src/MidiToBeatmap.java:42-68 | one event yields `EventStep` |
| MidiToSynthSequence.Id | MidiParser/src/MidiToSynthSequence2.java:54 | an id is at least two characters: the track number, then the note number |
| MidiToSynthSequence.EventLinesIff | MidiParser/src/MidiToSynthSequence2.java:53-69 | note-on with velocity > 0 iff two start lines; note-off or note-on at velocity 0 iff two stop lines; other events iff nothing |
| MidiToSynthSequence.EventLinesPaired | MidiParser/src/MidiToSynthSequence2.java:53-68 | an event's lines form pairs: the voice `Delay` seconds after its echo, echo id "99" + voice id, and a silent echo of the same note |
| MidiToSynthSequence.OnOffShareIds | MidiParser/src/MidiToSynthSequence2.java:54-66 | the start and stop lines of one note in one track carry the same two ids |
| MidiToSynthSequence.IdCollision | MidiParser/src/MidiToSynthSequence2.java:61 | ids are not injective: track 1 note 23 and track 12 note 3 both give "123" |
| MidiToSynthSequence.EventStep | MidiParser/src/MidiToSynthSequence2.java:44-76 | the clock steps over the event and its lines are stamped with the time reached before any tempo change |
| MidiToSynthSequence.TrackRun | MidiParser/src/MidiToSynthSequence2.java:40-78 | after a track the clock is `ClockAfter` of its events |
| MidiToSynthSequence.SongRun | MidiParser/src/MidiToSynthSequence2.java:38-80 | after the song the clock is `ClockAfter` of all tracks' events in order |
| MidiToSynthSequence.TrackRunPaired | MidiParser/src/MidiToSynthSequence2.java:40-78 | a track's lines are made of whole voice/echo pairs |
| MidiToSynthSequence.TrackRunCounts | MidiParser/src/MidiToSynthSequence2.java:53-69 | a track writes two start lines per note-on, two stop lines per note-off, and no empty line |
| MidiToSynthSequence.SongRunCounts | MidiParser/src/MidiToSynthSequence2.java:38-80 | the file has exactly one empty line per track, two start lines per note-on and two stop lines per note-off |
| MidiToSynthSequence.Run | MidiParser/src/MidiToSynthSequence2.java:23-82 | the loops write exactly `SynthSequence` of the sequence |
| MidiToSynthSequence.RunTrack | MidiParser/src/MidiToSynthSequence2.java:40-78 | the inner loop yields `TrackRun` from the clock it starts with |
| MidiToSynthSequence.HandleEvent | MidiParser/src/MidiToSynthSequence2.java:41-77 | one event yields `EventStep` |
| MidiReader.NoteLabelRoundTrip | MidiParser/src/MidiReader.java:69-72 | every note label reads back as its note, so `NOTE_NAMES` is indexed in bounds and labels identify notes |
| MidiReader.NoteLabelInjective | MidiParser/src/MidiReader.java:70-72 | distinct notes get distinct labels |
| MidiReader.NoteLabelExamples | MidiParser/src/MidiReader.java:5-7 | 60 is C4, 69 is A4, 0 is C-1 |
| MidiReader.CommandNameIff | MidiParser/src/MidiReader.java:39-63 | "OTHER" iff not one of the seven channel commands; the seven names are distinct |
| MidiReader.ControllerNameIff | MidiParser/src/MidiReader.java:79-107 | a controller has a name iff it is 1, 6, 7, 10, 11, 38, 100 or 101, and no two share one |
| MidiReader.ChannelMarkIff | MidiParser/src/MidiReader.java:66-68 | the NO MATCH warning is printed iff the channel is not the track number − 1 |
| MidiReader.ChannelMarkNames | MidiParser/src/MidiReader.java:67 | the warning is the track index, then "-NO MATCH-", the channel and a space |
| MidiReader.ShortTextNotes | MidiParser/src/MidiReader.java:69-74 | note on and note off print their command and note label (a note on at velocity 0 still reads NOTE ON); every short message prints one line |
| MidiReader.SysexRejoin | MidiParser/src/MidiReader.java:116-118 | the space splits the first three bytes' hex from the rest; removing it gives the message's hex |
| MidiReader.Latin1 | MidiParser/src/MidiReader.java:136 | a track name has one character per byte, with the byte's unsigned value |
| MidiReader.MetaClassification | MidiParser/src/MidiReader.java:125-143 | End of Track iff type 0x2F with no data; Set Tempo iff type 0x51 with three bytes; Track Name iff type 3 (and neither of those) |
| MidiReader.MetaRejoin | MidiParser/src/MidiReader.java:140-142 | the generic form is the header's hex, a space and the data's hex; removing the space gives the message's hex |
| MidiReader.ChainCompletes | MidiParser/src/MidiReader.java:117 | parts printed in turn run to the end iff each does, and an aborted run ends as its failing part does |
| MidiReader.TrackDumpCompletes | MidiParser/src/MidiReader.java:29-45 | a track's events run to the end iff no SysEx message is shorter than three bytes; an aborted track ends with "SYSEX MSG:" |
| MidiReader.SongDumpCompletes | MidiParser/src/MidiReader.java:26-147 | the dump runs to the end iff no SysEx message anywhere is shorter than three bytes |
| MidiReader.SongDumpAborts | MidiParser/src/MidiReader.java:115-117 | a dump that stops ends with the "SYSEX MSG:" of the message whose `substring` threw |
| MidiReader.Run | MidiParser/src/MidiReader.java:25-147 | the loops print exactly `SongDump` of the tracks, stopping where the exception is raised |
| MidiReader.RunTrack | MidiParser/src/MidiReader.java:29-145 | the inner loop prints exactly `TrackDump` of the events |
| MidiReader.HandleEvent | MidiParser/src/MidiReader.java:30-144 | one event prints its tick, then its message |
| MidiReader.PrintShort | MidiParser/src/MidiReader.java:34-111 | a short message prints the channel warning, then its text |
| MidiReader.PrintSysex | MidiParser/src/MidiReader.java:113-119 | a SysEx message prints its label, then its hex split after six digits; it aborts when shorter than three bytes |
| MidiReader.PrintMeta | MidiParser/src/MidiReader.java:120-144 | a meta message prints the form its hex prefix selects |

## Left out

- Audio, graphics and sound cues are not modelled. This covers the `BGM` voice, meshes, fonts, the donut and every `draw*` method, and the `bgmManager` parameter and trigger calls inside the handlers.
- Floating point is not modelled: times, tempos and amplitudes are reals, so `float`/`double` rounding and the `0.025f` style literals are exact here.
- The heap layout behind `push_heap`/`pop_heap` is not modelled. `NoteDataCompare` is not a strict weak ordering when hold notes are involved, so the real heap may not expire notes in the order stated. The model removes the (end time, start time) minimum instead. `pop_heap` on an empty vector, which the source also calls, is left out as undefined behaviour.
- Scheduling.Expire: removes every note that ended at least 0.5 s ago, each frame. In the source, when the loop at Rhythm_Game.cpp:330 stops, the least note is left at `back()` outside the heap. The next frame's `push_heap`/`pop_heap` (Rhythm_Game.cpp:326-329, 0Z_SineEnv.cpp:244-246) treat it as part of the heap. So an expired note can stay active for a frame or more, even with taps only. Example: taps in lane 1 at 10.0 s and 10.7 s, activated in the same frame. At 10.51 s the source can keep the 10.0 s tap, and a lane-1 press then judges it NONE instead of judging the 10.7 s tap MISS.
- Scheduling.ExpireBounds: "every remaining note ends after now − 0.5" holds for the model's expiry rule only, not for the source's heap (see the line above).
- The scan order of `onScreen` is not fixed: the selection lemmas hold for every order of the active notes.
- `std::sort` is not stable; `SortByStart` is one ordering by start time, and notes with equal start times may be ordered differently in the source.
- `rand()` is not modelled: the lanes of `randBeatmap` are a parameter (`rolls`).
- A chart line is exactly three tokens. A short line that keeps stale tokens from the line before is not modelled, except a `+` on the last line, which is.
- File I/O is not modelled: opening the chart file, `MidiSystem.getSequence`, `runSynth` and the output writers. The input is a given sequence of tracks; the output is a sequence of lines or pieces. MidiReader.java never flushes or closes its writer; the model describes everything it prints.
- The sequence's resolution is taken to be positive; a zero resolution gives an infinite tick length in the source.
- `midiNoteToFreq` (`Math.pow`) is not modelled: a start line keeps the note number instead of its frequency.
- Amplitude: no contract; the velocity scaling is computed on reals, and its bounds are not stated.
- MidiReader.PrintMeta: the tempo is printed as a real (`Bpm`) or as `InfiniteBpm`; the decimal rendering of a Java `double` is not modelled.
- MidiReader.Latin1: `new String(bytes)` uses the platform charset; the model reads each byte as one ISO 8859-1 character.
- `println` is modelled as "\n", whatever the platform's line separator is.
- Piano_Roll_MIDI.cpp is not part of this model.
