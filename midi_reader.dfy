/** MidiReader.java: a human-readable dump of every event of every track.
    What is printed is modelled as a sequence of pieces; all of it is text
    except the tempo, a `double` whose decimal rendering is not modelled. A
    SysEx message shorter than three bytes makes `substring` throw, which
    ends the run: the dump then stops where the exception was raised. */
module MidiReader {
  import opened Base16
  import opened Decimal
  import opened Midi

  datatype Option<T> = None | Some(value: T)

  /** A piece of printed output: text, the tempo in beats per minute, or
      the `Infinity` a tempo of zero microseconds per beat gives. */
  datatype Piece = Text(s: string) | Bpm(bpm: real) | InfiniteBpm

  /** The run's output and whether it ran to the end. */
  datatype Dump = Dump(pieces: seq<Piece>, completed: bool)

  // ---------------------------------------------------------------------
  // Note labels

  const NoteNames: seq<string> := ["C", "C#", "D", "D#", "E", "F", "F#", "G", "G#", "A", "A#", "B"]

  /** A note number's name and octave, C4 being middle C (note 60). */
  function NoteLabel(note: Data7): string {
    NoteNames[note % 12] + IntToString(note / 12 - 1)
  }

  /** Where a name stands in `NoteNames`, or -1. */
  function NameIndex(name: string): (i: int)
    ensures -1 <= i < 12
  {
    if name == "C" then 0 else if name == "C#" then 1 else if name == "D" then 2
    else if name == "D#" then 3 else if name == "E" then 4 else if name == "F" then 5
    else if name == "F#" then 6 else if name == "G" then 7 else if name == "G#" then 8
    else if name == "A" then 9 else if name == "A#" then 10 else if name == "B" then 11
    else -1
  }

  /** The strings `ParseInt` reads: an optional minus sign and digits. */
  predicate IntText(s: string) {
    && |s| >= 1
    && (s[0] == '-' ==> forall i :: 1 <= i < |s| ==> '0' <= s[i] <= '9')
    && (s[0] != '-' ==> forall i :: 0 <= i < |s| ==> '0' <= s[i] <= '9')
  }

  /** Reading a label back: the name is one letter, or two when the second
      character is a sharp sign, and the octave follows it. */
  function ParseNoteLabel(text: string): Option<int> {
    var split := if |text| >= 2 && text[1] == '#' then 2 else 1;
    if |text| < split then None
    else
      var index := NameIndex(text[..split]);
      var octave := text[split..];
      if index < 0 || !IntText(octave) then None
      else Some((ParseInt(octave) + 1) * 12 + index)
  }

  lemma IntToStringIsIntText(n: int)
    ensures IntText(IntToString(n))
    ensures IntToString(n)[0] == '-' || '0' <= IntToString(n)[0] <= '9'
  {
    if n < 0 {
      var digits := NatToString(-n);
      assert forall i :: 1 <= i < |"-" + digits| ==> ("-" + digits)[i] == digits[i - 1];
    }
  }

  lemma NameIndexOfName(i: nat)
    requires i < 12
    ensures NameIndex(NoteNames[i]) == i
    ensures |NoteNames[i]| == 1 || (|NoteNames[i]| == 2 && NoteNames[i][1] == '#')
  {
  }

  lemma ParseNameAndOctave(name: string, index: nat, octave: int)
    requires NameIndex(name) == index
    requires |name| == 1 || (|name| == 2 && name[1] == '#')
    ensures ParseNoteLabel(name + IntToString(octave)) == Some((octave + 1) * 12 + index)
  {
    var digits := IntToString(octave);
    IntToStringIsIntText(octave);
    ParseIntToString(octave);
    var text := name + digits;
    var split := if |text| >= 2 && text[1] == '#' then 2 else 1;
    assert split == |name|;
    assert text[..split] == name && text[split..] == digits;
  }

  lemma ParseLabelParts(index: nat, octave: int)
    requires index < 12
    ensures ParseNoteLabel(NoteNames[index] + IntToString(octave)) == Some((octave + 1) * 12 + index)
  {
    var name := NoteNames[index];
    assert NameIndex(name) == index && (|name| == 1 || (|name| == 2 && name[1] == '#')) by {
      NameIndexOfName(index);
    }
    ParseNameAndOctave(name, index, octave);
  }

  /** Every label reads back as its note, so no two notes share a label,
      and `NOTE_NAMES` is never indexed out of bounds. */
  lemma NoteLabelRoundTrip(note: Data7)
    ensures ParseNoteLabel(NoteLabel(note)) == Some(note)
  {
    var index, octave := note % 12, note / 12 - 1;
    assert (octave + 1) * 12 + index == note;
    ParseLabelParts(index, octave);
    assert NoteLabel(note) == NoteNames[index] + IntToString(octave);
  }

  lemma NoteLabelInjective(a: Data7, b: Data7)
    requires NoteLabel(a) == NoteLabel(b)
    ensures a == b
  {
    NoteLabelRoundTrip(a);
    NoteLabelRoundTrip(b);
  }

  /** Middle C is C4 and concert A is A4. */
  lemma NoteLabelExamples()
    ensures NoteLabel(60) == "C4" && NoteLabel(69) == "A4"
    ensures NoteLabel(0) == "C-1"
  {
    SmallValues();
  }

  // ---------------------------------------------------------------------
  // Short messages

  /** The command column: one of seven channel commands, else "OTHER". */
  function CommandName(cmd: int): string {
    if cmd == NoteOn then "NOTE ON\t"
    else if cmd == NoteOff then "NOTE OFF\t"
    else if cmd == PitchBend then "PITCH BEND\t"
    else if cmd == ControlChange then "CONTROL CHANGE\t"
    else if cmd == ProgramChange then "PROGRAM CHANGE\t"
    else if cmd == PolyPressure then "POLY PRESSURE\t"
    else if cmd == ChannelPressure then "CHANNEL PRESSURE\t"
    else "OTHER\t"
  }

  predicate IsChannelCommand(cmd: int) {
    cmd in {NoteOff, NoteOn, PolyPressure, ControlChange, ProgramChange, ChannelPressure, PitchBend}
  }

  /** The seven channel commands get seven different names, and every other
      command (the system messages, 0xF0) is "OTHER". */
  lemma CommandNameIff(a: int, b: int)
    ensures CommandName(a) == "OTHER\t" <==> !IsChannelCommand(a)
    ensures IsChannelCommand(a) && IsChannelCommand(b) && CommandName(a) == CommandName(b) ==> a == b
  {
  }

  /** The controllers a control change is printed by name for, after Table
      III of the MIDI 1.0 Detailed Specification. */
  function ControllerName(controller: int): Option<string> {
    match controller
    case 1 => Some("MODULATION")
    case 6 => Some("DATA ENTRY MSB")
    case 7 => Some("CHANNEL VOLUME")
    case 10 => Some("PAN")
    case 11 => Some("EXPRESSION")
    case 38 => Some("LSB")
    case 100 => Some("REGISTERED LSB")
    case 101 => Some("REGISTERED MSB")
    case _ => None
  }

  /** Exactly eight controllers have names, and no two share one. */
  lemma ControllerNameIff(a: int, b: int)
    ensures ControllerName(a).Some? <==> a in {1, 6, 7, 10, 11, 38, 100, 101}
    ensures ControllerName(a).Some? && ControllerName(a) == ControllerName(b) ==> a == b
  {
  }

  /** The warning printed when a track's messages are not on the channel
      its position suggests (track n on channel n - 1). */
  function ChannelMark(trackNumber: int, channel: int): string {
    if trackNumber - 1 != channel then
      IntToString(trackNumber - 1) + "-NO MATCH-" + IntToString(channel) + " "
    else ""
  }

  /** The warning appears exactly when the channel is not the track number
      minus one. */
  lemma ChannelMarkIff(trackNumber: int, channel: int)
    ensures ChannelMark(trackNumber, channel) != "" <==> trackNumber - 1 != channel
  {
  }

  /** The warning names the track's index, then the channel. */
  lemma ChannelMarkNames(trackNumber: int, channel: int)
    requires trackNumber - 1 != channel
    ensures var mark := ChannelMark(trackNumber, channel);
      var k := |IntToString(trackNumber - 1)|;
      k < |mark| && mark[..k] == IntToString(trackNumber - 1)
      && mark[k..] == "-NO MATCH-" + IntToString(channel) + " "
  {
    var k := |IntToString(trackNumber - 1)|;
    var rest := "-NO MATCH-" + IntToString(channel) + " ";
    assert ChannelMark(trackNumber, channel) == IntToString(trackNumber - 1) + rest;
  }

  /** The rest of a short message's line, after the channel warning: the
      command and the note label for note on and off, the instrument for a
      program change, a named controller for a control change, otherwise
      the command and both data bytes. */
  function ShortText(status: Status, data1: Data7, data2: Data7): string {
    var cmd := Command(status);
    var command := CommandName(cmd);
    if cmd == NoteOn || cmd == NoteOff then
      command + NoteLabel(data1)
        + (if cmd == NoteOn then " velocity: " + IntToString(data2) else " " + IntToString(data2)) + "\n"
    else if cmd == ProgramChange then
      "INSTRUMENT: " + IntToString(data1) + "\n"
    else if cmd == ControlChange && ControllerName(data1).Some? then
      ControllerName(data1).value + ": " + IntToString(data2) + "\n"
    else
      command + IntToString(data1) + " " + IntToString(data2) + "\n"
  }

  /** A note on or off is printed with its label, whatever its velocity: a
      note on with velocity 0 still reads "NOTE ON". Every short message's
      text is one line. */
  lemma ShortTextNotes(status: Status, data1: Data7, data2: Data7)
    ensures var cmd := Command(status);
      && (cmd == NoteOn ==> ShortText(status, data1, data2)[..8 + |NoteLabel(data1)|] == "NOTE ON\t" + NoteLabel(data1))
      && (cmd == NoteOff ==> ShortText(status, data1, data2)[..9 + |NoteLabel(data1)|] == "NOTE OFF\t" + NoteLabel(data1))
    ensures var t := ShortText(status, data1, data2); |t| >= 1 && t[|t| - 1] == '\n'
  {
  }

  // ---------------------------------------------------------------------
  // System exclusive and meta messages

  /** A SysEx message's hex with a space after its first three bytes. */
  function SysexText(bytes: seq<JByte>): string
    requires |bytes| >= 3
  {
    Hex(bytes)[..6] + " " + Hex(bytes)[6..]
  }

  /** The space splits the status byte and two data bytes from the rest, so
      removing it gives the message's hex back. */
  lemma SysexRejoin(bytes: seq<JByte>)
    requires |bytes| >= 3
    ensures SysexText(bytes) == Hex(bytes[..3]) + " " + Hex(bytes[3..])
    ensures Hex(bytes[..3]) + Hex(bytes[3..]) == Hex(bytes)
  {
    HexSplit(bytes, 3);
  }

  /** A track name's bytes as characters, one per byte (ISO 8859-1). */
  function Latin1(data: seq<JByte>): (s: string)
    ensures |s| == |data|
    ensures forall i :: 0 <= i < |data| ==> s[i] as int == Unsigned(data[i])
  {
    seq(|data|, i requires 0 <= i < |data| => Unsigned(data[i]) as char)
  }

  /** The tempo printed for a Set Tempo message. */
  function TempoPiece(micros: nat): Piece {
    if micros == 0 then InfiniteBpm else Bpm(60000000.0 / micros as real)
  }

  /** The four forms a meta message is printed in. */
  datatype MetaClass = EndOfTrack | SetTempo | TrackName | OtherMeta

  /** The tests on a meta message's hex, in the order they are made. */
  function ClassifyMeta(msg: string): MetaClass
    requires |msg| >= 6
  {
    if msg[..6] == "FF2F00" then EndOfTrack
    else if msg[..6] == "FF5103" then SetTempo
    else if msg[..4] == "FF03" then TrackName
    else OtherMeta
  }

  /** The classification by hex prefix is a classification by type and
      length, after the meta-events section of the Standard MIDI Files 1.0
      specification: End of Track is FF 2F 00, Set Tempo FF 51 03, Track
      Name FF 03 of any length. An End of Track or Set Tempo type with an
      unexpected length falls through to the generic form. */
  lemma MetaClassification(kind: MetaType, data: seq<JByte>)
    ensures ClassifyMeta(MetaHex(kind, data)) == EndOfTrack <==> kind == 0x2F && |data| == 0
    ensures ClassifyMeta(MetaHex(kind, data)) == SetTempo <==> kind == 0x51 && |data| == 3
    ensures ClassifyMeta(MetaHex(kind, data)) == TrackName <==> kind == 3
  {
    EndOfTrackIff(kind, data);
    TempoMetaIff(kind, data);
    TrackNameIff(kind, data);
  }

  /** What a meta message prints. */
  function MetaPieces(kind: MetaType, data: seq<JByte>): seq<Piece> {
    var msg := MetaHex(kind, data);
    match ClassifyMeta(msg)
    case EndOfTrack => [Text("END OF TRACK:\tFF2F00")]
    case SetTempo => [Text("TEMPO:\t"), TempoPiece(Micros(data)), Text("\n")]
    case TrackName => [Text(Latin1(data) + "\n")]
    case OtherMeta =>
      var hex := Hex(data);
      [Text("META MSG:\t" + msg[..|msg| - |hex|] + " " + hex)]
  }

  /** In the generic form the space separates the hex of the header (FF,
      the type and the length) from the hex of the data; removing it gives
      the whole message's hex. */
  lemma MetaRejoin(kind: MetaType, data: seq<JByte>)
    requires ClassifyMeta(MetaHex(kind, data)) == OtherMeta
    ensures var bytes := MetaBytes(kind, data);
      var head := Hex(bytes[..|bytes| - |data|]);
      && MetaPieces(kind, data) == [Text("META MSG:\t" + head + " " + Hex(data))]
      && head + Hex(data) == MetaHex(kind, data)
  {
    var bytes := MetaBytes(kind, data);
    var n := |bytes| - |data|;
    assert bytes[n..] == data;
    assert bytes == bytes[..n] + data;
    HexConcat(bytes[..n], data);
    var msg := MetaHex(kind, data);
    assert msg[..|msg| - |Hex(data)|] == Hex(bytes[..n]);
  }

  // ---------------------------------------------------------------------
  // The run

  /** The line that opens track `trackNumber` of `size` events. */
  function TrackHeader(trackNumber: int, size: nat): string {
    "\nTrack " + IntToString(trackNumber) + ": size = " + IntToString(size) + "\n\n"
  }

  /** A message runs to its end unless it is a SysEx message of fewer than
      three bytes, whose hex is too short for `substring(0, 6)`. */
  predicate MessageCompletes(m: Message) {
    !(m.Sysex? && |m.bytes| < 3)
  }

  /** What a message prints after the event's tick; a SysEx message that
      throws has printed its label only. */
  function MessagePieces(trackNumber: int, m: Message): seq<Piece> {
    match m
    case Short(status, data1, data2) =>
      [Text(ChannelMark(trackNumber, Channel(status)) + ShortText(status, data1, data2))]
    case Sysex(bytes) =>
      if |bytes| < 3 then [Text("SYSEX MSG:\t")]
      else [Text("SYSEX MSG:\t"), Text(SysexText(bytes) + "\n")]
    case Meta(kind, data) => MetaPieces(kind, data)
  }

  /** What one event prints: its tick, then its message. */
  function EventDump(trackNumber: int, e: Event): Dump {
    Dump([Text("@" + IntToString(e.tick) + "\t")] + MessagePieces(trackNumber, e.message), MessageCompletes(e.message))
  }

  /** What one track prints: its header, its events, and an empty line if
      no exception was raised. */
  function TrackSection(trackNumber: int, events: seq<Event>): Dump {
    var t := TrackDump(trackNumber, events);
    Dump([Text(TrackHeader(trackNumber, |events|))] + t.pieces + (if t.completed then [Text("\n")] else []), t.completed)
  }

  /** Parts printed one after another, up to and including the first that
      raises an exception. */
  function Chain(parts: seq<Dump>): Dump
    decreases |parts|
  {
    if parts == [] then Dump([], true)
    else
      var d := Chain(parts[..|parts| - 1]);
      if !d.completed then d
      else Dump(d.pieces + parts[|parts| - 1].pieces, parts[|parts| - 1].completed)
  }

  /** The inner loop over one track's events. */
  function TrackDump(trackNumber: int, events: seq<Event>): Dump {
    Chain(EventParts(trackNumber, events))
  }

  /** The outer loop over the tracks, numbered from 1. */
  function SongDump(tracks: seq<seq<Event>>): Dump {
    Chain(TrackParts(tracks))
  }

  /** An aborted dump ends with the "SYSEX MSG:" the failing event printed
      before its `substring` threw. */
  predicate EndsInAbort(d: Dump) {
    !d.completed ==> d.pieces != [] && d.pieces[|d.pieces| - 1] == Text("SYSEX MSG:\t")
  }

  /** A chain runs to its end exactly when every part does, and an aborted
      chain ends as its failing part does. */
  lemma {:induction false} ChainCompletes(parts: seq<Dump>)
    ensures Chain(parts).completed <==> forall i :: 0 <= i < |parts| ==> parts[i].completed
    ensures (forall i :: 0 <= i < |parts| ==> EndsInAbort(parts[i])) ==> EndsInAbort(Chain(parts))
    decreases |parts|
  {
    if parts != [] {
      var init := parts[..|parts| - 1];
      ChainCompletes(init);
      assert forall i :: 0 <= i < |init| ==> init[i] == parts[i];
    }
  }

  /** One more part. */
  lemma ChainSnoc(parts: seq<Dump>, part: Dump)
    ensures var d := Chain(parts);
      Chain(parts + [part]) == if d.completed then Dump(d.pieces + part.pieces, part.completed) else d
  {
    assert (parts + [part])[..|parts|] == parts;
  }

  /** Nothing after an aborted part is printed. */
  lemma {:induction false} ChainStops(parts: seq<Dump>, k: nat)
    requires k <= |parts| && !Chain(parts[..k]).completed
    ensures Chain(parts) == Chain(parts[..k])
    decreases |parts|
  {
    if k < |parts| {
      var init := parts[..|parts| - 1];
      assert init[..k] == parts[..k];
      ChainStops(init, k);
    } else {
      assert parts[..k] == parts;
    }
  }

  lemma EventDumpAbort(trackNumber: int, e: Event)
    ensures EventDump(trackNumber, e).completed == MessageCompletes(e.message)
    ensures EndsInAbort(EventDump(trackNumber, e))
  {
  }

  /** No SysEx message in the events is shorter than three bytes. */
  predicate SysexComplete(events: seq<Event>) {
    forall i :: 0 <= i < |events| ==> MessageCompletes(events[i].message)
  }

  /** A track's dump runs to its end exactly when none of its SysEx
      messages is too short, and otherwise ends at the failing one. */
  lemma TrackDumpCompletes(trackNumber: int, events: seq<Event>)
    ensures TrackDump(trackNumber, events).completed <==> SysexComplete(events)
    ensures EndsInAbort(TrackDump(trackNumber, events))
  {
    var parts := EventParts(trackNumber, events);
    forall i | 0 <= i < |events|
      ensures parts[i].completed == MessageCompletes(events[i].message) && EndsInAbort(parts[i])
    {
      EventDumpAbort(trackNumber, events[i]);
    }
    ChainCompletes(parts);
  }

  /** The same for the track's section, header and empty line included. */
  lemma TrackSectionCompletes(trackNumber: int, events: seq<Event>)
    ensures TrackSection(trackNumber, events).completed <==> SysexComplete(events)
    ensures EndsInAbort(TrackSection(trackNumber, events))
  {
    TrackDumpCompletes(trackNumber, events);
  }

  /** The run reaches its end exactly when no SysEx message anywhere is
      shorter than three bytes. */
  lemma SongDumpCompletes(tracks: seq<seq<Event>>)
    ensures SongDump(tracks).completed <==> forall t :: 0 <= t < |tracks| ==> SysexComplete(tracks[t])
  {
    var parts := TrackParts(tracks);
    forall i | 0 <= i < |tracks|
      ensures parts[i].completed == SysexComplete(tracks[i])
    {
      TrackSectionCompletes(i + 1, tracks[i]);
    }
    ChainCompletes(parts);
  }

  /** A run that stops ends at the failing SysEx message. */
  lemma SongDumpAborts(tracks: seq<seq<Event>>)
    ensures EndsInAbort(SongDump(tracks))
  {
    var parts := TrackParts(tracks);
    forall i | 0 <= i < |tracks|
      ensures EndsInAbort(parts[i])
    {
      TrackSectionCompletes(i + 1, tracks[i]);
    }
    ChainCompletes(parts);
  }

  /** The parts of one track: its events' dumps. */
  function EventParts(trackNumber: int, events: seq<Event>): (parts: seq<Dump>)
    ensures |parts| == |events|
    ensures forall k :: 0 <= k < |events| ==> parts[k] == EventDump(trackNumber, events[k])
  {
    seq(|events|, k requires 0 <= k < |events| => EventDump(trackNumber, events[k]))
  }

  /** The parts of the song: its tracks' sections. */
  function TrackParts(tracks: seq<seq<Event>>): (parts: seq<Dump>)
    ensures |parts| == |tracks|
    ensures forall k :: 0 <= k < |tracks| ==> parts[k] == TrackSection(k + 1, tracks[k])
  {
    seq(|tracks|, k requires 0 <= k < |tracks| => TrackSection(k + 1, tracks[k]))
  }

  lemma EventPartsPrefix(trackNumber: int, events: seq<Event>, i: nat)
    requires i <= |events|
    ensures EventParts(trackNumber, events[..i]) == EventParts(trackNumber, events)[..i]
  {
  }

  lemma TrackPartsPrefix(tracks: seq<seq<Event>>, i: nat)
    requires i <= |tracks|
    ensures TrackParts(tracks[..i]) == TrackParts(tracks)[..i]
  {
  }

  /** One more round of the inner loop. */
  lemma EventPartsSnoc(trackNumber: int, events: seq<Event>, i: nat)
    requires i < |events|
    ensures TrackDump(trackNumber, events[..i + 1])
         == var d := TrackDump(trackNumber, events[..i]);
            if d.completed then Dump(d.pieces + EventDump(trackNumber, events[i]).pieces, EventDump(trackNumber, events[i]).completed)
            else d
  {
    var parts := EventParts(trackNumber, events);
    EventPartsPrefix(trackNumber, events, i);
    EventPartsPrefix(trackNumber, events, i + 1);
    assert parts[..i + 1] == parts[..i] + [parts[i]];
    ChainSnoc(parts[..i], parts[i]);
  }

  /** One more round of the outer loop. */
  lemma TrackPartsSnoc(tracks: seq<seq<Event>>, i: nat)
    requires i < |tracks|
    ensures SongDump(tracks[..i + 1])
         == var d := SongDump(tracks[..i]);
            if d.completed then Dump(d.pieces + TrackSection(i + 1, tracks[i]).pieces, TrackSection(i + 1, tracks[i]).completed)
            else d
  {
    var parts := TrackParts(tracks);
    TrackPartsPrefix(tracks, i);
    TrackPartsPrefix(tracks, i + 1);
    assert parts[..i + 1] == parts[..i] + [parts[i]];
    ChainSnoc(parts[..i], parts[i]);
  }

  lemma TrackDumpStops(trackNumber: int, events: seq<Event>, i: nat)
    requires i <= |events| && !TrackDump(trackNumber, events[..i]).completed
    ensures TrackDump(trackNumber, events) == TrackDump(trackNumber, events[..i])
  {
    EventPartsPrefix(trackNumber, events, i);
    ChainStops(EventParts(trackNumber, events), i);
  }

  lemma SongDumpStops(tracks: seq<seq<Event>>, i: nat)
    requires i <= |tracks| && !SongDump(tracks[..i]).completed
    ensures SongDump(tracks) == SongDump(tracks[..i])
  {
    TrackPartsPrefix(tracks, i);
    ChainStops(TrackParts(tracks), i);
  }

  /** `run` over the tracks of a loaded sequence. */
  method Run(tracks: seq<seq<Event>>) returns (pieces: seq<Piece>, completed: bool)
    ensures Dump(pieces, completed) == SongDump(tracks)
  {
    pieces := [];
    var trackNumber := 0;
    while trackNumber < |tracks|
      invariant 0 <= trackNumber <= |tracks|
      invariant Dump(pieces, true) == SongDump(tracks[..trackNumber])
    {
      var track := tracks[trackNumber];
      TrackPartsSnoc(tracks, trackNumber);
      trackNumber := trackNumber + 1;
      var more;
      more, completed := RunTrack(trackNumber, track);
      pieces := pieces + ([Text(TrackHeader(trackNumber, |track|))] + more);
      if !completed {
        SongDumpStops(tracks, trackNumber);
        return;
      }
      pieces := pieces + [Text("\n")];
    }
    assert tracks[..trackNumber] == tracks;
    completed := true;
  }

  /** The inner loop of `run` over one track's events. */
  method RunTrack(trackNumber: int, track: seq<Event>) returns (pieces: seq<Piece>, completed: bool)
    ensures Dump(pieces, completed) == TrackDump(trackNumber, track)
  {
    pieces := [];
    var i := 0;
    while i < |track|
      invariant 0 <= i <= |track|
      invariant Dump(pieces, true) == TrackDump(trackNumber, track[..i])
    {
      EventPartsSnoc(trackNumber, track, i);
      var more;
      more, completed := HandleEvent(trackNumber, track[i]);
      pieces := pieces + more;
      i := i + 1;
      if !completed {
        TrackDumpStops(trackNumber, track, i);
        return;
      }
    }
    assert track[..i] == track;
    completed := true;
  }

  /** The body of the inner loop of `run` for one event. */
  method HandleEvent(trackNumber: int, event: Event) returns (pieces: seq<Piece>, completed: bool)
    ensures Dump(pieces, completed) == EventDump(trackNumber, event)
  {
    pieces := [Text("@" + IntToString(event.tick) + "\t")];
    completed := true;
    var more;
    match event.message {
      case Short(status, data1, data2) =>
        var line := PrintShort(trackNumber, status, data1, data2);
        more := [Text(line)];
      case Sysex(bytes) =>
        more, completed := PrintSysex(bytes);
      case Meta(kind, data) =>
        more := PrintMeta(kind, data);
    }
    pieces := pieces + more;
  }

  /** A short message's line. */
  method PrintShort(trackNumber: int, status: Status, data1: Data7, data2: Data7) returns (line: string)
    ensures [Text(line)] == MessagePieces(trackNumber, Short(status, data1, data2))
  {
    var cmd := Command(status);
    var mark := "";
    if trackNumber - 1 != Channel(status) {
      mark := IntToString(trackNumber - 1) + "-NO MATCH-" + IntToString(Channel(status)) + " ";
    }
    var rest;
    if cmd == NoteOn || cmd == NoteOff {
      var tail;
      if cmd == NoteOn {
        tail := " velocity: " + IntToString(data2);
      } else {
        tail := " " + IntToString(data2);
      }
      rest := CommandName(cmd) + NoteLabel(data1) + tail + "\n";
    } else if cmd == ProgramChange {
      rest := "INSTRUMENT: " + IntToString(data1) + "\n";
    } else if cmd == ControlChange && ControllerName(data1).Some? {
      rest := ControllerName(data1).value + ": " + IntToString(data2) + "\n";
    } else {
      rest := CommandName(cmd) + IntToString(data1) + " " + IntToString(data2) + "\n";
    }
    line := mark + rest;
  }

  /** A SysEx message: its label, then its hex with a space after six
      digits, unless the hex is too short and `substring` throws. */
  method PrintSysex(bytes: seq<JByte>) returns (pieces: seq<Piece>, completed: bool)
    ensures pieces == MessagePieces(0, Sysex(bytes)) && completed == MessageCompletes(Sysex(bytes))
  {
    pieces := [Text("SYSEX MSG:\t")];
    var msg := BytesToHex(bytes);
    if |msg| < 6 {
      return pieces, false;
    }
    msg := msg[..6] + " " + msg[6..];
    pieces := pieces + [Text(msg + "\n")];
    completed := true;
  }

  /** A meta message, by the prefix of its hex. */
  method PrintMeta(kind: MetaType, data: seq<JByte>) returns (pieces: seq<Piece>)
    ensures pieces == MetaPieces(kind, data)
  {
    var msg := BytesToHex(MetaBytes(kind, data));
    if msg[..6] == "FF2F00" {
      pieces := [Text("END OF TRACK:\tFF2F00")];
    } else if msg[..6] == "FF5103" {
      pieces := [Text("TEMPO:\t")];
      var micros := Micros(data);
      if micros == 0 {
        pieces := pieces + [InfiniteBpm];
      } else {
        pieces := pieces + [Bpm(60000000.0 / micros as real)];
      }
      pieces := pieces + [Text("\n")];
    } else if msg[..4] == "FF03" {
      pieces := [Text(Latin1(data) + "\n")];
    } else {
      var hex := BytesToHex(data);
      pieces := [Text("META MSG:\t" + msg[..|msg| - |hex|] + " " + hex)];
    }
  }
}
