/** MidiToSynthSequence2.java: walks every event of every track with the
    same clock as the beatmap converter and writes a synth sequence. Each
    note-on starts two SineEnv voices, a sounding one four seconds later
    and a silent echo now, and each note-off stops both; an empty line
    closes every track. */
module MidiToSynthSequence {
  import opened Decimal
  import opened Midi
  import Base16

  /** A line of the sequence file. `Start` is "+ time id SineEnv amplitude
      frequency 0.0 0.0 0.0", whose frequency is that of `note`; `Stop` is
      "- time id"; `Blank` is the empty line after a track. */
  datatype SynthLine =
    | Start(time: real, id: string, amplitude: real, note: int)
    | Stop(time: real, id: string)
    | Blank

  /** How far the sounding voice lags behind the silent echo, in seconds. */
  const Delay: real := 4.0

  /** The sounding voice's id: the track number followed by the note
      number, both in decimal. */
  function Id(trackNum: int, note: int): (id: string)
    ensures |id| >= 2
  {
    IntToString(trackNum) + IntToString(note)
  }

  /** The echo voice's id: "99" in front of the sounding voice's id. */
  function EchoId(trackNum: int, note: int): string {
    "99" + Id(trackNum, note)
  }

  /** The sounding voice's amplitude: the velocity scaled down by 128, by
      the number of tracks and by 3. */
  function Amplitude(velocity: int, numTracks: nat): real
    requires numTracks > 0
  {
    velocity as real / (128.0 * numTracks as real * 3.0)
  }

  /** The lines one event writes, at the time the clock has reached. */
  function EventLines(trackNum: int, numTracks: nat, m: Message, time: real): (lines: seq<SynthLine>)
    requires numTracks > 0
  {
    if NoteEnds(m) then
      [Stop(time + Delay, Id(trackNum, m.data1)), Stop(time, EchoId(trackNum, m.data1))]
    else if NoteStarts(m) then
      [Start(time + Delay, Id(trackNum, m.data1), Amplitude(m.data2, numTracks), m.data1),
       Start(time, EchoId(trackNum, m.data1), 0.0, m.data1)]
    else []
  }

  /** A note-on with a non-zero velocity writes exactly two start lines, a
      note-off or a note-on with velocity 0 exactly two stop lines, and any
      other event nothing. */
  lemma EventLinesIff(trackNum: int, numTracks: nat, m: Message, time: real)
    requires numTracks > 0
    ensures var lines := EventLines(trackNum, numTracks, m, time);
      && ((|lines| == 2 && lines[0].Start? && lines[1].Start?)
          <==> m.Short? && Command(m.status) == NoteOn && m.data2 > 0)
      && ((|lines| == 2 && lines[0].Stop? && lines[1].Stop?) <==> NoteEnds(m))
      && (lines == [] <==> !(m.Short? && (Command(m.status) == NoteOn || Command(m.status) == NoteOff)))
  {
    NoteStartsIff(m);
  }

  /** The two lines of a pair: the same kind, the echo's id is "99" in front
      of the sounding voice's, the sounding voice comes `Delay` seconds
      after the echo, and a started echo is silent and plays the same
      note. */
  predicate IsPair(voice: SynthLine, echo: SynthLine) {
    && !voice.Blank? && !echo.Blank?
    && voice.time == echo.time + Delay
    && echo.id == "99" + voice.id
    && ((voice.Start? && echo.Start? && echo.amplitude == 0.0 && echo.note == voice.note)
        || (voice.Stop? && echo.Stop?))
  }

  /** A run of lines made of whole pairs. */
  predicate Paired(lines: seq<SynthLine>)
    decreases |lines|
  {
    lines == []
    || (|lines| >= 2 && IsPair(lines[|lines| - 2], lines[|lines| - 1]) && Paired(lines[..|lines| - 2]))
  }

  lemma EventLinesPaired(trackNum: int, numTracks: nat, m: Message, time: real)
    requires numTracks > 0
    ensures Paired(EventLines(trackNum, numTracks, m, time))
  {
    var lines := EventLines(trackNum, numTracks, m, time);
    if lines != [] {
      assert lines[..0] == [];
    }
  }

  /** The start and the stop of one note in one track carry the same two
      ids, so the stop line finds the voices the start line created. */
  lemma OnOffShareIds(trackNum: int, numTracks: nat, on: Message, off: Message, t1: real, t2: real)
    requires numTracks > 0
    requires NoteStarts(on) && NoteEnds(off) && on.data1 == off.data1
    ensures var started := EventLines(trackNum, numTracks, on, t1);
      var stopped := EventLines(trackNum, numTracks, off, t2);
      |started| == |stopped| == 2
      && started[0].id == stopped[0].id == Id(trackNum, on.data1)
      && started[1].id == stopped[1].id == EchoId(trackNum, on.data1)
  {
  }

  /** Ids do not tell tracks apart: track 1 note 23 and track 12 note 3
      both get "123" (and their echoes both get "99123"). */
  lemma IdCollision()
    ensures Id(1, 23) == Id(12, 3) == "123"
    ensures EchoId(1, 23) == EchoId(12, 3)
  {
    SmallValues();
  }

  /** The lines written so far and the clock. */
  datatype Output = Output(lines: seq<SynthLine>, clock: Clock)

  /** One round of the inner loop: the clock advances to the event's tick,
      the event's lines are written at that time, then a tempo change takes
      effect. */
  function EventStep(c: Clock, resolution: nat, trackNum: int, numTracks: nat, e: Event): (r: Output)
    requires resolution > 0 && c.tempo > 0.0 && numTracks > 0
    ensures r.clock == ClockStep(c, resolution, e)
    ensures r.lines == EventLines(trackNum, numTracks, e.message, r.clock.currentTime)
  {
    var ticked := Tick(c, resolution, e.tick);
    Output(EventLines(trackNum, numTracks, e.message, ticked.currentTime), Retempo(ticked, e.message))
  }

  /** The inner loop of `run` over one track's events, from clock `c`. */
  function TrackRun(c: Clock, resolution: nat, trackNum: int, numTracks: nat, events: seq<Event>): (r: Output)
    requires resolution > 0 && c.tempo > 0.0 && numTracks > 0
    ensures r.clock == ClockAfter(c, resolution, events)
    decreases |events|
  {
    if events == [] then Output([], c)
    else
      var before := TrackRun(c, resolution, trackNum, numTracks, events[..|events| - 1]);
      var step := EventStep(before.clock, resolution, trackNum, numTracks, events[|events| - 1]);
      Output(before.lines + step.lines, step.clock)
  }

  /** The outer loop of `run` over the first tracks of a sequence of
      `numTracks`: each track's lines, then an empty line; the clock runs on
      from one track into the next. */
  function SongRun(resolution: nat, numTracks: nat, tracks: seq<seq<Event>>): (r: Output)
    requires resolution > 0 && |tracks| <= numTracks
    ensures r.clock == ClockAfter(InitialClock, resolution, Flatten(tracks))
    decreases |tracks|
  {
    if tracks == [] then Output([], InitialClock)
    else
      var before := SongRun(resolution, numTracks, tracks[..|tracks| - 1]);
      var t := TrackRun(before.clock, resolution, |tracks|, numTracks, tracks[|tracks| - 1]);
      ClockAfterConcat(InitialClock, resolution, Flatten(tracks[..|tracks| - 1]), tracks[|tracks| - 1]);
      Output(before.lines + t.lines + [Blank], t.clock)
  }

  /** The sequence file `run` writes. */
  function SynthSequence(s: MidiSequence): seq<SynthLine>
    requires s.resolution > 0
  {
    SongRun(s.resolution, |s.tracks|, s.tracks).lines
  }

  lemma {:induction false} PairedAppend(a: seq<SynthLine>, b: seq<SynthLine>)
    requires Paired(a) && Paired(b)
    ensures Paired(a + b)
    decreases |b|
  {
    if b != [] {
      var n := |b|;
      PairedAppend(a, b[..n - 2]);
      assert (a + b)[..|a + b| - 2] == a + b[..n - 2];
      assert (a + b)[|a + b| - 2] == b[n - 2] && (a + b)[|a + b| - 1] == b[n - 1];
    } else {
      assert a + b == a;
    }
  }

  /** A track's lines come in pairs: every voice is followed by its echo. */
  lemma {:induction false} TrackRunPaired(c: Clock, resolution: nat, trackNum: int, numTracks: nat, events: seq<Event>)
    requires resolution > 0 && c.tempo > 0.0 && numTracks > 0
    ensures Paired(TrackRun(c, resolution, trackNum, numTracks, events).lines)
    decreases |events|
  {
    if events != [] {
      var before := TrackRun(c, resolution, trackNum, numTracks, events[..|events| - 1]);
      var step := EventStep(before.clock, resolution, trackNum, numTracks, events[|events| - 1]);
      TrackRunPaired(c, resolution, trackNum, numTracks, events[..|events| - 1]);
      EventLinesPaired(trackNum, numTracks, events[|events| - 1].message, step.clock.currentTime);
      PairedAppend(before.lines, step.lines);
    }
  }

  /** The kinds of line, for counting. */
  datatype Kind = StartKind | StopKind | BlankKind

  function KindOf(line: SynthLine): Kind {
    match line
    case Start(_, _, _, _) => StartKind
    case Stop(_, _) => StopKind
    case Blank => BlankKind
  }

  /** How many lines are of kind `k`. */
  function CountKind(lines: seq<SynthLine>, k: Kind): (n: nat)
    ensures n <= |lines|
    decreases |lines|
  {
    if lines == [] then 0
    else CountKind(lines[..|lines| - 1], k) + (if KindOf(lines[|lines| - 1]) == k then 1 else 0)
  }

  lemma {:induction false} CountKindAppend(a: seq<SynthLine>, b: seq<SynthLine>, k: Kind)
    ensures CountKind(a + b, k) == CountKind(a, k) + CountKind(b, k)
    decreases |b|
  {
    if b != [] {
      CountKindAppend(a, b[..|b| - 1], k);
      assert (a + b)[..|a + b| - 1] == a + b[..|b| - 1];
      assert (a + b)[|a + b| - 1] == b[|b| - 1];
    } else {
      assert a + b == a;
    }
  }

  /** How many events start a note (`onStarts`) or end one (otherwise). */
  function CountNotes(events: seq<Event>, onStarts: bool): (n: nat)
    ensures n <= |events|
    decreases |events|
  {
    if events == [] then 0
    else
      var m := events[|events| - 1].message;
      CountNotes(events[..|events| - 1], onStarts)
        + (if (if onStarts then NoteStarts(m) else NoteEnds(m)) then 1 else 0)
  }

  lemma {:induction false} CountNotesAppend(a: seq<Event>, b: seq<Event>, onStarts: bool)
    ensures CountNotes(a + b, onStarts) == CountNotes(a, onStarts) + CountNotes(b, onStarts)
    decreases |b|
  {
    if b != [] {
      CountNotesAppend(a, b[..|b| - 1], onStarts);
      assert (a + b)[..|a + b| - 1] == a + b[..|b| - 1];
      assert (a + b)[|a + b| - 1] == b[|b| - 1];
    } else {
      assert a + b == a;
    }
  }

  /** One event's lines by kind. */
  lemma EventLinesCounts(trackNum: int, numTracks: nat, m: Message, time: real)
    requires numTracks > 0
    ensures var lines := EventLines(trackNum, numTracks, m, time);
      && CountKind(lines, StartKind) == (if NoteStarts(m) then 2 else 0)
      && CountKind(lines, StopKind) == (if NoteEnds(m) then 2 else 0)
      && CountKind(lines, BlankKind) == 0
  {
    NoteStartsIff(m);
    var lines := EventLines(trackNum, numTracks, m, time);
    if lines != [] {
      assert lines[..1][..0] == [] && lines[..|lines| - 1] == lines[..1];
    }
  }

  /** Lines per event kind: a track writes two start lines per note-on, two
      stop lines per note-off, and no empty line. */
  lemma {:induction false} TrackRunCounts(c: Clock, resolution: nat, trackNum: int, numTracks: nat, events: seq<Event>)
    requires resolution > 0 && c.tempo > 0.0 && numTracks > 0
    ensures var lines := TrackRun(c, resolution, trackNum, numTracks, events).lines;
      && CountKind(lines, StartKind) == 2 * CountNotes(events, true)
      && CountKind(lines, StopKind) == 2 * CountNotes(events, false)
      && CountKind(lines, BlankKind) == 0
    decreases |events|
  {
    if events != [] {
      var before := TrackRun(c, resolution, trackNum, numTracks, events[..|events| - 1]);
      var e := events[|events| - 1];
      var step := EventStep(before.clock, resolution, trackNum, numTracks, e);
      TrackRunCounts(c, resolution, trackNum, numTracks, events[..|events| - 1]);
      EventLinesCounts(trackNum, numTracks, e.message, step.clock.currentTime);
      CountKindAppend(before.lines, step.lines, StartKind);
      CountKindAppend(before.lines, step.lines, StopKind);
      CountKindAppend(before.lines, step.lines, BlankKind);
    }
  }

  /** How many lines of each kind the file should hold: one empty line per
      track, two start lines per note-on and two stop lines per note-off. */
  function Expected(tracks: seq<seq<Event>>, k: Kind): nat {
    match k
    case BlankKind => |tracks|
    case StartKind => 2 * CountNotes(Flatten(tracks), true)
    case StopKind => 2 * CountNotes(Flatten(tracks), false)
  }

  lemma {:induction false} SongRunCount(resolution: nat, numTracks: nat, tracks: seq<seq<Event>>, k: Kind)
    requires resolution > 0 && |tracks| <= numTracks
    ensures CountKind(SongRun(resolution, numTracks, tracks).lines, k) == Expected(tracks, k)
    decreases |tracks|
  {
    if tracks != [] {
      var init, last := tracks[..|tracks| - 1], tracks[|tracks| - 1];
      var before := SongRun(resolution, numTracks, init);
      var t := TrackRun(before.clock, resolution, |tracks|, numTracks, last);
      assert SongRun(resolution, numTracks, tracks).lines == before.lines + t.lines + [Blank];
      assert Flatten(tracks) == Flatten(init) + last;
      SongRunCount(resolution, numTracks, init, k);
      TrackRunCounts(before.clock, resolution, |tracks|, numTracks, last);
      CountKindTrack(before.lines, t.lines, k);
      CountNotesAppend(Flatten(init), last, k == StartKind);
    }
  }

  /** The whole file: exactly one empty line per track, and two start lines
      per note-on and two stop lines per note-off across all tracks. */
  lemma SongRunCounts(resolution: nat, numTracks: nat, tracks: seq<seq<Event>>)
    requires resolution > 0 && |tracks| <= numTracks
    ensures var lines := SongRun(resolution, numTracks, tracks).lines;
      && CountKind(lines, BlankKind) == |tracks|
      && CountKind(lines, StartKind) == 2 * CountNotes(Flatten(tracks), true)
      && CountKind(lines, StopKind) == 2 * CountNotes(Flatten(tracks), false)
  {
    SongRunCount(resolution, numTracks, tracks, BlankKind);
    SongRunCount(resolution, numTracks, tracks, StartKind);
    SongRunCount(resolution, numTracks, tracks, StopKind);
  }

  /** Counting over the lines before a track, the track's lines and its
      closing empty line. */
  lemma CountKindTrack(before: seq<SynthLine>, track: seq<SynthLine>, k: Kind)
    ensures CountKind(before + track + [Blank], k)
         == CountKind(before, k) + CountKind(track, k) + (if k == BlankKind then 1 else 0)
  {
    CountKindAppend(before, track, k);
    CountKindAppend(before + track, [Blank], k);
    assert [Blank][..0] == [];
  }

  /** One more round of the outer loop. */
  lemma SongRunSnoc(resolution: nat, numTracks: nat, tracks: seq<seq<Event>>, i: nat)
    requires resolution > 0 && i < |tracks| <= numTracks
    ensures var before := SongRun(resolution, numTracks, tracks[..i]);
      var t := TrackRun(before.clock, resolution, i + 1, numTracks, tracks[i]);
      SongRun(resolution, numTracks, tracks[..i + 1]) == Output(before.lines + t.lines + [Blank], t.clock)
  {
    assert tracks[..i + 1][..i] == tracks[..i];
  }

  /** `run` on a loaded sequence: the two nested loops, writing the lines
      in order. */
  method Run(s: MidiSequence) returns (out: seq<SynthLine>)
    requires s.resolution > 0
    ensures out == SynthSequence(s)
  {
    var resolution := s.resolution;
    var tempo, currentTime, prevTick := 120.0, 0.0, 0;
    out := [];
    var trackNum := 0;
    while trackNum < |s.tracks|
      invariant 0 <= trackNum <= |s.tracks|
      invariant Output(out, Clock(tempo, currentTime, prevTick))
             == SongRun(resolution, |s.tracks|, s.tracks[..trackNum])
    {
      SongRunSnoc(resolution, |s.tracks|, s.tracks, trackNum);
      var lines;
      lines, tempo, currentTime, prevTick :=
        RunTrack(resolution, trackNum + 1, |s.tracks|, s.tracks[trackNum], tempo, currentTime, prevTick);
      out := out + lines + [Blank];
      trackNum := trackNum + 1;
    }
    assert s.tracks[..trackNum] == s.tracks;
  }

  /** The inner loop of `run`: one track's events, from the clock left by
      the tracks before it. */
  method RunTrack(resolution: nat, trackNum: int, numTracks: nat, track: seq<Event>,
                  tempo: real, currentTime: real, prevTick: int)
    returns (lines: seq<SynthLine>, tempo': real, currentTime': real, prevTick': int)
    requires resolution > 0 && tempo > 0.0 && numTracks > 0
    ensures Output(lines, Clock(tempo', currentTime', prevTick'))
         == TrackRun(Clock(tempo, currentTime, prevTick), resolution, trackNum, numTracks, track)
  {
    ghost var start := Clock(tempo, currentTime, prevTick);
    lines, tempo', currentTime', prevTick' := [], tempo, currentTime, prevTick;
    var i := 0;
    while i < |track|
      invariant 0 <= i <= |track|
      invariant Output(lines, Clock(tempo', currentTime', prevTick'))
             == TrackRun(start, resolution, trackNum, numTracks, track[..i])
    {
      assert track[..i + 1][..i] == track[..i];
      var more;
      more, tempo', currentTime', prevTick' :=
        HandleEvent(resolution, trackNum, numTracks, track[i], tempo', currentTime', prevTick');
      lines := lines + more;
      i := i + 1;
    }
    assert track[..i] == track;
  }

  /** The body of the inner loop of `run` for one event. */
  method HandleEvent(resolution: nat, trackNum: int, numTracks: nat, event: Event,
                     tempo: real, currentTime: real, prevTick: int)
    returns (lines: seq<SynthLine>, tempo': real, currentTime': real, prevTick': int)
    requires resolution > 0 && tempo > 0.0 && numTracks > 0
    ensures Output(lines, Clock(tempo', currentTime', prevTick'))
         == EventStep(Clock(tempo, currentTime, prevTick), resolution, trackNum, numTracks, event)
  {
    lines := [];
    tempo' := tempo;
    currentTime' := currentTime + Elapsed(SecondsPerTick(resolution, tempo), prevTick, event.tick);
    prevTick' := event.tick;
    match event.message {
      case Short(status, note, velocity) =>
        var cmd := Command(status);
        if cmd == NoteOff || (cmd == NoteOn && velocity == 0) {
          var eventId := IntToString(trackNum) + IntToString(note);
          var eventId2 := "99" + eventId;
          lines := [Stop(currentTime' + Delay, eventId), Stop(currentTime', eventId2)];
        } else if cmd == NoteOn {
          var eventId := IntToString(trackNum) + IntToString(note);
          var amplitude := velocity as real / (128.0 * numTracks as real * 3.0);
          var eventId2 := "99" + eventId;
          lines := [Start(currentTime' + Delay, eventId, amplitude, note), Start(currentTime', eventId2, 0.0, note)];
        }
      case Meta(kind, data) =>
        var msg := Base16.BytesToHex(MetaBytes(kind, data));
        if msg[..6] == "FF5103" {
          TempoMetaIff(kind, data);
          tempo' := TempoOf(Micros(data));
        }
      case Sysex(_) =>
    }
  }
}
