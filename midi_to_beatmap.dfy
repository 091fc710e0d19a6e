/** MidiToBeatmap.java: walks every event of every track, keeps the clock
    (`tempo`, `currentTime`, `prevTick`), and writes a chart line for the
    two drum notes it maps: note 37 is a tap, note 38 opens a hold on
    note-on and closes it on note-off. The lane is the 1-based track
    number. */
module MidiToBeatmap {
  import opened Base16
  import opened Chart
  import opened Midi
  import opened RhythmNotes
  import opened Judgment

  const TapNote: int := 37
  const HoldNote: int := 38

  /** The lines one event writes, at the time the clock has reached. */
  function EventLines(trackNum: int, m: Message, time: real): (lines: seq<ChartLine>)
    ensures |lines| <= 1
  {
    if NoteEnds(m) then
      if m.data1 == HoldNote then [ChartLine(trackNum, HoldEnd, time)] else []
    else if NoteStarts(m) then
      if m.data1 == TapNote then [ChartLine(trackNum, Tap, time)]
      else if m.data1 == HoldNote then [ChartLine(trackNum, HoldStart, time)]
      else []
    else []
  }

  /** Only notes 37 and 38 write anything: a note-on of 37 a tap, a note-on
      of 38 a hold start, a note-off of 38 (or a note-on of 38 with velocity
      0) a hold end; every other event writes nothing. */
  lemma EventLinesIff(trackNum: int, m: Message, time: real)
    ensures EventLines(trackNum, m, time) == [ChartLine(trackNum, Tap, time)]
        <==> m.Short? && Command(m.status) == NoteOn && m.data2 > 0 && m.data1 == TapNote
    ensures EventLines(trackNum, m, time) == [ChartLine(trackNum, HoldStart, time)]
        <==> m.Short? && Command(m.status) == NoteOn && m.data2 > 0 && m.data1 == HoldNote
    ensures EventLines(trackNum, m, time) == [ChartLine(trackNum, HoldEnd, time)]
        <==> NoteEnds(m) && m.data1 == HoldNote
    ensures EventLines(trackNum, m, time) == []
        <==> !((NoteStarts(m) && (m.data1 == TapNote || m.data1 == HoldNote)) || (NoteEnds(m) && m.data1 == HoldNote))
  {
    NoteStartsIff(m);
  }

  /** The lines written so far and the clock. */
  datatype Output = Output(lines: seq<ChartLine>, clock: Clock)

  /** One round of the inner loop: the clock advances to the event's tick,
      the event's lines are written at that time, then a tempo change takes
      effect. */
  function EventStep(c: Clock, resolution: nat, trackNum: int, e: Event): (r: Output)
    requires resolution > 0 && c.tempo > 0.0
    ensures r.clock == ClockStep(c, resolution, e)
    ensures r.lines == EventLines(trackNum, e.message, r.clock.currentTime)
  {
    var ticked := Tick(c, resolution, e.tick);
    Output(EventLines(trackNum, e.message, ticked.currentTime), Retempo(ticked, e.message))
  }

  /** The inner loop of `run` over one track's events, from clock `c`. */
  function TrackRun(c: Clock, resolution: nat, trackNum: int, events: seq<Event>): (r: Output)
    requires resolution > 0 && c.tempo > 0.0
    ensures r.clock == ClockAfter(c, resolution, events)
    decreases |events|
  {
    if events == [] then Output([], c)
    else
      var before := TrackRun(c, resolution, trackNum, events[..|events| - 1]);
      var step := EventStep(before.clock, resolution, trackNum, events[|events| - 1]);
      Output(before.lines + step.lines, step.clock)
  }

  /** The outer loop of `run` over the tracks; track `t` (from 1) writes
      lane `t`, and the clock runs on from one track into the next. */
  function SongRun(resolution: nat, tracks: seq<seq<Event>>): (r: Output)
    requires resolution > 0
    ensures r.clock == ClockAfter(InitialClock, resolution, Flatten(tracks))
    decreases |tracks|
  {
    if tracks == [] then Output([], InitialClock)
    else
      var before := SongRun(resolution, tracks[..|tracks| - 1]);
      var t := TrackRun(before.clock, resolution, |tracks|, tracks[|tracks| - 1]);
      ClockAfterConcat(InitialClock, resolution, Flatten(tracks[..|tracks| - 1]), tracks[|tracks| - 1]);
      Output(before.lines + t.lines, t.clock)
  }

  /** The chart `run` writes for a sequence. */
  function Beatmap(s: MidiSequence): seq<ChartLine>
    requires s.resolution > 0
  {
    SongRun(s.resolution, s.tracks).lines
  }

  /** Every line of a track's output is in that track's lane and carries one
      of the three chart markers. */
  predicate LinesIn(lines: seq<ChartLine>, lo: int, hi: int) {
    forall i :: 0 <= i < |lines| ==>
      lo <= lines[i].lane <= hi && lines[i].marker in {Tap, HoldStart, HoldEnd}
  }

  lemma {:induction false} TrackRunLanes(c: Clock, resolution: nat, trackNum: int, events: seq<Event>)
    requires resolution > 0 && c.tempo > 0.0
    ensures LinesIn(TrackRun(c, resolution, trackNum, events).lines, trackNum, trackNum)
    decreases |events|
  {
    if events != [] {
      TrackRunLanes(c, resolution, trackNum, events[..|events| - 1]);
    }
  }

  /** Every chart line is in a lane from 1 to the number of tracks and is a
      tap, a hold start or a hold end. */
  lemma {:induction false} BeatmapLanes(resolution: nat, tracks: seq<seq<Event>>)
    requires resolution > 0
    ensures LinesIn(SongRun(resolution, tracks).lines, 1, |tracks|)
    decreases |tracks|
  {
    if tracks != [] {
      var before := SongRun(resolution, tracks[..|tracks| - 1]);
      BeatmapLanes(resolution, tracks[..|tracks| - 1]);
      TrackRunLanes(before.clock, resolution, |tracks|, tracks[|tracks| - 1]);
    }
  }

  /** No short message plays note 38. */
  predicate NoHoldNotes(events: seq<Event>) {
    forall i :: 0 <= i < |events| ==> !(events[i].message.Short? && events[i].message.data1 == HoldNote)
  }

  predicate AllTaps(lines: seq<ChartLine>) {
    forall i :: 0 <= i < |lines| ==> lines[i].marker == Tap
  }

  lemma {:induction false} TrackRunTaps(c: Clock, resolution: nat, trackNum: int, events: seq<Event>)
    requires resolution > 0 && c.tempo > 0.0 && NoHoldNotes(events)
    ensures AllTaps(TrackRun(c, resolution, trackNum, events).lines)
    decreases |events|
  {
    if events != [] {
      TrackRunTaps(c, resolution, trackNum, events[..|events| - 1]);
    }
  }

  /** A song without note 38 becomes a chart of taps only, and the game's
      loader reads each of its lines back as one tap note at the line's time
      plus the song offset, in the line's lane. */
  lemma TapsOnlyLoad(resolution: nat, tracks: seq<seq<Event>>)
    requires resolution > 0
    requires forall t :: 0 <= t < |tracks| ==> NoHoldNotes(tracks[t])
    ensures var lines := SongRun(resolution, tracks).lines;
      && AllTaps(lines)
      && |ParseChart(lines, SongOffset)| == |lines|
      && forall i :: 0 <= i < |lines| ==>
           ParseChart(lines, SongOffset)[i]
             == Note(lines[i].lane, lines[i].time + SongOffset, lines[i].time + SongOffset, None, None)
  {
    SongRunTaps(resolution, tracks);
    ParseTapsOnly(SongRun(resolution, tracks).lines, SongOffset);
  }

  /** A song without note 38 writes tap lines only. */
  lemma {:induction false} SongRunTaps(resolution: nat, tracks: seq<seq<Event>>)
    requires resolution > 0
    requires forall t :: 0 <= t < |tracks| ==> NoHoldNotes(tracks[t])
    ensures AllTaps(SongRun(resolution, tracks).lines)
    decreases |tracks|
  {
    if tracks != [] {
      var before := SongRun(resolution, tracks[..|tracks| - 1]);
      SongRunTaps(resolution, tracks[..|tracks| - 1]);
      TrackRunTaps(before.clock, resolution, |tracks|, tracks[|tracks| - 1]);
    }
  }

  /** When a track's last event writes a line, that line comes last, at the
      time the clock shows after the track. */
  lemma TrackRunLastLine(c: Clock, resolution: nat, trackNum: int, events: seq<Event>)
    requires resolution > 0 && c.tempo > 0.0 && events != []
    requires EventLines(trackNum, events[|events| - 1].message, 0.0) != []
    ensures var r := TrackRun(c, resolution, trackNum, events);
      r.lines != [] && r.lines[|r.lines| - 1].time == r.clock.currentTime
  {
    var e := events[|events| - 1];
    var before := TrackRun(c, resolution, trackNum, events[..|events| - 1]);
    var step := EventStep(before.clock, resolution, trackNum, e);
    assert TrackRun(c, resolution, trackNum, events) == Output(before.lines + step.lines, step.clock);
    EventLinesAt(trackNum, e.message, step.clock.currentTime);
    var lines := before.lines + step.lines;
    assert lines[|lines| - 1] == step.lines[|step.lines| - 1];
  }

  /** Whether an event writes a line does not depend on the time, and the
      line carries the time it was written at. */
  lemma EventLinesAt(trackNum: int, m: Message, time: real)
    ensures |EventLines(trackNum, m, time)| == |EventLines(trackNum, m, 0.0)|
    ensures forall i :: 0 <= i < |EventLines(trackNum, m, time)| ==> EventLines(trackNum, m, time)[i].time == time
  {
  }

  /** At a constant tempo a line's time depends on its tick alone: when the
      last event of the last track writes a line, in a song with no tempo
      change, that line comes last, at the event's tick over twice the
      resolution. */
  lemma LastLineTime(resolution: nat, tracks: seq<seq<Event>>)
    requires resolution > 0 && tracks != [] && tracks[|tracks| - 1] != []
    requires NoTempoChange(Flatten(tracks))
    requires var track := tracks[|tracks| - 1];
      EventLines(|tracks|, track[|track| - 1].message, 0.0) != []
    ensures var lines := SongRun(resolution, tracks).lines;
      var track := tracks[|tracks| - 1];
      lines != [] && lines[|lines| - 1].time == track[|track| - 1].tick as real / (2 * resolution) as real
  {
    var track := tracks[|tracks| - 1];
    var before := SongRun(resolution, tracks[..|tracks| - 1]);
    TrackRunLastLine(before.clock, resolution, |tracks|, track);
    var events := Flatten(tracks);
    assert events == Flatten(tracks[..|tracks| - 1]) + track;
    assert events[|events| - 1] == track[|track| - 1];
    SongTimeAtConstantTempo(resolution, events);
  }

  /** `run` on a loaded sequence: the two nested loops, writing the lines
      in order. */
  method Run(s: MidiSequence) returns (out: seq<ChartLine>)
    requires s.resolution > 0
    ensures out == Beatmap(s)
  {
    var resolution := s.resolution;
    var tempo, currentTime, prevTick := 120.0, 0.0, 0;
    out := [];
    var trackNum := 0;
    while trackNum < |s.tracks|
      invariant 0 <= trackNum <= |s.tracks|
      invariant Output(out, Clock(tempo, currentTime, prevTick)) == SongRun(resolution, s.tracks[..trackNum])
    {
      assert s.tracks[..trackNum + 1][..trackNum] == s.tracks[..trackNum];
      var lines;
      lines, tempo, currentTime, prevTick := RunTrack(resolution, trackNum + 1, s.tracks[trackNum], tempo, currentTime, prevTick);
      out := out + lines;
      trackNum := trackNum + 1;
    }
    assert s.tracks[..trackNum] == s.tracks;
  }

  /** The inner loop of `run`: one track's events, from the clock left by
      the tracks before it. */
  method RunTrack(resolution: nat, trackNum: int, track: seq<Event>, tempo: real, currentTime: real, prevTick: int)
    returns (lines: seq<ChartLine>, tempo': real, currentTime': real, prevTick': int)
    requires resolution > 0 && tempo > 0.0
    ensures Output(lines, Clock(tempo', currentTime', prevTick'))
         == TrackRun(Clock(tempo, currentTime, prevTick), resolution, trackNum, track)
  {
    ghost var start := Clock(tempo, currentTime, prevTick);
    lines, tempo', currentTime', prevTick' := [], tempo, currentTime, prevTick;
    var i := 0;
    while i < |track|
      invariant 0 <= i <= |track|
      invariant Output(lines, Clock(tempo', currentTime', prevTick')) == TrackRun(start, resolution, trackNum, track[..i])
    {
      assert track[..i + 1][..i] == track[..i];
      var more;
      more, tempo', currentTime', prevTick' := HandleEvent(resolution, trackNum, track[i], tempo', currentTime', prevTick');
      lines := lines + more;
      i := i + 1;
    }
    assert track[..i] == track;
  }

  /** The body of the inner loop of `run` for one event. */
  method HandleEvent(resolution: nat, trackNum: int, event: Event, tempo: real, currentTime: real, prevTick: int)
    returns (lines: seq<ChartLine>, tempo': real, currentTime': real, prevTick': int)
    requires resolution > 0 && tempo > 0.0
    ensures Output(lines, Clock(tempo', currentTime', prevTick'))
         == EventStep(Clock(tempo, currentTime, prevTick), resolution, trackNum, event)
  {
    lines := [];
    tempo' := tempo;
    currentTime' := currentTime + Elapsed(SecondsPerTick(resolution, tempo), prevTick, event.tick);
    prevTick' := event.tick;
    match event.message {
      case Short(status, note, velocity) =>
        var cmd := Command(status);
        if cmd == NoteOff || (cmd == NoteOn && velocity == 0) {
          if note == 38 {
            lines := [ChartLine(trackNum, HoldEnd, currentTime')];
          }
        } else if cmd == NoteOn {
          if note == 37 {
            lines := [ChartLine(trackNum, Tap, currentTime')];
          } else if note == 38 {
            lines := [ChartLine(trackNum, HoldStart, currentTime')];
          }
        }
      case Meta(kind, data) =>
        var msg := BytesToHex(MetaBytes(kind, data));
        if msg[..6] == "FF5103" {
          TempoMetaIff(kind, data);
          tempo' := TempoOf(Micros(data));
        }
      case Sysex(_) =>
    }
  }
}
