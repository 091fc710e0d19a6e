/** Rhythm_Game.cpp's notes and its chart loader `readBeatmap`: chart lines
    become notes in file order (a hold consumes the line after it), and the
    notes are then ordered by start time. */
module RhythmNotes {
  import opened Judgment
  import opened Chart

  /** `songOffset`: added to every chart time. */
  const SongOffset: real := 2.08

  /** `NoteData` with its press (`hit1`) and release (`hit2`) judgments. */
  datatype Note = Note(lane: int, startTime: real, endTime: real, hit1: Quality, hit2: Quality)

  /** `isHeld`: a hold note ends strictly after it starts. */
  predicate IsHeld(n: Note) {
    n.endTime - n.startTime > 0.0
  }

  predicate Unjudged(n: Note) {
    n.hit1 == None && n.hit2 == None
  }

  /** The notes of a chart, in file order (`tempQueue` before sorting). A
      `@` line is a tap; a `+` line and the line after it are one hold whose
      end is that next line's time, whatever its lane and marker say; any
      other line is skipped. A `+` on the last line finds no next line and the
      stale tokens give the note its own time as end, so it is a tap. */
  function ParseChart(lines: seq<ChartLine>, offset: real): (notes: seq<Note>)
    ensures |notes| <= |lines|
    ensures forall i :: 0 <= i < |notes| ==> Unjudged(notes[i])
    decreases |lines|
  {
    if lines == [] then []
    else
      var l := lines[0];
      if l.marker == Tap then
        [Note(l.lane, l.time + offset, l.time + offset, None, None)] + ParseChart(lines[1..], offset)
      else if l.marker == HoldStart then
        if |lines| == 1 then [Note(l.lane, l.time + offset, l.time + offset, None, None)]
        else [Note(l.lane, l.time + offset, lines[1].time + offset, None, None)] + ParseChart(lines[2..], offset)
      else ParseChart(lines[1..], offset)
  }

  /** How many lines carry the marker. */
  function CountMarker(lines: seq<ChartLine>, marker: string): nat
    decreases |lines|
  {
    if lines == [] then 0 else (if lines[0].marker == marker then 1 else 0) + CountMarker(lines[1..], marker)
  }

  /** Every `+` line is followed by a line that opens no note. */
  predicate HoldsClosed(lines: seq<ChartLine>) {
    forall i :: 0 <= i < |lines| && lines[i].marker == HoldStart ==>
      i + 1 < |lines| && lines[i + 1].marker != Tap && lines[i + 1].marker != HoldStart
  }

  /** When every hold is closed, the loader makes exactly one note per `@`
      line and one per `+` line. */
  lemma {:induction false} ParseCount(lines: seq<ChartLine>, offset: real)
    requires HoldsClosed(lines)
    ensures |ParseChart(lines, offset)| == CountMarker(lines, Tap) + CountMarker(lines, HoldStart)
    decreases |lines|
  {
    if lines != [] {
      assert HoldsClosed(lines[1..]) by {
        forall i | 0 <= i < |lines[1..]| && lines[1..][i].marker == HoldStart
          ensures i + 1 < |lines[1..]| && lines[1..][i + 1].marker != Tap && lines[1..][i + 1].marker != HoldStart
        {
          assert lines[i + 1].marker == HoldStart;
        }
      }
      if lines[0].marker == HoldStart {
        assert 1 < |lines|;
        assert HoldsClosed(lines[2..]) by {
          forall i | 0 <= i < |lines[2..]| && lines[2..][i].marker == HoldStart
            ensures i + 1 < |lines[2..]| && lines[2..][i + 1].marker != Tap && lines[2..][i + 1].marker != HoldStart
          {
            assert lines[i + 2].marker == HoldStart;
          }
        }
        ParseCount(lines[2..], offset);
        assert lines[1..][1..] == lines[2..];
        assert lines[1].marker != Tap && lines[1].marker != HoldStart;
      } else {
        ParseCount(lines[1..], offset);
      }
    }
  }

  /** Start and end of every parsed note are chart times plus the offset:
      a tap starts and ends at its line's time. */
  lemma {:induction false} ParseTapsOnly(lines: seq<ChartLine>, offset: real)
    requires forall i :: 0 <= i < |lines| ==> lines[i].marker == Tap
    ensures |ParseChart(lines, offset)| == |lines|
    ensures forall i :: 0 <= i < |lines| ==>
      ParseChart(lines, offset)[i] == Note(lines[i].lane, lines[i].time + offset, lines[i].time + offset, None, None)
    decreases |lines|
  {
    if lines != [] {
      ParseTapsOnly(lines[1..], offset);
    }
  }

  /** A line that opens a note: a tap or a hold start. */
  predicate Opens(l: ChartLine) {
    l.marker == Tap || l.marker == HoldStart
  }

  /** The positions, from `i` on, of the lines that open a note. */
  function Openers(lines: seq<ChartLine>, i: nat): (r: seq<nat>)
    requires i <= |lines|
    ensures forall k :: 0 <= k < |r| ==> i <= r[k] < |lines| && Opens(lines[r[k]])
    decreases |lines| - i
  {
    if i == |lines| then []
    else (if Opens(lines[i]) then [i] else []) + Openers(lines, i + 1)
  }

  /** The note starts by line `i`: a tap ends where it starts; a hold keeps
      the lane and start of its `+` line and ends at the next line's time. */
  function NoteAt(lines: seq<ChartLine>, i: nat, offset: real): Note
    requires i < |lines|
  {
    var l := lines[i];
    var end := if l.marker == HoldStart && i + 1 < |lines| then lines[i + 1].time else l.time;
    Note(l.lane, l.time + offset, end + offset, None, None)
  }

  lemma HoldsClosedSuffix(lines: seq<ChartLine>, j: nat)
    requires HoldsClosed(lines) && j <= |lines|
    ensures HoldsClosed(lines[j..])
  {
    forall i | 0 <= i < |lines[j..]| && lines[j..][i].marker == HoldStart
      ensures i + 1 < |lines[j..]| && lines[j..][i + 1].marker != Tap && lines[j..][i + 1].marker != HoldStart
    {
      assert lines[i + j].marker == HoldStart;
    }
  }

  /** The notes are, one for one, the notes opened by the lines at `starts`. */
  predicate ParsedAs(notes: seq<Note>, lines: seq<ChartLine>, starts: seq<nat>, offset: real) {
    |notes| == |starts| &&
    forall k :: 0 <= k < |starts| ==> starts[k] < |lines| && notes[k] == NoteAt(lines, starts[k], offset)
  }

  lemma ParsedAsCons(notes: seq<Note>, lines: seq<ChartLine>, starts: seq<nat>, offset: real, i: nat)
    requires ParsedAs(notes, lines, starts, offset) && i < |lines|
    ensures ParsedAs([NoteAt(lines, i, offset)] + notes, lines, [i] + starts, offset)
  {
    var notes', starts' := [NoteAt(lines, i, offset)] + notes, [i] + starts;
    forall k | 0 <= k < |starts'| ensures starts'[k] < |lines| && notes'[k] == NoteAt(lines, starts'[k], offset) {
      if k > 0 {
        assert notes'[k] == notes[k - 1] && starts'[k] == starts[k - 1];
      }
    }
  }

  lemma {:induction false} ParseFrom(lines: seq<ChartLine>, i: nat, offset: real)
    requires HoldsClosed(lines) && i <= |lines|
    ensures ParsedAs(ParseChart(lines[i..], offset), lines, Openers(lines, i), offset)
    decreases |lines| - i
  {
    if i < |lines| {
      var rest := lines[i..];
      assert rest[0] == lines[i];
      if lines[i].marker == HoldStart {
        assert i + 1 < |lines| && !Opens(lines[i + 1]);
        assert rest[2..] == lines[i + 2..];
        ParseFrom(lines, i + 2, offset);
        assert ParseChart(rest, offset) == [NoteAt(lines, i, offset)] + ParseChart(lines[i + 2..], offset);
        assert Openers(lines, i) == [i] + Openers(lines, i + 2) by {
          assert Openers(lines, i + 1) == Openers(lines, i + 2);
        }
        ParsedAsCons(ParseChart(lines[i + 2..], offset), lines, Openers(lines, i + 2), offset, i);
      } else {
        assert rest[1..] == lines[i + 1..];
        ParseFrom(lines, i + 1, offset);
        if lines[i].marker == Tap {
          assert ParseChart(rest, offset) == [NoteAt(lines, i, offset)] + ParseChart(lines[i + 1..], offset);
          ParsedAsCons(ParseChart(lines[i + 1..], offset), lines, Openers(lines, i + 1), offset, i);
        }
      }
    }
  }

  /** When every hold is closed, the k-th note is the one opened by the k-th
      `@` or `+` line: a tap at that line's time, or a hold from that line's
      lane and time to the time of the line after it, whatever that line's
      marker and lane. */
  lemma ParseHolds(lines: seq<ChartLine>, offset: real)
    requires HoldsClosed(lines)
    ensures var notes := ParseChart(lines, offset); var starts := Openers(lines, 0);
      |notes| == |starts| && forall k :: 0 <= k < |starts| ==> notes[k] == NoteAt(lines, starts[k], offset)
  {
    ParseFrom(lines, 0, offset);
    assert lines[0..] == lines;
  }

  /** A `+` on the last line has no line to end it: it becomes a note that
      ends where it starts, after the notes of the lines before it. */
  /** One step of the loader: the first line's note, if it opens one, then
      the notes after the lines it consumes. */
  lemma ParseStep(lines: seq<ChartLine>, offset: real)
    requires lines != [] && (lines[0].marker == HoldStart ==> |lines| > 1)
    ensures var j := if lines[0].marker == HoldStart then 2 else 1;
      ParseChart(lines, offset)
        == (if Opens(lines[0]) then [NoteAt(lines, 0, offset)] else []) + ParseChart(lines[j..], offset)
  {
  }

  lemma {:induction false} ParseTrailingHold(lines: seq<ChartLine>, l: ChartLine, offset: real)
    requires HoldsClosed(lines) && l.marker == HoldStart
    ensures ParseChart(lines + [l], offset)
         == ParseChart(lines, offset) + [Note(l.lane, l.time + offset, l.time + offset, None, None)]
    decreases |lines|
  {
    var all := lines + [l];
    if lines != [] {
      var j := if lines[0].marker == HoldStart then 2 else 1;
      assert all[0] == lines[0] && (j == 2 ==> 1 < |lines| && all[1] == lines[1]);
      assert NoteAt(all, 0, offset) == NoteAt(lines, 0, offset);
      ParseStep(all, offset);
      ParseStep(lines, offset);
      assert all[j..] == lines[j..] + [l];
      HoldsClosedSuffix(lines, j);
      ParseTrailingHold(lines[j..], l, offset);
    }
  }

  predicate SortedByStart(notes: seq<Note>) {
    forall i, j :: 0 <= i < j < |notes| ==> notes[i].startTime <= notes[j].startTime
  }

  /** Inserts a note after every note that starts no later than it. */
  function InsertByStart(n: Note, notes: seq<Note>): (r: seq<Note>)
    requires SortedByStart(notes)
    ensures SortedByStart(r)
    ensures multiset(r) == multiset(notes) + multiset{n}
    ensures |r| == |notes| + 1
    ensures r[0] == n || (notes != [] && r[0] == notes[0])
    decreases |notes|
  {
    if notes == [] then [n]
    else if n.startTime < notes[0].startTime then [n] + notes
    else
      var rest := InsertByStart(n, notes[1..]);
      PrependKeepsOrder(notes, n, rest);
      [notes[0]] + rest
  }

  /** Putting the first note back in front of the insertion into the others
      keeps the order and accounts for every note. */
  lemma PrependKeepsOrder(notes: seq<Note>, n: Note, rest: seq<Note>)
    requires notes != [] && SortedByStart(notes) && notes[0].startTime <= n.startTime
    requires SortedByStart(rest) && multiset(rest) == multiset(notes[1..]) + multiset{n}
    ensures SortedByStart([notes[0]] + rest)
    ensures multiset([notes[0]] + rest) == multiset(notes) + multiset{n}
  {
    assert notes == [notes[0]] + notes[1..];
    assert forall j :: 0 <= j < |notes[1..]| ==> notes[0].startTime <= notes[1..][j].startTime by {
      forall j | 0 <= j < |notes[1..]| ensures notes[0].startTime <= notes[1..][j].startTime {
        assert notes[1..][j] == notes[j + 1];
      }
    }
    StartsNoEarlier(notes[0].startTime, rest, notes[1..], n);
  }

  /** Every note of a permutation of `others` plus `n` starts no earlier
      than `t` when `n` and every note of `others` do. */
  lemma StartsNoEarlier(t: real, rest: seq<Note>, others: seq<Note>, n: Note)
    requires multiset(rest) == multiset(others) + multiset{n}
    requires t <= n.startTime && forall j :: 0 <= j < |others| ==> t <= others[j].startTime
    ensures forall i :: 0 <= i < |rest| ==> t <= rest[i].startTime
  {
    forall i | 0 <= i < |rest| ensures t <= rest[i].startTime {
      assert rest[i] in multiset(rest);
      if rest[i] != n {
        assert rest[i] in multiset(others);
        assert rest[i] in others;
      }
    }
  }

  /** `std::sort` with `NoteDataCompare2` (ascending start time): the
      notes, reordered by start time. */
  function SortByStart(notes: seq<Note>): (r: seq<Note>)
    ensures SortedByStart(r)
    ensures multiset(r) == multiset(notes)
    decreases |notes|
  {
    if notes == [] then []
    else
      assert notes == [notes[0]] + notes[1..];
      InsertByStart(notes[0], SortByStart(notes[1..]))
  }
}
