/** 0Z_SineEnv.cpp, the single-judgment predecessor of the rhythm game: a
    generated grid of tap notes, one per beat; the same activation and
    expiry rules as the rhythm game; and the same press judgment, with a
    single `hit` per note and no release judgment. */
module SineEnv {
  import opened Judgment
  import opened Scheduling

  const Bpm: real := 148.0
  /** `beatLen`: seconds per beat. */
  const BeatLen: real := 60.0 / Bpm
  /** `songLen`: no beat is generated at or after this many seconds. */
  const SongLen: real := 135.0
  /** `songOffset`: added to every beat time. */
  const SongOffset: real := 0.92
  /** The number of beats `randBeatmap` generates: 135 s at 148 beats per
      minute is exactly 333 beats. */
  const BeatCount: nat := 333

  /** `NoteData` with its one judgment. */
  datatype Note = Note(lane: int, startTime: real, endTime: real, hit: Quality)

  /** `isHeld`: a note ends strictly after it starts. */
  predicate IsHeld(n: Note) {
    n.endTime - n.startTime > 0.0
  }

  /** The loop condition of `randBeatmap` holds exactly for the first
      `BeatCount` beats. */
  lemma BeatCountIsLoopBound(beat: nat)
    ensures beat as real * BeatLen < SongLen <==> beat < BeatCount
  {
    BeatLenValue();
  }

  /** 60 / 148 seconds, in lowest terms. */
  lemma BeatLenValue()
    ensures BeatLen == 15.0 / 37.0
  {
  }

  /** The tap at `beat`, in the lane drawn from `roll`, which stands for the
      value of `rand()` at that beat. */
  function BeatNote(beat: nat, roll: nat): Note {
    var t := beat as real * BeatLen + SongOffset;
    Note(roll % 4 + 1, t, t, None)
  }

  /** The notes `randBeatmap` pushes, one per beat; `rolls(b)` is the value
      of `rand()` at beat `b`. */
  function Beatmap(rolls: nat -> nat): (notes: seq<Note>)
    ensures |notes| == BeatCount
    ensures forall b :: 0 <= b < BeatCount ==> notes[b] == BeatNote(b, rolls(b))
  {
    seq(BeatCount, b requires 0 <= b => BeatNote(b, rolls(b)))
  }

  /** Every generated note is an unjudged tap in lanes 1 to 4 that starts
      before the song ends (after the offset). */
  lemma BeatmapNotes(rolls: nat -> nat)
    ensures var notes := Beatmap(rolls);
      forall b :: 0 <= b < |notes| ==>
        && 1 <= notes[b].lane <= 4
        && notes[b].hit == None
        && notes[b].endTime == notes[b].startTime && !IsHeld(notes[b])
        && SongOffset <= notes[b].startTime < SongLen + SongOffset
  {
    var notes := Beatmap(rolls);
    forall b | 0 <= b < |notes|
      ensures SongOffset <= notes[b].startTime < SongLen + SongOffset
    {
      BeatCountIsLoopBound(b);
    }
  }

  /** The generated notes start one beat apart, so strictly in order. */
  lemma BeatmapInOrder(rolls: nat -> nat)
    ensures var notes := Beatmap(rolls);
      && (forall b :: 0 < b < |notes| ==> notes[b].startTime == notes[b - 1].startTime + BeatLen)
      && (forall i, j :: 0 <= i < j < |notes| ==> notes[i].startTime < notes[j].startTime)
  {
    var notes := Beatmap(rolls);
    BeatLenValue();
    forall i, j | 0 <= i < j < |notes|
      ensures notes[i].startTime < notes[j].startTime
    {
      assert notes[i].startTime == i as real * (15.0 / 37.0) + SongOffset;
      assert notes[j].startTime == j as real * (15.0 / 37.0) + SongOffset;
    }
  }

  /** `getCurrentAccuracy`: the press rule of the shared classifier, on the
      note's start time. */
  function CurrentAccuracy(n: Note, now: real): (q: Quality)
    ensures q == Perf <==> Abs(n.startTime - now) < PerfWindow
    ensures q == Good <==> PerfWindow <= Abs(n.startTime - now) < GoodWindow
    ensures q == Okay <==> GoodWindow <= Abs(n.startTime - now) < OkayWindow
    ensures q == Miss <==> OkayWindow <= Abs(n.startTime - now) < MissWindow
    ensures q == None <==> MissWindow <= Abs(n.startTime - now)
  {
    AccuracyTiers(n.startTime, now, true);
    Accuracy(n.startTime, now, true)
  }

  /** The start times of the notes, in order. */
  function Starts(notes: seq<Note>): (r: seq<real>)
    ensures |r| == |notes|
    ensures forall i :: 0 <= i < |notes| ==> r[i] == notes[i].startTime
  {
    seq(|notes|, i requires 0 <= i < |notes| => notes[i].startTime)
  }

  /** The order of expiry: by end time, then start time. */
  function KeyOf(n: Note): ExpiryKey {
    ExpiryKey(n.endTime, n.startTime)
  }

  /** What the press scan sees of the notes, in order. */
  function Slots(notes: seq<Note>): (r: seq<Slot>)
    ensures |r| == |notes|
    ensures forall i :: 0 <= i < |notes| ==>
      r[i] == Slot(notes[i].lane, notes[i].startTime, notes[i].hit == None)
  {
    seq(|notes|, i requires 0 <= i < |notes| => Slot(notes[i].lane, notes[i].startTime, notes[i].hit == None))
  }

  predicate AllUnjudged(notes: seq<Note>) {
    forall i :: 0 <= i < |notes| ==> notes[i].hit == None
  }

  predicate AllJudged(notes: seq<Note>) {
    forall i :: 0 <= i < |notes| ==> notes[i].hit != None
  }

  /** The note as the expiry leaves it: still unjudged, it becomes a MISS. */
  function Settle(n: Note): (r: Note)
    ensures r.hit != None
    ensures r.lane == n.lane && r.startTime == n.startTime && r.endTime == n.endTime
    ensures n.hit != None ==> r == n
  {
    if n.hit == None then n.(hit := Miss) else n
  }

  /** The judgments the expiry pass records: one MISS per unjudged note. */
  function Misses(notes: seq<Note>): (qs: seq<Quality>)
    ensures |qs| <= |notes|
    ensures forall i :: 0 <= i < |qs| ==> qs[i] == Miss
    decreases |notes|
  {
    if notes == [] then []
    else Misses(notes[..|notes| - 1]) + (if notes[|notes| - 1].hit == None then [Miss] else [])
  }

  /** The expired notes in their final state. */
  function Finalize(notes: seq<Note>): (r: seq<Note>)
    ensures |r| == |notes|
    decreases |notes|
  {
    if notes == [] then [] else Finalize(notes[..|notes| - 1]) + [Settle(notes[|notes| - 1])]
  }

  /** Every note that leaves the screen leaves judged. */
  lemma {:induction false} FinalizeJudged(notes: seq<Note>)
    ensures AllJudged(Finalize(notes))
    decreases |notes|
  {
    if notes != [] {
      FinalizeJudged(notes[..|notes| - 1]);
    }
  }

  /** One expiry pass either leaves the counters alone (no unjudged note
      left) or breaks the combo and shows a MISS, keeping the hit count. */
  lemma {:induction false} MissesScore(sc: Score, notes: seq<Note>)
    ensures Replay(sc, Misses(notes))
         == if exists i :: 0 <= i < |notes| && notes[i].hit == None
            then Score(0, sc.totalHits, Miss) else sc
    decreases |notes|
  {
    if notes != [] {
      var init := notes[..|notes| - 1];
      var last := notes[|notes| - 1];
      MissesScore(sc, init);
      if last.hit == None {
        ReplaySnoc(sc, Misses(init), Miss);
      } else {
        assert Misses(notes) == Misses(init);
        if exists i :: 0 <= i < |notes| && notes[i].hit == None {
          var i :| 0 <= i < |notes| && notes[i].hit == None;
          assert notes[i] == init[i];
        }
      }
    }
  }

  lemma MissesSnoc(notes: seq<Note>, n: Note)
    ensures Misses(notes + [n]) == Misses(notes) + (if n.hit == None then [Miss] else [])
    ensures Finalize(notes + [n]) == Finalize(notes) + [Settle(n)]
  {
    assert (notes + [n])[..|notes|] == notes;
  }

  /** The judgments and final notes logged for the notes `gone` so far. */
  ghost predicate Recorded(judgments: seq<Quality>, resolved: seq<Note>,
                           judgments0: seq<Quality>, resolved0: seq<Note>, gone: seq<Note>) {
    judgments == judgments0 + Misses(gone) && resolved == resolved0 + Finalize(gone)
  }

  lemma RecordedStep(judgments: seq<Quality>, resolved: seq<Note>,
                     judgments0: seq<Quality>, resolved0: seq<Note>, gone: seq<Note>, n: Note)
    requires Recorded(judgments, resolved, judgments0, resolved0, gone)
    ensures Recorded(judgments + (if n.hit == None then [Miss] else []), resolved + [Settle(n)],
                     judgments0, resolved0, gone + [n])
  {
    MissesSnoc(gone, n);
  }

  /** `onKeyDown` on the active notes for lane `lane` at time `now`: the
      chosen note gets the judgment and the judgment is committed; with no
      candidate nothing changes. */
  function JudgePress(active: seq<Note>, sc: Score, lane: int, now: real): (seq<Note>, Score) {
    match PressPick(Slots(active), lane, now)
    case NoPick => (active, sc)
    case Picked(k, q) => (active[k := active[k].(hit := q)], Commit(sc, q))
  }

  /** A press judges at most one note, only an unjudged note of its lane,
      with that note's accuracy; it changes nothing when the lane has no
      unjudged note. A press outside every window records NONE: the note
      stays unjudged and only the shown accuracy changes. */
  lemma PressEffect(active: seq<Note>, sc: Score, lane: int, now: real)
    ensures var (after, sc2) := JudgePress(active, sc, lane, now);
      && |after| == |active|
      && (forall i :: 0 <= i < |active| && after[i] != active[i] ==>
            && active[i].lane == lane && active[i].hit == None
            && after[i] == active[i].(hit := CurrentAccuracy(active[i], now)))
      && (forall i, j :: 0 <= i < |active| && 0 <= j < |active| && after[i] != active[i] && after[j] != active[j] ==> i == j)
      && ((exists i :: 0 <= i < |active| && active[i].lane == lane && active[i].hit == None)
          <==> PressPick(Slots(active), lane, now).Picked?)
      && (PressPick(Slots(active), lane, now).NoPick? ==> after == active && sc2 == sc)
      && (sc2.lastAccuracy == None ==> after == active && sc2.combo == sc.combo && sc2.totalHits == sc.totalHits)
  {
    var slots := Slots(active);
    PickExistsIff(slots, |slots|, lane, now);
    if (exists i :: 0 <= i < |active| && active[i].lane == lane && active[i].hit == None) {
      var i :| 0 <= i < |active| && active[i].lane == lane && active[i].hit == None;
      assert IsCandidate(slots[i], lane);
    }
    match PressPick(slots, lane, now)
    case NoPick =>
    case Picked(k, q) =>
      if q == None {
        assert active[k].(hit := q) == active[k];
      }
  }

  /** The judgment a press records: none when no note is chosen. */
  function PressRecord(active: seq<Note>, lane: int, now: real): seq<Quality> {
    match PressPick(Slots(active), lane, now)
    case NoPick => []
    case Picked(_, q) => [q]
  }

  /** Moving the front of the queue to the active notes keeps it unjudged. */
  lemma AppendUnjudged(a: seq<Note>, b: seq<Note>)
    requires AllUnjudged(a) && AllUnjudged(b)
    ensures AllUnjudged(a + b)
  {
  }

  /** The game state of 0Z_SineEnv.cpp's `MyApp`. */
  class Game {
    /** `currTime`: the audio clock at the last frame. */
    var currTime: real
    var combo: nat
    var totalHits: nat
    var lastAccuracy: Quality
    /** `noteQueue`: notes not yet on screen, in start-time order. */
    var noteQueue: seq<Note>
    /** `onScreen`: the active notes, in scan order. */
    var onScreen: seq<Note>
    /** Every judgment recorded so far, forced MISSes included. */
    ghost var judgments: seq<Quality>
    /** The notes that have left the screen, in their final state. */
    ghost var resolved: seq<Note>

    function Counters(): Score
      reads this
    {
      Score(combo, totalHits, lastAccuracy)
    }

    /** The counters are the replay of every judgment, and pending notes are
        unjudged. */
    ghost predicate Valid()
      reads this
    {
      Counters() == Replay(InitialScore, judgments) && AllUnjudged(noteQueue)
    }

    /** The initial field values of `MyApp`. */
    constructor ()
      ensures Valid()
      ensures currTime == 0.0 && Counters() == InitialScore
      ensures noteQueue == [] && onScreen == []
      ensures judgments == [] && resolved == []
    {
      currTime := 0.0;
      combo, totalHits, lastAccuracy := 0, 0, None;
      noteQueue, onScreen := [], [];
      judgments, resolved := [], [];
    }

    /** `randBeatmap`: pushes one tap per beat before the song's end, each
        in the lane drawn for its beat. */
    method RandBeatmap(rolls: nat -> nat)
      requires Valid()
      modifies this
      ensures Valid()
      ensures noteQueue == old(noteQueue) + Beatmap(rolls)
      ensures onScreen == old(onScreen) && currTime == old(currTime) && Counters() == old(Counters())
      ensures judgments == old(judgments) && resolved == old(resolved)
    {
      ghost var queue0 := noteQueue;
      ghost var notes := Beatmap(rolls);
      BeatLenValue();
      var beat: nat := 0;
      while beat as real * BeatLen < SongLen
        invariant beat <= BeatCount
        invariant noteQueue == queue0 + notes[..beat]
        invariant onScreen == old(onScreen) && currTime == old(currTime) && Counters() == old(Counters())
        invariant judgments == old(judgments) && resolved == old(resolved)
        decreases BeatCount - beat
      {
        BeatCountIsLoopBound(beat);
        var start := beat as real * BeatLen + SongOffset;
        var note := Note(rolls(beat) % 4 + 1, start, start, None);
        noteQueue := noteQueue + [note];
        assert notes[..beat + 1] == notes[..beat] + [note];
        beat := beat + 1;
      }
      BeatCountIsLoopBound(beat);
      assert notes[..beat] == notes;
      AppendUnjudged(queue0, notes);
    }

    /** `onAnimate`: sets the clock, moves every due note to the active
        notes, then runs the expiry pass, recording a MISS for each note that
        leaves unjudged. */
    method Advance(now: real)
      requires Valid()
      modifies this
      ensures Valid()
      ensures currTime == now
      ensures var k := Due(Starts(old(noteQueue)), now);
        var e := Expire(old(onScreen) + old(noteQueue)[..k], KeyOf, now);
        && noteQueue == old(noteQueue)[k..]
        && onScreen == e.remaining
        && judgments == old(judgments) + Misses(e.expired)
        && resolved == old(resolved) + Finalize(e.expired)
    {
      currTime := now;
      Activate();
      ExpireDue();
    }

    /** The first loop of `onAnimate`: the due prefix of the queue moves, in
        order, to the end of the active notes; what stays pending starts
        after the look-ahead window. */
    method Activate()
      requires Valid()
      modifies this
      ensures Valid()
      ensures var k := Due(Starts(old(noteQueue)), currTime);
        noteQueue == old(noteQueue)[k..] && onScreen == old(onScreen) + old(noteQueue)[..k]
      ensures noteQueue == [] || noteQueue[0].startTime > currTime + Lookahead
      ensures currTime == old(currTime) && Counters() == old(Counters())
      ensures judgments == old(judgments) && resolved == old(resolved)
    {
      ghost var queue0, screen0 := noteQueue, onScreen;
      ghost var starts := Starts(queue0);
      ghost var due := Due(starts, currTime);
      ghost var moved := 0;
      while noteQueue != [] && noteQueue[0].startTime <= currTime + Lookahead
        invariant 0 <= moved <= due
        invariant noteQueue == queue0[moved..] && onScreen == screen0 + queue0[..moved]
        invariant currTime == old(currTime) && Counters() == old(Counters())
        invariant judgments == old(judgments) && resolved == old(resolved)
        invariant Valid()
        decreases |noteQueue|
      {
        var note := noteQueue[0];
        assert starts[moved] == note.startTime;
        noteQueue := noteQueue[1..];
        onScreen := onScreen + [note];
        assert queue0[..moved + 1] == queue0[..moved] + [note];
        moved := moved + 1;
      }
      assert moved < |starts| ==> starts[moved] == noteQueue[0].startTime;
      assert moved == due;
    }

    /** The second loop of `onAnimate`: `Expire` on the active notes, with
        the combo broken and a MISS shown for every note still unjudged. */
    method ExpireDue()
      requires Valid()
      modifies this
      ensures Valid()
      ensures var e := Expire(old(onScreen), KeyOf, currTime);
        && onScreen == e.remaining
        && judgments == old(judgments) + Misses(e.expired)
        && resolved == old(resolved) + Finalize(e.expired)
      ensures currTime == old(currTime) && noteQueue == old(noteQueue)
    {
      ghost var e: Expiry<Note> := Expire(onScreen, KeyOf, currTime);
      ghost var gone: seq<Note> := [];
      while onScreen != [] && onScreen[MinIndex(Keys(onScreen, KeyOf))].endTime <= currTime - MissGrace
        invariant currTime == old(currTime) && noteQueue == old(noteQueue)
        invariant Tracks(onScreen, KeyOf, currTime, gone, e)
        invariant Recorded(judgments, resolved, old(judgments), old(resolved), gone)
        invariant Valid()
        decreases |onScreen|
      {
        var k := MinIndex(Keys(onScreen, KeyOf));
        ghost var original := onScreen[k];
        TracksStep(onScreen, KeyOf, currTime, gone, e);
        RecordedStep(judgments, resolved, old(judgments), old(resolved), gone, original);
        DropAt(k);
        gone := gone + [original];
      }
      TracksEnd(onScreen, KeyOf, currTime, gone, e);
      assert Recorded(judgments, resolved, old(judgments), old(resolved), gone);
    }

    /** One round of the expiry loop on the note at `k`, the top of the
        expiry heap: the note leaves; when it was still unjudged it becomes a
        MISS, the combo breaks and MISS is shown. */
    method DropAt(k: nat)
      requires Valid() && k < |onScreen|
      modifies this
      ensures Valid()
      ensures onScreen == RemoveAt(old(onScreen), k)
      ensures judgments == old(judgments) + (if old(onScreen)[k].hit == None then [Miss] else [])
      ensures resolved == old(resolved) + [Settle(old(onScreen)[k])]
      ensures currTime == old(currTime) && noteQueue == old(noteQueue)
    {
      var note := onScreen[k];
      if note.hit == None {
        note := note.(hit := Miss);
        ghost var sc0, judged0 := Counters(), judgments;
        lastAccuracy := Miss;
        combo := 0;
        judgments := judgments + [Miss];
        CommitStep(sc0, judged0, Miss, Counters());
      }
      resolved := resolved + [note];
      onScreen := RemoveAt(onScreen, k);
    }

    /** The scan of `onKeyDown` over the active notes of lane `id`: whether
        a candidate exists, and the chosen note with its judgment. */
    method ChooseNote(id: int) returns (noteExistsInLane: bool, closest: nat, bestAccuracy: Quality)
      ensures PressPick(Slots(onScreen), id, currTime)
           == if noteExistsInLane then Picked(closest, bestAccuracy) else NoPick
    {
      ghost var slots := Slots(onScreen);
      noteExistsInLane, closest, bestAccuracy := false, 0, None;
      var i := 0;
      while i < |onScreen|
        invariant 0 <= i <= |onScreen|
        invariant PickUpTo(slots, i, id, currTime) == if noteExistsInLane then Picked(closest, bestAccuracy) else NoPick
      {
        var note := onScreen[i];
        assert slots[i] == Slot(note.lane, note.startTime, note.hit == None);
        if note.lane == id && note.hit == None {
          if !noteExistsInLane {
            noteExistsInLane := true;
            closest := i;
            bestAccuracy := CurrentAccuracy(note, currTime);
          } else if note.startTime < onScreen[closest].startTime
                 && AtLeast(CurrentAccuracy(note, currTime), CurrentAccuracy(onScreen[closest], currTime)) {
            closest := i;
            bestAccuracy := CurrentAccuracy(note, currTime);
          }
        }
        i := i + 1;
      }
    }

    /** `onKeyDown`: an arrow key judges the chosen active note of its lane
        (see `PressPick`) and records the judgment; any other key, or a lane
        with no unjudged note, changes nothing. */
    method OnKeyDown(k: Key)
      requires Valid()
      modifies this
      ensures Valid()
      ensures var id := KeyToId(k);
        if id == -1 then
          onScreen == old(onScreen) && Counters() == old(Counters()) && judgments == old(judgments)
        else
          && (onScreen, Counters()) == JudgePress(old(onScreen), old(Counters()), id, currTime)
          && judgments == old(judgments) + PressRecord(old(onScreen), id, currTime)
      ensures noteQueue == old(noteQueue) && currTime == old(currTime) && resolved == old(resolved)
    {
      var id := KeyToId(k);
      if id != -1 {
        var noteExistsInLane, closest, bestAccuracy := ChooseNote(id);
        if noteExistsInLane {
          RecordPress(closest, bestAccuracy);
        }
      }
    }

    /** The judging block of `onKeyDown`: the chosen note gets the judgment,
        which becomes the last accuracy; a MISS breaks the combo and a hit
        adds one to the combo and to the hit count. */
    method RecordPress(closest: nat, bestAccuracy: Quality)
      requires Valid() && closest < |onScreen|
      modifies this
      ensures Valid()
      ensures onScreen == old(onScreen)[closest := old(onScreen)[closest].(hit := bestAccuracy)]
      ensures Counters() == Commit(old(Counters()), bestAccuracy)
      ensures judgments == old(judgments) + [bestAccuracy]
      ensures noteQueue == old(noteQueue) && currTime == old(currTime) && resolved == old(resolved)
    {
      ghost var sc0, judged0 := Counters(), judgments;
      onScreen := onScreen[closest := onScreen[closest].(hit := bestAccuracy)];
      lastAccuracy := bestAccuracy;
      if bestAccuracy == Miss {
        combo := 0;
      } else if IsHit(bestAccuracy) {
        combo := combo + 1;
        totalHits := totalHits + 1;
      }
      judgments := judgments + [bestAccuracy];
      CommitStep(sc0, judged0, bestAccuracy, Counters());
    }

    /** `onKeyUp`: only stops the lane's sound, which is not modelled; it
        reads and writes no note or counter, and reports the key handled. */
    method OnKeyUp(k: Key) returns (handled: bool)
      ensures handled
    {
      handled := true;
    }
  }
}
