/** Rhythm_Game.cpp's game state (`MyApp`): the pending note FIFO, the
    active notes, the clock and the score counters, with the frame update
    `onAnimate` and the key handlers `onKeyDown` and `onKeyUp`. Each
    operation is specified by a pure function of the state before it; the
    lemmas state what those functions promise. */
module RhythmGame {
  import opened Judgment
  import opened Chart
  import opened Scheduling
  import opened RhythmNotes

  /** The start times of the notes, in order. */
  function Starts(notes: seq<Note>): (r: seq<real>)
    ensures |r| == |notes|
    ensures forall i :: 0 <= i < |notes| ==> r[i] == notes[i].startTime
  {
    seq(|notes|, i requires 0 <= i < |notes| => notes[i].startTime)
  }

  /** The order of expiry: by end time, then start time. */
  function KeyOf(n: Note): ExpiryKey {
    ExpiryKey(n.endTime, n.startTime)
  }

  /** What the press scan sees of the notes, in order. */
  function Slots(notes: seq<Note>): (r: seq<Slot>)
    ensures |r| == |notes|
    ensures forall i :: 0 <= i < |notes| ==>
      r[i] == Slot(notes[i].lane, notes[i].startTime, notes[i].hit1 == None)
  {
    seq(|notes|, i requires 0 <= i < |notes| => Slot(notes[i].lane, notes[i].startTime, notes[i].hit1 == None))
  }

  /** A note whose press, or whose release if it is a hold, is still
      unjudged: expiring it is a MISS. */
  predicate Forced(n: Note) {
    n.hit1 == None || (IsHeld(n) && n.hit2 == None)
  }

  /** Every judgment the note can receive has been given. */
  predicate FullyJudged(n: Note) {
    n.hit1 != None && (IsHeld(n) ==> n.hit2 != None)
  }

  /** An active note is only ever released after a scoring press. */
  predicate Coherent(n: Note) {
    n.hit2 != None ==> IsHit(n.hit1)
  }

  predicate AllUnjudged(notes: seq<Note>) {
    forall i :: 0 <= i < |notes| ==> Unjudged(notes[i])
  }

  predicate AllCoherent(notes: seq<Note>) {
    forall i :: 0 <= i < |notes| ==> Coherent(notes[i])
  }

  predicate AllFullyJudged(notes: seq<Note>) {
    forall i :: 0 <= i < |notes| ==> FullyJudged(notes[i])
  }

  /** `b` is `a` with possibly more judgments: same lane and times, and a
      judgment once given is never changed. */
  predicate Settles(a: Note, b: Note) {
    && b.lane == a.lane && b.startTime == a.startTime && b.endTime == a.endTime
    && (a.hit1 != None ==> b.hit1 == a.hit1)
    && (a.hit2 != None ==> b.hit2 == a.hit2)
  }

  /** The note as the expiry leaves it: an unjudged press becomes a MISS and,
      when the note was forced, so does the release. */
  function ForceResolve(n: Note): (r: Note)
    ensures FullyJudged(r)
    ensures Forced(n) <==> r != n
  {
    if Forced(n) then n.(hit1 := if n.hit1 == None then Miss else n.hit1, hit2 := Miss) else n
  }

  /** Expiry only adds judgments to a coherent note. */
  lemma ForceResolveSettles(n: Note)
    requires Coherent(n)
    ensures Settles(n, ForceResolve(n))
    ensures n.hit1 != None ==> ForceResolve(n).hit1 == n.hit1
  {
  }

  /** The judgments the expiry pass records, one MISS per forced note. */
  function ForcedMisses(notes: seq<Note>): (qs: seq<Quality>)
    ensures |qs| <= |notes|
    ensures forall i :: 0 <= i < |qs| ==> qs[i] == Miss
    decreases |notes|
  {
    if notes == [] then []
    else ForcedMisses(notes[..|notes| - 1]) + (if Forced(notes[|notes| - 1]) then [Miss] else [])
  }

  /** The expired notes in their final state. */
  function Finalize(notes: seq<Note>): (r: seq<Note>)
    ensures |r| == |notes|
    decreases |notes|
  {
    if notes == [] then [] else Finalize(notes[..|notes| - 1]) + [ForceResolve(notes[|notes| - 1])]
  }

  /** Every note that leaves the screen leaves fully judged. */
  lemma {:induction false} FinalizeFullyJudged(notes: seq<Note>)
    ensures AllFullyJudged(Finalize(notes))
    decreases |notes|
  {
    if notes != [] {
      FinalizeFullyJudged(notes[..|notes| - 1]);
    }
  }

  /** One expiry pass either leaves the counters alone (nothing forced) or
      breaks the combo and shows a MISS, keeping the hit count. */
  lemma {:induction false} ForcedMissesScore(sc: Score, notes: seq<Note>)
    ensures Replay(sc, ForcedMisses(notes))
         == if exists i :: 0 <= i < |notes| && Forced(notes[i])
            then Score(0, sc.totalHits, Miss) else sc
    decreases |notes|
  {
    if notes != [] {
      var init := notes[..|notes| - 1];
      var last := notes[|notes| - 1];
      ForcedMissesScore(sc, init);
      if Forced(last) {
        ReplaySnoc(sc, ForcedMisses(init), Miss);
      } else {
        assert ForcedMisses(notes) == ForcedMisses(init);
        if exists i :: 0 <= i < |notes| && Forced(notes[i]) {
          var i :| 0 <= i < |notes| && Forced(notes[i]);
          assert notes[i] == init[i];
        }
      }
    }
  }

  /** `onKeyDown` on the active notes for lane `lane` at time `now`: the
      chosen note gets its press judgment and the judgment is committed; with
      no candidate nothing changes. */
  function JudgePress(active: seq<Note>, sc: Score, lane: int, now: real): (seq<Note>, Score) {
    match PressPick(Slots(active), lane, now)
    case NoPick => (active, sc)
    case Picked(k, q) => (active[k := active[k].(hit1 := q)], Commit(sc, q))
  }

  /** A press gives at most one note a judgment, only to an open note of its
      lane, never changes an earlier judgment, and changes nothing when the
      lane has no open note. */
  lemma PressEffect(active: seq<Note>, sc: Score, lane: int, now: real)
    requires AllCoherent(active)
    ensures var (after, sc2) := JudgePress(active, sc, lane, now);
      && |after| == |active| && AllCoherent(after)
      && (forall i :: 0 <= i < |active| ==> Settles(active[i], after[i]))
      && (forall i :: 0 <= i < |active| && after[i] != active[i] ==>
            active[i].lane == lane && active[i].hit1 == None && after[i].hit1 == PressAccuracy(Slots(active)[i], now))
      && (forall i, j :: 0 <= i < |active| && 0 <= j < |active| && after[i] != active[i] && after[j] != active[j] ==> i == j)
      && ((exists i :: 0 <= i < |active| && active[i].lane == lane && active[i].hit1 == None)
          <==> PressPick(Slots(active), lane, now).Picked?)
      && (PressPick(Slots(active), lane, now).NoPick? ==> after == active && sc2 == sc)
  {
    var slots := Slots(active);
    PickExistsIff(slots, |slots|, lane, now);
    if (exists i :: 0 <= i < |active| && active[i].lane == lane && active[i].hit1 == None) {
      var i :| 0 <= i < |active| && active[i].lane == lane && active[i].hit1 == None;
      assert IsCandidate(slots[i], lane);
    }
  }

  lemma PressKeepsCoherent(active: seq<Note>, sc: Score, lane: int, now: real)
    requires AllCoherent(active)
    ensures AllCoherent(JudgePress(active, sc, lane, now).0)
  {
  }

  /** The note a key release judges: the first active note of the lane that
      was pressed with a scoring judgment, is a hold, and is not released. */
  predicate Releasable(n: Note, lane: int) {
    n.lane == lane && IsHit(n.hit1) && IsHeld(n) && n.hit2 == None
  }

  function ReleaseIndex(active: seq<Note>, lane: int): (k: nat)
    ensures k <= |active|
    ensures k < |active| ==> Releasable(active[k], lane)
    ensures forall j :: 0 <= j < k ==> !Releasable(active[j], lane)
    decreases |active|
  {
    if active == [] || Releasable(active[0], lane) then 0 else 1 + ReleaseIndex(active[1..], lane)
  }

  /** `onKeyUp` on the active notes: the first releasable note of the lane
      gets its release judgment, which is committed; otherwise nothing
      changes. */
  function JudgeRelease(active: seq<Note>, sc: Score, lane: int, now: real): (seq<Note>, Score) {
    var k := ReleaseIndex(active, lane);
    if k == |active| then (active, sc)
    else
      var q := Accuracy(active[k].endTime, now, false);
      (active[k := active[k].(hit2 := q)], Commit(sc, q))
  }

  /** A release judges at most one note, the first releasable note of the
      lane, and leaves it fully judged. Its judgment is the release accuracy
      at the note's end, never NONE. A MISS breaks the combo and keeps the
      hit count; anything else adds one to both. With no releasable note
      nothing changes. */
  lemma ReleaseEffect(active: seq<Note>, sc: Score, lane: int, now: real)
    requires AllCoherent(active)
    ensures var (after, sc2) := JudgeRelease(active, sc, lane, now);
      && |after| == |active| && AllCoherent(after)
      && (forall i :: 0 <= i < |active| ==> Settles(active[i], after[i]))
      && (forall i :: 0 <= i < |active| && after[i] != active[i] ==>
            && Releasable(active[i], lane)
            && (forall j :: 0 <= j < i ==> !Releasable(active[j], lane))
            && FullyJudged(after[i]) && Coherent(after[i])
            && after[i].hit2 == Accuracy(active[i].endTime, now, false)
            && sc2.lastAccuracy == after[i].hit2
            && (after[i].hit2 == Miss ==> sc2.combo == 0 && sc2.totalHits == sc.totalHits)
            && (after[i].hit2 != Miss ==> sc2.combo == sc.combo + 1 && sc2.totalHits == sc.totalHits + 1))
      && (forall i, j :: 0 <= i < |active| && 0 <= j < |active| && after[i] != active[i] && after[j] != active[j] ==> i == j)
      && ((exists i :: 0 <= i < |active| && Releasable(active[i], lane)) <==>
            (exists i :: 0 <= i < |active| && after[i] != active[i]))
      && ((forall i :: 0 <= i < |active| ==> !Releasable(active[i], lane)) ==> after == active && sc2 == sc)
  {
    var k := ReleaseIndex(active, lane);
    if k < |active| {
      ReleaseNeverNone(active[k].endTime, now);
      assert JudgeRelease(active, sc, lane, now).0[k] != active[k];
    }
  }

  /** A hold ending at 3.0 s that was pressed PERF and is released at
      3.03 s is judged GOOD and extends the combo. */
  lemma ReleaseExample()
    ensures var n := Note(1, 1.0, 3.0, Perf, None);
      var (after, sc2) := JudgeRelease([n], Score(4, 4, Perf), 1, 3.03);
      after == [n.(hit2 := Good)] && sc2 == Score(5, 5, Good)
  {
    var n := Note(1, 1.0, 3.0, Perf, None);
    assert Releasable(n, 1);
    assert ReleaseIndex([n], 1) == 0;
    assert Abs(3.0 - 3.03) == 0.03;
  }

  lemma ForcedMissesSnoc(notes: seq<Note>, n: Note)
    ensures ForcedMisses(notes + [n]) == ForcedMisses(notes) + (if Forced(n) then [Miss] else [])
  {
    assert (notes + [n])[..|notes|] == notes;
  }

  lemma FinalizeSnoc(notes: seq<Note>, n: Note)
    ensures Finalize(notes + [n]) == Finalize(notes) + [ForceResolve(n)]
  {
    assert (notes + [n])[..|notes|] == notes;
  }

  /** Moving the front of the queue to the active notes keeps both
      invariants. */
  lemma ShiftFront(queue: seq<Note>, screen: seq<Note>)
    requires queue != [] && AllUnjudged(queue) && AllCoherent(screen)
    ensures AllUnjudged(queue[1..]) && AllCoherent(screen + [queue[0]])
  {
    assert Unjudged(queue[0]);
  }

  /** On a queue ordered by start time, every note left after the due
      prefix starts after the activation window. */
  lemma PendingAfterDue(queue: seq<Note>, now: real)
    requires SortedByStart(queue)
    ensures var rest := queue[Due(Starts(queue), now)..];
      forall j :: 0 <= j < |rest| ==> rest[j].startTime > now + Lookahead
  {
    var starts := Starts(queue);
    var k := Due(starts, now);
    assert NonDecreasing(starts) by {
      forall i, j | 0 <= i < j < |starts| ensures starts[i] <= starts[j] {
        assert queue[i].startTime <= queue[j].startTime;
      }
    }
    DueOnSorted(starts, now);
    forall j | 0 <= j < |queue[k..]| ensures queue[k..][j].startTime > now + Lookahead {
      assert queue[k..][j] == queue[k + j] && starts[k + j] == queue[k + j].startTime;
    }
  }

  /** The judgments and final notes logged for the notes `gone` so far. */
  ghost predicate Recorded(judgments: seq<Quality>, resolved: seq<Note>,
                           judgments0: seq<Quality>, resolved0: seq<Note>, gone: seq<Note>) {
    judgments == judgments0 + ForcedMisses(gone) && resolved == resolved0 + Finalize(gone)
  }

  lemma RecordedStep(judgments: seq<Quality>, resolved: seq<Note>,
                     judgments0: seq<Quality>, resolved0: seq<Note>, gone: seq<Note>, n: Note)
    requires Recorded(judgments, resolved, judgments0, resolved0, gone)
    ensures Recorded(judgments + (if Forced(n) then [Miss] else []), resolved + [ForceResolve(n)],
                     judgments0, resolved0, gone + [n])
  {
    ForcedMissesSnoc(gone, n);
    FinalizeSnoc(gone, n);
  }

  /** The chart loader's notes stay unjudged through the sort. */
  lemma SortKeepsUnjudged(notes: seq<Note>)
    requires AllUnjudged(notes)
    ensures AllUnjudged(SortByStart(notes))
  {
    var sorted := SortByStart(notes);
    forall j | 0 <= j < |sorted|
      ensures Unjudged(sorted[j])
    {
      assert sorted[j] in multiset(notes);
      var m :| 0 <= m < |notes| && notes[m] == sorted[j];
    }
  }

  lemma AppendUnjudged(a: seq<Note>, b: seq<Note>)
    requires AllUnjudged(a) && AllUnjudged(b)
    ensures AllUnjudged(a + b)
  {
  }

  /** Replacing an active note by a coherent one keeps the active notes
      coherent. */
  lemma JudgedKeepsCoherent(active: seq<Note>, k: nat, n: Note)
    requires AllCoherent(active) && k < |active| && Coherent(n)
    ensures AllCoherent(active[k := n])
  {
  }

  lemma RemoveKeepsCoherent(active: seq<Note>, k: nat)
    requires k < |active| && AllCoherent(active)
    ensures AllCoherent(RemoveAt(active, k))
  {
    var r := RemoveAt(active, k);
    forall j | 0 <= j < |r|
      ensures Coherent(r[j])
    {
      if j < k {
        assert r[j] == active[j];
      } else {
        assert r[j] == active[j + 1];
      }
    }
  }

  /** The judgment a press records: none when no note is chosen. */
  function PressRecord(active: seq<Note>, lane: int, now: real): seq<Quality> {
    match PressPick(Slots(active), lane, now)
    case NoPick => []
    case Picked(_, q) => [q]
  }

  /** The judgment a release records: none when no note is releasable. */
  function ReleaseRecord(active: seq<Note>, lane: int, now: real): seq<Quality> {
    var k := ReleaseIndex(active, lane);
    if k == |active| then [] else [Accuracy(active[k].endTime, now, false)]
  }

  class Game {
    /** `currTime`: the audio clock at the last frame. */
    var currTime: real
    var combo: nat
    var totalHits: nat
    var lastAccuracy: Quality
    /** `noteQueue`: notes not yet on screen, in start-time order. */
    var noteQueue: seq<Note>
    /** `onScreen`: the active notes, in scan order. */
    var onScreen: seq<Note>
    /** Every judgment recorded so far, forced MISSes included. */
    ghost var judgments: seq<Quality>
    /** The notes that have left the screen, in their final state. */
    ghost var resolved: seq<Note>

    function Counters(): Score
      reads this
    {
      Score(combo, totalHits, lastAccuracy)
    }

    /** The counters are the replay of every judgment; pending notes are
        unjudged and active notes coherent. */
    ghost predicate Valid()
      reads this
    {
      && Counters() == Replay(InitialScore, judgments)
      && AllUnjudged(noteQueue)
      && AllCoherent(onScreen)
    }

    /** The initial field values of `MyApp`. */
    constructor ()
      ensures Valid()
      ensures currTime == 0.0 && Counters() == InitialScore
      ensures noteQueue == [] && onScreen == []
      ensures judgments == [] && resolved == []
    {
      currTime := 0.0;
      combo, totalHits, lastAccuracy := 0, 0, None;
      noteQueue, onScreen := [], [];
      judgments, resolved := [], [];
    }

    /** The reading loop of `readBeatmap`: the chart's notes in file order. */
    method ReadChart(lines: seq<ChartLine>) returns (tempQueue: seq<Note>)
      ensures tempQueue == ParseChart(lines, SongOffset)
    {
      tempQueue := [];
      // the lines not read yet
      var input := lines;
      while input != []
        invariant tempQueue + ParseChart(input, SongOffset) == ParseChart(lines, SongOffset)
        decreases |input|
      {
        var line := input[0];
        if line.marker == Tap {
          var start := line.time + SongOffset;
          tempQueue := tempQueue + [Note(line.lane, start, start, None, None)];
          input := input[1..];
        } else if line.marker == HoldStart {
          var start := line.time + SongOffset;
          // with no next line the previous tokens are read again
          var end := start;
          if |input| > 1 {
            end := input[1].time + SongOffset;
            input := input[2..];
          } else {
            input := [];
          }
          tempQueue := tempQueue + [Note(line.lane, start, end, None, None)];
        } else {
          input := input[1..];
        }
      }
      assert tempQueue + [] == tempQueue;
    }

    /** `readBeatmap`: parses the chart lines in order, sorts the notes by
        start time and appends them to the pending queue. */
    method Load(lines: seq<ChartLine>)
      requires Valid()
      modifies this
      ensures Valid()
      ensures noteQueue == old(noteQueue) + SortByStart(ParseChart(lines, SongOffset))
      ensures onScreen == old(onScreen) && currTime == old(currTime) && Counters() == old(Counters())
      ensures judgments == old(judgments) && resolved == old(resolved)
    {
      var tempQueue := ReadChart(lines);
      tempQueue := SortByStart(tempQueue);
      SortKeepsUnjudged(ParseChart(lines, SongOffset));
      Enqueue(tempQueue);
    }

    /** The last loop of `readBeatmap`: pushes the notes, in order, onto the
        pending queue. */
    method Enqueue(notes: seq<Note>)
      requires Valid() && AllUnjudged(notes)
      modifies this
      ensures Valid()
      ensures noteQueue == old(noteQueue) + notes
      ensures onScreen == old(onScreen) && currTime == old(currTime) && Counters() == old(Counters())
      ensures judgments == old(judgments) && resolved == old(resolved)
    {
      AppendUnjudged(noteQueue, notes);
      var j := 0;
      while j < |notes|
        invariant 0 <= j <= |notes|
        invariant noteQueue == old(noteQueue) + notes[..j]
        invariant onScreen == old(onScreen) && currTime == old(currTime) && Counters() == old(Counters())
        invariant judgments == old(judgments) && resolved == old(resolved)
      {
        noteQueue := noteQueue + [notes[j]];
        j := j + 1;
        assert notes[..j] == notes[..j - 1] + [notes[j - 1]];
      }
      assert notes[..j] == notes;
    }

    /** `onAnimate`: sets the clock, moves every due note to the active
        notes, then runs the expiry pass, recording a MISS for each forced
        note. */
    method Advance(now: real)
      requires Valid()
      modifies this
      ensures Valid()
      ensures currTime == now
      ensures var k := Due(Starts(old(noteQueue)), now);
        var e := Expire(old(onScreen) + old(noteQueue)[..k], KeyOf, now);
        && noteQueue == old(noteQueue)[k..]
        && onScreen == e.remaining
        && judgments == old(judgments) + ForcedMisses(e.expired)
        && resolved == old(resolved) + Finalize(e.expired)
    {
      currTime := now;
      Activate();
      ExpireDue();
    }

    /** The first loop of `onAnimate`: the due prefix of the queue moves, in
        order, to the end of the active notes. */
    method Activate()
      requires Valid()
      modifies this
      ensures Valid()
      ensures var k := Due(Starts(old(noteQueue)), currTime);
        noteQueue == old(noteQueue)[k..] && onScreen == old(onScreen) + old(noteQueue)[..k]
      ensures SortedByStart(old(noteQueue)) ==>
        forall j :: 0 <= j < |noteQueue| ==> noteQueue[j].startTime > currTime + Lookahead
      ensures currTime == old(currTime) && Counters() == old(Counters())
      ensures judgments == old(judgments) && resolved == old(resolved)
    {
      ghost var queue0, screen0 := noteQueue, onScreen;
      ghost var starts := Starts(queue0);
      ghost var due := Due(starts, currTime);
      ghost var moved := 0;
      while noteQueue != [] && noteQueue[0].startTime <= currTime + Lookahead
        invariant 0 <= moved <= due
        invariant noteQueue == queue0[moved..] && onScreen == screen0 + queue0[..moved]
        invariant currTime == old(currTime) && Counters() == old(Counters())
        invariant judgments == old(judgments) && resolved == old(resolved)
        invariant Valid()
        decreases |noteQueue|
      {
        var note := noteQueue[0];
        assert starts[moved] == note.startTime;
        ShiftFront(noteQueue, onScreen);
        noteQueue := noteQueue[1..];
        onScreen := onScreen + [note];
        assert queue0[..moved + 1] == queue0[..moved] + [note];
        moved := moved + 1;
      }
      assert moved < |starts| ==> starts[moved] == noteQueue[0].startTime;
      assert moved == due;
      if SortedByStart(queue0) {
        PendingAfterDue(queue0, currTime);
      }
    }

    /** The second loop of `onAnimate`: `Expire` on the active notes, with
        the combo broken and a MISS shown for every forced note. */
    method ExpireDue()
      requires Valid()
      modifies this
      ensures Valid()
      ensures var e := Expire(old(onScreen), KeyOf, currTime);
        && onScreen == e.remaining
        && judgments == old(judgments) + ForcedMisses(e.expired)
        && resolved == old(resolved) + Finalize(e.expired)
      ensures currTime == old(currTime) && noteQueue == old(noteQueue)
    {
      ghost var e: Expiry<Note> := Expire(onScreen, KeyOf, currTime);
      ghost var gone: seq<Note> := [];
      while onScreen != [] && onScreen[MinIndex(Keys(onScreen, KeyOf))].endTime <= currTime - MissGrace
        invariant currTime == old(currTime) && noteQueue == old(noteQueue)
        invariant Tracks(onScreen, KeyOf, currTime, gone, e)
        invariant Recorded(judgments, resolved, old(judgments), old(resolved), gone)
        invariant Valid()
        decreases |onScreen|
      {
        var k := MinIndex(Keys(onScreen, KeyOf));
        ghost var original := onScreen[k];
        TracksStep(onScreen, KeyOf, currTime, gone, e);
        RecordedStep(judgments, resolved, old(judgments), old(resolved), gone, original);
        DropAt(k);
        gone := gone + [original];
      }
      TracksEnd(onScreen, KeyOf, currTime, gone, e);
      assert Recorded(judgments, resolved, old(judgments), old(resolved), gone);
    }

    /** One round of the expiry loop on the note at `k`, the top of the
        expiry heap: the note leaves; when it was forced, its open judgments
        become MISS, the combo breaks and MISS is shown. */
    method DropAt(k: nat)
      requires Valid() && k < |onScreen|
      modifies this
      ensures Valid()
      ensures onScreen == RemoveAt(old(onScreen), k)
      ensures judgments == old(judgments) + (if Forced(old(onScreen)[k]) then [Miss] else [])
      ensures resolved == old(resolved) + [ForceResolve(old(onScreen)[k])]
      ensures currTime == old(currTime) && noteQueue == old(noteQueue)
    {
      var note := onScreen[k];
      ghost var original := note;
      RemoveKeepsCoherent(onScreen, k);
      if note.hit1 == None || (IsHeld(note) && note.hit2 == None) {
        if note.hit1 == None {
          note := note.(hit1 := Miss);
        }
        note := note.(hit2 := Miss);
        ghost var sc0, judged0 := Counters(), judgments;
        lastAccuracy := Miss;
        combo := 0;
        judgments := judgments + [Miss];
        CommitStep(sc0, judged0, Miss, Counters());
      }
      assert note == ForceResolve(original);
      resolved := resolved + [note];
      onScreen := RemoveAt(onScreen, k);
    }

    /** The scan of `onKeyDown` over the active notes of lane `id`: whether
        a candidate exists, and the chosen note with its press judgment. */
    method ChooseNote(id: int) returns (noteExistsInLane: bool, closest: nat, bestAccuracy: Quality)
      ensures PressPick(Slots(onScreen), id, currTime)
           == if noteExistsInLane then Picked(closest, bestAccuracy) else NoPick
    {
      ghost var slots := Slots(onScreen);
      noteExistsInLane, closest, bestAccuracy := false, 0, None;
      var i := 0;
      while i < |onScreen|
        invariant 0 <= i <= |onScreen|
        invariant PickUpTo(slots, i, id, currTime) == if noteExistsInLane then Picked(closest, bestAccuracy) else NoPick
      {
        var note := onScreen[i];
        assert slots[i] == Slot(note.lane, note.startTime, note.hit1 == None);
        if note.lane == id && note.hit1 == None {
          if !noteExistsInLane {
            noteExistsInLane := true;
            closest := i;
            bestAccuracy := Accuracy(note.startTime, currTime, true);
          } else if note.startTime < onScreen[closest].startTime
                 && AtLeast(Accuracy(note.startTime, currTime, true), Accuracy(onScreen[closest].startTime, currTime, true)) {
            closest := i;
            bestAccuracy := Accuracy(note.startTime, currTime, true);
          }
        }
        i := i + 1;
      }
    }

    /** `onKeyDown`: an arrow key judges the press of the chosen active note
        of its lane (see `PressPick`) and records the judgment; any other key,
        or a lane with no open note, changes nothing. */
    method OnKeyDown(k: Key)
      requires Valid()
      modifies this
      ensures Valid()
      ensures var id := KeyToId(k);
        if id == -1 then
          onScreen == old(onScreen) && Counters() == old(Counters()) && judgments == old(judgments)
        else
          && (onScreen, Counters()) == JudgePress(old(onScreen), old(Counters()), id, currTime)
          && judgments == old(judgments) + PressRecord(old(onScreen), id, currTime)
      ensures noteQueue == old(noteQueue) && currTime == old(currTime) && resolved == old(resolved)
    {
      var id := KeyToId(k);
      if id != -1 {
        var noteExistsInLane, closest, bestAccuracy := ChooseNote(id);
        if noteExistsInLane {
          RecordPress(closest, bestAccuracy);
        }
      }
    }

    /** The judging block of `onKeyDown`: the chosen note gets its press
        judgment, which becomes the last accuracy; a MISS breaks the combo
        and a hit adds one to the combo and to the hit count. */
    method RecordPress(closest: nat, bestAccuracy: Quality)
      requires Valid()
      requires closest < |onScreen| && onScreen[closest].hit1 == None
      modifies this
      ensures Valid()
      ensures onScreen == old(onScreen)[closest := old(onScreen)[closest].(hit1 := bestAccuracy)]
      ensures Counters() == Commit(old(Counters()), bestAccuracy)
      ensures judgments == old(judgments) + [bestAccuracy]
      ensures noteQueue == old(noteQueue) && currTime == old(currTime) && resolved == old(resolved)
    {
      JudgedKeepsCoherent(onScreen, closest, onScreen[closest].(hit1 := bestAccuracy));
      ghost var sc0, judged0 := Counters(), judgments;
      onScreen := onScreen[closest := onScreen[closest].(hit1 := bestAccuracy)];
      lastAccuracy := bestAccuracy;
      if bestAccuracy == Miss {
        combo := 0;
      } else if IsHit(bestAccuracy) {
        combo := combo + 1;
        totalHits := totalHits + 1;
      }
      judgments := judgments + [bestAccuracy];
      CommitStep(sc0, judged0, bestAccuracy, Counters());
    }

    /** The judging block of `onKeyUp`: the released note gets its release
        judgment, which becomes the last accuracy; a MISS breaks the combo
        and a hit adds one to the combo and to the hit count. */
    method RecordRelease(i: nat, heldAccuracy: Quality)
      requires Valid()
      requires i < |onScreen| && IsHit(onScreen[i].hit1) && heldAccuracy != None
      modifies this
      ensures Valid()
      ensures onScreen == old(onScreen)[i := old(onScreen)[i].(hit2 := heldAccuracy)]
      ensures Counters() == Commit(old(Counters()), heldAccuracy)
      ensures judgments == old(judgments) + [heldAccuracy]
      ensures noteQueue == old(noteQueue) && currTime == old(currTime) && resolved == old(resolved)
    {
      JudgedKeepsCoherent(onScreen, i, onScreen[i].(hit2 := heldAccuracy));
      ghost var sc0, judged0 := Counters(), judgments;
      lastAccuracy := heldAccuracy;
      onScreen := onScreen[i := onScreen[i].(hit2 := heldAccuracy)];
      if heldAccuracy == Miss {
        combo := 0;
      } else {
        combo := combo + 1;
        totalHits := totalHits + 1;
      }
      judgments := judgments + [heldAccuracy];
      CommitStep(sc0, judged0, heldAccuracy, Counters());
    }

    /** `onKeyUp`: an arrow key judges the release of the first releasable
        note of its lane and records the judgment; otherwise nothing
        changes. */
    method OnKeyUp(k: Key)
      requires Valid()
      modifies this
      ensures Valid()
      ensures var id := KeyToId(k);
        if id == -1 then
          onScreen == old(onScreen) && Counters() == old(Counters()) && judgments == old(judgments)
        else
          && (onScreen, Counters()) == JudgeRelease(old(onScreen), old(Counters()), id, currTime)
          && judgments == old(judgments) + ReleaseRecord(old(onScreen), id, currTime)
      ensures noteQueue == old(noteQueue) && currTime == old(currTime) && resolved == old(resolved)
    {
      var id := KeyToId(k);
      if id != -1 {
        var i := 0;
        while i < |onScreen|
          invariant 0 <= i <= |onScreen|
          invariant forall j :: 0 <= j < i ==> !Releasable(onScreen[j], id)
        {
          var note := onScreen[i];
          if note.lane == id && IsHit(note.hit1) && IsHeld(note) && note.hit2 == None {
            var heldAccuracy := Accuracy(note.endTime, currTime, false);
            ReleaseIndexIsFirst(onScreen, id, i);
            ReleaseNeverNone(note.endTime, currTime);
            RecordRelease(i, heldAccuracy);
            return;
          }
          i := i + 1;
        }
        ReleaseIndexIsFirst(onScreen, id, |onScreen|);
      }
    }
  }
  /** `ReleaseIndex` is the first releasable position. */
  lemma {:induction false} ReleaseIndexIsFirst(active: seq<Note>, lane: int, i: nat)
    requires i <= |active|
    requires i < |active| ==> Releasable(active[i], lane)
    requires forall j :: 0 <= j < i ==> !Releasable(active[j], lane)
    ensures ReleaseIndex(active, lane) == i
    decreases |active|
  {
    if active != [] && i > 0 {
      ReleaseIndexIsFirst(active[1..], lane, i - 1);
    }
  }
}
