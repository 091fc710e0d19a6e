/** The judgment rules that Rhythm_Game.cpp and 0Z_SineEnv.cpp share: the
    ordered Quality enumeration, the timing-error classifier, the arrow-key
    lane mapping, the press tie-break among candidate notes, and the
    combo/score counters. */
module Judgment {

  /** `NoteData::Quality`: NONE = -1 < MISS = 0 < OKAY = 1 < GOOD = 2 < PERF = 3. */
  datatype Quality = None | Miss | Okay | Good | Perf {
    /** The enumerator's integer value, which the source compares with `>`/`>=`. */
    function Value(): int {
      match this
      case None => -1
      case Miss => 0
      case Okay => 1
      case Good => 2
      case Perf => 3
    }
  }

  /** `a >= b` on the enumeration. */
  predicate AtLeast(a: Quality, b: Quality) {
    a.Value() >= b.Value()
  }

  /** A judgment that scores: strictly better than MISS. */
  predicate IsHit(q: Quality) {
    q.Value() > Miss.Value()
  }

  // Timing windows, in seconds.
  const PerfWindow: real := 0.025
  const GoodWindow: real := 0.05
  const OkayWindow: real := 0.1
  const MissWindow: real := 0.2

  function Abs(x: real): (r: real)
    ensures r >= 0.0 && (r == x || r == -x)
  {
    if x < 0.0 then -x else x
  }

  /** `getCurrentAccuracy`: classifies the distance between the note's target
      time (its start for a press, its end for a release) and `now`. Only a
      press can come out NONE; a release outside every window is a MISS. */
  function Accuracy(target: real, now: real, start: bool): Quality {
    var diff := Abs(target - now);
    if diff < PerfWindow then Perf
    else if diff < GoodWindow then Good
    else if diff < OkayWindow then Okay
    else if diff < MissWindow || !start then Miss
    else None
  }

  /** The tiers, both directions. */
  lemma AccuracyTiers(target: real, now: real, start: bool)
    ensures var d, q := Abs(target - now), Accuracy(target, now, start);
      && (q == Perf <==> d < PerfWindow)
      && (q == Good <==> PerfWindow <= d < GoodWindow)
      && (q == Okay <==> GoodWindow <= d < OkayWindow)
      && (q == Miss <==> OkayWindow <= d && (d < MissWindow || !start))
      && (q == None <==> start && MissWindow <= d)
  {
  }

  /** A release is never left unjudged, and agrees with a press at the same
      distance except that a press's NONE becomes a MISS. */
  lemma ReleaseNeverNone(target: real, now: real)
    ensures Accuracy(target, now, false) != None
    ensures Accuracy(target, now, false)
         == if Accuracy(target, now, true) == None then Miss else Accuracy(target, now, true)
  {
  }

  /** Being closer in time never gives a worse quality. */
  lemma CloserIsNotWorse(t1: real, t2: real, now: real, start: bool)
    requires Abs(t1 - now) <= Abs(t2 - now)
    ensures AtLeast(Accuracy(t1, now, start), Accuracy(t2, now, start))
  {
  }

  /** A keyboard key as `keyToID` sees it: the four arrows, or any other key. */
  datatype Key = Left | Down | Up | Right | Other(code: int)

  /** `keyToID`: LEFT, DOWN, UP, RIGHT are lanes 1..4; every other key is -1. */
  function KeyToId(k: Key): (id: int)
    ensures id == -1 <==> k.Other?
    ensures id != -1 ==> 1 <= id <= 4
  {
    match k
    case Left => 1
    case Down => 2
    case Up => 3
    case Right => 4
    case Other(_) => -1
  }

  /** Distinct arrows give distinct lanes. */
  lemma KeyToIdInjective(a: Key, b: Key)
    requires KeyToId(a) == KeyToId(b) != -1
    ensures a == b
  {
  }

  /** What the press scan looks at in one active note: its lane, its start
      time, and whether its press judgment is still NONE. */
  datatype Slot = Slot(lane: int, startTime: real, open: bool)

  predicate IsCandidate(s: Slot, lane: int) {
    s.lane == lane && s.open
  }

  function PressAccuracy(s: Slot, now: real): Quality {
    Accuracy(s.startTime, now, true)
  }

  /** The replacement test of the press scan: `a` starts strictly earlier
      than `b` and would be judged at least as well. */
  predicate Dominates(a: Slot, b: Slot, now: real) {
    a.startTime < b.startTime && AtLeast(PressAccuracy(a, now), PressAccuracy(b, now))
  }

  lemma DominatesTransitive(a: Slot, b: Slot, c: Slot, now: real)
    requires Dominates(a, b, now) && Dominates(b, c, now)
    ensures Dominates(a, c, now)
  {
  }

  /** The outcome of a scan: no note, or the index of the chosen note with the
      quality it gets. */
  datatype Pick = NoPick | Picked(index: nat, accuracy: Quality)

  /** The press scan over the first `n` active notes, in scan order: the first
      candidate is taken, and a later candidate replaces the current choice
      only when it dominates it. */
  function PickUpTo(slots: seq<Slot>, n: nat, lane: int, now: real): (p: Pick)
    requires n <= |slots|
    ensures p.Picked? ==> p.index < n && IsCandidate(slots[p.index], lane)
    ensures p.Picked? ==> p.accuracy == PressAccuracy(slots[p.index], now)
    decreases n
  {
    if n == 0 then NoPick
    else
      var p := PickUpTo(slots, n - 1, lane, now);
      var c := slots[n - 1];
      if !IsCandidate(c, lane) then p
      else if p.NoPick? || Dominates(c, slots[p.index], now) then Picked(n - 1, PressAccuracy(c, now))
      else p
  }

  function PressPick(slots: seq<Slot>, lane: int, now: real): Pick {
    PickUpTo(slots, |slots|, lane, now)
  }

  /** A note is chosen exactly when the lane holds a candidate. */
  lemma {:induction false} PickExistsIff(slots: seq<Slot>, n: nat, lane: int, now: real)
    requires n <= |slots|
    ensures PickUpTo(slots, n, lane, now).Picked?
        <==> exists j :: 0 <= j < n && IsCandidate(slots[j], lane)
    decreases n
  {
    if n > 0 {
      PickExistsIff(slots, n - 1, lane, now);
      if IsCandidate(slots[n - 1], lane) {
        assert PickUpTo(slots, n, lane, now).Picked?;
      } else if exists j :: 0 <= j < n && IsCandidate(slots[j], lane) {
        var j :| 0 <= j < n && IsCandidate(slots[j], lane);
        assert j < n - 1;
      }
    }
  }

  /** No candidate dominates the chosen note, whatever the scan order. */
  lemma {:induction false} PickUndominated(slots: seq<Slot>, n: nat, lane: int, now: real)
    requires n <= |slots|
    requires PickUpTo(slots, n, lane, now).Picked?
    ensures var k := PickUpTo(slots, n, lane, now).index;
      forall j :: 0 <= j < n && IsCandidate(slots[j], lane) ==> !Dominates(slots[j], slots[k], now)
    decreases n
  {
    var p := PickUpTo(slots, n - 1, lane, now);
    var c := slots[n - 1];
    var k := PickUpTo(slots, n, lane, now).index;
    if p.Picked? {
      PickUndominated(slots, n - 1, lane, now);
    }
    forall j | 0 <= j < n && IsCandidate(slots[j], lane)
      ensures !Dominates(slots[j], slots[k], now)
    {
      if Dominates(slots[j], slots[k], now) {
        if j == k {
          assert false;
        } else if k == n - 1 {
          if p.Picked? && j < n - 1 {
            DominatesTransitive(slots[j], c, slots[p.index], now);
            assert false;
          } else {
            // with no earlier choice, no earlier candidate exists
            PickExistsIff(slots, n - 1, lane, now);
            assert false;
          }
        } else {
          assert false;
        }
      }
    }
  }

  /** The chosen note is the first candidate in scan order, or dominates it:
      it is never later and never judged worse than that first candidate. */
  lemma {:induction false} PickNoWorseThanFirst(slots: seq<Slot>, n: nat, f: nat, lane: int, now: real)
    requires f < n <= |slots|
    requires IsCandidate(slots[f], lane)
    requires forall j :: 0 <= j < f ==> !IsCandidate(slots[j], lane)
    ensures PickUpTo(slots, n, lane, now).Picked?
    ensures var k := PickUpTo(slots, n, lane, now).index;
      k == f || Dominates(slots[k], slots[f], now)
    decreases n
  {
    if n - 1 == f {
      PickExistsIff(slots, n - 1, lane, now);
    } else {
      PickNoWorseThanFirst(slots, n - 1, f, lane, now);
      var p := PickUpTo(slots, n - 1, lane, now);
      if IsCandidate(slots[n - 1], lane) && Dominates(slots[n - 1], slots[p.index], now) && p.index != f {
        DominatesTransitive(slots[n - 1], slots[p.index], slots[f], now);
      }
    }
  }

  /** Two notes in one lane at 1.0 s and 1.2 s, pressed at 1.18 s: the 1.0 s
      note would be a MISS and the 1.2 s note a PERF. A first-scanned
      candidate is only ever replaced by a strictly earlier one, so the scan
      order decides: the 1.0 s note is judged MISS when it is scanned first,
      the 1.2 s note PERF when it is. */
  lemma ScanOrderDecides()
    ensures PressPick([Slot(1, 1.0, true), Slot(1, 1.2, true)], 1, 1.18) == Picked(0, Miss)
    ensures PressPick([Slot(1, 1.2, true), Slot(1, 1.0, true)], 1, 1.18) == Picked(0, Perf)
  {
    var early, late := Slot(1, 1.0, true), Slot(1, 1.2, true);
    assert PressAccuracy(early, 1.18) == Miss;
    assert PressAccuracy(late, 1.18) == Perf;
    var s1, s2 := [early, late], [late, early];
    assert PickUpTo(s1, 1, 1, 1.18) == Picked(0, Miss);
    assert PickUpTo(s1, 2, 1, 1.18) == Picked(0, Miss);
    assert PickUpTo(s2, 1, 1, 1.18) == Picked(0, Perf);
    assert PickUpTo(s2, 2, 1, 1.18) == Picked(0, Perf);
  }

  /** `combo`, `totalHits` and `lastAccuracy`. */
  datatype Score = Score(combo: nat, totalHits: nat, lastAccuracy: Quality)

  const InitialScore := Score(0, 0, None)

  /** Recording one judgment: MISS resets the combo; a hit adds one to the
      combo and to the hit count; NONE leaves both counters alone. The
      judgment always becomes the last accuracy. */
  function Commit(sc: Score, q: Quality): (r: Score)
    ensures r.lastAccuracy == q
    ensures q == Miss ==> r.combo == 0 && r.totalHits == sc.totalHits
    ensures IsHit(q) ==> r.combo == sc.combo + 1 && r.totalHits == sc.totalHits + 1
    ensures q == None ==> r.combo == sc.combo && r.totalHits == sc.totalHits
  {
    if q == Miss then Score(0, sc.totalHits, q)
    else if IsHit(q) then Score(sc.combo + 1, sc.totalHits + 1, q)
    else Score(sc.combo, sc.totalHits, q)
  }

  /** The counters after a run of judgments, in order. */
  function Replay(sc: Score, qs: seq<Quality>): Score
    decreases |qs|
  {
    if qs == [] then sc else Commit(Replay(sc, qs[..|qs| - 1]), qs[|qs| - 1])
  }

  lemma ReplaySnoc(sc: Score, qs: seq<Quality>, q: Quality)
    ensures Replay(sc, qs + [q]) == Commit(Replay(sc, qs), q)
  {
    assert (qs + [q])[..|qs|] == qs;
  }

  /** Committing one more judgment to the counters of a run gives the
      counters of the longer run. */
  lemma CommitStep(sc: Score, qs: seq<Quality>, q: Quality, next: Score)
    requires sc == Replay(InitialScore, qs) && next == Commit(sc, q)
    ensures next == Replay(InitialScore, qs + [q])
  {
    ReplaySnoc(InitialScore, qs, q);
  }

  lemma {:induction false} ReplayConcat(sc: Score, a: seq<Quality>, b: seq<Quality>)
    ensures Replay(sc, a + b) == Replay(Replay(sc, a), b)
    decreases |b|
  {
    if b == [] {
      assert a + b == a;
    } else {
      assert (a + b)[..|a + b| - 1] == a + b[..|b| - 1];
      ReplayConcat(sc, a, b[..|b| - 1]);
    }
  }

  /** How many judgments in the run are hits. */
  function Hits(qs: seq<Quality>): nat
    decreases |qs|
  {
    if qs == [] then 0 else Hits(qs[..|qs| - 1]) + (if IsHit(qs[|qs| - 1]) then 1 else 0)
  }

  /** `totalHits` counts every hit and nothing else. */
  lemma {:induction false} TotalHitsCountsHits(sc: Score, qs: seq<Quality>)
    ensures Replay(sc, qs).totalHits == sc.totalHits + Hits(qs)
    ensures Replay(sc, qs).lastAccuracy == if qs == [] then sc.lastAccuracy else qs[|qs| - 1]
    decreases |qs|
  {
    if qs != [] {
      TotalHitsCountsHits(sc, qs[..|qs| - 1]);
    }
  }

  /** With no MISS in the run, the combo grows by the number of hits. */
  lemma {:induction false} ComboWithoutMiss(sc: Score, qs: seq<Quality>)
    requires forall i :: 0 <= i < |qs| ==> qs[i] != Miss
    ensures Replay(sc, qs).combo == sc.combo + Hits(qs)
    decreases |qs|
  {
    if qs != [] {
      ComboWithoutMiss(sc, qs[..|qs| - 1]);
    }
  }

  /** After a MISS, the combo is the number of hits since the last MISS. */
  lemma {:induction false} ComboSinceLastMiss(sc: Score, qs: seq<Quality>, i: nat)
    requires i < |qs| && qs[i] == Miss
    requires forall j :: i < j < |qs| ==> qs[j] != Miss
    ensures Replay(sc, qs).combo == Hits(qs[i + 1..])
    decreases |qs|
  {
    var n := |qs|;
    if i == n - 1 {
      assert qs[i + 1..] == [];
    } else {
      ComboSinceLastMiss(sc, qs[..n - 1], i);
      assert qs[..n - 1][i + 1..] == qs[i + 1..][..|qs[i + 1..]| - 1];
    }
  }
}
