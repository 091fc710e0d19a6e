/** The per-frame scheduler's two rules, shared by both games: notes at the
    front of the pending FIFO become active once their start time is within
    the look-ahead window, and the active note that ends first (by end time,
    then start time) leaves once its end time is past the miss grace. */
module Scheduling {

  /** A note is activated when `startTime <= now + Lookahead`. */
  const Lookahead: real := 4.0
  /** A note expires when `endTime <= now - MissGrace`. */
  const MissGrace: real := 0.5

  /** How many notes at the front of the pending queue, given by their start
      times, are due: the longest prefix within the look-ahead window. */
  function Due(starts: seq<real>, now: real): (k: nat)
    ensures k <= |starts|
    ensures forall j :: 0 <= j < k ==> starts[j] <= now + Lookahead
    ensures k < |starts| ==> starts[k] > now + Lookahead
    decreases |starts|
  {
    if starts == [] || starts[0] > now + Lookahead then 0 else 1 + Due(starts[1..], now)
  }

  predicate NonDecreasing(starts: seq<real>) {
    forall i, j :: 0 <= i < j < |starts| ==> starts[i] <= starts[j]
  }

  /** On a queue ordered by start time, every note left pending is outside
      the window, so no due note is held back behind the front. */
  lemma DueOnSorted(starts: seq<real>, now: real)
    requires NonDecreasing(starts)
    ensures forall j :: Due(starts, now) <= j < |starts| ==> starts[j] > now + Lookahead
  {
  }

  /** A later clock never activates fewer notes. */
  lemma {:induction false} DueMonotone(starts: seq<real>, now1: real, now2: real)
    requires now1 <= now2
    ensures Due(starts, now1) <= Due(starts, now2)
    decreases |starts|
  {
    if starts != [] && starts[0] <= now1 + Lookahead {
      DueMonotone(starts[1..], now1, now2);
    }
  }

  /** The order in which active notes expire: by end time, then start time. */
  datatype ExpiryKey = ExpiryKey(endTime: real, startTime: real)

  predicate KeyLe(a: ExpiryKey, b: ExpiryKey) {
    a.endTime < b.endTime || (a.endTime == b.endTime && a.startTime <= b.startTime)
  }

  /** The position of the first active note that expires no later than any
      other: the top of the source's expiry heap. */
  function MinIndex(keys: seq<ExpiryKey>): (k: nat)
    requires |keys| > 0
    ensures k < |keys|
    ensures forall j :: 0 <= j < |keys| ==> KeyLe(keys[k], keys[j])
    decreases |keys|
  {
    if |keys| == 1 then 0
    else
      var m := MinIndex(keys[1..]) + 1;
      if KeyLe(keys[0], keys[m]) then 0 else m
  }

  /** The sequence without its element at `k`. */
  function RemoveAt<T>(s: seq<T>, k: nat): (r: seq<T>)
    requires k < |s|
    ensures |r| == |s| - 1
    ensures multiset(r) + multiset{s[k]} == multiset(s)
    ensures forall j :: 0 <= j < |r| ==> r[j] == if j < k then s[j] else s[j + 1]
  {
    assert s == s[..k] + [s[k]] + s[k + 1..];
    s[..k] + s[k + 1..]
  }

  /** The expiry keys of the items, in order. */
  function Keys<T>(items: seq<T>, key: T -> ExpiryKey): (r: seq<ExpiryKey>)
    ensures |r| == |items|
    ensures forall i :: 0 <= i < |items| ==> r[i] == key(items[i])
  {
    seq(|items|, i requires 0 <= i < |items| => key(items[i]))
  }

  /** The split of the active notes made by one expiry pass. */
  datatype Expiry<T> = Expiry(remaining: seq<T>, expired: seq<T>)

  /** The expiry pass: while the note that ends first (by end time, then
      start time) ended at least `MissGrace` before `now`, it leaves. The
      expired notes are listed in the order they leave. */
  function Expire<T>(active: seq<T>, key: T -> ExpiryKey, now: real): Expiry<T>
    decreases |active|
  {
    if active == [] then Expiry([], [])
    else
      var k := MinIndex(Keys(active, key));
      if key(active[k]).endTime > now - MissGrace then Expiry(active, [])
      else
        var e := Expire(RemoveAt(active, k), key, now);
        Expiry(e.remaining, [active[k]] + e.expired)
  }

  /** Unfolds `Expire` once; a proof helper for the lemmas below. */
  lemma ExpireStep<T>(active: seq<T>, key: T -> ExpiryKey, now: real)
    requires active != []
    ensures var k := MinIndex(Keys(active, key));
      var e := Expire(RemoveAt(active, k), key, now);
      Expire(active, key, now)
        == if key(active[k]).endTime > now - MissGrace then Expiry(active, [])
           else Expiry(e.remaining, [active[k]] + e.expired)
  {
  }

  /** Expiry neither loses nor invents notes. */
  lemma {:induction false} ExpireSplits<T>(active: seq<T>, key: T -> ExpiryKey, now: real)
    ensures var e := Expire(active, key, now);
      multiset(e.remaining) + multiset(e.expired) == multiset(active)
    decreases |active|
  {
    if active != [] {
      var k := MinIndex(Keys(active, key));
      if key(active[k]).endTime <= now - MissGrace {
        ExpireSplits(RemoveAt(active, k), key, now);
      }
    }
  }

  /** Every note ended no later than `t`. */
  predicate AllEndBy<T>(notes: seq<T>, key: T -> ExpiryKey, t: real) {
    forall i :: 0 <= i < |notes| ==> key(notes[i]).endTime <= t
  }

  /** Every note ends later than `t`. */
  predicate AllEndAfter<T>(notes: seq<T>, key: T -> ExpiryKey, t: real) {
    forall i :: 0 <= i < |notes| ==> key(notes[i]).endTime > t
  }

  /** Every expired note ended `MissGrace` or more before `now`, and every
      note that stays active ends later than that. */
  lemma {:induction false} ExpireBounds<T>(active: seq<T>, key: T -> ExpiryKey, now: real)
    ensures AllEndBy(Expire(active, key, now).expired, key, now - MissGrace)
    ensures AllEndAfter(Expire(active, key, now).remaining, key, now - MissGrace)
    decreases |active|
  {
    if active != [] {
      var keys := Keys(active, key);
      var k := MinIndex(keys);
      ExpireStep(active, key, now);
      if key(active[k]).endTime <= now - MissGrace {
        var rest := RemoveAt(active, k);
        ExpireBounds(rest, key, now);
      } else {
        forall i | 0 <= i < |active|
          ensures key(active[i]).endTime > now - MissGrace
        {
          assert KeyLe(keys[k], keys[i]);
        }
      }
    }
  }

  predicate InExpiryOrder<T>(notes: seq<T>, key: T -> ExpiryKey) {
    forall i, j :: 0 <= i < j < |notes| ==> KeyLe(key(notes[i]), key(notes[j]))
  }

  /** Every note's key is at least `least`. */
  predicate AllKeysFrom<T>(notes: seq<T>, key: T -> ExpiryKey, least: ExpiryKey) {
    forall i :: 0 <= i < |notes| ==> KeyLe(least, key(notes[i]))
  }

  lemma ExpiredKeysFrom<T>(active: seq<T>, key: T -> ExpiryKey, now: real, least: ExpiryKey)
    requires AllKeysFrom(active, key, least)
    ensures AllKeysFrom(Expire(active, key, now).expired, key, least)
  {
    ExpireSplits(active, key, now);
    var ex := Expire(active, key, now).expired;
    forall j | 0 <= j < |ex|
      ensures KeyLe(least, key(ex[j]))
    {
      assert ex[j] in multiset(ex);
      assert ex[j] in multiset(active);
    }
  }

  lemma PrependInOrder<T>(n: T, notes: seq<T>, key: T -> ExpiryKey)
    requires InExpiryOrder(notes, key) && AllKeysFrom(notes, key, key(n))
    ensures InExpiryOrder([n] + notes, key)
  {
    var ex := [n] + notes;
    forall i, j | 0 <= i < j < |ex|
      ensures KeyLe(key(ex[i]), key(ex[j]))
    {
      assert ex[j] == notes[j - 1];
      if i > 0 {
        assert ex[i] == notes[i - 1];
      }
    }
  }

  /** Notes leave in expiry order: by end time, then start time. */
  lemma {:induction false} ExpireInOrder<T>(active: seq<T>, key: T -> ExpiryKey, now: real)
    ensures InExpiryOrder(Expire(active, key, now).expired, key)
    decreases |active|
  {
    if active != [] {
      var keys := Keys(active, key);
      var k := MinIndex(keys);
      ExpireStep(active, key, now);
      if key(active[k]).endTime <= now - MissGrace {
        var rest := RemoveAt(active, k);
        ExpireInOrder(rest, key, now);
        assert AllKeysFrom(rest, key, keys[k]) by {
          forall m | 0 <= m < |rest|
            ensures KeyLe(keys[k], key(rest[m]))
          {
            if m < k {
              assert KeyLe(keys[k], keys[m]);
            } else {
              assert KeyLe(keys[k], keys[m + 1]);
            }
          }
        }
        ExpiredKeysFrom(rest, key, now, keys[k]);
        PrependInOrder(active[k], Expire(rest, key, now).expired, key);
      }
    }
  }

  /** Part way through the expiry pass that yields `e`: `gone` has left and
      the pass over `active` yields the rest. */
  ghost predicate Tracks<T>(active: seq<T>, key: T -> ExpiryKey, now: real, gone: seq<T>, e: Expiry<T>) {
    Expire(active, key, now).remaining == e.remaining && gone + Expire(active, key, now).expired == e.expired
  }

  lemma TracksStep<T>(active: seq<T>, key: T -> ExpiryKey, now: real, gone: seq<T>, e: Expiry<T>)
    requires Tracks(active, key, now, gone, e)
    requires active != [] && key(active[MinIndex(Keys(active, key))]).endTime <= now - MissGrace
    ensures var k := MinIndex(Keys(active, key));
      Tracks(RemoveAt(active, k), key, now, gone + [active[k]], e)
  {
    ExpireStep(active, key, now);
  }

  lemma TracksEnd<T>(active: seq<T>, key: T -> ExpiryKey, now: real, gone: seq<T>, e: Expiry<T>)
    requires Tracks(active, key, now, gone, e)
    requires active == [] || key(active[MinIndex(Keys(active, key))]).endTime > now - MissGrace
    ensures active == e.remaining && gone == e.expired
  {
    if active != [] {
      ExpireStep(active, key, now);
    }
    assert gone + [] == gone;
  }
}
