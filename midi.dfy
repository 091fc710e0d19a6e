/** The MIDI input of the three converters as `javax.sound.midi` hands it
    to them: a sequence of tracks of timed events, each carrying a short
    (channel) message, a system-exclusive message or a meta message; and
    the clock the two chart converters keep while walking the events. */
module Midi {
  import opened Base16

  // `ShortMessage` commands: the status byte with its channel bits cleared.
  const NoteOff: int := 0x80
  const NoteOn: int := 0x90
  const PolyPressure: int := 0xA0
  const ControlChange: int := 0xB0
  const ProgramChange: int := 0xC0
  const ChannelPressure: int := 0xD0
  const PitchBend: int := 0xE0

  /** A status byte: 0x80..0xFF. */
  type Status = s: int | 0x80 <= s < 0x100 witness 0x80
  /** A data byte: 0..127. */
  type Data7 = d: int | 0 <= d < 128
  /** A meta-event type: 0..127. */
  type MetaType = k: int | 0 <= k < 128

  /** A `MidiMessage`: a `ShortMessage` with its status and two data bytes
      (`getData2` is 0 for a one-byte message), a `SysexMessage` with its
      whole message bytes (status byte first), or a `MetaMessage` with its
      type and data. */
  datatype Message =
    | Short(status: Status, data1: Data7, data2: Data7)
    | Sysex(bytes: seq<JByte>)
    | Meta(kind: MetaType, data: seq<JByte>)

  /** `getCommand`: `status & 0xF0`. */
  function Command(status: Status): (cmd: int)
    ensures 0x80 <= cmd <= status && cmd % 16 == 0
  {
    status / 16 * 16
  }

  /** `getChannel`: `status & 0x0F`. */
  function Channel(status: Status): (ch: int)
    ensures 0 <= ch < 16
  {
    status % 16
  }

  /** A status byte is its command and its channel. */
  lemma CommandChannel(status: Status)
    ensures Command(status) + Channel(status) == status
  {
  }

  /** The converters' note-off test: NOTE_OFF, or NOTE_ON with velocity 0
      (the running-status convention for releasing a note). */
  predicate NoteEnds(m: Message) {
    m.Short? && (Command(m.status) == NoteOff || (Command(m.status) == NoteOn && m.data2 == 0))
  }

  /** The converters' note-on test, reached only when `NoteEnds` fails: a
      NOTE_ON with a non-zero velocity. */
  predicate NoteStarts(m: Message) {
    m.Short? && !NoteEnds(m) && Command(m.status) == NoteOn
  }

  lemma NoteStartsIff(m: Message)
    ensures NoteStarts(m) <==> m.Short? && Command(m.status) == NoteOn && m.data2 > 0
    ensures !(NoteStarts(m) && NoteEnds(m))
  {
  }

  /** A `MidiEvent`: a tick and a message. */
  datatype Event = Event(tick: nat, message: Message)

  /** A `Sequence`: its timing resolution (ticks per quarter note) and its
      tracks, in order. */
  datatype MidiSequence = MidiSequence(resolution: nat, tracks: seq<seq<Event>>)

  /** The bytes after the first of a variable-length quantity greater than
      or equal to 128: seven bits each, most significant first, each
      with its high bit set. */
  function VarLenHigh(n: nat): (r: seq<int>)
    requires n > 0
    ensures |r| >= 1 && r[0] >= 128
    ensures forall i :: 0 <= i < |r| ==> 128 <= r[i] < 256
    decreases n
  {
    if n < 128 then [n + 128] else VarLenHigh(n / 128) + [n % 128 + 128]
  }

  /** The variable-length quantity that encodes a meta message's data
      length: seven bits per byte, most significant first, the high bit set
      on every byte but the last. */
  function VarLen(n: nat): (r: seq<int>)
    ensures |r| >= 1
    ensures forall i :: 0 <= i < |r| ==> 0 <= r[i] < 256
    ensures r[|r| - 1] == n % 128
    ensures n < 128 <==> r[0] < 128
    ensures n < 128 ==> r == [n]
  {
    if n < 128 then [n] else VarLenHigh(n / 128) + [n % 128]
  }

  /** Reads a variable-length quantity back: the partner of `VarLen`. */
  function ReadVarLen(bytes: seq<int>): int
    decreases |bytes|
  {
    if bytes == [] then 0
    else ReadVarLen(bytes[..|bytes| - 1]) * 128 + bytes[|bytes| - 1] % 128
  }

  lemma {:induction false} ReadVarLenHigh(n: nat)
    requires n > 0
    ensures ReadVarLen(VarLenHigh(n)) == n
    decreases n
  {
    if n >= 128 {
      var r := VarLenHigh(n);
      ReadVarLenHigh(n / 128);
      assert r[..|r| - 1] == VarLenHigh(n / 128);
    }
  }

  /** Reading the encoding of a length gives the length back. */
  lemma ReadVarLenOfVarLen(n: nat)
    ensures ReadVarLen(VarLen(n)) == n
  {
    if n >= 128 {
      var r := VarLen(n);
      ReadVarLenHigh(n / 128);
      assert r[..|r| - 1] == VarLenHigh(n / 128);
    } else {
      assert VarLen(n)[..0] == [];
    }
  }

  function ToJBytes(vs: seq<int>): (r: seq<JByte>)
    requires forall i :: 0 <= i < |vs| ==> 0 <= vs[i] < 256
    ensures |r| == |vs|
    ensures forall i :: 0 <= i < |vs| ==> Unsigned(r[i]) == vs[i]
  {
    seq(|vs|, i requires 0 <= i < |vs| => ToJByte(vs[i]))
  }

  /** A meta message's `getMessage()`: 0xFF, the type, the data length as a
      variable-length quantity, then the data. */
  function MetaBytes(kind: MetaType, data: seq<JByte>): (r: seq<JByte>)
    ensures |r| >= 3 + |data|
    ensures r[0] == ToJByte(0xFF) && r[1] == kind
    ensures r[|r| - |data|..] == data
    ensures ReadVarLen(Unsigneds(r[2..|r| - |data|])) == |data|
  {
    var len := ToJBytes(VarLen(|data|));
    var r := [ToJByte(0xFF), kind] + len + data;
    assert r[2..|r| - |data|] == len;
    UnsignedsOfToJBytes(VarLen(|data|));
    ReadVarLenOfVarLen(|data|);
    r
  }

  /** Widening the bytes of `ToJBytes` gives the values back. */
  lemma {:induction false} UnsignedsOfToJBytes(vs: seq<int>)
    requires forall i :: 0 <= i < |vs| ==> 0 <= vs[i] < 256
    ensures Unsigneds(ToJBytes(vs)) == vs
    decreases |vs|
  {
    if vs != [] {
      UnsignedsOfToJBytes(vs[1..]);
      assert ToJBytes(vs)[1..] == ToJBytes(vs[1..]);
    }
  }

  /** `bytesToHex(mm.getMessage())`. */
  function MetaHex(kind: MetaType, data: seq<JByte>): (s: string)
    ensures |s| >= 6 + 2 * |data|
  {
    Hex(MetaBytes(kind, data))
  }

  /** The three-byte starts the converters and the reader test for. */
  lemma HexOfHeaders()
    ensures Hex([ToJByte(0xFF), 0x51, 3]) == "FF5103"
    ensures Hex([ToJByte(0xFF), 0x2F, 0]) == "FF2F00"
    ensures Hex([ToJByte(0xFF), 3]) == "FF03"
  {
    var ff := ToJByte(0xFF);
    assert Hex([ff, 0x51, 3]) == ['F', 'F'] + Hex([0x51, 3]);
    assert Hex([0x51, 3]) == ['5', '1'] + Hex([3]);
    assert Hex([3]) == ['0', '3'] + Hex([]);
    assert Hex([ff, 0x2F, 0]) == ['F', 'F'] + Hex([0x2F, 0]);
    assert Hex([0x2F, 0]) == ['2', 'F'] + Hex([0]);
    assert Hex([0]) == ['0', '0'] + Hex([]);
    assert Hex([ff, 3]) == ['F', 'F'] + Hex([3]);
  }

  /** The message hex starts with the hex of the first `k` message bytes. */
  lemma MetaHexPrefix(kind: MetaType, data: seq<JByte>, k: nat)
    requires k <= 3
    ensures MetaHex(kind, data)[..2 * k] == Hex(MetaBytes(kind, data)[..k])
  {
    HexPrefix(MetaBytes(kind, data), k);
  }

  /** The first three message bytes: 0xFF, the type, and the first length
      byte, which is the length itself exactly when it is below 128. */
  lemma MetaHead(kind: MetaType, data: seq<JByte>, t: MetaType, len: nat)
    requires len < 128
    ensures MetaBytes(kind, data)[..3] == [ToJByte(0xFF), t, len] <==> kind == t && |data| == len
  {
    var b := MetaBytes(kind, data);
    var v := VarLen(|data|);
    assert b[2] == ToJBytes(v)[0];
    assert Unsigned(b[2]) == v[0];
    if b[..3] == [ToJByte(0xFF), t, len] {
      assert b[1] == t;
      assert v[0] == len;
    }
    if kind == t && |data| == len {
      assert v == [len];
    }
  }

  /** A meta message is a tempo change (`FF5103`) exactly when its type is
      0x51 and it carries three data bytes. */
  lemma TempoMetaIff(kind: MetaType, data: seq<JByte>)
    ensures MetaHex(kind, data)[..6] == "FF5103" <==> kind == 0x51 && |data| == 3
  {
    HexOfHeaders();
    MetaHexPrefix(kind, data, 3);
    MetaHead(kind, data, 0x51, 3);
    if MetaHex(kind, data)[..6] == "FF5103" {
      HexInjective(MetaBytes(kind, data)[..3], [ToJByte(0xFF), 0x51, 3]);
    }
  }

  /** A meta message is End of Track (`FF2F00`) exactly when its type is
      0x2F and it carries no data. */
  lemma EndOfTrackIff(kind: MetaType, data: seq<JByte>)
    ensures MetaHex(kind, data)[..6] == "FF2F00" <==> kind == 0x2F && |data| == 0
  {
    HexOfHeaders();
    MetaHexPrefix(kind, data, 3);
    MetaHead(kind, data, 0x2F, 0);
    if MetaHex(kind, data)[..6] == "FF2F00" {
      HexInjective(MetaBytes(kind, data)[..3], [ToJByte(0xFF), 0x2F, 0]);
    }
  }

  /** A meta message is a Sequence/Track Name (`FF03`) exactly when its
      type is 3. */
  lemma TrackNameIff(kind: MetaType, data: seq<JByte>)
    ensures MetaHex(kind, data)[..4] == "FF03" <==> kind == 3
  {
    HexOfHeaders();
    MetaHexPrefix(kind, data, 2);
    var b := MetaBytes(kind, data);
    if MetaHex(kind, data)[..4] == "FF03" {
      HexInjective(b[..2], [ToJByte(0xFF), 3]);
      assert b[1] == b[..2][1];
    } else {
      assert b[..2] != [ToJByte(0xFF), 3];
    }
  }

  /** The test both converters make: the message hex starts with `FF5103`. */
  predicate IsTempoChange(m: Message) {
    m.Meta? && MetaHex(m.kind, m.data)[..6] == "FF5103"
  }

  /** `Long.decode("0x" + bytesToHex(data))`: the data bytes read as an
      unsigned big-endian number. */
  function Micros(data: seq<JByte>): (n: nat)
    ensures n < Power256(|data|)
    decreases |data|
  {
    if data == [] then 0 else Micros(data[..|data| - 1]) * 256 + Unsigned(data[|data| - 1])
  }

  function Power256(k: nat): (p: nat)
    ensures p >= 1
  {
    if k == 0 then 1 else 256 * Power256(k - 1)
  }

  /** `Long.MAX_VALUE` as a double: what `Math.round` gives for an infinite
      quotient. */
  const RoundedInfinity: real := 9223372036854775808.0

  /** The tempo in beats per minute after a tempo change of `micros`
      microseconds per quarter note:
      `Math.round(60000000.0 / micros)`, that is the quotient plus one half,
      rounded down; a zero divisor gives an infinite quotient, which rounds
      to `Long.MAX_VALUE`. */
  function TempoOf(micros: nat): (bpm: real)
    requires micros < 0x100_0000
    ensures bpm >= 4.0
  {
    if micros == 0 then RoundedInfinity
    else
      var q := 60000000.0 / micros as real;
      assert q >= 3.5 by {
        assert q * micros as real == 60000000.0;
      }
      (q + 0.5).Floor as real
  }

  /** A few tempo changes: 500000 µs is 120 BPM, 400000 µs is 150 BPM,
      and 600000 µs is exactly 100 BPM. */
  lemma TempoExamples()
    ensures TempoOf(500000) == 120.0
    ensures TempoOf(400000) == 150.0
    ensures TempoOf(600000) == 100.0
  {
  }

  /** The converters' running state: `tempo`, `currentTime` in seconds and
      `prevTick`. */
  datatype Clock = Clock(tempo: real, currentTime: real, prevTick: int)

  const InitialClock: Clock := Clock(120.0, 0.0, 0)

  /** The seconds per tick at a tempo: `60.0 / resolution / tempo`. */
  function SecondsPerTick(resolution: nat, tempo: real): real
    requires resolution > 0 && tempo > 0.0
  {
    60.0 / resolution as real / tempo
  }

  /** The seconds between two ticks at a given number of seconds per tick. */
  function Elapsed(secondsPerTick: real, from: int, to: int): real {
    secondsPerTick * (to - from) as real
  }

  /** Elapsed times add up along the ticks. */
  lemma ElapsedAdds(secondsPerTick: real, a: int, b: int, c: int)
    ensures Elapsed(secondsPerTick, a, b) + Elapsed(secondsPerTick, b, c) == Elapsed(secondsPerTick, a, c)
  {
    assert (c - a) as real == (b - a) as real + (c - b) as real;
  }

  /** Advancing to an event's tick:
      `currentTime += resolution_const / tempo * (tick - prevTick)` and
      `prevTick = tick`. */
  function Tick(c: Clock, resolution: nat, tick: nat): (r: Clock)
    requires resolution > 0 && c.tempo > 0.0
    ensures r.tempo == c.tempo && r.prevTick == tick
  {
    Clock(c.tempo, c.currentTime + Elapsed(SecondsPerTick(resolution, c.tempo), c.prevTick, tick), tick)
  }

  /** After a tempo change, the tempo is `TempoOf` its data. */
  function Retempo(c: Clock, m: Message): (r: Clock)
    ensures r.tempo > 0.0 || r.tempo == c.tempo
    ensures r.currentTime == c.currentTime && r.prevTick == c.prevTick
    ensures !IsTempoChange(m) ==> r == c
  {
    if IsTempoChange(m) then
      TempoMetaIff(m.kind, m.data);
      c.(tempo := TempoOf(Micros(m.data)))
    else c
  }

  /** The clock after one event: advanced to its tick, then retuned if the
      event is a tempo change. */
  function ClockStep(c: Clock, resolution: nat, e: Event): (r: Clock)
    requires resolution > 0 && c.tempo > 0.0
    ensures r.tempo > 0.0 && r.prevTick == e.tick
  {
    Retempo(Tick(c, resolution, e.tick), e.message)
  }

  /** The clock after a run of events. */
  function ClockAfter(c: Clock, resolution: nat, events: seq<Event>): (r: Clock)
    requires resolution > 0 && c.tempo > 0.0
    ensures r.tempo > 0.0
    ensures events != [] ==> r.prevTick == events[|events| - 1].tick
    ensures events == [] ==> r == c
    decreases |events|
  {
    if events == [] then c
    else ClockStep(ClockAfter(c, resolution, events[..|events| - 1]), resolution, events[|events| - 1])
  }

  lemma ClockAfterSnoc(c: Clock, resolution: nat, events: seq<Event>, e: Event)
    requires resolution > 0 && c.tempo > 0.0
    ensures ClockAfter(c, resolution, events + [e]) == ClockStep(ClockAfter(c, resolution, events), resolution, e)
  {
    assert (events + [e])[..|events|] == events;
  }

  /** Walking two runs of events one after the other is walking their
      concatenation: the clock is never reset between tracks. */
  lemma {:induction false} ClockAfterConcat(c: Clock, resolution: nat, a: seq<Event>, b: seq<Event>)
    requires resolution > 0 && c.tempo > 0.0
    ensures ClockAfter(c, resolution, a + b) == ClockAfter(ClockAfter(c, resolution, a), resolution, b)
    decreases |b|
  {
    if b == [] {
      assert a + b == a;
    } else {
      var init := b[..|b| - 1];
      ClockAfterConcat(c, resolution, a, init);
      assert (a + b)[..|a + b| - 1] == a + init;
    }
  }

  /** `prevTick` is not reset between tracks: when a track starts at an
      earlier tick than the last tick of the track before it, the time
      steps back by the ticks between them. */
  lemma TimeRunsBack(c: Clock, resolution: nat, e: Event)
    requires resolution > 0 && c.tempo > 0.0 && !IsTempoChange(e.message)
    requires e.tick < c.prevTick
    ensures ClockStep(c, resolution, e).currentTime < c.currentTime
  {
    var k := SecondsPerTick(resolution, c.tempo);
    assert k > 0.0 by {
      assert 60.0 / resolution as real > 0.0;
    }
    assert Elapsed(k, c.prevTick, e.tick) < 0.0;
  }

  predicate NoTempoChange(events: seq<Event>) {
    forall i :: 0 <= i < |events| ==> !IsTempoChange(events[i].message)
  }

  /** At a constant tempo the time steps telescope: the time after a run of
      events is the time before plus the seconds per tick times the ticks
      from `prevTick` to the last event's tick, whatever order the ticks
      come in. */
  lemma {:induction false} ClockTelescopes(c: Clock, resolution: nat, events: seq<Event>)
    requires resolution > 0 && c.tempo > 0.0
    requires events != [] && NoTempoChange(events)
    ensures var last := events[|events| - 1].tick;
      ClockAfter(c, resolution, events)
        == Clock(c.tempo, c.currentTime + Elapsed(SecondsPerTick(resolution, c.tempo), c.prevTick, last), last)
    decreases |events|
  {
    var k := SecondsPerTick(resolution, c.tempo);
    var e := events[|events| - 1];
    var init := events[..|events| - 1];
    assert !IsTempoChange(e.message);
    var result := ClockAfter(c, resolution, events);
    if init == [] {
      assert result == Tick(c, resolution, e.tick);
    } else {
      var mid := init[|init| - 1].tick;
      ClockTelescopes(c, resolution, init);
      var before := ClockAfter(c, resolution, init);
      assert before == Clock(c.tempo, c.currentTime + Elapsed(k, c.prevTick, mid), mid);
      assert result == Tick(before, resolution, e.tick);
      ElapsedAdds(k, c.prevTick, mid, e.tick);
    }
  }

  /** Every track, in order, as one run of events. */
  function Flatten(tracks: seq<seq<Event>>): (events: seq<Event>)
    decreases |tracks|
  {
    if tracks == [] then [] else Flatten(tracks[..|tracks| - 1]) + tracks[|tracks| - 1]
  }

  /** With no tempo change anywhere, the time after the events up to a given
      one is its tick over twice the resolution: 120 BPM from tick 0. */
  lemma SongTimeAtConstantTempo(resolution: nat, events: seq<Event>)
    requires resolution > 0
    requires events != [] && NoTempoChange(events)
    ensures ClockAfter(InitialClock, resolution, events).currentTime
         == events[|events| - 1].tick as real / (2 * resolution) as real
  {
    ClockTelescopes(InitialClock, resolution, events);
  }
}
