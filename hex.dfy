/** Base16 encoding of Java byte arrays, as the three MIDI tools' `bytesToHex`
    does it: two upper-case digits per byte, high nibble first, with the
    signed Java byte first widened to 0..255 by `& 0xFF`. */
module Base16 {

  /** A Java `byte`: signed, -128..127. */
  type JByte = b: int | -128 <= b < 128

  /** `b & 0xFF`: the unsigned value of a Java byte. */
  function Unsigned(b: JByte): (v: int)
    ensures 0 <= v < 256
    ensures v % 256 == b % 256
  {
    if b < 0 then b + 256 else b
  }

  /** The Java byte whose unsigned value is `v` (the `(byte)` cast). */
  function ToJByte(v: int): (b: JByte)
    requires 0 <= v < 256
    ensures Unsigned(b) == v
  {
    if v < 128 then v else v - 256
  }

  /** The alphabet "0123456789ABCDEF". */
  const Alphabet: string := "0123456789ABCDEF"

  function Digit(nibble: int): (c: char)
    requires 0 <= nibble < 16
  {
    Alphabet[nibble]
  }

  /** The reference encoding: the hex of each byte, in order. */
  function Hex(bytes: seq<JByte>): (s: string)
    ensures |s| == 2 * |bytes|
  {
    if bytes == [] then []
    else
      var v := Unsigned(bytes[0]);
      [Digit(v / 16), Digit(v % 16)] + Hex(bytes[1..])
  }

  /** Characters 2j and 2j+1 of the encoding are the digits of the high and
      low nibble of unsigned byte j. */
  lemma {:induction false} HexAt(bytes: seq<JByte>, j: nat)
    requires j < |bytes|
    ensures |Hex(bytes)| == 2 * |bytes|
    ensures Hex(bytes)[2 * j] == Digit(Unsigned(bytes[j]) / 16)
    ensures Hex(bytes)[2 * j + 1] == Digit(Unsigned(bytes[j]) % 16)
  {
    var v := Unsigned(bytes[0]);
    var s := Hex(bytes);
    assert s == [Digit(v / 16), Digit(v % 16)] + Hex(bytes[1..]);
    if j > 0 {
      var rest := Hex(bytes[1..]);
      HexAt(bytes[1..], j - 1);
      assert s[2 * j] == rest[2 * (j - 1)];
      assert s[2 * j + 1] == rest[2 * (j - 1) + 1];
      assert bytes[1..][j - 1] == bytes[j];
    }
  }

  /** The encoding distributes over concatenation. */
  lemma {:induction false} HexConcat(a: seq<JByte>, b: seq<JByte>)
    ensures Hex(a + b) == Hex(a) + Hex(b)
  {
    if a == [] {
      assert a + b == b;
    } else {
      assert (a + b)[1..] == a[1..] + b;
      HexConcat(a[1..], b);
    }
  }

  /** The first 2k digits encode the first k bytes. */
  lemma HexPrefix(bytes: seq<JByte>, k: nat)
    requires k <= |bytes|
    ensures Hex(bytes)[..2 * k] == Hex(bytes[..k])
  {
    HexSplit(bytes, k);
  }

  /** Splitting the bytes at k splits the encoding at 2k. */
  lemma HexSplit(bytes: seq<JByte>, k: nat)
    requires k <= |bytes|
    ensures Hex(bytes) == Hex(bytes[..k]) + Hex(bytes[k..])
    ensures Hex(bytes)[..2 * k] == Hex(bytes[..k]) && Hex(bytes)[2 * k..] == Hex(bytes[k..])
  {
    assert bytes == bytes[..k] + bytes[k..];
    HexConcat(bytes[..k], bytes[k..]);
  }

  /** Value of one upper-case hex digit, -1 for any other character. */
  function DigitValue(c: char): (v: int)
    ensures -1 <= v < 16
    ensures v >= 0 ==> Digit(v) == c
  {
    if '0' <= c <= '9' then c as int - '0' as int
    else if 'A' <= c <= 'F' then c as int - 'A' as int + 10
    else -1
  }

  lemma DigitValueOfDigit(n: int)
    requires 0 <= n < 16
    ensures DigitValue(Digit(n)) == n
  {
  }

  lemma PairValue(v: int)
    requires 0 <= v < 256
    ensures DigitValue(Digit(v / 16)) * 16 + DigitValue(Digit(v % 16)) == v
  {
    DigitValueOfDigit(v / 16);
    DigitValueOfDigit(v % 16);
  }

  /** Base16 decoding into unsigned byte values (the partner of Hex), two
      digits at a time; a lone last digit is dropped. */
  function Unhex(s: string): (r: seq<int>)
    ensures |r| == |s| / 2
  {
    if |s| < 2 then []
    else [DigitValue(s[0]) * 16 + DigitValue(s[1])] + Unhex(s[2..])
  }

  /** The unsigned values of a byte array, as `& 0xFF` widens them. */
  function Unsigneds(bytes: seq<JByte>): (r: seq<int>)
    ensures |r| == |bytes|
  {
    if bytes == [] then [] else [Unsigned(bytes[0])] + Unsigneds(bytes[1..])
  }

  /** Decoding takes the first two digits, then the rest. */
  lemma UnhexStep(s: string)
    requires |s| >= 2
    ensures Unhex(s) == [DigitValue(s[0]) * 16 + DigitValue(s[1])] + Unhex(s[2..])
  {
  }

  /** Decoding the encoding gives back the unsigned bytes. */
  lemma {:induction false} UnhexHex(bytes: seq<JByte>)
    ensures Unhex(Hex(bytes)) == Unsigneds(bytes)
  {
    if bytes != [] {
      HexHead(bytes);
      UnhexHex(bytes[1..]);
      assert Unsigneds(bytes) == [Unsigned(bytes[0])] + Unsigneds(bytes[1..]);
    }
  }

  /** Decoding the first two digits of the encoding gives the first byte. */
  lemma HexHead(bytes: seq<JByte>)
    requires bytes != []
    ensures Unhex(Hex(bytes)) == [Unsigned(bytes[0])] + Unhex(Hex(bytes[1..]))
  {
    var v := Unsigned(bytes[0]);
    assert Hex(bytes) == [Digit(v / 16), Digit(v % 16)] + Hex(bytes[1..]);
    PairDecodes(Hex(bytes), v, Hex(bytes[1..]));
  }

  /** A digit pair in front of any tail decodes to its value. */
  lemma PairDecodes(s: string, v: int, tail: string)
    requires 0 <= v < 256
    requires s == [Digit(v / 16), Digit(v % 16)] + tail
    ensures Unhex(s) == [v] + Unhex(tail)
  {
    assert s[0] == Digit(v / 16) && s[1] == Digit(v % 16) && s[2..] == tail;
    UnhexStep(s);
    PairValue(v);
  }

  lemma {:induction false} UnsignedsInjective(a: seq<JByte>, b: seq<JByte>)
    requires Unsigneds(a) == Unsigneds(b)
    ensures a == b
  {
    if a != [] {
      assert Unsigneds(a)[1..] == Unsigneds(a[1..]);
      assert Unsigneds(b)[1..] == Unsigneds(b[1..]);
      UnsignedsInjective(a[1..], b[1..]);
      assert a == [a[0]] + a[1..];
      assert b == [b[0]] + b[1..];
    }
  }

  /** Two byte arrays with the same encoding are equal. */
  lemma HexInjective(a: seq<JByte>, b: seq<JByte>)
    requires Hex(a) == Hex(b)
    ensures a == b
  {
    UnhexHex(a);
    UnhexHex(b);
    UnsignedsInjective(a, b);
  }

  /** `bytesToHex`: fills a char array two digits per byte. */
  method BytesToHex(bytes: seq<JByte>) returns (s: string)
    ensures s == Hex(bytes)
  {
    var hexChars := new char[|bytes| * 2];
    var j := 0;
    while j < |bytes|
      invariant 0 <= j <= |bytes|
      invariant forall i :: 0 <= i < j ==>
        hexChars[2 * i] == Digit(Unsigned(bytes[i]) / 16) &&
        hexChars[2 * i + 1] == Digit(Unsigned(bytes[i]) % 16)
    {
      var v := Unsigned(bytes[j]);
      hexChars[j * 2] := Alphabet[v / 16];
      hexChars[j * 2 + 1] := Alphabet[v % 16];
      j := j + 1;
    }
    s := hexChars[..];
    forall k | 0 <= k < |s| ensures s[k] == Hex(bytes)[k] {
      HexAt(bytes, k / 2);
      assert k == 2 * (k / 2) || k == 2 * (k / 2) + 1;
    }
  }
}
