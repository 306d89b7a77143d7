/**
  Byte-level primitives of the TCNet wire format, as a Node.js `Buffer` provides them:
  unsigned little-endian integers at fixed offsets, and fixed-width text fields written
  with `buffer.write(text, offset, "ascii")` and read back with
  `buffer.slice(from, to).toString("ascii").replace(/\0.*$/g, "")`.
*/
module Wire {

  /** One octet of a buffer. */
  type byte = b: int | 0 <= b < 0x100
  /** Values accepted by `writeUInt16LE` and produced by `readUInt16LE`. */
  type u16 = n: int | 0 <= n < 0x1_0000
  /** Values accepted by `writeUInt32LE` and produced by `readUInt32LE`. */
  type u32 = n: int | 0 <= n < 0x1_0000_0000

  /** `Buffer.alloc(n)`: a buffer of n zero bytes. */
  function Zeros(n: nat): (r: seq<byte>)
    ensures |r| == n
    ensures forall i :: 0 <= i < n ==> r[i] == 0
  {
    seq(n, _ => 0)
  }

  // ---------------------------------------------------------------------------
  // Little-endian integers

  /** `buffer.readUInt16LE(off)`: byte `off` is the low digit in base 256, byte `off + 1` the high one. */
  function U16At(b: seq<byte>, off: nat): (r: u16)
    requires off + 2 <= |b|
    ensures r % 0x100 == b[off] && r / 0x100 == b[off + 1]
  {
    b[off] as int + 0x100 * b[off + 1] as int
  }

  /** `buffer.readUInt32LE(off)`: the four bytes from `off` are its base-256 digits, least significant first. */
  function U32At(b: seq<byte>, off: nat): (r: u32)
    requires off + 4 <= |b|
    ensures r % 0x100 == b[off] && r / 0x100 % 0x100 == b[off + 1]
    ensures r / 0x1_0000 % 0x100 == b[off + 2] && r / 0x100_0000 == b[off + 3]
  {
    var hi := b[off + 2] as int + 0x100 * b[off + 3] as int;
    var mid := b[off + 1] as int + 0x100 * hi;
    BaseDigits(b[off], mid);
    BaseDigits(b[off + 1], hi);
    BaseDigits(b[off + 2], b[off + 3]);
    DivTwice(b[off] as int + 0x100 * mid, 0x100);
    DivTwice(b[off] as int + 0x100 * mid, 0x1_0000);
    b[off] as int + 0x100 * b[off + 1] as int + 0x1_0000 * b[off + 2] as int + 0x100_0000 * b[off + 3] as int
  }

  /** Division by 256 drops the low digit of a base-256 number and keeps the rest. */
  lemma BaseDigits(lo: byte, hi: int)
    ensures (lo + 0x100 * hi) % 0x100 == lo && (lo + 0x100 * hi) / 0x100 == hi
  {
  }

  /** Dividing by 256 once more is dividing by the next power of 256. */
  lemma DivTwice(x: nat, p: nat)
    requires p == 0x100 || p == 0x1_0000
    ensures x / p / 0x100 == x / (p * 0x100)
  {
    var a := x / p;
    var c := a / 0x100;
    assert x == p * a + x % p;
    assert a == 0x100 * c + a % 0x100;
    assert x == (p * 0x100) * c + (p * (a % 0x100) + x % p);
  }

  /** `buffer.writeUInt8(v, off)` on the buffer's contents. */
  function SetU8(b: seq<byte>, off: nat, v: byte): (r: seq<byte>)
    requires off < |b|
    ensures |r| == |b| && r[off] == v
    ensures forall i :: 0 <= i < |b| && i != off ==> r[i] == b[i]
  {
    b[off := v]
  }

  /** `buffer.writeUInt16LE(v, off)`: low byte first; reading it back gives `v`. */
  function SetU16LE(b: seq<byte>, off: nat, v: u16): (r: seq<byte>)
    requires off + 2 <= |b|
    ensures |r| == |b| && U16At(r, off) == v
    ensures forall i :: 0 <= i < |b| && !(off <= i < off + 2) ==> r[i] == b[i]
  {
    b[off := v % 0x100][off + 1 := v / 0x100]
  }

  /** `buffer.writeUInt32LE(v, off)`: the four bytes of `v`, least significant first. */
  function SetU32LE(b: seq<byte>, off: nat, v: u32): (r: seq<byte>)
    requires off + 4 <= |b|
    ensures |r| == |b| && U32At(r, off) == v
    ensures forall i :: 0 <= i < |b| && !(off <= i < off + 4) ==> r[i] == b[i]
  {
    var q1 := v / 0x100;
    var q2 := q1 / 0x100;
    b[off := v % 0x100][off + 1 := q1 % 0x100][off + 2 := q2 % 0x100][off + 3 := q2 / 0x100]
  }

  // ---------------------------------------------------------------------------
  // Text

  /** A JavaScript line terminator: what `.` in a regular expression does not match. */
  predicate IsLineTerminator(c: char)
  {
    c == '\n' || c == '\r' || c as int == 0x2028 || c as int == 0x2029
  }

  predicate NoLineTerminator(s: string)
  {
    forall i :: 0 <= i < |s| ==> !IsLineTerminator(s[i])
  }

  /** `toString("ascii")`: Node clears the high bit of every byte. */
  function AsciiDecode(b: seq<byte>): (s: string)
    ensures |s| == |b|
    ensures forall i :: 0 <= i < |b| ==> s[i] as int == b[i] % 0x80
  {
    seq(|b|, i requires 0 <= i < |b| => (b[i] % 0x80) as char)
  }

  /** `Buffer.from(s, "ascii")`: the low byte of every character. */
  function AsciiEncode(s: string): (b: seq<byte>)
    ensures |b| == |s|
    ensures forall i :: 0 <= i < |s| ==> b[i] == s[i] as int % 0x100
  {
    seq(|s|, i requires 0 <= i < |s| => (s[i] as int) % 0x100)
  }

  /**
    `s.replace(/\0.*$/g, "")`. The pattern can only match from a NUL to the end of the
    string when no line terminator follows that NUL, so the result is `s` cut at the first
    NUL after which no line terminator occurs (or `s` itself if there is no such NUL).
  */
  function StripNulTail(s: string): (r: string)
    ensures |r| <= |s| && r == s[..|r|]
    ensures |r| < |s| ==> s[|r|] == '\0' && NoLineTerminator(s[|r| + 1..])
    ensures forall p :: 0 <= p < |r| && s[p] == '\0' ==> !NoLineTerminator(s[p + 1..])
  {
    if s == [] then []
    else if s[0] == '\0' && NoLineTerminator(s[1..]) then []
    else
      var t := s[1..];
      var rest := StripNulTail(t);
      assert s[..1 + |rest|] == [s[0]] + t[..|rest|];
      assert 1 + |rest| < |s| ==> s[1 + |rest|] == t[|rest|] && s[2 + |rest|..] == t[|rest| + 1..];
      assert forall p :: 1 <= p < 1 + |rest| ==> s[p] == t[p - 1] && s[p + 1..] == t[p..];
      [s[0]] + rest
  }

  /** `s.padEnd(w, "\x00")`. */
  function PadEnd(s: string, w: nat): (r: string)
    ensures |r| == if |s| < w then w else |s|
    ensures r[..|s|] == s
    ensures forall i :: |s| <= i < |r| ==> r[i] == '\0'
  {
    if |s| >= w then s else s + seq(w - |s|, _ => '\0')
  }

  /**
    `buffer.write(s, off, "ascii")`: the encoded characters from `off` on, as many as fit
    before the end of the buffer, and nothing else.
  */
  function SetText(b: seq<byte>, off: nat, s: string): (r: seq<byte>)
    requires off <= |b|
    ensures |r| == |b|
    ensures forall i :: 0 <= i < |b| && off <= i < off + |s| ==> r[i] == s[i - off] as int % 0x100
    ensures forall i :: 0 <= i < |b| && !(off <= i < off + |s|) ==> r[i] == b[i]
  {
    var e := AsciiEncode(s);
    seq(|b|, i requires 0 <= i < |b| => if off <= i < off + |e| then e[i - off] else b[i])
  }

  /** A fixed-width text field `[from, to)`, decoded as every reader in the source does. */
  function TextField(b: seq<byte>, from: nat, to: nat): (r: string)
    requires from <= to <= |b|
    ensures |r| <= to - from
    ensures forall i :: 0 <= i < |r| ==> r[i] as int == b[from + i] % 0x80
  {
    StripNulTail(AsciiDecode(b[from..to]))
  }

  /** Text whose characters are 7-bit and not NUL: such text survives a write and a read. */
  predicate IsPlainAscii(s: string)
  {
    forall i :: 0 <= i < |s| ==> 0 < s[i] as int < 0x80
  }

  /** Text that fits a field of width `w` and reads back unchanged. */
  predicate FitsField(s: string, w: nat)
  {
    |s| <= w && IsPlainAscii(s)
  }

  // ---------------------------------------------------------------------------
  // Properties of the text encoding

  /** A string without NUL followed by NUL padding is cut exactly at the padding. */
  lemma {:induction false} StripPadding(s: string, z: string)
    requires forall i :: 0 <= i < |s| ==> s[i] != '\0'
    requires forall i :: 0 <= i < |z| ==> z[i] == '\0'
    ensures StripNulTail(s + z) == s
  {
    if s == [] {
      assert s + z == z;
      if z != [] {
        assert NoLineTerminator(z[1..]) by {
          forall i | 0 <= i < |z[1..]| ensures !IsLineTerminator(z[1..][i]) {
            assert z[1..][i] == z[i + 1];
          }
        }
      }
    } else {
      StripPadding(s[1..], z);
      assert (s + z)[1..] == s[1..] + z;
      assert [s[0]] + s[1..] == s;
    }
  }

  /** Decoding what `buffer.write` stored for a padded field gives back the padded text. */
  lemma EncodedFieldBytes(b: seq<byte>, off: nat, s: string, w: nat)
    requires off + w <= |b| && |s| <= w
    ensures SetText(b, off, PadEnd(s, w))[off..off + w] == AsciiEncode(PadEnd(s, w))
  {
  }

  /**
    Round trip of one fixed-width field: a text of at most `w` plain ASCII characters,
    written NUL-padded to width `w`, reads back unchanged.
  */
  lemma {:induction false} FieldRoundTrip(b: seq<byte>, off: nat, s: string, w: nat)
    requires off + w <= |b| && FitsField(s, w)
    ensures TextField(SetText(b, off, PadEnd(s, w)), off, off + w) == s
  {
    var p := PadEnd(s, w);
    EncodedFieldBytes(b, off, s, w);
    var d := AsciiDecode(AsciiEncode(p));
    assert d == p by {
      forall i | 0 <= i < |p| ensures d[i] == p[i] {
        assert p[i] as int < 0x80 by {
          if i < |s| { assert p[i] == s[i]; }
        }
      }
    }
    assert p == s + p[|s|..];
    StripPadding(s, p[|s|..]);
  }

  /** Bytes that encode plain text, read as a field exactly as wide, give back that text. */
  lemma PlainBytesRead(b: seq<byte>, from: nat, s: string)
    requires from + |s| <= |b| && IsPlainAscii(s)
    requires b[from..from + |s|] == AsciiEncode(s)
    ensures TextField(b, from, from + |s|) == s
  {
    var d := AsciiDecode(b[from..from + |s|]);
    assert d == s by {
      forall i | 0 <= i < |s| ensures d[i] == s[i] {
        assert b[from + i] == s[i] as int % 0x100;
      }
    }
    NoNulNoStrip(s);
  }

  /** A full-width field of plain text with no room for a NUL reads back as the whole text. */
  lemma {:induction false} NoNulNoStrip(s: string)
    requires forall i :: 0 <= i < |s| ==> s[i] != '\0'
    ensures StripNulTail(s) == s
  {
    StripPadding(s, []);
    assert s + [] == s;
  }

  // ---------------------------------------------------------------------------
  // In-place writes on a buffer

  method PutU8(buf: array<byte>, off: nat, v: byte)
    requires off < buf.Length
    modifies buf
    ensures buf[..] == SetU8(old(buf[..]), off, v)
  {
    buf[off] := v;
  }

  method PutU16LE(buf: array<byte>, off: nat, v: u16)
    requires off + 2 <= buf.Length
    modifies buf
    ensures buf[..] == SetU16LE(old(buf[..]), off, v)
  {
    buf[off] := v % 0x100;
    buf[off + 1] := v / 0x100;
  }

  method PutU32LE(buf: array<byte>, off: nat, v: u32)
    requires off + 4 <= buf.Length
    modifies buf
    ensures buf[..] == SetU32LE(old(buf[..]), off, v)
  {
    var q1 := v / 0x100;
    var q2 := q1 / 0x100;
    buf[off] := v % 0x100;
    buf[off + 1] := q1 % 0x100;
    buf[off + 2] := q2 % 0x100;
    buf[off + 3] := q2 / 0x100;
  }

  /** `buffer.write(s, off, "ascii")`: copies the encoded characters until the buffer ends. */
  method PutText(buf: array<byte>, off: nat, s: string)
    requires off <= buf.Length
    modifies buf
    ensures buf[..] == SetText(old(buf[..]), off, s)
  {
    var n := if |s| < buf.Length - off then |s| else buf.Length - off;
    var i := 0;
    while i < n
      invariant 0 <= i <= n
      invariant forall j :: 0 <= j < buf.Length && off <= j < off + i ==> buf[j] == s[j - off] as int % 0x100
      invariant forall j :: 0 <= j < buf.Length && !(off <= j < off + i) ==> buf[j] == old(buf[j])
    {
      buf[off + i] := (s[i] as int) % 0x100;
      i := i + 1;
    }
    assert buf[..] == SetText(old(buf[..]), off, s) by {
      var r := SetText(old(buf[..]), off, s);
      forall j | 0 <= j < buf.Length ensures buf[j] == r[j] {
      }
    }
  }
}
