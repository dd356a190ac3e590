/**
 * The cursor buffer of oscar/buf.go: a byte slice that is read (and
 * consumed) from the front and written on the end.  Every operation
 * reslices or appends to the single field `d`.
 */
module OscarBuffer {
  import opened Wire

  class Buffer {
    /** The unread bytes. */
    var d: bytes

    /** The zero value `Buffer{}`. */
    constructor ()
      ensures d == []
    {
      d := [];
    }

    /** Drops `n` bytes from the front, or everything when fewer remain. */
    method Seek(n: nat)
      modifies this
      ensures d == if n > |old(d)| then [] else old(d)[n..]
    {
      if n > |d| {
        d := [];
        return;
      }
      d := d[n..];
    }

    /**
     * Copies the first `len` unread bytes without consuming them; `eof` when
     * fewer than `len` remain (then nothing is copied).
     */
    method Read(len: nat) returns (n: nat, out: bytes, eof: bool)
      ensures eof <==> len > |d|
      ensures eof ==> n == 0 && out == []
      ensures !eof ==> n == len && out == d[..len]
    {
      if len > |d| {
        return 0, [], true;
      }
      out := d[..len];
      n := |out|;
      eof := false;
    }

    method ReadUint8() returns (x: uint8, eof: bool)
      modifies this
      ensures eof <==> |old(d)| < 1
      ensures eof ==> x == 0 && d == old(d)
      ensures !eof ==> x == old(d)[0] && d == old(d)[1..]
    {
      if |d| < 1 {
        return 0, true;
      }
      x := d[0];
      d := d[1..];
      eof := false;
    }

    method ReadUint16() returns (x: uint16, eof: bool)
      modifies this
      ensures eof <==> |old(d)| < 2
      ensures eof ==> x == 0 && d == old(d)
      ensures !eof ==> x == Uint16At(old(d)) && d == old(d)[2..]
    {
      if |d| < 2 {
        return 0, true;
      }
      x := Uint16At(d[0..2]);
      d := d[2..];
      eof := false;
    }

    method ReadUint32() returns (x: uint32, eof: bool)
      modifies this
      ensures eof <==> |old(d)| < 4
      ensures eof ==> x == 0 && d == old(d)
      ensures !eof ==> x == Uint32At(old(d)) && d == old(d)[4..]
    {
      if |d| < 4 {
        return 0, true;
      }
      assert d[0..4][2..] == d[2..4];
      x := Uint32At(d[0..4]);
      d := d[4..];
      eof := false;
    }

    method ReadUint64() returns (x: uint64, eof: bool)
      modifies this
      ensures eof <==> |old(d)| < 8
      ensures eof ==> x == 0 && d == old(d)
      ensures !eof ==> x == Uint64At(old(d)) && d == old(d)[8..]
    {
      if |d| < 8 {
        return 0, true;
      }
      assert d[0..8][4..] == d[4..8] && d[0..8][4..][2..] == d[6..8] && d[0..8][2..] == d[2..8];
      x := Uint64At(d[0..8]);
      d := d[8..];
      eof := false;
    }

    /**
     * Reads a one-byte length and that many bytes.  An empty buffer yields
     * the empty string and NO error; a length that overruns the buffer is
     * `eof`, with the length byte already consumed.
     */
    method ReadLPString() returns (s: bytes, eof: bool)
      modifies this
      ensures |old(d)| == 0 ==> s == [] && !eof && d == old(d)
      ensures |old(d)| > 0 && |old(d)| - 1 < old(d)[0] ==> s == [] && eof && d == old(d)[1..]
      ensures |old(d)| > 0 && |old(d)| - 1 >= old(d)[0] ==>
        !eof && s == old(d)[1..1 + old(d)[0]] && d == old(d)[1 + old(d)[0]..]
    {
      var length, err := ReadUint8();
      if err {
        return [], false;
      }
      if |d| < length {
        return [], true;
      }
      s := d[..length];
      d := d[length..];
      eof := false;
    }

    method WriteUint8(x: uint8)
      modifies this
      ensures d == old(d) + [x]
    {
      d := d + [x];
    }

    method WriteUint16(x: uint16)
      modifies this
      ensures d == old(d) + Be16(x)
    {
      d := d + Be16(x);
    }

    method WriteUint32(x: uint32)
      modifies this
      ensures d == old(d) + Be32(x)
    {
      d := d + Be32(x);
    }

    method WriteUint64(x: uint64)
      modifies this
      ensures d == old(d) + Be64(x)
    {
      d := d + Be64(x);
    }

    method WriteString(x: bytes)
      modifies this
      ensures d == old(d) + x
    {
      d := d + x;
    }

    /** Writes the length truncated to one byte, then the bytes themselves. */
    method WriteLPString(x: bytes)
      modifies this
      ensures d == old(d) + [Trunc8(|x|)] + x
    {
      WriteUint8(Trunc8(|x|));
      WriteString(x);
    }

    method Write(x: bytes) returns (n: nat, err: bool)
      modifies this
      ensures d == old(d) + x && n == |x| && !err
    {
      d := d + x;
      return |x|, false;
    }

    /** The unread remainder. */
    function Bytes(): bytes
      reads this
    {
      d
    }
  }

  /**
   * Writing a uint8, uint16, uint32 and uint64 and reading them back in the
   * same order returns the written values and leaves the buffer empty.
   */
  method WriteThenReadIntegers(a: uint8, b: uint16, c: uint32, e: uint64)
    returns (ra: uint8, rb: uint16, rc: uint32, re: uint64, eof: bool, left: bytes)
    ensures ra == a && rb == b && rc == c && re == e && !eof && left == []
  {
    var buf := new Buffer();
    buf.WriteUint8(a);
    buf.WriteUint16(b);
    buf.WriteUint32(c);
    buf.WriteUint64(e);
    assert buf.d == [a] + Be16(b) + Be32(c) + Be64(e);
    var e1, e2, e3, e4;
    ra, e1 := buf.ReadUint8();
    assert buf.d == Be16(b) + (Be32(c) + Be64(e));
    Be16RoundTrip(b, Be32(c) + Be64(e));
    rb, e2 := buf.ReadUint16();
    assert buf.d == Be32(c) + Be64(e);
    Be32RoundTrip(c, Be64(e));
    rc, e3 := buf.ReadUint32();
    assert buf.d == Be64(e) + [];
    Be64RoundTrip(e, []);
    re, e4 := buf.ReadUint64();
    eof := e1 || e2 || e3 || e4;
    left := buf.Bytes();
  }

  /**
   * `WriteLPString` then `ReadLPString` returns the original string when its
   * length fits the one-byte prefix, whatever was written after it.
   */
  method WriteThenReadLPString(x: bytes, after: bytes) returns (s: bytes, eof: bool, left: bytes)
    requires |x| <= 255
    ensures s == x && !eof && left == after
  {
    var buf := new Buffer();
    buf.WriteLPString(x);
    buf.WriteString(after);
    assert buf.d[1..1 + |x|] == x && buf.d[1 + |x|..] == after;
    s, eof := buf.ReadLPString();
    left := buf.Bytes();
  }
}
