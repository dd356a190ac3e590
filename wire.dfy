/**
 * Fixed-width unsigned integers and their big-endian byte encodings, as used
 * by every OSCAR structure (Go's `encoding/binary` BigEndian helpers).
 * A Go `string` is a byte string, so strings are modelled as `bytes` too.
 */
module Wire {

  type uint8 = x: int | 0 <= x < 0x100
  type uint16 = x: int | 0 <= x < 0x1_0000
  type uint32 = x: int | 0 <= x < 0x1_0000_0000
  type uint64 = x: int | 0 <= x < 0x1_0000_0000_0000_0000
  type bytes = seq<uint8>

  datatype Option<+T> = None | Some(value: T)

  /** Go's `uint16(n)` conversion of a non-negative length: truncation to 16 bits. */
  function Trunc16(n: nat): (r: uint16)
    ensures n < 0x1_0000 ==> r as int == n
  {
    n % 0x1_0000
  }

  function Trunc8(n: nat): (r: uint8)
    ensures n < 0x100 ==> r as int == n
  {
    n % 0x100
  }

  lemma AppendAssoc(a: bytes, b: bytes, c: bytes)
    ensures (a + b) + c == a + (b + c)
  {
  }

  /** `binary.BigEndian.PutUint16`. */
  function Be16(x: uint16): (r: bytes)
    ensures |r| == 2
  {
    [x / 0x100, x % 0x100]
  }

  /** `binary.BigEndian.PutUint32`. */
  function Be32(x: uint32): (r: bytes)
    ensures |r| == 4
  {
    Be16(x / 0x1_0000) + Be16(x % 0x1_0000)
  }

  /** `binary.BigEndian.PutUint64`. */
  function Be64(x: uint64): (r: bytes)
    ensures |r| == 8
  {
    Be32(x / 0x1_0000_0000) + Be32(x % 0x1_0000_0000)
  }

  /** `binary.BigEndian.Uint16` of the first two bytes. */
  function Uint16At(s: bytes): uint16
    requires |s| >= 2
  {
    (s[0] as int) * 0x100 + s[1] as int
  }

  /** `binary.BigEndian.Uint32` of the first four bytes. */
  function Uint32At(s: bytes): uint32
    requires |s| >= 4
  {
    (Uint16At(s) as int) * 0x1_0000 + Uint16At(s[2..]) as int
  }

  /** `binary.BigEndian.Uint64` of the first eight bytes. */
  function Uint64At(s: bytes): uint64
    requires |s| >= 8
  {
    (Uint32At(s) as int) * 0x1_0000_0000 + Uint32At(s[4..]) as int
  }

  lemma Be16RoundTrip(x: uint16, rest: bytes)
    ensures Uint16At(Be16(x) + rest) == x
  {
  }

  lemma Be32RoundTrip(x: uint32, rest: bytes)
    ensures Uint32At(Be32(x) + rest) == x
  {
    var s := Be32(x) + rest;
    assert s[2..] == Be16(x % 0x1_0000) + rest;
    Be16RoundTrip(x / 0x1_0000, Be16(x % 0x1_0000) + rest);
    Be16RoundTrip(x % 0x1_0000, rest);
  }

  lemma Be64RoundTrip(x: uint64, rest: bytes)
    ensures Uint64At(Be64(x) + rest) == x
  {
    var s := Be64(x) + rest;
    assert s == Be32(x / 0x1_0000_0000) + (Be32(x % 0x1_0000_0000) + rest);
    assert s[4..] == Be32(x % 0x1_0000_0000) + rest;
    Be32RoundTrip(x / 0x1_0000_0000, Be32(x % 0x1_0000_0000) + rest);
    Be32RoundTrip(x % 0x1_0000_0000, rest);
  }

  /** Decoding then re-encoding gives back the bytes that were read. */
  lemma Uint16AtInverse(s: bytes)
    requires |s| >= 2
    ensures Be16(Uint16At(s)) == s[..2]
  {
  }

  lemma Uint32AtInverse(s: bytes)
    requires |s| >= 4
    ensures Be32(Uint32At(s)) == s[..4]
  {
    var hi, lo := Uint16At(s), Uint16At(s[2..]);
    assert Uint32At(s) / 0x1_0000 == hi && Uint32At(s) % 0x1_0000 == lo;
    Uint16AtInverse(s);
    Uint16AtInverse(s[2..]);
  }

  /** Words written one after another. */
  function Words(ws: seq<uint16>): (r: bytes)
    ensures |r| == 2 * |ws|
  {
    if ws == [] then [] else Be16(ws[0]) + Words(ws[1..])
  }

  lemma {:induction false} WordsSnoc(ws: seq<uint16>, i: nat)
    requires i < |ws|
    ensures Words(ws[..i + 1]) == Words(ws[..i]) + Be16(ws[i])
    decreases i
  {
    if i == 0 {
      assert ws[..1][1..] == [];
    } else {
      assert ws[..i + 1][1..] == ws[1..][..i];
      assert ws[..i][1..] == ws[1..][..i - 1];
      WordsSnoc(ws[1..], i - 1);
    }
  }

  /** The word at position `i` of a run of words is the `i`-th word. */
  lemma {:induction false} WordsAt(ws: seq<uint16>, i: nat)
    requires i < |ws|
    ensures Words(ws)[2 * i..2 * i + 2] == Be16(ws[i])
    decreases i
  {
    if i > 0 {
      WordsAt(ws[1..], i - 1);
      assert Words(ws)[2..] == Words(ws[1..]);
    }
  }
  /** Every word of a list sits at twice its index. */
  lemma WordsAll(ws: seq<uint16>)
    ensures forall k :: 0 <= k < |ws| ==> Words(ws)[2 * k..2 * k + 2] == Be16(ws[k])
  {
    forall k | 0 <= k < |ws| ensures Words(ws)[2 * k..2 * k + 2] == Be16(ws[k]) {
      WordsAt(ws, k);
    }
  }

}
