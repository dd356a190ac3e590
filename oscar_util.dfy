/**
 * The decoders of oscar/util.go.  `Word` and `DWord` index the last byte
 * they need first, so shorter input panics with an index error (`None`
 * here).  Its `splitBy` is the loop modelled by `Util.SplitBy`.
 */
module OscarUtil {
  import opened Wire
  import Util

  /** `Word`: `b[0] << 8 | b[1]`. */
  function Word(b: bytes): (r: Option<uint16>)
    ensures r.Some? <==> |b| >= 2
    ensures r.Some? ==> r.value == (b[0] as int) * 0x100 + b[1] as int
  {
    if |b| < 2 then None else Some(Uint16At(b))
  }

  /** `DWord`: the big-endian value of the first four bytes. */
  function DWord(b: bytes): (r: Option<uint32>)
    ensures r.Some? <==> |b| >= 4
    ensures r.Some? ==> r.value == (((b[0] as int) * 0x100 + b[1] as int) * 0x100 + b[2] as int) * 0x100 + b[3] as int
  {
    if |b| < 4 then None else Some(Uint32At(b))
  }

  /** Only the first two (four) bytes matter. */
  lemma DecodersReadPrefix(b: bytes, rest: bytes)
    ensures |b| >= 2 ==> Word(b + rest) == Word(b)
    ensures |b| >= 4 ==> DWord(b + rest) == DWord(b)
  {
  }

  /** Decoding util/util.go's encodings gives the value back, whatever follows. */
  lemma WordRoundTrip(x: uint16, rest: bytes)
    ensures Word(Util.Word(x) + rest) == Some(x)
  {
    Be16RoundTrip(x, rest);
  }

  lemma DWordRoundTrip(x: uint32, rest: bytes)
    ensures DWord(Util.Dword(x) + rest) == Some(x)
  {
    Be32RoundTrip(x, rest);
  }

  /** And the other way: re-encoding a decoded value gives the bytes it was read from. */
  lemma WordInverse(b: bytes)
    requires |b| >= 2
    ensures Util.Word(Word(b).value) == b[..2]
  {
    Uint16AtInverse(b);
  }

  lemma DWordInverse(b: bytes)
    requires |b| >= 4
    ensures Util.Dword(DWord(b).value) == b[..4]
  {
    Uint32AtInverse(b);
  }

  /** `splitBy` of the empty string is one empty chunk, for every `n` (even 0). */
  lemma SplitByEmpty(n: int)
    ensures Util.Loop([], 1, n) == [[]]
  {
  }

  /** Joining the chunks of `splitBy` gives back the string, for every `n` it accepts. */
  method SplitByJoins(s: bytes, n: int) returns (ss: seq<bytes>)
    requires n != 0 || |s| <= 1
    ensures Util.Concat(ss) == s
  {
    ss := Util.SplitBy(s, n);
    Util.LoopConcat(s, 1, n);
  }
}
