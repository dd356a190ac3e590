/**
 * The encoding helpers of util/util.go: big-endian words and dwords,
 * length-prefixed strings, and the chunking loop `SplitBy` (whose copy in
 * oscar/util.go, `splitBy`, is the same loop and is modelled by the same
 * member).
 */
module Util {
  import opened Wire

  /** `Word`: the 2-byte big-endian encoding. */
  function Word(x: uint16): (r: bytes)
    ensures |r| == 2 && (r[0] as int) * 0x100 + r[1] as int == x
  {
    Be16(x)
  }

  /** `Dword`: the 4-byte big-endian encoding. */
  function Dword(x: uint32): (r: bytes)
    ensures |r| == 4 && (((r[0] as int) * 0x100 + r[1] as int) * 0x100 + r[2] as int) * 0x100 + r[3] as int == x
  {
    Be32(x)
  }

  /** `LPString`: one length byte, then the bytes; `None` where Go panics (more than 255 bytes). */
  function LPString(x: bytes): (r: Option<bytes>)
    ensures r.Some? <==> |x| <= 255
    ensures r.Some? ==> |r.value| == 1 + |x| && r.value[0] == |x| && r.value[1..] == x
  {
    if |x| > 255 then None else Some([|x|] + x)
  }

  /** `LPUint16String`: a 2-byte length, then the bytes; `None` where Go panics (more than 65535 bytes). */
  function LPUint16String(x: bytes): (r: Option<bytes>)
    ensures r.Some? <==> |x| <= 0xffff
    ensures r.Some? ==> |r.value| == 2 + |x| && Uint16At(r.value) == |x| && r.value[2..] == x
  {
    if |x| > 0xffff then None
    else
      Be16RoundTrip(|x|, x);
      Some(Word(|x|) + x)
  }

  lemma LPStringExample()
    ensures LPString([0x74, 0x6f, 0x6f, 0x66]) == Some([4, 0x74, 0x6f, 0x6f, 0x66])
  {
    var x: bytes := [0x74, 0x6f, 0x6f, 0x66];
    assert [|x|] + x == [4, 0x74, 0x6f, 0x6f, 0x66];
  }

  lemma LPUint16StringExample()
    ensures LPUint16String([0x74, 0x6f, 0x6f, 0x66]) == Some([0, 4, 0x74, 0x6f, 0x6f, 0x66])
  {
    var x: bytes := [0x74, 0x6f, 0x6f, 0x66];
    assert Word(|x|) == [0, 4];
    assert Word(|x|) + x == [0, 4, 0x74, 0x6f, 0x6f, 0x66];
  }

  // ---------------------------------------------------------------------
  // SplitBy
  // ---------------------------------------------------------------------

  function Concat(ss: seq<bytes>): bytes {
    if ss == [] then [] else ss[0] + Concat(ss[1..])
  }

  /** `i % n == 0` with Go's truncated remainder; divisibility does not depend on the rounding. */
  predicate Divides(n: int, i: int)
    requires n != 0
  {
    i % n == 0
  }

  /**
   * The loop of `SplitBy` run from the state (`s`, `i`): the chunks it still
   * appends.  After a cut, `i` is reset to 1 and then incremented by the
   * loop's post statement, so scanning resumes at 2.
   */
  function Loop(s: bytes, i: nat, n: int): seq<bytes>
    requires i >= 1
    requires n != 0 || |s| <= 1
    decreases |s|, |s| - i
  {
    if i >= |s| then [s]
    else if Divides(n, i) then [s[..i]] + Loop(s[i..], 2, n)
    else Loop(s, i + 1, n)
  }

  /** Cutting `s` into pieces of `m`, the last one holding the 1..m remaining bytes. */
  function Chunks(s: bytes, m: nat): seq<bytes>
    requires m >= 1
    decreases |s|
  {
    if |s| <= m then [s] else [s[..m]] + Chunks(s[m..], m)
  }

  /** `SplitBy` as written: the loop scanning `i` from 1. */
  method SplitBy(s: bytes, n: int) returns (ss: seq<bytes>)
    requires n != 0 || |s| <= 1
    ensures ss == Loop(s, 1, n)
  {
    ss := [];
    var rest := s;
    var i := 1;
    while i < |rest|
      invariant 1 <= i
      invariant |rest| <= |s|
      invariant ss + Loop(rest, i, n) == Loop(s, 1, n)
      decreases |rest|, |rest| - i
    {
      if i % n == 0 {
        assert Loop(rest, i, n) == [rest[..i]] + Loop(rest[i..], 2, n);
        ss := ss + [rest[..i]];
        rest := rest[i..];
        i := 1;
      }
      i := i + 1;
    }
    ss := ss + [rest];
  }

  /** Whatever `n`, joining the chunks gives back the string. */
  lemma {:induction false} LoopConcat(s: bytes, i: nat, n: int)
    requires i >= 1
    requires n != 0 || |s| <= 1
    ensures Concat(Loop(s, i, n)) == s
    decreases |s|, |s| - i
  {
    if i >= |s| {
    } else if Divides(n, i) {
      LoopConcat(s[i..], 2, n);
      assert Concat(Loop(s, i, n)) == s[..i] + Concat(Loop(s[i..], 2, n));
    } else {
      LoopConcat(s, i + 1, n);
    }
  }

  /** Scanning from `i` with `i < m` and no multiple of `m` below `m`: the next cut is at `m`. */
  lemma {:induction false} LoopIsChunks(s: bytes, i: nat, n: int)
    requires n <= -2 || n >= 2
    requires 2 <= i <= Abs(n) || (i == 1 && Abs(n) >= 2)
    ensures Loop(s, i, n) == Chunks(s, Abs(n))
    decreases |s|, |s| - i
  {
    DividesUpTo(n, i);
    if i >= |s| {
    } else if Divides(n, i) {
      LoopIsChunks(s[i..], 2, n);
    } else {
      LoopIsChunks(s, i + 1, n);
    }
  }

  /** Between 1 and |n|, only |n| itself is a multiple of `n`. */
  lemma DividesUpTo(n: int, i: int)
    requires n <= -2 || n >= 2
    requires 1 <= i <= Abs(n)
    ensures Divides(n, i) <==> i == Abs(n)
  {
    if i < Abs(n) {
      assert i == n * 0 + i;
    } else if n < 0 {
      assert i == n * -1 + 0;
    } else {
      assert i == n * 1 + 0;
    }
  }

  function Abs(n: int): nat {
    if n < 0 then -n else n
  }

  /** For |n| >= 2, `SplitBy` cuts pieces of exactly |n|. */
  lemma SplitByIsChunks(s: bytes, n: int)
    requires n <= -2 || n >= 2
    ensures Loop(s, 1, n) == Chunks(s, Abs(n))
  {
    LoopIsChunks(s, 1, n);
  }

  /**
   * Every chunk but the last has length `m`; the last has 1..m characters, or
   * none exactly when the string is empty.
   */
  lemma {:induction false} ChunksShape(s: bytes, m: nat)
    requires m >= 1
    ensures var cs := Chunks(s, m);
      |cs| >= 1 &&
      (forall k :: 0 <= k < |cs| - 1 ==> |cs[k]| == m) &&
      |cs[|cs| - 1]| <= m &&
      (|cs[|cs| - 1]| == 0 <==> |s| == 0)
    decreases |s|
  {
    if |s| > m {
      ChunksShape(s[m..], m);
      var cs := Chunks(s, m);
      assert cs[1..] == Chunks(s[m..], m);
    }
  }

  /** For n = 1 (or -1), scanning from 2 cuts at every second byte. */
  lemma {:induction false} LoopUnitFromTwo(s: bytes, n: int)
    requires n == 1 || n == -1
    ensures Loop(s, 2, n) == Chunks(s, 2)
    decreases |s|
  {
    if 2 < |s| {
      assert Divides(n, 2);
      LoopUnitFromTwo(s[2..], n);
    }
  }

  /**
   * `SplitBy` as written with n = 1 (or -1): a first chunk of one byte,
   * then chunks of two.
   */
  lemma SplitByUnitShape(s: bytes, n: int)
    requires n == 1 || n == -1
    ensures |s| <= 1 ==> Loop(s, 1, n) == [s]
    ensures |s| > 1 ==> Loop(s, 1, n) == [s[..1]] + Chunks(s[1..], 2)
  {
    if |s| > 1 {
      assert Divides(n, 1);
      LoopUnitFromTwo(s[1..], n);
    }
  }

  /**
   * For n = 1 (or -1) the reset of `i` makes every chunk after the first
   * two bytes long: "abcde" splits as "a", "bc", "de" (here as their ASCII bytes).
   */
  lemma SplitByOneCounterexample()
    ensures Loop([0x61, 0x62, 0x63, 0x64, 0x65], 1, 1) == [[0x61], [0x62, 0x63], [0x64, 0x65]]
  {
    var s: bytes := [0x61, 0x62, 0x63, 0x64, 0x65];
    assert Divides(1, 1) && s[..1] == [0x61];
    assert Loop(s, 1, 1) == [[0x61]] + Loop(s[1..], 2, 1);
    assert s[1..] == [0x62, 0x63, 0x64, 0x65] && s[1..][..2] == [0x62, 0x63] && s[1..][2..] == [0x64, 0x65];
    assert Loop([0x62, 0x63, 0x64, 0x65], 2, 1) == [[0x62, 0x63]] + Loop([0x64, 0x65], 2, 1);
  }

  /**
   * `SplitBy` with the reset that was evidently meant (`i = 0`, so scanning
   * resumes at 1): chunks of exactly `n` for every positive `n`.
   */
  method SplitByFixed(s: bytes, n: nat) returns (ss: seq<bytes>)
    requires n >= 1
    ensures ss == Chunks(s, n)
    ensures Concat(ss) == s
  {
    ss := [];
    var rest := s;
    var i := 1;
    while i < |rest|
      invariant 1 <= i <= n
      invariant i <= |rest| || |rest| <= 1
      invariant ss + Chunks(rest, n) == Chunks(s, n)
      decreases |rest|, |rest| - i
    {
      if i % n == 0 {
        assert i == n;
        assert Chunks(rest, n) == [rest[..i]] + Chunks(rest[i..], n);
        ss := ss + [rest[..i]];
        rest := rest[i..];
        i := 0;
      }
      i := i + 1;
    }
    assert Chunks(rest, n) == [rest];
    ss := ss + [rest];
    ChunksConcat(s, n);
  }

  lemma {:induction false} ChunksConcat(s: bytes, m: nat)
    requires m >= 1
    ensures Concat(Chunks(s, m)) == s
    decreases |s|
  {
    if |s| > m {
      ChunksConcat(s[m..], m);
      assert Concat(Chunks(s, m)) == s[..m] + Concat(Chunks(s[m..], m));
    }
  }
}
