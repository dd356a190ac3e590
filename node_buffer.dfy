// The Node.js `Buffer` primitives the TypeScript codec (src/structures/*.ts)
// is built from: range-checked writes that throw, signed big-endian reads,
// and `slice` with JavaScript's index rules. JavaScript numbers are modelled
// as mathematical integers.

module NodeBuffer {
  import opened Wire

  /** A call either returns a value or throws (a `RangeError` from a write
      whose value is out of range, a failed `assert`, a read past the end). */
  datatype Outcome<+T> = Ok(value: T) | Throws

  /** Two results written one after the other; either one throwing throws. */
  function Cat(a: Outcome<bytes>, b: Outcome<bytes>): (r: Outcome<bytes>)
    ensures r.Ok? <==> a.Ok? && b.Ok?
    ensures r.Ok? ==> r.value == a.value + b.value
  {
    if a.Ok? && b.Ok? then Ok(a.value + b.value) else Throws
  }

  /** Each element turned into bytes by `f` and concatenated
      (`Buffer.concat(xs.map(f))`). */
  function ConcatMap<T>(xs: seq<T>, f: T -> Outcome<bytes>): (r: Outcome<bytes>)
    ensures r.Ok? <==> forall i :: 0 <= i < |xs| ==> f(xs[i]).Ok?
  {
    if xs == [] then Ok([]) else Cat(f(xs[0]), ConcatMap(xs[1..], f))
  }

  /** When every element encodes to 4 bytes, element `i` sits at `4 * i`. */
  lemma {:induction false} ConcatMapAt4<T>(xs: seq<T>, f: T -> Outcome<bytes>, i: nat)
    requires forall j :: 0 <= j < |xs| ==> f(xs[j]).Ok? && |f(xs[j]).value| == 4
    requires i < |xs|
    ensures |ConcatMap(xs, f).value| == 4 * |xs|
    ensures ConcatMap(xs, f).value[4 * i..4 * i + 4] == f(xs[i]).value
    decreases i
  {
    ConcatMapSize(xs, f, 4);
    var head, rest := f(xs[0]).value, ConcatMap(xs[1..], f).value;
    assert ConcatMap(xs, f).value == head + rest;
    if i > 0 {
      assert xs[1..][i - 1] == xs[i];
      ConcatMapAt4(xs[1..], f, i - 1);
      var j := 4 * (i - 1);
      assert 4 * i == 4 + j;
      assert rest[j..j + 4] == f(xs[i]).value;
      assert (head + rest)[4 + j..4 + j + 4] == rest[j..j + 4];
    }
  }

  lemma {:induction false} ConcatMapSize<T>(xs: seq<T>, f: T -> Outcome<bytes>, k: nat)
    requires forall j :: 0 <= j < |xs| ==> f(xs[j]).Ok? && |f(xs[j]).value| == k
    ensures |ConcatMap(xs, f).value| == k * |xs|
  {
    if xs != [] {
      ConcatMapSize(xs[1..], f, k);
      assert k * |xs| == k + k * (|xs| - 1);
    }
  }

  /** `writeUInt8`: throws unless the value is in 0..255. */
  function WriteUInt8(v: int): (r: Outcome<bytes>)
    ensures r.Ok? <==> 0 <= v < 0x100
    ensures r.Ok? ==> |r.value| == 1 && r.value[0] == v
  {
    if 0 <= v < 0x100 then Ok([v]) else Throws
  }

  /** `writeUInt16BE`: throws unless the value is in 0..0xffff. */
  function WriteUInt16(v: int): (r: Outcome<bytes>)
    ensures r.Ok? <==> 0 <= v < 0x1_0000
    ensures r.Ok? ==> |r.value| == 2 && Uint16At(r.value) == v
  {
    if 0 <= v < 0x1_0000 then Ok(Be16(v)) else Throws
  }

  /** `writeUInt32BE`: throws unless the value is in 0..0xffff_ffff. */
  function WriteUInt32(v: int): (r: Outcome<bytes>)
    ensures r.Ok? <==> 0 <= v < 0x1_0000_0000
    ensures r.Ok? ==> |r.value| == 4 && Uint32At(r.value) == v
  {
    if 0 <= v < 0x1_0000_0000 then Be32RoundTrip(v, []); Ok(Be32(v)) else Throws
  }

  /** `readInt8`: the byte as a two's-complement value. */
  function ReadInt8(b: uint8): (r: int)
    ensures -0x80 <= r < 0x80 && r % 0x100 == b
  {
    if b < 0x80 then b else b - 0x100
  }

  /** `readInt16BE(0)` of the first two bytes, two's complement. */
  function ReadInt16(b: bytes): (r: int)
    requires |b| >= 2
    ensures -0x8000 <= r < 0x8000 && r % 0x1_0000 == Uint16At(b)
  {
    var u := Uint16At(b);
    if u < 0x8000 then u else u - 0x1_0000
  }

  /** `readInt32BE(0)` of the first four bytes, two's complement. */
  function ReadInt32(b: bytes): (r: int)
    requires |b| >= 4
    ensures -0x8000_0000 <= r < 0x8000_0000 && r % 0x1_0000_0000 == Uint32At(b)
  {
    var u := Uint32At(b);
    if u < 0x8000_0000 then u else u - 0x1_0000_0000
  }

  /** `writeInt8`: throws unless the value is in -128..127; stored in two's complement. */
  function WriteInt8(v: int): (r: Outcome<bytes>)
    ensures r.Ok? <==> -0x80 <= v < 0x80
    ensures r.Ok? ==> |r.value| == 1 && ReadInt8(r.value[0]) == v
  {
    if -0x80 <= v < 0x80 then Ok([v % 0x100]) else Throws
  }

  /** `writeInt16BE`: throws unless the value is in -0x8000..0x7fff. */
  function WriteInt16(v: int): (r: Outcome<bytes>)
    ensures r.Ok? <==> -0x8000 <= v < 0x8000
    ensures r.Ok? ==> |r.value| == 2 && ReadInt16(r.value) == v
  {
    if -0x8000 <= v < 0x8000 then Ok(Be16(v % 0x1_0000)) else Throws
  }

  /** A `slice` index: negative counts from the end, then clamped to the buffer. */
  function Index(i: int, n: nat): (r: nat)
    ensures r <= n
    ensures 0 <= i <= n ==> r == i
    ensures i > n ==> r == n
    ensures i < 0 <= n + i ==> r == n + i
    ensures n + i < 0 ==> r == 0
  {
    if i < 0 then (if n + i < 0 then 0 else n + i) else if i > n then n else i
  }

  /** `buf.slice(start, end)`: an end at or before the start gives an empty buffer. */
  function Slice(b: bytes, start: int, end: int): (r: bytes)
    ensures |r| <= |b|
    ensures 0 <= start <= end <= |b| ==> r == b[start..end]
    ensures 0 <= start <= |b| <= end ==> r == b[start..]
    ensures 0 <= end <= start ==> r == []
  {
    var s, e := Index(start, |b|), Index(end, |b|);
    if e <= s then [] else b[s..e]
  }
}
