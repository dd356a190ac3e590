/**
 * The user info block several replies share (SNACs 1:0xf, 2:6 and 3:0xb):
 * the screen name with a one-byte length, the warning level (always 0
 * here), the number of TLVs that follow and the TLVs.
 */
module UserInfo {
  import opened Wire
  import Tlv
  import Snac

  /** The block for `name` with the TLVs `tlvs` (`WriteLPString`, `WriteUint16(0)`, `AppendTLVs`). */
  function Block(name: bytes, tlvs: seq<Tlv.TLV>): bytes {
    [Trunc8(|name|)] + name + Be16(0) + Be16(Trunc16(|tlvs|)) + Tlv.MarshalAll(tlvs)
  }

  /** `WriteLPString(name)`, `WriteUint16(0)` and `AppendTLVs(tlvs)` on a SNAC body. */
  method Append(s: Snac.Snac, name: bytes, tlvs: seq<Tlv.TLV>)
    modifies s.data
    ensures s.data.d == old(s.data.d) + Block(name, tlvs)
  {
    ghost var d0 := s.data.d;
    s.data.WriteLPString(name);
    s.data.WriteUint16(0);
    ghost var d1 := s.data.d;
    s.AppendTLVs(tlvs);
    BlockParts(d0, name, tlvs, d1, s.data.d);
  }

  /** The three writes of `Append` add up to one block. */
  lemma BlockParts(d0: bytes, name: bytes, tlvs: seq<Tlv.TLV>, d1: bytes, d2: bytes)
    requires d1 == d0 + [Trunc8(|name|)] + name + Be16(0)
    requires d2 == d1 + Be16(Trunc16(|tlvs|)) + Tlv.MarshalAll(tlvs)
    ensures d2 == d0 + Block(name, tlvs)
  {
    var t, z, c, m := [Trunc8(|name|)], Be16(0), Be16(Trunc16(|tlvs|)), Tlv.MarshalAll(tlvs);
    AppendAssoc(d0, t, name);
    AppendAssoc(d0, t + name, z);
    assert d1 == d0 + (t + name + z);
    AppendAssoc(d0, t + name + z, c);
    AppendAssoc(d0, t + name + z + c, m);
  }

  /** What a client reads from a block: name, warning level, declared count, and every TLV after the count. */
  datatype Info = Info(name: bytes, warning: uint16, count: uint16, tlvs: seq<Tlv.TLV>)

  function Read(b: bytes): (r: Option<Info>)
    ensures r.Some? ==> |b| >= 1 && |b| >= 5 + b[0] as int && r.value.name == b[1..1 + b[0] as int]
  {
    if |b| < 1 || |b| < 5 + b[0] as int then None
    else
      var k := 1 + b[0] as int;
      match Tlv.ParseAll(b[k + 4..])
      case None => None
      case Some(tlvs) => Some(Info(b[1..k], Uint16At(b[k..]), Uint16At(b[k + 2..]), tlvs))
  }

  /** The fixed part of a block: the name, then two big-endian words, then whatever follows. */
  lemma Header(name: bytes, w: uint16, c: uint16, rest: bytes)
    requires |name| <= 255
    ensures var b := [Trunc8(|name|)] + name + Be16(w) + Be16(c) + rest;
      var k := 1 + |name|;
      |b| >= 5 + |name| && b[0] as int == |name| && b[1..k] == name
      && Uint16At(b[k..]) == w && Uint16At(b[k + 2..]) == c && b[k + 4..] == rest
  {
    var b := [Trunc8(|name|)] + name + Be16(w) + Be16(c) + rest;
    var k := 1 + |name|;
    assert b == [Trunc8(|name|)] + name + (Be16(w) + (Be16(c) + rest));
    assert b[k..] == Be16(w) + (Be16(c) + rest);
    Be16RoundTrip(w, Be16(c) + rest);
    assert b[k + 2..] == Be16(c) + rest;
    Be16RoundTrip(c, rest);
  }

  /** A block followed by more TLVs is the header followed by all the TLVs. */
  lemma BlockThen(name: bytes, tlvs: seq<Tlv.TLV>, extra: seq<Tlv.TLV>)
    ensures Block(name, tlvs) + Tlv.MarshalAll(extra)
         == [Trunc8(|name|)] + name + Be16(0) + Be16(Trunc16(|tlvs|)) + Tlv.MarshalAll(tlvs + extra)
  {
    Tlv.MarshalAllAppend(tlvs, extra);
    var head := [Trunc8(|name|)] + name + Be16(0) + Be16(Trunc16(|tlvs|));
    AppendAssoc(head, Tlv.MarshalAll(tlvs), Tlv.MarshalAll(extra));
  }

  /**
   * A client reads back the name, warning level 0, the number of TLVs in
   * the block, and the block's TLVs followed by any TLVs written after it.
   */
  lemma ReadBlock(name: bytes, tlvs: seq<Tlv.TLV>, extra: seq<Tlv.TLV>)
    requires |name| <= 255 && |tlvs| <= 0xffff
    requires Tlv.AllWellFormed(tlvs) && Tlv.AllWellFormed(extra)
    ensures Read(Block(name, tlvs) + Tlv.MarshalAll(extra)) == Some(Info(name, 0, |tlvs| as uint16, tlvs + extra))
  {
    var all := tlvs + extra;
    WellFormedAppend(tlvs, extra);
    Tlv.MarshalAllRoundTrip(all);
    var c := Trunc16(|tlvs|);
    var b := [Trunc8(|name|)] + name + Be16(0) + Be16(c) + Tlv.MarshalAll(all);
    assert Block(name, tlvs) + Tlv.MarshalAll(extra) == b by { BlockThen(name, tlvs, extra); }
    ReadHeader(name, 0, c, Tlv.MarshalAll(all), all);
    assert c == |tlvs| as uint16;
  }

  lemma WellFormedAppend(ts: seq<Tlv.TLV>, us: seq<Tlv.TLV>)
    requires Tlv.AllWellFormed(ts) && Tlv.AllWellFormed(us)
    ensures Tlv.AllWellFormed(ts + us)
  {
    forall i | 0 <= i < |ts + us| ensures Tlv.WellFormed((ts + us)[i]) {
      if i >= |ts| { assert (ts + us)[i] == us[i - |ts|]; }
    }
  }

  /** The fixed part of a block followed by bytes that parse as TLVs. */
  lemma ReadHeader(name: bytes, w: uint16, c: uint16, rest: bytes, ts: seq<Tlv.TLV>)
    requires |name| <= 255 && Tlv.ParseAll(rest) == Some(ts)
    ensures Read([Trunc8(|name|)] + name + Be16(w) + Be16(c) + rest) == Some(Info(name, w, c, ts))
  {
    Header(name, w, c, rest);
  }

  /** The block on its own. */
  lemma ReadBlockAlone(name: bytes, tlvs: seq<Tlv.TLV>)
    requires |name| <= 255 && |tlvs| <= 0xffff && Tlv.AllWellFormed(tlvs)
    ensures Read(Block(name, tlvs)) == Some(Info(name, 0, |tlvs| as uint16, tlvs))
  {
    ReadBlock(name, tlvs, []);
    assert Block(name, tlvs) + Tlv.MarshalAll([]) == Block(name, tlvs);
    assert tlvs + [] == tlvs;
  }
}
