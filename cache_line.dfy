/** One cache line packed into a 64-bit word (`CacheLineCompact` in
    src/thrashe.rs): bits 63-32 hold the tag, bits 31-1 the access stamp and
    bit 0 the valid flag. */
module CacheLine {
  import opened Bits
  import opened Wrappers

  /** The unpacked fields (`CacheLine`). */
  datatype Line = Line(tag: U32, access: U32, valid: bool)

  /** What `touch_if_matches` reports: `Ok(())` on a match, otherwise
      `Err(Some(access))` for a valid line and `Err(None)` for an invalid one. */
  datatype Probe = Matched | NotMatched(lineAccess: Option<U32>)

  /** The word and the epoch counter after `touch_if_matches`, and its result. */
  datatype ProbeStep = ProbeStep(word: U64, epoch: U32, probe: Probe)

  const ACCESS_LIMIT: nat := 0x8000_0000

  /** The layout of a packed word in arithmetic terms: the tag is the high 32
      bits, the access stamp bits 31-1 and the valid flag bit 0. */
  function Decode(val: U64): Line {
    Line(val / 0x1_0000_0000, (val % 0x1_0000_0000) / 2, val % 2 == 1)
  }

  /** The word with a tag in the high bits, 31 access bits above a flag bit;
      bit 31 of the access value is or'ed into tag bit 0. */
  function Encode(l: Line): U64 {
    TagBitBound(l.tag, l.access / ACCESS_LIMIT);
    Or(l.tag, l.access / ACCESS_LIMIT) * 0x1_0000_0000
      + 2 * (l.access % ACCESS_LIMIT) + (if l.valid then 1 else 0)
  }

  /** The word a hit leaves behind: an even stamp replaces bits 31-1, the tag
      and the valid flag stay. */
  function Restamped(word: U64, stamp: U32): (r: U64)
    requires stamp % 2 == 0
    ensures Decode(r) == Line(Decode(word).tag, stamp / 2, Decode(word).valid)
  {
    var h, v := word / 0x1_0000_0000, word % 2;
    DecodeFields(h, stamp / 2, v);
    assert h * 0x1_0000_0000 + stamp + v == h * 0x1_0000_0000 + 2 * (stamp / 2) + v;
    h * 0x1_0000_0000 + stamp + v
  }

  /** `unpack`: bit 0 is the valid flag, the low 32 bits shifted right once are
      the access stamp and the high 32 bits are the tag. */
  function Unpack(val: U64): (l: Line)
    ensures l == Decode(val)
    ensures l.access < ACCESS_LIMIT
  {
    Pow2Constants();
    AndMask(val, 1);
    var valid := And(val, 1) == 1;
    var access := Shr(AsU32(val), 1);
    var tag := AsU32(Shr(val, 32));
    Line(tag, access, valid)
  }

  /** The word `pack_store` writes: the tag shifted left by 31, or'ed with the
      access value, shifted left once more and or'ed with the valid flag. Bit
      31 of the access value lands on tag bit 0. */
  function Pack(l: Line): (r: U64)
    ensures r == Encode(l)
  {
    PackSteps(l);
    var encoding := Shl64(l.tag, 31);
    var encoding := Or(encoding, l.access);
    var encoding := Shl64(encoding, 1);
    Or(encoding, if l.valid then 1 else 0)
  }

  /** The value after each step of `pack_store`. */
  lemma {:induction false} PackSteps(l: Line)
    ensures Shl64(l.tag, 31) == l.tag * ACCESS_LIMIT
    ensures Or(l.tag * ACCESS_LIMIT, l.access)
            == Or(l.tag, l.access / ACCESS_LIMIT) * ACCESS_LIMIT + l.access % ACCESS_LIMIT
    ensures Or(l.tag, l.access / ACCESS_LIMIT) < 0x1_0000_0000
    ensures Or(l.tag * ACCESS_LIMIT, l.access) < 0x8000_0000_0000_0000
    ensures Shl64(Or(l.tag * ACCESS_LIMIT, l.access), 1) == 2 * Or(l.tag * ACCESS_LIMIT, l.access)
    ensures Or(2 * Or(l.tag * ACCESS_LIMIT, l.access), if l.valid then 1 else 0)
            == 2 * Or(l.tag * ACCESS_LIMIT, l.access) + (if l.valid then 1 else 0)
  {
    Pow2Constants();
    ShiftTag(l.tag);
    MergeAccess(l.tag, l.access);
    var x := Or(l.tag * ACCESS_LIMIT, l.access);
    ShiftOnce(x);
    OrLowBit(2 * x, if l.valid then 1 else 0);
  }

  /** `(tag as u64) << 31` loses nothing. */
  lemma {:induction false} ShiftTag(tag: U32)
    ensures Shl64(tag, 31) == tag * ACCESS_LIMIT
  {
    Pow2Constants();
    DivModUnique(tag * ACCESS_LIMIT, 0x1_0000_0000_0000_0000, 0, tag * ACCESS_LIMIT);
  }

  /** Or'ing the access value into the shifted tag: bits 30-0 fill the free
      low bits and bit 31 lands on tag bit 0. */
  lemma {:induction false} MergeAccess(tag: U32, access: U32)
    ensures Or(tag * ACCESS_LIMIT, access)
            == Or(tag, access / ACCESS_LIMIT) * ACCESS_LIMIT + access % ACCESS_LIMIT
    ensures Or(tag, access / ACCESS_LIMIT) < 0x1_0000_0000
    ensures Or(tag * ACCESS_LIMIT, access) < 0x8000_0000_0000_0000
  {
    var hi, lo := access / ACCESS_LIMIT, access % ACCESS_LIMIT;
    MergeSplit(tag, access, hi, lo);
    TagBitBound(tag, hi);
  }

  /** The or of the shifted tag and the access value, split at bit 31. */
  lemma {:induction false} MergeSplit(tag: U32, access: U32, hi: nat, lo: nat)
    requires hi == access / ACCESS_LIMIT && lo == access % ACCESS_LIMIT
    ensures Or(tag * ACCESS_LIMIT, access) == Or(tag, hi) * ACCESS_LIMIT + lo
  {
    Pow2Constants();
    assert access == hi * ACCESS_LIMIT + lo;
    MulPow2(tag, 31, ACCESS_LIMIT);
    MulPow2(hi, 31, ACCESS_LIMIT);
    MulPow2(Or(tag, hi), 31, ACCESS_LIMIT);
    OrSplit(tag, 0, hi, lo, 31);
    OrCongruent(tag * Pow2(31) + 0, hi * Pow2(31) + lo, tag * ACCESS_LIMIT, access);
    assert Or(0, lo) == lo;
  }

  /** Or'ing bit 31 of the access value into a 32-bit tag stays within 32 bits. */
  lemma {:induction false} TagBitBound(tag: U32, hi: nat)
    requires hi <= 1
    ensures Or(tag, hi) < 0x1_0000_0000
  {
    if hi == 0 {
      assert Or(tag, hi) == tag;
    } else {
      OrOne(tag);
    }
  }

  /** Shifting a value below 2^63 left once as a `u64` doubles it. */
  lemma {:induction false} ShiftOnce(x: nat)
    requires x < 0x8000_0000_0000_0000
    ensures x < 0x1_0000_0000_0000_0000 && Shl64(x, 1) == 2 * x
  {
    assert Pow2(1) == 2;
    DivModUnique(2 * x, 0x1_0000_0000_0000_0000, 0, 2 * x);
  }

  /** The fields of a word assembled from a tag, a 31-bit access value and a flag. */
  lemma {:induction false} DecodeFields(tag: U32, access: nat, v: nat)
    requires access < ACCESS_LIMIT && v <= 1
    ensures tag * 0x1_0000_0000 + 2 * access + v < 0x1_0000_0000_0000_0000
    ensures Decode(tag * 0x1_0000_0000 + 2 * access + v) == Line(tag, access, v == 1)
  {
    var w := tag * 0x1_0000_0000 + 2 * access + v;
    DivModUnique(w, 0x1_0000_0000, tag, 2 * access + v);
    DivModUnique(w, 2, tag * 0x8000_0000 + access, v);
    DivModUnique(2 * access + v, 2, access, v);
  }

  /** Packing then unpacking gives back the line whenever its access value
      fits the 31-bit field. */
  lemma {:induction false} RoundTrip(l: Line)
    requires l.access < ACCESS_LIMIT
    ensures Unpack(Pack(l)) == l
  {
    PackOverflow(l);
    DivModUnique(l.access, ACCESS_LIMIT, 0, l.access);
    assert Or(l.tag, 0) == l.tag;
  }

  /** What unpacking returns for any line: an access value of 2^31 or more
      loses bit 31, which is or'ed into tag bit 0. */
  lemma {:induction false} PackOverflow(l: Line)
    ensures Unpack(Pack(l)) == Line(Or(l.tag, l.access / ACCESS_LIMIT), l.access % ACCESS_LIMIT, l.valid)
  {
    DecodeEncode(l);
  }

  /** The layout read back from an encoded line: the access value keeps its
      low 31 bits and its bit 31 turns up in tag bit 0. */
  lemma {:induction false} DecodeEncode(l: Line)
    ensures Decode(Encode(l)) == Line(Or(l.tag, l.access / ACCESS_LIMIT), l.access % ACCESS_LIMIT, l.valid)
  {
    TagBitBound(l.tag, l.access / ACCESS_LIMIT);
    DecodeFields(Or(l.tag, l.access / ACCESS_LIMIT), l.access % ACCESS_LIMIT, if l.valid then 1 else 0);
  }

  /** Every word is the packing of its unpacked fields: pack and unpack are
      inverse bijections between 64-bit words and lines with 31-bit access. */
  lemma {:induction false} UnpackThenPack(val: U64)
    ensures Pack(Unpack(val)) == val
  {
    var l := Unpack(val);
    assert Or(l.tag, 0) == l.tag;
    var lo := val % 0x1_0000_0000;
    DivModUnique(val, 0x1_0000_0000, l.tag, lo);
    DivModUnique(lo, 2, l.access, lo % 2);
    DivModUnique(val, 2, l.tag * 0x8000_0000 + l.access, lo % 2);
  }

  /** The word `touch_if_matches` stores on a match: the old word with bits 31-1
      cleared, or'ed with the (even) shifted epoch. */
  lemma {:induction false} HitWord(val: U64, e: U32)
    requires e % 2 == 0
    ensures Or(And(val, Not64(0xFFFF_FFFE)), e) == (val / 0x1_0000_0000) * 0x1_0000_0000 + e + val % 2
  {
    ClearAccess(val);
    StampBits(val / 0x1_0000_0000, val % 2, e);
  }

  /** `val & !0xFFFF_FFFE` keeps the tag and the valid flag. */
  lemma {:induction false} ClearAccess(val: U64)
    ensures And(val, Not64(0xFFFF_FFFE)) == (val / 0x1_0000_0000) * 0x1_0000_0000 + val % 2
  {
    Pow2Constants();
    var h, l := val / 0x1_0000_0000, val % 0x1_0000_0000;
    DivModUnique(val, 2, h * 0x8000_0000 + l / 2, l % 2);
    assert Not64(0xFFFF_FFFE) == 0xFFFF_FFFF * 0x1_0000_0000 + 1;
    MulPow2(h, 32, 0x1_0000_0000);
    MulPow2(0xFFFF_FFFF, 32, 0x1_0000_0000);
    MulPow2(0, 32, 0x1_0000_0000);
    AndSplit(h, l, 0xFFFF_FFFF, 1, 32);
    AndCongruent(h * Pow2(32) + l, 0xFFFF_FFFF * Pow2(32) + 1, val, Not64(0xFFFF_FFFE));
    AndLowMask(0, h, 32);
    AndCongruent(0 * Pow2(32) + h, Pow2(32) - 1, h, 0xFFFF_FFFF);
    AndMask(l, 1);
  }

  /** Or'ing an even 32-bit stamp into a word whose bits 31-1 are clear. */
  lemma {:induction false} StampBits(h: nat, v: nat, e: U32)
    requires v <= 1 && e % 2 == 0
    ensures Or(h * 0x1_0000_0000 + v, e) == h * 0x1_0000_0000 + e + v
  {
    StampSplit(h, v, e);
    OrLowBit(e, v);
  }

  /** Or'ing a 32-bit value into a word leaves the high 32 bits alone. */
  lemma {:induction false} StampSplit(h: nat, v: nat, e: U32)
    requires v < 0x1_0000_0000
    ensures Or(h * 0x1_0000_0000 + v, e) == h * 0x1_0000_0000 + Or(v, e)
  {
    Pow2Constants();
    assert Or(h, 0) == h;
    MulPow2(h, 32, 0x1_0000_0000);
    MulPow2(0, 32, 0x1_0000_0000);
    OrSplit(h, v, 0, e, 32);
    OrCongruent(h * Pow2(32) + v, 0 * Pow2(32) + e, h * 0x1_0000_0000 + v, e);
  }

  /** The epoch shifted left once as a `u32` is twice its low 31 bits. */
  lemma {:induction false} StampValue(epoch: U32)
    ensures Shl32(epoch, 1) == 2 * (epoch % ACCESS_LIMIT)
    ensures Shl32(epoch, 1) % 2 == 0 && Shl32(epoch, 1) / 2 == epoch % ACCESS_LIMIT
  {
    Pow2Constants();
    DivModUnique(2 * epoch, 0x1_0000_0000, epoch / ACCESS_LIMIT, 2 * (epoch % ACCESS_LIMIT));
    var half := epoch % ACCESS_LIMIT;
    assert Shl32(epoch, 1) == 2 * half;
  }

  /** `touch_if_matches`: on a valid line with the candidate tag, bump the epoch
      counter and write the old counter value shifted left once into bits 31-1;
      otherwise leave word and counter alone and report the line's access
      value if it is valid. */
  function ProbeLine(word: U64, candTag: U32, epoch: U32): (r: ProbeStep)
    ensures var l := Decode(word);
      l.valid && l.tag == candTag ==>
        r.probe == Matched && r.epoch == WrappingInc(epoch)
        && Decode(r.word) == Line(l.tag, epoch % ACCESS_LIMIT, true)
    ensures var l := Decode(word);
      !(l.valid && l.tag == candTag) ==>
        r.word == word && r.epoch == epoch
        && r.probe == NotMatched(if l.valid then Some(l.access) else None)
  {
    var line := Decode(word);
    if line.valid && candTag == line.tag then
      var stamp := Shl32(epoch, 1);
      StampValue(epoch);
      ProbeStep(Restamped(word, stamp), WrappingInc(epoch), Matched)
    else if line.valid then
      ProbeStep(word, epoch, NotMatched(Some(line.access)))
    else
      ProbeStep(word, epoch, NotMatched(None))
  }

  /** The word a hit writes back: bits 31-1 cleared, then the (even) stamp or'ed
      in. Tag and valid flag survive; the access value becomes half the stamp. */
  function Refreshed(word: U64, stamp: U32): (r: U64)
    requires stamp % 2 == 0
    ensures r == Restamped(word, stamp)
    ensures Unpack(r) == Line(Unpack(word).tag, stamp / 2, Unpack(word).valid)
  {
    HitWord(word, stamp);
    Or(And(word, Not64(0xFFFF_FFFE)), stamp)
  }

}
