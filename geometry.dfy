/** Cache geometry: `CacheSpec` in src/thrashe.rs, three power-of-two
    exponents, the sizes derived from them and the split of an address into
    a set index and a tag. */
module Geometry {
  import opened Bits

  /** Block size, set count and associativity, each as the exponent of a power of two. */
  datatype CacheSpec = CacheSpec(blockSizeBits: U8, setNumBits: U8, linesPerSetBits: U8)

  /** The exponents `from_spec` can raise: `1 << bits` on a 64-bit `usize`
      overflows for 64 or more. */
  predicate Buildable(spec: CacheSpec) {
    spec.setNumBits < 64 && spec.linesPerSetBits < 64
  }

  /** The exponents `split` can use: both shifts of the 64-bit address stay below 64. */
  predicate Splittable(spec: CacheSpec) {
    spec.blockSizeBits + spec.setNumBits < 64
  }

  /** `set_num`: `1 << set_num_bits`. */
  function SetNum(spec: CacheSpec): (r: nat)
    requires spec.setNumBits < 64
    ensures r >= 1 && (spec.setNumBits >= 1 ==> r % 2 == 0)
  {
    Pow2(spec.setNumBits)
  }

  /** `lines_per_set`: `1 << lines_per_set_bits`. */
  function LinesPerSet(spec: CacheSpec): (r: nat)
    requires spec.linesPerSetBits < 64
    ensures r >= 1 && (spec.linesPerSetBits >= 1 ==> r % 2 == 0)
  {
    Pow2(spec.linesPerSetBits)
  }

  /** `block_size`: `1 << block_size_bits`. */
  function BlockSize(spec: CacheSpec): (r: nat)
    requires spec.blockSizeBits < 64
    ensures r >= 1 && (spec.blockSizeBits >= 1 ==> r % 2 == 0)
  {
    Pow2(spec.blockSizeBits)
  }

  /** `1 << n` on a 64-bit word loses nothing below 64: it is 2^n. */
  lemma {:induction false} ShiftOne(n: nat)
    requires n < 64
    ensures Shl64(1, n) == Pow2(n)
  {
    Pow2Monotone(n, 63);
    Pow2Constants();
    assert Pow2(64) == 2 * Pow2(63);
  }

  /** The three derived sizes are the `1 << bits` shifts of the source, none
      of which loses a bit. */
  lemma {:induction false} SizesAreShifts(spec: CacheSpec)
    requires Buildable(spec) && spec.blockSizeBits < 64
    ensures SetNum(spec) == Shl64(1, spec.setNumBits)
    ensures LinesPerSet(spec) == Shl64(1, spec.linesPerSetBits)
    ensures BlockSize(spec) == Shl64(1, spec.blockSizeBits)
  {
    ShiftOne(spec.setNumBits);
    ShiftOne(spec.linesPerSetBits);
    ShiftOne(spec.blockSizeBits);
  }

  /** `size`: the capacity in bytes, the product of the three derived sizes as
      a `u64`; the product stays below 2^64 exactly when the exponents add up
      to less than 64. */
  function Size(spec: CacheSpec): (r: nat)
    requires spec.blockSizeBits + spec.setNumBits + spec.linesPerSetBits < 64
    ensures r == Pow2(spec.blockSizeBits + spec.setNumBits + spec.linesPerSetBits)
    ensures r < 0x1_0000_0000_0000_0000
  {
    SizeProduct(spec.blockSizeBits, spec.setNumBits, spec.linesPerSetBits);
    BlockSize(spec) * SetNum(spec) * LinesPerSet(spec)
  }

  /** The product of three powers of two with exponents adding up to less
      than 64 is the power of their sum, below 2^64. */
  lemma {:induction false} SizeProduct(b: nat, s: nat, l: nat)
    requires b + s + l < 64
    ensures Pow2(b) * Pow2(s) * Pow2(l) == Pow2(b + s + l)
    ensures Pow2(b + s + l) < 0x1_0000_0000_0000_0000
  {
    Pow2Add(b, s);
    Pow2Add(b + s, l);
    Pow2Monotone(b + s + l, 63);
    Pow2Constants();
    assert Pow2(64) == 2 * Pow2(63);
  }

  /** `split`: the set index is the address shifted right by the block-size
      exponent and masked with `block_size - 1` (the block-size exponent, not
      the set-count exponent, sets the mask width); the tag is the address
      shifted right by both exponents. Both are cast to `u32`. */
  function Split(spec: CacheSpec, address: U64): (r: (U32, U32))
    requires Splittable(spec)
    ensures r.0 < Pow2(spec.blockSizeBits)
  {
    var b := spec.blockSizeBits;
    var shifted := Shr(address, b);
    AndMask(shifted, b);
    assert shifted % Pow2(b) % 0x1_0000_0000 <= shifted % Pow2(b);
    var setIndex := AsU32(And(shifted, BlockSize(spec) - 1));
    var tag := AsU32(Shr(address, b + spec.setNumBits));
    (setIndex, tag)
  }

  /** The split in arithmetic terms: the set index is the block number modulo
      the block size, the tag the address divided by the block size times the
      set count, both truncated to 32 bits. */
  lemma {:induction false} SplitValue(spec: CacheSpec, address: U64)
    requires Splittable(spec)
    ensures Split(spec, address).0 == ((address / Pow2(spec.blockSizeBits)) % Pow2(spec.blockSizeBits)) % 0x1_0000_0000
    ensures Split(spec, address).1 == (address / Pow2(spec.blockSizeBits + spec.setNumBits)) % 0x1_0000_0000
  {
    var b := spec.blockSizeBits;
    AndMask(Shr(address, b), b);
  }

  /** `spec_8kib_32bit_2way`: 32-byte blocks, 128 sets, 2 lines per set. */
  function Preset(): (spec: CacheSpec)
    ensures Buildable(spec) && Splittable(spec)
  {
    CacheSpec(5, 7, 1)
  }

  /** The preset describes an 8 KiB cache. */
  lemma {:induction false} PresetSize()
    ensures Size(Preset()) == 8192
    ensures SetNum(Preset()) == 128 && LinesPerSet(Preset()) == 2 && BlockSize(Preset()) == 32
  {
    assert Pow2(13) == 8192;
  }

  /** Indexing the set array with the split set index stays in bounds when the
      block-size exponent is at most the set-count exponent, as in the preset. */
  lemma {:induction false} IndexInBounds(spec: CacheSpec, address: U64)
    requires Splittable(spec) && spec.blockSizeBits <= spec.setNumBits
    ensures Split(spec, address).0 < SetNum(spec)
  {
    Pow2Monotone(spec.blockSizeBits, spec.setNumBits);
  }
}
