# thrashe: a verified model of the cache simulator

thrashe wraps values so that every dereference is replayed as a memory
touch against a simulated set-associative cache, and reports access, hit
and miss counts afterwards. This project models the simulator at the
centre of the crate in Dafny and proves properties of that model. The
modelled parts are:

- the cache geometry `CacheSpec`: the derived sizes, the split of an
  address into set index and tag, and the 8 KiB / 32-byte / 2-way preset
  (module `Geometry`);
- the packed 64-bit cache line `CacheLineCompact`: `unpack`, `pack_store`,
  `fetch_unpack` and `touch_if_matches` (module `CacheLine`);
- the cache `CacheState`: `from_spec`, `touch_address` with its hit scan
  and victim choice, and `make_report` (module `Cache`);
- the `CacheProvider` slot: `configure`, `get_report`, `finish`, and the
  touch that `deref` and `prefetch` share (module `Provider`);
- the `Thrashe` wrapper's `deref` and `prefetch` (module `Instrumented`);
- the crate's four unit tests, each a method whose postcondition is the
  test's assertions (module `Scenarios`).

`Bits` defines unsigned words and the bit operations (`>>`, `<<`, `&`,
`|`, `!`, the `as u32` cast, and `fetch_add` on a `u32`, which wraps), all
on unbounded integers, with the lemmas that relate them to arithmetic.
Words are bounded integers rather than `bv64` values, so that the proofs
about the bit layout can use ordinary division and remainder.

The cache is modelled twice. `Cache.Touch` is a pure reference model: a
function from one snapshot of all lines and counters to the next.
`Cache.CacheState` is a class that updates a two-dimensional array of
packed words in place, as the Rust code does. Its `touch_address` loop is
proved to compute exactly `Touch`. The reference model reads lines through
`CacheLine.Decode`, writes the line a miss installs through
`CacheLine.Encode` and writes a hit back through `CacheLine.Restamped`;
these three describe the bit layout arithmetically. `Unpack`, `Pack` and
`Refreshed` perform the source's shifts and masks, and are proved equal to
`Decode`, `Encode` and `Restamped` respectively.

The model reproduces some behaviour of the code that one might not
expect:

- `fetch_add` returns the counter's value before the increment. That old
  value is what both the hit path and the miss path stamp into the line.
- The hit path writes `old << 1` into bits 31-1. Unpacking then yields an
  access value of the old epoch modulo 2^31.
- The miss path passes `old << 1` as the access value to `pack_store`,
  which shifts it left again. Unpacking yields twice the old epoch, modulo
  2^31.
- Bit 31 of the access value passed to `pack_store` lands on tag bit 0.
  `CacheLine.PackOverflow` and `Cache.InstalledFields` state this.
  `Cache.RetouchHits` therefore needs the epoch modulo 2^31 to be below
  2^30. Beyond that point, a touch that installs an even tag can store it
  as an odd one.
- The set index is masked with `block_size - 1`, not with `set_num - 1`.
  Under the preset, only sets 0 to 31 of the 128 are ever used.
  `linear_access`'s expected counts depend on this.
- The counters are `u32` and wrap. The report's access count is the epoch
  counter.

## Model

| member | source | states |
|---|---|---|
| Geometry.SetNum | src/thrashe.rs:18-20 | the number of sets, 2^set_num_bits: at least 1, and even once the exponent is positive |
| Geometry.LinesPerSet | src/thrashe.rs:22-24 | the number of lines per set, 2^lines_per_set_bits: at least 1, and even once the exponent is positive |
| Geometry.BlockSize | src/thrashe.rs:26-28 | the block size in bytes, 2^block_size_bits: at least 1, and even once the exponent is positive |
| Geometry.SizesAreShifts | src/thrashe.rs:18-28 | each derived size equals the source's `1 << bits` on a 64-bit word, with no bit lost for exponents below 64 |
| Geometry.Size | src/thrashe.rs:30-32 | when the three exponents add up to less than 64, the capacity is 2^(their sum) and the `u64` product does not overflow |
| Geometry.Split | src/thrashe.rs:34-39 | the set index is below the block size, whatever the set count |
| Geometry.SplitValue | src/thrashe.rs:35-37 | set index = (address / 2^block) mod 2^block and tag = address / 2^(block + sets), both truncated to 32 bits |
| Geometry.Preset | src/thrashe.rs:43-49 | the preset's exponents 5, 7 and 1 can be built and split without a shift overflow |
| Geometry.PresetSize | src/thrashe.rs:43-49 | the preset has 128 sets of 2 lines of 32 bytes, 8192 bytes in all |
| Geometry.IndexInBounds | src/thrashe.rs:139-140 | `sets[set_index]` is in bounds whenever the block exponent is at most the set exponent, as in the preset |
| Bits.AndMask | src/thrashe.rs:35 | and'ing with 2^n - 1 keeps the value modulo 2^n |
| Bits.AdvanceMod | src/thrashe.rs:173 | n wrapping increments of a u32 add n modulo 2^32 |
| CacheLine.Unpack | src/thrashe.rs:75-80 | the shifts and masks of `unpack` give tag = high 32 bits, access = bits 31-1, valid = bit 0; the access value is below 2^31 |
| CacheLine.Pack | src/thrashe.rs:103-110 | the shifts and ors of `pack_store` put the tag (with access bit 31 or'ed into bit 0) in the high word, access bits 30-0 in bits 31-1 and the flag in bit 0 |
| CacheLine.PackSteps | src/thrashe.rs:104-108 | each intermediate `encoding` value of `pack_store`, and that no step overflows 64 bits |
| CacheLine.RoundTrip | src/thrashe.rs:103-110 | unpacking a packed line gives it back whenever its access value is below 2^31 |
| CacheLine.PackOverflow | src/thrashe.rs:104-106 | for any line, unpack(pack(l)) keeps the access value modulo 2^31 and ors its bit 31 into tag bit 0 |
| CacheLine.DecodeEncode | src/thrashe.rs:54-55 | the arithmetic layout read back from an encoded line, with the same overflow into tag bit 0 |
| CacheLine.UnpackThenPack | src/thrashe.rs:75-80 | every 64-bit word is the packing of its unpacked fields, so pack and unpack are inverse on words |
| CacheLine.ClearAccess | src/thrashe.rs:92-93 | `val & !0xfffffffe` keeps exactly the tag and the valid bit |
| CacheLine.HitWord | src/thrashe.rs:92-93 | the word a hit stores is the old tag and flag with the even stamp in bits 31-1 |
| CacheLine.StampValue | src/thrashe.rs:91 | `old << 1` on a u32 is twice the old epoch modulo 2^31, and even |
| CacheLine.Restamped | src/thrashe.rs:93 | a word restamped with an even stamp has the same tag and flag and access = stamp / 2 |
| CacheLine.Refreshed | src/thrashe.rs:92-94 | the bit operations of the hit path compute the restamped word; `unpack` of it keeps tag and flag and reads stamp / 2 |
| CacheLine.ProbeLine | src/thrashe.rs:83-101 | a valid line with the tag matches, is restamped with the old epoch modulo 2^31 and bumps the counter; otherwise nothing changes and it reports the line's access value if valid, or none |
| Cache.FirstMatch | src/thrashe.rs:145-150 | the first way at or after `from` holding a valid line with the tag, or none when no such way exists |
| Cache.FirstEvictable | src/thrashe.rs:157-169 | the first way at or after `from` that is invalid or older than line 0, or none |
| Cache.Victim | src/thrashe.rs:142-169 | the line the scan picks: the first line that is invalid or has a smaller access value than line 0, or line 0 when there is none |
| Cache.TouchSet | src/thrashe.rs:138-180 | one touch of one set keeps its size, advances the epoch by one and is a hit exactly when some valid line holds the tag |
| Cache.InitialView | src/thrashe.rs:128-136 | `from_spec` gives set_num sets of lines_per_set invalid lines and zero counters |
| Cache.Touch | src/thrashe.rs:138-180 | `touch_address` on a snapshot keeps the number of sets and of lines per set; what it changes is stated by `TouchCounters`, `TouchHit` and `TouchMiss` |
| Cache.TouchCounters | src/thrashe.rs:149-179 | a touch adds one to the epoch and one to exactly one counter (hits on a hit, misses on a miss), wrapping, so hits + misses = accesses is preserved |
| Cache.TouchHit | src/thrashe.rs:145-150 | a hit changes only the first matching line, keeping tag and flag and stamping the old epoch modulo 2^31 |
| Cache.TouchMiss | src/thrashe.rs:157-178 | a miss changes only the victim line of the selected set, overwriting it with the installed word |
| Cache.Installed | src/thrashe.rs:173-178 | the word the miss path writes: tag, the old epoch shifted left once as the access value, and the valid flag, laid out as `pack_store` lays them out |
| Cache.InstalledIsPacked | src/thrashe.rs:173-178 | the installed word is exactly `pack_store` of `CacheLine { tag, access: old << 1, valid: true }` |
| Cache.InstalledFields | src/thrashe.rs:173-178 | the installed line reads back as the tag (with epoch bit 30 or'ed into bit 0), access = 2 * old epoch modulo 2^31 and valid |
| Cache.RetouchHits | src/thrashe.rs:138-180 | touching the same address twice in a row makes the second touch a hit while the epoch modulo 2^31 is below 2^30 (`RetouchAfterOthers` allows touches of other sets in between) |
| Cache.RunOtherSets | src/thrashe.rs:139-140 | touches whose addresses select other sets leave a set exactly as it was |
| Cache.RetouchAfterOthers | src/thrashe.rs:138-180 | after a touch of an address, any touches of other sets leave the next touch of that address a hit, under the same epoch bound |
| Cache.RunAppend | src/thrashe.rs:138-180 | running addresses and then one more is running the extended sequence |
| Cache.RunAdvance | src/thrashe.rs:173 | every touch of a run is one wrapping increment of the epoch |
| Cache.RunEpoch | src/thrashe.rs:173 | after any sequence of touches the epoch has advanced by the sequence's length modulo 2^32 |
| Cache.RunCountersAgree | src/thrashe.rs:149-179 | hits + misses = accesses (mod 2^32) is kept over any sequence of touches |
| Cache.InitialCountersAgree | src/thrashe.rs:182-192 | every report after touches from a fresh cache has access count = number of touches and = hits + misses (mod 2^32) |
| Cache.ReportOf | src/thrashe.rs:182-192 | a report of a snapshot with agreeing counters has access count = hits + misses, and carries the geometry |
| Cache.CacheState.FromSpec | src/thrashe.rs:128-136 | the new cache's array has the geometry's dimensions and holds the initial snapshot |
| Cache.CacheState.FetchUnpack | src/thrashe.rs:70-73 | reading a line returns its unpacked word |
| Cache.CacheState.TouchIfMatches | src/thrashe.rs:83-101 | the array and the epoch counter change as `ProbeLine` says, and only on a match |
| Cache.CacheState.PackStore | src/thrashe.rs:103-110 | exactly the one line is overwritten with the packed triple |
| Cache.CacheState.TouchAddress | src/thrashe.rs:138-180 | the in-place scan and store leave exactly the snapshot `Touch` gives |
| Cache.CacheState.MakeReport | src/thrashe.rs:182-192 | the report is the snapshot's counters and geometry |
| Provider.CacheProvider.constructor | src/provider.rs:72-76 | a provider starts with an empty slot |
| Provider.CacheProvider.Configure | src/provider.rs:11-18 | installs a fresh cache of the geometry and returns the replaced cache's report, or none |
| Provider.CacheProvider.GetReport | src/provider.rs:20-23 | the current cache's report, or none, changing nothing |
| Provider.CacheProvider.Finish | src/provider.rs:25-28 | empties the slot and returns the report of the cache it held, or none |
| Provider.CacheProvider.TouchIfConfigured | src/thrashe.rs:221-224 | with a cache configured, its snapshot advances by `Touch`; with none, nothing happens |
| Provider.TouchAll | src/thrashe.rs:232-235 | touching addresses one by one through a provider leaves the snapshot `Run` gives |
| Provider.Session | src/provider.rs:11-28 | configure, touches, get_report and finish yield none, the reference model's report whose access count is the number of touches and equals hits + misses, the same report, and none |
| Provider.Reconfigure | src/provider.rs:11-18 | configuring again returns the report of the touches made so far and restarts from zero counters with the new geometry |
| Provider.TouchIsolated | src/provider.rs:38-42 | a touch through one provider leaves every provider with disjoint objects reporting exactly as before |
| Provider.ConfigureIsolated | src/provider.rs:11-18 | configuring one provider returns its old report and leaves every disjoint provider reporting as before |
| Provider.FinishIsolated | src/provider.rs:25-28 | finishing one provider returns its old report and leaves every disjoint provider reporting as before |
| Provider.Independent | src/provider.rs:38-42 | for two freshly configured providers, a touch through one leaves the other's report at that of a fresh cache (the general case is stated by the three `Isolated` methods) |
| Instrumented.Thrashe | src/thrashe.rs:211-217 | `Thrashe::new`: the wrapper holds the given value, which `Deref` hands back |
| Instrumented.Deref | src/thrashe.rs:231-238 | `deref` returns the wrapped value and touches the wrapper's address exactly when a cache is configured |
| Instrumented.Prefetch | src/thrashe.rs:220-225 | `prefetch` performs the same touch and nothing else |
| Scenarios.EmptyMiss | src/thrashe.rs:173-178 | a touch of an empty 2-way set misses and fills line 0, while the epoch is below 2^30 |
| Scenarios.OneHit | src/thrashe.rs:146-150 | a touch of the tag held by the only used line of a 2-way set hits and keeps that line the only used one |
| Scenarios.OneMiss | src/thrashe.rs:157-162 | a touch of another tag misses and fills the free line 1 |
| Scenarios.TwoMiss | src/thrashe.rs:163-167 | a touch of a third tag misses and evicts the line with the smaller access value of a full set |
| Scenarios.PresetSplit | src/thrashe.rs:34-39 | under the preset, for addresses below 2^44, set index = (address / 32) mod 32 and tag = address / 4096 |
| Scenarios.LinearAddress | src/thrashe.rs:301-303 | the k-th address of `linear_access` lands in set (3 + (k + 1) / 4) mod 32 with tag 1 |
| Scenarios.ThrashAddress | src/thrashe.rs:276-279 | the three addresses of round i of `trashing` land in set 3 + (i + 1) / 4 with tags 1, 2, 3 |
| Scenarios.FilledStep | src/thrashe.rs:301-304 | one more linear touch fills exactly its set and misses exactly when that set was empty |
| Scenarios.LinearStep | src/thrashe.rs:301-304 | one linear touch keeps the characterisation of the cache after k touches |
| Scenarios.LinearTouches | src/thrashe.rs:301-304 | the loop of `linear_access` ends with 128 touches, 32 filled sets, 96 hits and 32 misses |
| Scenarios.LinearAccess | src/thrashe.rs:294-311 | `linear_access`: access count 128, hits 96, misses 32, size 8192 |
| Scenarios.ThrashA | src/thrashe.rs:281 | the first touch of a round misses and leaves the set holding the new tag |
| Scenarios.ThrashB | src/thrashe.rs:282 | the second touch of a round misses |
| Scenarios.ThrashC | src/thrashe.rs:283 | the third touch of a round misses and leaves the set holding the last two tags |
| Scenarios.ThrashRound | src/thrashe.rs:277-283 | one round of three touches keeps the between-rounds characterisation |
| Scenarios.ThrashRounds | src/thrashe.rs:276-284 | twelve rounds give 36 touches, all misses |
| Scenarios.Thrashing | src/thrashe.rs:266-291 | `trashing`: access count 36, hits 0, misses 36, size 8192 |
| Scenarios.PresetCache | src/thrashe.rs:267-268 | a fresh preset cache satisfies both scenarios' starting characterisation |
| Scenarios.PackUnpack | src/thrashe.rs:314-325 | `pack_unpack`: the stored triple reads back unchanged |
| Scenarios.Basic | src/thrashe.rs:252-263 | `basic`: two dereferences of one wrapper through the configured global provider give one miss and one hit, wherever the wrapper lives |

## Left out

- Concurrency: the `RwLock` around each provider slot and the relaxed atomics for lines and counters are modelled as plain state touched by one caller at a time. Interleaved touches and their approximate statistics are not modelled.
- The wrapper's address, `self as *const Self as usize as u64`, is an input of `Deref`, `Prefetch` and `Basic`, because the model has no pointers.
- `PhantomData`, the `_SAME_SIZE` size assertion and the `Send`/`Sync` marker traits concern memory layout and thread safety, which the model does not have.
- The `new_provider!` and `new_type!` macros, which declare further provider types and type aliases: each provider is modelled as its own `CacheProvider` object, and `GlobalCache` is the one `Basic` creates. The object's slot stands for the `static` behind `get_cache`, which is not a separate member; the commented-out duplicate of `GlobalCache` is not modelled.
- `CacheLineCompact::new` and its `Clone`: `from_spec` fills a fresh array with the zero word. `pack_unpack` uses the single line of a one-set, one-way cache built that way.
- `Debug` and `Clone` derives, `println!` and `unwrap` on a poisoned lock are not modelled.
- Panics are preconditions, with `usize` taken as 64 bits. A shift of 64 or more (`Buildable`, `Splittable`) and an overflowing `size` product panic in debug builds, where overflow checks are on; release builds mask the shift amount and wrap the product, which the model does not follow. These and an out-of-bounds `sets[set_index]` (`Touchable`), which panics in every build, are excluded by `requires`.
- Geometry.Split: the formula for the index and tag is stated by `SplitValue` rather than by `Split`'s own contract.
- Cache.RetouchHits: states the hit-after-hit property only while the epoch modulo 2^31 is below 2^30, because past that point the miss path can alter tag bit 0 and the property fails.
