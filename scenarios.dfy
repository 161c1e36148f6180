/** The unit tests of src/thrashe.rs, as methods whose postconditions are the
    tests' assertions, together with the characterisation of the cache
    contents that proves them. All of them use the 8 KiB, 32-byte-block, 2-way
    preset. */
module Scenarios {
  import opened Bits
  import opened Wrappers
  import opened Geometry
  import opened CacheLine
  import opened Cache
  import opened Provider
  import opened Instrumented

  // ---- the contents of one 2-way set ----

  /** Both lines of the set are as `from_spec` left them. */
  predicate Empty(s: seq<U64>) {
    |s| == 2 && s[0] == 0 && s[1] == 0
  }

  /** Only line 0 is in use, holding tag `x`, stamped before epoch `e`. */
  predicate One(s: seq<U64>, x: U32, e: nat) {
    |s| == 2 && s[1] == 0
    && Decode(s[0]).valid && Decode(s[0]).tag == x && Decode(s[0]).access < 2 * e
  }

  /** Both lines are in use: one holds the newer tag `n`, the other the older
      tag `o` with the smaller access value, both stamped before epoch `e`. */
  predicate Two(s: seq<U64>, n: U32, o: U32, e: nat) {
    |s| == 2 && Decode(s[0]).valid && Decode(s[1]).valid
    && ((Decode(s[0]).tag == n && Decode(s[1]).tag == o
         && Decode(s[1]).access < Decode(s[0]).access < 2 * e)
        || (Decode(s[1]).tag == n && Decode(s[0]).tag == o
            && Decode(s[0]).access < Decode(s[1]).access < 2 * e))
  }

  /** A touch of an empty set misses and fills line 0. */
  lemma {:induction false} EmptyMiss(s: seq<U64>, x: U32, e: U32)
    requires Empty(s) && e < 0x4000_0000
    ensures var r := TouchSet(s, x, e); !r.hit && r.epoch == e + 1 && One(r.lines, x, e + 1)
  {
    assert !Decode(s[0]).valid && !Decode(s[1]).valid;
    assert FirstMatch(s, x, 0) == None;
    assert Evictable(s, 0);
    assert Victim(s) == 0;
    InstalledFields(x, e);
    var r := TouchSet(s, x, e);
    assert r.lines == s[0 := Installed(x, e)];
    assert Decode(r.lines[0]) == Line(x, 2 * e, true);
  }

  /** A touch of the tag held by a one-line set hits and keeps that shape. */
  lemma {:induction false} OneHit(s: seq<U64>, x: U32, e: U32)
    requires One(s, x, e) && e < 0x4000_0000
    ensures var r := TouchSet(s, x, e); r.hit && r.epoch == e + 1 && One(r.lines, x, e + 1)
  {
    assert Matches(s[0], x);
    assert FirstMatch(s, x, 0) == Some(0);
    var step := ProbeLine(s[0], x, e);
    var r := TouchSet(s, x, e);
    assert r.lines == s[0 := step.word];
    DivModUnique(e, ACCESS_LIMIT, 0, e);
    assert Decode(step.word) == Line(x, e, true);
  }

  /** A touch of another tag fills line 1, which becomes the newer line. */
  lemma {:induction false} OneMiss(s: seq<U64>, x: U32, y: U32, e: U32)
    requires One(s, x, e) && y != x && e < 0x4000_0000
    ensures var r := TouchSet(s, y, e); !r.hit && r.epoch == e + 1 && Two(r.lines, y, x, e + 1)
  {
    assert !Decode(s[1]).valid;
    assert !Matches(s[0], y) && !Matches(s[1], y);
    assert FirstMatch(s, y, 0) == None;
    assert !Evictable(s, 0) && Evictable(s, 1);
    assert Victim(s) == 1;
    InstalledFields(y, e);
    var r := TouchSet(s, y, e);
    assert r.lines == s[1 := Installed(y, e)];
    assert Decode(r.lines[1]) == Line(y, 2 * e, true);
  }

  /** A touch of a third tag evicts the older line, which becomes the newer. */
  lemma {:induction false} TwoMiss(s: seq<U64>, n: U32, o: U32, z: U32, e: U32)
    requires Two(s, n, o, e) && z != n && z != o && e < 0x4000_0000
    ensures var r := TouchSet(s, z, e); !r.hit && r.epoch == e + 1 && Two(r.lines, z, n, e + 1)
  {
    assert !Matches(s[0], z) && !Matches(s[1], z);
    assert FirstMatch(s, z, 0) == None;
    assert !Evictable(s, 0);
    InstalledFields(z, e);
    var r := TouchSet(s, z, e);
    if Decode(s[1]).access < Decode(s[0]).access {
      assert Evictable(s, 1);
      assert Victim(s) == 1;
      assert r.lines == s[1 := Installed(z, e)];
      assert Decode(r.lines[1]) == Line(z, 2 * e, true);
    } else {
      assert !Evictable(s, 1);
      assert Victim(s) == 0;
      assert r.lines == s[0 := Installed(z, e)];
      assert Decode(r.lines[0]) == Line(z, 2 * e, true);
    }
  }

  // ---- addresses under the preset ----

  /** Under the preset the set index is bits 9-5 of the address (masked with
      the block size, so only 32 of the 128 sets are reachable) and the tag
      is the address shifted right by 12. */
  lemma {:induction false} PresetSplit(address: U64)
    requires address < 0x1000_0000_0000
    ensures Split(Preset(), address) == ((address / 32) % 32, address / 4096)
  {
    Pow2Small();
    SplitValue(Preset(), address);
    var setIndex, tag := (address / 32) % 32, address / 4096;
    DivModUnique(setIndex, 0x1_0000_0000, 0, setIndex);
    DivModUnique(tag, 0x1_0000_0000, 0, tag);
  }

  /** The `k`-th address of `linear_access`: set `(3 + (k + 1) / 4) % 32`, tag 1. */
  lemma {:induction false} LinearAddress(k: nat)
    requires k < 128
    ensures Split(Preset(), 4200 + 8 * k) == ((3 + (k + 1) / 4) % 32, 1)
  {
    var address := 4200 + 8 * k;
    PresetSplit(address);
    DivModUnique(address, 32, 131 + (k + 1) / 4, 8 * ((k + 1) % 4));
    DivModUnique(131 + (k + 1) / 4, 32, 4 + ((k + 1) / 4 + 3) / 32, (3 + (k + 1) / 4) % 32);
    DivModUnique(address, 4096, 1, 104 + 8 * k);
  }

  /** The addresses of round `i` of `trashing`, `j` = 0, 1, 2 for the three
      arrays 4096 bytes apart: all in set `3 + (i + 1) / 4`, tag `j + 1`. */
  lemma {:induction false} ThrashAddress(i: nat, j: nat)
    requires i < 12 && j < 3
    ensures Split(Preset(), 4200 + 4096 * j + 8 * i) == (3 + (i + 1) / 4, j + 1)
  {
    var address := 4200 + 4096 * j + 8 * i;
    PresetSplit(address);
    DivModUnique(address, 32, 131 + 128 * j + (i + 1) / 4, 8 * ((i + 1) % 4));
    DivModUnique(131 + 128 * j + (i + 1) / 4, 32, 4 + 4 * j, 3 + (i + 1) / 4);
    DivModUnique(address, 4096, 1 + j, 104 + 8 * i);
  }

  // ---- linear_access ----

  /** After `k` touches, set `s` has been filled by one of them. */
  predicate Filled(s: nat, k: nat) {
    k >= 1 && s < 32 && (s - 3) % 32 <= k / 4
  }

  /** Misses after `k` touches: one per new block, at most one per reachable set. */
  function LinearMisses(k: nat): nat {
    if k == 0 then 0 else if k / 4 + 1 < 32 then k / 4 + 1 else 32
  }

  /** Set `s` after `k` touches of `linear_access`. */
  predicate LinearSet(v: CacheView, k: nat, s: nat)
    requires s < |v.sets|
  {
    if Filled(s, k) then One(v.sets[s], 1, k) else Empty(v.sets[s])
  }

  /** The cache after `k` touches of `linear_access`. */
  predicate LinearView(v: CacheView, k: nat) {
    |v.sets| == 128 && v.epoch == k && v.misses == LinearMisses(k) && v.hits == k - LinearMisses(k)
    && forall s :: 0 <= s < 128 ==> LinearSet(v, k, s)
  }

  /** Which sets are filled after one more touch, and whether that touch hits. */
  lemma {:induction false} FilledStep(k: nat)
    requires k < 128
    ensures var idx := (3 + (k + 1) / 4) % 32;
      (forall s :: 0 <= s < 128 ==> (Filled(s, k + 1) <==> Filled(s, k) || s == idx))
      && (Filled(idx, k) ==> LinearMisses(k + 1) == LinearMisses(k))
      && (!Filled(idx, k) ==> LinearMisses(k + 1) == LinearMisses(k) + 1)
      && LinearMisses(k + 1) <= k + 1
  {
    var q := (k + 1) / 4;
    assert q == k / 4 || (q == k / 4 + 1 && k % 4 == 3);
    var idx := (3 + q) % 32;
    assert idx == if q < 29 then 3 + q else q - 29;
    forall s | 0 <= s < 128
      ensures Filled(s, k + 1) <==> Filled(s, k) || s == idx
    {
      if s < 32 {
        assert (s - 3) % 32 == if s >= 3 then s - 3 else s + 29;
      }
    }
  }

  lemma {:induction false} LinearStart(v: CacheView)
    requires v == InitialView(Preset())
    ensures LinearView(v, 0)
  {
    PresetSize();
    forall j | 0 <= j < 128
      ensures LinearSet(v, 0, j)
    {
      assert v.sets[j] == seq(2, _ => 0);
    }
  }

  /** One touch of `linear_access` keeps the characterisation. */
  lemma {:induction false} LinearStep(v: CacheView, w: CacheView, k: nat)
    requires LinearView(v, k) && k < 128
    requires Shaped(Preset(), v) && Touchable(Preset(), 4200 + 8 * k)
    requires w == Touch(Preset(), v, 4200 + 8 * k)
    ensures LinearView(w, k + 1)
  {
    PresetSize();
    LinearAddress(k);
    FilledStep(k);
    var idx := (3 + (k + 1) / 4) % 32;
    var s := v.sets[idx];
    assert LinearSet(v, k, idx);
    if Filled(idx, k) {
      OneHit(s, 1, k);
    } else {
      EmptyMiss(s, 1, k);
    }
    var next := k + 1;
    forall j | 0 <= j < 128
      ensures LinearSet(w, next, j)
    {
      assert LinearSet(v, k, j);
    }
  }

  /** Every address is touchable under the preset, whose block-size mask
      keeps the set index below 32. */
  lemma {:induction false} PresetTouchable()
    ensures forall address: U64 :: Touchable(Preset(), address)
  {
    forall address: U64
      ensures Touchable(Preset(), address)
    {
      IndexInBounds(Preset(), address);
    }
  }

  /** The loop of `linear_access`: touch 4200 + 8 * i for i from 0 to 127. */
  method LinearTouches(cache: CacheState)
    requires cache.Valid() && cache.spec == Preset() && LinearView(cache.View(), 0)
    modifies cache, cache.lines
    ensures cache.Valid() && LinearView(cache.View(), 128)
  {
    var elementSize := 8;
    var aBase := 4200;
    PresetTouchable();
    var i := 0;
    while i < 128
      invariant 0 <= i <= 128
      invariant cache.Valid() && cache.spec == Preset() && LinearView(cache.View(), i)
    {
      ghost var before := cache.View();
      assert aBase + elementSize * i == 4200 + 8 * i;
      cache.TouchAddress(aBase + elementSize * i);
      LinearStep(before, cache.View(), i);
      i := i + 1;
    }
  }

  /** `linear_access`: 128 touches 8 bytes apart from 4200 give 96 hits and
      32 misses. */
  method LinearAccess() returns (report: Report)
    ensures report == Report(128, 96, 32, Preset())
    ensures Size(report.spec) == 8192
  {
    var cache := PresetCache();
    LinearTouches(cache);
    report := cache.MakeReport();
    PresetSize();
  }

  // ---- trashing ----

  /** The set every address of round `i` lands in. */
  function ThrashSet(i: nat): nat {
    3 + (i + 1) / 4
  }

  /** Set `s` was used by one of the first `i` rounds. */
  predicate Touched(s: nat, i: nat) {
    i >= 1 && 3 <= s <= 3 + i / 4
  }

  /** A set between rounds: empty, or holding the last two arrays' tags. */
  predicate Settled(v: CacheView, i: nat, s: nat)
    requires s < |v.sets|
  {
    if Touched(s, i) then Two(v.sets[s], 3, 2, v.epoch) else Empty(v.sets[s])
  }

  /** The cache after `p` of the three touches of round `i` of `trashing`. */
  predicate ThrashView(v: CacheView, i: nat, p: nat) {
    |v.sets| == 128 && i <= 12 && p < 3
    && v.epoch == 3 * i + p && v.hits == 0 && v.misses == 3 * i + p
    && (forall s :: 0 <= s < 128 && s != ThrashSet(i) ==> Settled(v, i, s))
    && (p == 0 ==> Settled(v, i, ThrashSet(i)))
    && (p == 1 ==> One(v.sets[ThrashSet(i)], 1, v.epoch) || Two(v.sets[ThrashSet(i)], 1, 3, v.epoch))
    && (p == 2 ==> Two(v.sets[ThrashSet(i)], 2, 1, v.epoch))
  }

  lemma {:induction false} ThrashStart(v: CacheView)
    requires v == InitialView(Preset())
    ensures ThrashView(v, 0, 0)
  {
    PresetSize();
    forall j | 0 <= j < 128
      ensures Settled(v, 0, j)
    {
      assert v.sets[j] == seq(2, _ => 0);
    }
  }

  /** The first touch of a round (array a, tag 1) misses. */
  lemma {:induction false} ThrashA(v: CacheView, w: CacheView, i: nat)
    requires ThrashView(v, i, 0) && i < 12
    requires Shaped(Preset(), v) && Touchable(Preset(), 4200 + 8 * i)
    requires w == Touch(Preset(), v, 4200 + 8 * i)
    ensures ThrashView(w, i, 1)
  {
    PresetSize();
    ThrashAddress(i, 0);
    var t := ThrashSet(i);
    var s := v.sets[t];
    assert Settled(v, i, t);
    var r := TouchSet(s, 1, v.epoch);
    if Touched(t, i) {
      TwoMiss(s, 3, 2, 1, v.epoch);
    } else {
      EmptyMiss(s, 1, v.epoch);
    }
    assert w.sets == v.sets[t := r.lines] && w.epoch == v.epoch + 1;
    forall j | 0 <= j < 128 && j != t
      ensures Settled(w, i, j)
    {
      assert Settled(v, i, j);
    }
  }

  /** The second touch of a round (array b, tag 2) misses. */
  lemma {:induction false} ThrashB(v: CacheView, w: CacheView, i: nat)
    requires ThrashView(v, i, 1) && i < 12
    requires Shaped(Preset(), v) && Touchable(Preset(), 4200 + 4096 + 8 * i)
    requires w == Touch(Preset(), v, 4200 + 4096 + 8 * i)
    ensures ThrashView(w, i, 2)
  {
    PresetSize();
    ThrashAddress(i, 1);
    var t := ThrashSet(i);
    var s := v.sets[t];
    var r := TouchSet(s, 2, v.epoch);
    if One(s, 1, v.epoch) {
      OneMiss(s, 1, 2, v.epoch);
    } else {
      TwoMiss(s, 1, 3, 2, v.epoch);
    }
    assert w.sets == v.sets[t := r.lines] && w.epoch == v.epoch + 1;
    forall j | 0 <= j < 128 && j != t
      ensures Settled(w, i, j)
    {
      assert Settled(v, i, j);
    }
  }

  /** The third touch of a round (array c, tag 3) misses and settles the set. */
  lemma {:induction false} ThrashC(v: CacheView, w: CacheView, i: nat)
    requires ThrashView(v, i, 2) && i < 12
    requires Shaped(Preset(), v) && Touchable(Preset(), 4200 + 8192 + 8 * i)
    requires w == Touch(Preset(), v, 4200 + 8192 + 8 * i)
    ensures ThrashView(w, i + 1, 0)
  {
    PresetSize();
    ThrashAddress(i, 2);
    var t := ThrashSet(i);
    var s := v.sets[t];
    var r := TouchSet(s, 3, v.epoch);
    TwoMiss(s, 2, 1, 3, v.epoch);
    assert w.sets == v.sets[t := r.lines] && w.epoch == v.epoch + 1;
    var next := i + 1;
    forall j | 0 <= j < 128
      ensures Settled(w, next, j)
    {
      if j != t {
        assert Settled(v, i, j);
        assert Touched(j, next) == Touched(j, i);
      }
    }
  }

  /** The loop of `trashing`: twelve rounds over three arrays of 512
      eight-byte elements laid out 4096 bytes apart from 4200. */
  method ThrashRounds(cache: CacheState)
    requires cache.Valid() && cache.spec == Preset() && ThrashView(cache.View(), 0, 0)
    modifies cache, cache.lines
    ensures cache.Valid() && ThrashView(cache.View(), 12, 0)
  {
    var arraySize := 512;
    var elementSize := 8;
    var aBase := 4200;
    var bBase := aBase + arraySize * elementSize;
    var cBase := bBase + arraySize * elementSize;
    var i := 0;
    while i < 12
      invariant 0 <= i <= 12
      invariant cache.Valid() && cache.spec == Preset() && ThrashView(cache.View(), i, 0)
    {
      assert aBase + elementSize * i == 4200 + 8 * i;
      assert bBase + elementSize * i == 4200 + 4096 + 8 * i;
      assert cBase + elementSize * i == 4200 + 8192 + 8 * i;
      ThrashRound(cache, aBase + elementSize * i, bBase + elementSize * i, cBase + elementSize * i, i);
      i := i + 1;
    }
  }

  /** Round `i`: touch element `i` of each of the three arrays, in order. */
  method ThrashRound(cache: CacheState, a: U64, b: U64, c: U64, i: nat)
    requires cache.Valid() && cache.spec == Preset() && ThrashView(cache.View(), i, 0) && i < 12
    requires a == 4200 + 8 * i && b == 4200 + 4096 + 8 * i && c == 4200 + 8192 + 8 * i
    modifies cache, cache.lines
    ensures cache.Valid() && ThrashView(cache.View(), i + 1, 0)
  {
    PresetTouchable();
    ghost var v0 := cache.View();
    cache.TouchAddress(a);
    ThrashA(v0, cache.View(), i);
    ghost var v1 := cache.View();
    cache.TouchAddress(b);
    ThrashB(v1, cache.View(), i);
    ghost var v2 := cache.View();
    cache.TouchAddress(c);
    ThrashC(v2, cache.View(), i);
  }

  /** `trashing`: three arrays 4096 bytes apart compete for the same sets of a
      2-way cache, so all 36 touches miss. */
  method Thrashing() returns (report: Report)
    ensures report == Report(36, 0, 36, Preset())
    ensures Size(report.spec) == 8192
  {
    var cache := PresetCache();
    ThrashRounds(cache);
    report := cache.MakeReport();
    PresetSize();
  }

  /** `CacheState::from_spec(CacheSpec::spec_8kib_32bit_2way())`, as the
      tests build it: every set empty, so both scenarios start from it. */
  method PresetCache() returns (cache: CacheState)
    ensures fresh(cache) && fresh(cache.lines)
    ensures cache.Valid() && cache.spec == Preset()
    ensures LinearView(cache.View(), 0) && ThrashView(cache.View(), 0, 0)
  {
    cache := new CacheState.FromSpec(Preset());
    LinearStart(cache.View());
    ThrashStart(cache.View());
  }

  // ---- pack_unpack and basic ----

  /** `pack_unpack`: a triple stored into a fresh line reads back unchanged.
      The single line is that of a one-set, one-way cache. */
  method PackUnpack() returns (returned: Line)
    ensures returned == Line(0xABCDEFAB, 0x0123456, true)
  {
    var cache := new CacheState.FromSpec(CacheSpec(0, 0, 0));
    assert SetNum(CacheSpec(0, 0, 0)) == 1 && LinesPerSet(CacheSpec(0, 0, 0)) == 1;
    var val := Line(0xABCDEFAB, 0x0123456, true);
    cache.PackStore(0, 0, val);
    returned := cache.FetchUnpack(0, 0);
    RoundTrip(val);
  }

  /** `basic`: with the global provider configured, dereferencing the same
      wrapper twice is one miss and then one hit, wherever it lives. */
  method Basic(address: U64) returns (report: Option<Report>)
    ensures report == Some(Report(2, 1, 1, Preset()))
  {
    var global := new CacheProvider();
    var _ := global.Configure(Preset());
    var foo := Thrashe(42);
    var spec := Preset();
    IndexInBounds(spec, address);
    ghost var v0 := global.slot.value.View();
    TouchCounters(spec, v0, address);
    RetouchHits(spec, v0, address);
    var _ := Deref(global, foo, address);
    ghost var v1 := global.slot.value.View();
    TouchCounters(spec, v1, address);
    var _ := Deref(global, foo, address);
    report := global.Finish();
  }
}
