/** The simulated set-associative cache (`CacheState` and `ThrasheReport` in
    src/thrashe.rs).

    The first half is a value-level reference model: a snapshot of all lines
    and counters and the function `Touch` that says what one `touch_address`
    does to it. The second half is the class that the source mutates in
    place, whose methods are proved against that model. */
module Cache {
  import opened Bits
  import opened Wrappers
  import opened Geometry
  import opened CacheLine

  /** `ThrasheReport`. */
  datatype Report = Report(accessCount: U32, hits: U32, misses: U32, spec: CacheSpec)

  /** The contents of a `CacheState`: every set's packed lines and the three counters. */
  datatype CacheView = CacheView(sets: seq<seq<U64>>, epoch: U32, hits: U32, misses: U32)

  /** One set after a touch, the epoch counter after it, and whether it was a hit. */
  datatype SetStep = SetStep(lines: seq<U64>, epoch: U32, hit: bool)

  /** `touch_if_matches` succeeds on this word. */
  predicate Matches(word: U64, tag: U32) {
    Decode(word).valid && Decode(word).tag == tag
  }

  /** The first way at or after `from` whose line matches the tag. */
  function FirstMatch(s: seq<U64>, tag: U32, from: nat): (r: Option<nat>)
    requires from <= |s|
    ensures r.Some? ==> from <= r.value < |s| && Matches(s[r.value], tag)
    ensures r.Some? ==> forall w :: from <= w < r.value ==> !Matches(s[w], tag)
    ensures r.None? ==> forall w :: from <= w < |s| ==> !Matches(s[w], tag)
    decreases |s| - from
  {
    if from == |s| then None
    else if Matches(s[from], tag) then Some(from)
    else FirstMatch(s, tag, from + 1)
  }

  /** The scan in `touch_address` takes a line as victim when it is invalid or
      older than the first line of the set. */
  predicate Evictable(s: seq<U64>, w: nat)
    requires w < |s|
  {
    !Decode(s[w]).valid || Decode(s[w]).access < Decode(s[0]).access
  }

  /** The first way at or after `from` that is evictable. */
  function FirstEvictable(s: seq<U64>, from: nat): (r: Option<nat>)
    requires from <= |s|
    ensures r.Some? ==> from <= r.value < |s| && Evictable(s, r.value)
    ensures r.Some? ==> forall w :: from <= w < r.value ==> !Evictable(s, w)
    ensures r.None? ==> forall w :: from <= w < |s| ==> !Evictable(s, w)
    decreases |s| - from
  {
    if from == |s| then None
    else if Evictable(s, from) then Some(from)
    else FirstEvictable(s, from + 1)
  }

  /** The line a miss overwrites: the first evictable line, or the first line
      of the set when none is. */
  function Victim(s: seq<U64>): (v: nat)
    requires |s| > 0
    ensures v < |s|
    ensures (exists w :: 0 <= w < |s| && Evictable(s, w)) ==>
              Evictable(s, v) && forall w :: 0 <= w < v ==> !Evictable(s, w)
    ensures (forall w :: 0 <= w < |s| ==> !Evictable(s, w)) ==> v == 0
  {
    match FirstEvictable(s, 0)
    case Some(w) => w
    case None => 0
  }

  /** The word a miss installs: the tag, the pre-increment epoch shifted left
      once as the access value, and the valid flag. */
  function Installed(tag: U32, epoch: U32): U64 {
    Encode(Line(tag, Shl32(epoch, 1), true))
  }

  /** The installed word is exactly what `pack_store` writes for the line
      `CacheLine { tag, access: old << 1, valid: true }`. */
  lemma {:induction false} InstalledIsPacked(tag: U32, epoch: U32)
    ensures Installed(tag, epoch) == Pack(Line(tag, Shl32(epoch, 1), true))
  {
  }

  /** One touch of one set: refresh the first matching line, or else overwrite
      the victim. The epoch counter advances by one either way. */
  function TouchSet(s: seq<U64>, tag: U32, epoch: U32): (r: SetStep)
    requires |s| > 0
    ensures |r.lines| == |s| && r.epoch == WrappingInc(epoch)
    ensures r.hit <==> exists w :: 0 <= w < |s| && Matches(s[w], tag)
  {
    match FirstMatch(s, tag, 0)
    case Some(w) =>
      var step := ProbeLine(s[w], tag, epoch);
      SetStep(s[w := step.word], step.epoch, true)
    case None =>
      SetStep(s[Victim(s) := Installed(tag, epoch)], WrappingInc(epoch), false)
  }

  /** A snapshot has the shape `from_spec` gives it. */
  predicate Shaped(spec: CacheSpec, v: CacheView) {
    Buildable(spec) && |v.sets| == SetNum(spec)
    && forall i :: 0 <= i < |v.sets| ==> |v.sets[i]| == LinesPerSet(spec)
  }

  /** `touch_address` can run: the shifts are defined and `sets[set_index]` is in bounds. */
  predicate Touchable(spec: CacheSpec, address: U64) {
    Buildable(spec) && Splittable(spec) && Split(spec, address).0 < SetNum(spec)
  }

  /** Every address of a sequence is touchable. */
  predicate AllTouchable(spec: CacheSpec, addresses: seq<U64>) {
    forall i :: 0 <= i < |addresses| ==> Touchable(spec, addresses[i])
  }

  /** What `from_spec` builds: every line zero (invalid, tag 0, access 0), every counter zero. */
  function InitialView(spec: CacheSpec): (v: CacheView)
    requires Buildable(spec)
    ensures Shaped(spec, v)
    ensures v.epoch == 0 && v.hits == 0 && v.misses == 0
    ensures forall i, j :: 0 <= i < |v.sets| && 0 <= j < |v.sets[i]| ==> !Decode(v.sets[i][j]).valid
  {
    CacheView(seq(SetNum(spec), _ => seq(LinesPerSet(spec), _ => 0)), 0, 0, 0)
  }

  /** `touch_address` on a snapshot. */
  function Touch(spec: CacheSpec, v: CacheView, address: U64): (r: CacheView)
    requires Shaped(spec, v) && Touchable(spec, address)
    ensures Shaped(spec, r)
  {
    var (setIndex, tag) := Split(spec, address);
    var step := TouchSet(v.sets[setIndex], tag, v.epoch);
    CacheView(v.sets[setIndex := step.lines], step.epoch,
              if step.hit then WrappingInc(v.hits) else v.hits,
              if step.hit then v.misses else WrappingInc(v.misses))
  }

  /** The touch would be a hit: the selected set holds a valid line with the tag. */
  predicate IsHit(spec: CacheSpec, v: CacheView, address: U64)
    requires Shaped(spec, v) && Touchable(spec, address)
  {
    var (setIndex, tag) := Split(spec, address);
    exists w :: 0 <= w < |v.sets[setIndex]| && Matches(v.sets[setIndex][w], tag)
  }

  /** Access count and hit and miss counters agree: every touch counted once. */
  predicate CountersAgree(v: CacheView) {
    WrappingAdd(v.hits, v.misses) == v.epoch
  }

  /** `make_report` on a snapshot. */
  function ReportOf(spec: CacheSpec, v: CacheView): (r: Report)
    ensures CountersAgree(v) ==> WrappingAdd(r.hits, r.misses) == r.accessCount
    ensures r.spec == spec
  {
    Report(v.epoch, v.hits, v.misses, spec)
  }

  /** Touches in order. */
  function Run(spec: CacheSpec, v: CacheView, addresses: seq<U64>): (r: CacheView)
    requires Shaped(spec, v) && AllTouchable(spec, addresses)
    ensures Shaped(spec, r)
    decreases |addresses|
  {
    if addresses == [] then v
    else Run(spec, Touch(spec, v, addresses[0]), addresses[1..])
  }

  /** Every touch advances the epoch by one and exactly one of the hit and miss
      counters by one (all wrapping at 2^32), the hit counter exactly when it is
      a hit; a snapshot whose counters agree keeps them in agreement. */
  lemma {:induction false} TouchCounters(spec: CacheSpec, v: CacheView, address: U64)
    requires Shaped(spec, v) && Touchable(spec, address)
    ensures var r := Touch(spec, v, address);
      r.epoch == WrappingInc(v.epoch)
      && (IsHit(spec, v, address) ==> r.hits == WrappingInc(v.hits) && r.misses == v.misses)
      && (!IsHit(spec, v, address) ==> r.hits == v.hits && r.misses == WrappingInc(v.misses))
      && (CountersAgree(v) ==> CountersAgree(r))
  {
    WrappingAddInc(v.hits, v.misses);
  }

  /** A hit refreshes exactly the first matching line of the selected set: its
      tag and valid flag stay, its access value becomes the old epoch modulo
      2^31. No other line of any set changes. */
  lemma {:induction false} TouchHit(spec: CacheSpec, v: CacheView, address: U64)
    requires Shaped(spec, v) && Touchable(spec, address) && IsHit(spec, v, address)
    ensures var (setIndex, tag) := Split(spec, address);
      var s := v.sets[setIndex];
      var r := Touch(spec, v, address);
      exists w :: 0 <= w < |s| && Matches(s[w], tag) && (forall u :: 0 <= u < w ==> !Matches(s[u], tag))
        && r.sets == v.sets[setIndex := s[w := r.sets[setIndex][w]]]
        && Decode(r.sets[setIndex][w]) == Line(tag, v.epoch % ACCESS_LIMIT, true)
  {
    var (setIndex, tag) := Split(spec, address);
    var s := v.sets[setIndex];
    var w := FirstMatch(s, tag, 0).value;
    assert Matches(s[w], tag);
  }

  /** A miss overwrites exactly the victim of the selected set, the first line
      that is invalid or older than line 0 (line 0 when there is none), with the
      tag, the pre-increment epoch shifted left once, and the valid flag. No
      other line of any set changes. */
  lemma {:induction false} TouchMiss(spec: CacheSpec, v: CacheView, address: U64)
    requires Shaped(spec, v) && Touchable(spec, address) && !IsHit(spec, v, address)
    ensures var (setIndex, tag) := Split(spec, address);
      var s := v.sets[setIndex];
      var r := Touch(spec, v, address);
      exists w :: 0 <= w < |s|
        && ((Evictable(s, w) && forall u :: 0 <= u < w ==> !Evictable(s, u))
            || (w == 0 && forall u :: 0 <= u < |s| ==> !Evictable(s, u)))
        && r.sets == v.sets[setIndex := s[w := Installed(tag, v.epoch)]]
  {
    var (setIndex, tag) := Split(spec, address);
    var s := v.sets[setIndex];
    var w := Victim(s);
    if exists u :: 0 <= u < |s| && Evictable(s, u) {
      assert Evictable(s, w) && forall u :: 0 <= u < w ==> !Evictable(s, u);
    }
  }

  /** The line a miss installs, as `unpack` reads it back: the access value is
      twice the old epoch modulo 2^31, and bit 30 of the epoch is or'ed into
      tag bit 0. */
  lemma {:induction false} InstalledFields(tag: U32, epoch: U32)
    ensures Decode(Installed(tag, epoch))
            == Line(Or(tag, Shl32(epoch, 1) / ACCESS_LIMIT), Shl32(epoch, 1) % ACCESS_LIMIT, true)
    ensures epoch % ACCESS_LIMIT < 0x4000_0000 ==>
              Decode(Installed(tag, epoch)) == Line(tag, 2 * (epoch % ACCESS_LIMIT), true)
    ensures epoch < 0x4000_0000 ==> Decode(Installed(tag, epoch)) == Line(tag, 2 * epoch, true)
  {
    DecodeEncode(Line(tag, Shl32(epoch, 1), true));
    StampValue(epoch);
    assert Or(tag, 0) == tag;
    if epoch < 0x4000_0000 {
      DivModUnique(epoch, ACCESS_LIMIT, 0, epoch);
    }
  }

  /** Touching the same address twice in a row: the second touch is a hit, as
      long as the epoch before the first touch modulo 2^31 is below 2^30. */
  lemma {:induction false} RetouchHits(spec: CacheSpec, v: CacheView, address: U64)
    requires Shaped(spec, v) && Touchable(spec, address)
    requires v.epoch % ACCESS_LIMIT < 0x4000_0000
    ensures IsHit(spec, Touch(spec, v, address), address)
  {
    var (setIndex, tag) := Split(spec, address);
    var s := v.sets[setIndex];
    var r := Touch(spec, v, address);
    if IsHit(spec, v, address) {
      TouchHit(spec, v, address);
      var w :| 0 <= w < |s| && r.sets[setIndex] == s[w := r.sets[setIndex][w]]
               && Decode(r.sets[setIndex][w]) == Line(tag, v.epoch % ACCESS_LIMIT, true);
      assert Matches(r.sets[setIndex][w], tag);
    } else {
      TouchMiss(spec, v, address);
      InstalledFields(tag, v.epoch);
      var w :| 0 <= w < |s| && r.sets[setIndex] == s[w := Installed(tag, v.epoch)];
      assert Matches(r.sets[setIndex][w], tag);
    }
  }

  /** Touches of other sets leave a set as it was. */
  lemma {:induction false} RunOtherSets(spec: CacheSpec, v: CacheView, addresses: seq<U64>, s: nat)
    requires Shaped(spec, v) && AllTouchable(spec, addresses) && s < |v.sets|
    requires forall i :: 0 <= i < |addresses| ==> Split(spec, addresses[i]).0 != s
    ensures Run(spec, v, addresses).sets[s] == v.sets[s]
    decreases |addresses|
  {
    if addresses != [] {
      var w := Touch(spec, v, addresses[0]);
      assert w.sets[s] == v.sets[s];
      var rest := addresses[1..];
      assert forall i :: 0 <= i < |rest| ==> rest[i] == addresses[i + 1];
      RunOtherSets(spec, w, rest, s);
    }
  }

  /** Hit after hit without intervening touches to the same set: after a
      touch of an address, any touches of other sets leave the next touch of
      that address a hit (under the same epoch bound as `RetouchHits`). */
  lemma {:induction false} RetouchAfterOthers(spec: CacheSpec, v: CacheView, address: U64, others: seq<U64>)
    requires Shaped(spec, v) && Touchable(spec, address) && AllTouchable(spec, others)
    requires v.epoch % ACCESS_LIMIT < 0x4000_0000
    requires forall i :: 0 <= i < |others| ==> Split(spec, others[i]).0 != Split(spec, address).0
    ensures IsHit(spec, Run(spec, Touch(spec, v, address), others), address)
  {
    RetouchHits(spec, v, address);
    RunOtherSets(spec, Touch(spec, v, address), others, Split(spec, address).0);
  }

  /** Running a sequence and then one more address is running the longer sequence. */
  lemma {:induction false} RunAppend(spec: CacheSpec, v: CacheView, addresses: seq<U64>, address: U64)
    requires Shaped(spec, v) && AllTouchable(spec, addresses)
    requires Touchable(spec, address)
    ensures Run(spec, v, addresses + [address]) == Touch(spec, Run(spec, v, addresses), address)
    decreases |addresses|
  {
    if addresses == [] {
      assert [] + [address] == [address];
      assert [address][1..] == [];
    } else {
      var rest := addresses[1..];
      assert (addresses + [address])[1..] == rest + [address];
      RunAppend(spec, Touch(spec, v, addresses[0]), rest, address);
    }
  }

  /** Over any sequence of touches the epoch advances by the number of touches,
      modulo 2^32. */
  lemma {:induction false} RunEpoch(spec: CacheSpec, v: CacheView, addresses: seq<U64>)
    requires Shaped(spec, v) && AllTouchable(spec, addresses)
    ensures Run(spec, v, addresses).epoch == (v.epoch + |addresses|) % 0x1_0000_0000
  {
    var n := |addresses|;
    assert Run(spec, v, addresses).epoch == Advance(v.epoch, n) by {
      RunAdvance(spec, v, addresses);
    }
    assert Advance(v.epoch, n) == (v.epoch + n) % 0x1_0000_0000 by {
      AdvanceMod(v.epoch, n);
    }
  }

  /** Each touch of a run is one wrapping increment of the epoch. */
  lemma {:induction false} RunAdvance(spec: CacheSpec, v: CacheView, addresses: seq<U64>)
    requires Shaped(spec, v) && AllTouchable(spec, addresses)
    ensures Run(spec, v, addresses).epoch == Advance(v.epoch, |addresses|)
    decreases |addresses|
  {
    if addresses != [] {
      var next := Touch(spec, v, addresses[0]);
      TouchCounters(spec, v, addresses[0]);
      RunAdvance(spec, next, addresses[1..]);
    }
  }

  /** Counters that agree keep agreeing over any sequence of touches. */
  lemma {:induction false} RunCountersAgree(spec: CacheSpec, v: CacheView, addresses: seq<U64>)
    requires Shaped(spec, v) && AllTouchable(spec, addresses)
    requires CountersAgree(v)
    ensures CountersAgree(Run(spec, v, addresses))
    decreases |addresses|
  {
    if addresses != [] {
      TouchCounters(spec, v, addresses[0]);
      RunCountersAgree(spec, Touch(spec, v, addresses[0]), addresses[1..]);
    }
  }



  /** The state built by `from_spec` has agreeing counters, so every report
      taken after any touches has access count equal to hits plus misses. */
  lemma {:induction false} InitialCountersAgree(spec: CacheSpec, addresses: seq<U64>)
    requires Buildable(spec) && AllTouchable(spec, addresses)
    ensures var r := ReportOf(spec, Run(spec, InitialView(spec), addresses));
      r.accessCount == |addresses| % 0x1_0000_0000
      && WrappingAdd(r.hits, r.misses) == r.accessCount
  {
    var v0 := InitialView(spec);
    assert WrappingAdd(v0.hits, v0.misses) == v0.epoch;
    RunEpoch(spec, v0, addresses);
    RunCountersAgree(spec, v0, addresses);
    var v := Run(spec, v0, addresses);
    assert v0.epoch + |addresses| == |addresses|;
    assert ReportOf(spec, v) == Report(v.epoch, v.hits, v.misses, spec);
  }

  /** The simulated cache the source mutates in place. Lines are one packed
      word each in a `set_num` by `lines_per_set` array; `sets` is the ghost
      view of that array as a sequence of sets. */
  class CacheState {
    const spec: CacheSpec
    const lines: array2<U64>
    var epoch: U32
    var hits: U32
    var misses: U32
    ghost var sets: seq<seq<U64>>

    ghost predicate Valid()
      reads this, lines
    {
      Buildable(spec)
      && lines.Length0 == SetNum(spec) && lines.Length1 == LinesPerSet(spec)
      && Shaped(spec, View())
      && forall i, j :: 0 <= i < lines.Length0 && 0 <= j < lines.Length1 ==> lines[i, j] == sets[i][j]
    }

    ghost function View(): CacheView
      reads this
    {
      CacheView(sets, epoch, hits, misses)
    }

    /** `from_spec`: all lines zero, all counters zero. */
    constructor FromSpec(spec: CacheSpec)
      requires Buildable(spec)
      ensures Valid() && fresh(lines)
      ensures this.spec == spec && View() == InitialView(spec)
    {
      this.spec := spec;
      lines := new U64[SetNum(spec), LinesPerSet(spec)]((i, j) => 0);
      epoch, hits, misses := 0, 0, 0;
      sets := InitialView(spec).sets;
    }

    /** `fetch_unpack`: read and unpack one line. */
    method FetchUnpack(setIx: nat, way: nat) returns (l: Line)
      requires Valid() && setIx < lines.Length0 && way < lines.Length1
      ensures l == Unpack(sets[setIx][way])
    {
      l := Unpack(lines[setIx, way]);
    }

    /** `touch_if_matches` on one line, with this cache's epoch counter. */
    method TouchIfMatches(setIx: nat, way: nat, candTag: U32) returns (r: Probe)
      requires Valid() && setIx < lines.Length0 && way < lines.Length1
      modifies lines, this`epoch, this`sets
      ensures Valid()
      ensures var step := ProbeLine(old(sets[setIx][way]), candTag, old(epoch));
        r == step.probe && epoch == step.epoch
        && (r.Matched? ==> var row: seq<U64> := old(sets[setIx])[way := step.word];
                           sets == old(sets)[setIx := row])
        && (r.NotMatched? ==> sets == old(sets))
    {
      var val := lines[setIx, way];
      var line := Unpack(val);
      if line.valid && candTag == line.tag {
        var stamp := Shl32(epoch, 1);
        StampValue(epoch);
        epoch := WrappingInc(epoch);
        var newVal := Refreshed(val, stamp);
        lines[setIx, way] := newVal;
        var row: seq<U64> := sets[setIx][way := newVal];
        sets := sets[setIx := row];
        r := Matched;
      } else if line.valid {
        r := NotMatched(Some(line.access));
      } else {
        r := NotMatched(None);
      }
    }

    /** `pack_store`: overwrite one line with a packed triple. */
    method PackStore(setIx: nat, way: nat, value: Line)
      requires Valid() && setIx < lines.Length0 && way < lines.Length1
      modifies lines, this`sets
      ensures Valid()
      ensures var row: seq<U64> := old(sets[setIx])[way := Pack(value)];
        sets == old(sets)[setIx := row]
    {
      lines[setIx, way] := Pack(value);
      var row: seq<U64> := sets[setIx][way := Pack(value)];
      sets := sets[setIx := row];
    }

    /** `touch_address`: scan the selected set for a hit while picking a
        victim, and on a miss overwrite the victim. */
    method TouchAddress(address: U64)
      requires Valid() && Touchable(spec, address)
      modifies this, lines
      ensures Valid()
      ensures View() == Touch(spec, old(View()), address)
    {
      var (setIndex, tag) := Split(spec, address);
      ghost var s := sets[setIndex];
      var oldest := 0;
      var first := FetchUnpack(setIndex, 0);
      var oldestEpoch: Option<U32> := Some(first.access);
      var way := 0;
      while way < lines.Length1
        invariant 0 <= way <= lines.Length1
        invariant Valid() && View() == old(View())
        invariant forall w :: 0 <= w < way ==> !Matches(s[w], tag)
        invariant oldestEpoch.Some? ==>
          oldest == 0 && oldestEpoch.value == Decode(s[0]).access
          && forall w :: 0 <= w < way ==> !Evictable(s, w)
        invariant oldestEpoch.None? ==>
          oldest < way && Evictable(s, oldest) && forall w :: 0 <= w < oldest ==> !Evictable(s, w)
      {
        var probe := TouchIfMatches(setIndex, way, tag);
        match probe {
          case Matched =>
            hits := WrappingInc(hits);
            assert FirstMatch(s, tag, 0) == Some(way);
            return;
          case NotMatched(e) =>
            match (oldestEpoch, e) {
              case (None, _) =>
              case (Some(_), None) =>
                oldest := way;
                oldestEpoch := None;
              case (Some(accE), Some(candE)) =>
                if candE < accE {
                  oldest := way;
                  oldestEpoch := None;
                }
            }
        }
        way := way + 1;
      }
      assert FirstMatch(s, tag, 0).None?;
      assert oldest == Victim(s);
      var stamp := epoch;
      epoch := WrappingInc(epoch);
      PackStore(setIndex, oldest, Line(tag, Shl32(stamp, 1), true));
      misses := WrappingInc(misses);
    }

    /** `make_report`: a snapshot of the counters and the geometry. */
    function MakeReport(): (r: Report)
      reads this
      ensures r == ReportOf(spec, View())
    {
      Report(epoch, hits, misses, spec)
    }
  }
}
