/** `CacheProvider` in src/provider.rs: a lock-protected optional cache
    state, one per provider type. Each provider is modelled as an object
    owning its own slot, so two providers never share state. */
module Provider {
  import opened Bits
  import opened Wrappers
  import opened Geometry
  import opened Cache

  class CacheProvider {
    /** The contents of the provider's `RwLock<Option<CacheState>>`. */
    var slot: Option<CacheState>
    ghost var Repr: set<object>

    ghost predicate Valid()
      reads this, Repr
    {
      this in Repr
      && (slot.Some? ==> slot.value in Repr && slot.value.lines in Repr && slot.value.Valid())
    }

    /** The report `make_report` would give on the current slot, if any. */
    ghost function Reported(): Option<Report>
      reads this, Repr
      requires Valid()
    {
      match slot
      case None => None
      case Some(c) => Some(ReportOf(c.spec, c.View()))
    }

    /** The static `RwLock::new(None)` behind each provider. */
    constructor ()
      ensures Valid() && fresh(Repr)
      ensures slot.None?
    {
      slot := None;
      Repr := {this};
    }

    /** `configure`: install a fresh cache built from the geometry and return
        the report of the one it replaces, if any. */
    method Configure(spec: CacheSpec) returns (previous: Option<Report>)
      requires Valid() && Buildable(spec)
      modifies this
      ensures Valid() && fresh(Repr - old(Repr))
      ensures previous == old(Reported())
      ensures slot.Some? && fresh(slot.value)
      ensures slot.value.spec == spec && slot.value.View() == InitialView(spec)
    {
      var state := new CacheState.FromSpec(spec);
      match slot {
        case None => previous := None;
        case Some(c) => previous := Some(c.MakeReport());
      }
      slot := Some(state);
      Repr := {this, state, state.lines};
    }

    /** `get_report`: the current cache's report, without changing anything. */
    method GetReport() returns (r: Option<Report>)
      requires Valid()
      ensures r == Reported()
    {
      match slot {
        case None => r := None;
        case Some(c) => r := Some(c.MakeReport());
      }
    }

    /** `finish`: take the cache out of the slot and return its report. */
    method Finish() returns (r: Option<Report>)
      requires Valid()
      modifies this
      ensures Valid() && Repr <= old(Repr)
      ensures slot.None? && r == old(Reported())
    {
      match slot {
        case None => r := None;
        case Some(c) => r := Some(c.MakeReport());
      }
      slot := None;
      Repr := {this};
    }

    /** The lookup `deref` and `prefetch` share: touch the address when a
        cache is configured, do nothing otherwise. */
    method TouchIfConfigured(address: U64)
      requires Valid() && (slot.Some? ==> Touchable(slot.value.spec, address))
      modifies Repr
      ensures Valid() && Repr == old(Repr) && slot == old(slot)
      ensures slot.Some? ==> slot.value.View() == Touch(slot.value.spec, old(slot.value.View()), address)
    {
      match slot {
        case None =>
        case Some(c) => c.TouchAddress(address);
      }
    }
  }

  /** Touch every address in order through a configured provider. */
  method TouchAll(p: CacheProvider, addresses: seq<U64>)
    requires p.Valid() && p.slot.Some?
    requires AllTouchable(p.slot.value.spec, addresses)
    modifies p.Repr
    ensures p.Valid() && p.Repr == old(p.Repr) && p.slot == old(p.slot)
    ensures p.slot.value.View() == Run(p.slot.value.spec, old(p.slot.value.View()), addresses)
  {
    var c := p.slot.value;
    ghost var start := c.View();
    var i := 0;
    while i < |addresses|
      invariant 0 <= i <= |addresses|
      invariant p.Valid() && p.Repr == old(p.Repr) && p.slot == old(p.slot)
      invariant c.View() == Run(c.spec, start, addresses[..i])
    {
      RunAppend(c.spec, start, addresses[..i], addresses[i]);
      PrefixStep(addresses, i);
      p.TouchIfConfigured(addresses[i]);
      i := i + 1;
    }
    assert addresses[..i] == addresses;
  }

  /** Extending a prefix by one element. */
  lemma {:induction false} PrefixStep<T>(s: seq<T>, i: nat)
    requires i < |s|
    ensures s[..i + 1] == s[..i] + [s[i]]
  {
  }

  /** A whole session on a provider of its own: configure, touch every address
      in order, read the report, finish, and read again. The report is the
      reference model's run from a fresh cache; its access count is the number
      of touches and equals hits plus misses (modulo 2^32); once finished the
      provider reports nothing. */
  method Session(spec: CacheSpec, addresses: seq<U64>) returns (previous: Option<Report>, during: Option<Report>, last: Option<Report>, after: Option<Report>)
    requires Buildable(spec) && AllTouchable(spec, addresses)
    ensures previous == None
    ensures during == Some(ReportOf(spec, Run(spec, InitialView(spec), addresses)))
    ensures last == during && after == None
    ensures during.value.accessCount == |addresses| % 0x1_0000_0000
    ensures WrappingAdd(during.value.hits, during.value.misses) == during.value.accessCount
  {
    var p := new CacheProvider();
    previous := p.Configure(spec);
    TouchAll(p, addresses);
    InitialCountersAgree(spec, addresses);
    during := p.GetReport();
    last := p.Finish();
    after := p.GetReport();
  }

  /** Configuring a provider again returns the report of the cache it
      replaces, and the provider starts over from a fresh cache with the new
      geometry and zeroed counters. */
  method Reconfigure(spec1: CacheSpec, spec2: CacheSpec, addresses: seq<U64>) returns (previous: Option<Report>, restarted: Option<Report>)
    requires Buildable(spec1) && Buildable(spec2) && AllTouchable(spec1, addresses)
    ensures previous == Some(ReportOf(spec1, Run(spec1, InitialView(spec1), addresses)))
    ensures restarted == Some(Report(0, 0, 0, spec2))
  {
    var p := new CacheProvider();
    var _ := p.Configure(spec1);
    TouchAll(p, addresses);
    previous := p.Configure(spec2);
    restarted := p.GetReport();
  }

  /** Each provider owns its own `static` slot: a touch through `p` leaves any
      provider `q` whose objects are disjoint from `p`'s reporting as before. */
  method TouchIsolated(p: CacheProvider, q: CacheProvider, address: U64)
    requires p.Valid() && q.Valid() && p.Repr !! q.Repr
    requires p.slot.Some? ==> Touchable(p.slot.value.spec, address)
    modifies p.Repr
    ensures q.Valid() && q.Reported() == old(q.Reported()) && p.Repr !! q.Repr
  {
    p.TouchIfConfigured(address);
  }

  /** Configuring `p` leaves a disjoint provider `q` reporting as before. */
  method ConfigureIsolated(p: CacheProvider, q: CacheProvider, spec: CacheSpec) returns (previous: Option<Report>)
    requires p.Valid() && q.Valid() && p.Repr !! q.Repr && Buildable(spec)
    modifies p
    ensures previous == old(p.Reported())
    ensures q.Valid() && q.Reported() == old(q.Reported()) && p.Repr !! q.Repr
  {
    previous := p.Configure(spec);
  }

  /** Finishing `p` leaves a disjoint provider `q` reporting as before. */
  method FinishIsolated(p: CacheProvider, q: CacheProvider) returns (r: Option<Report>)
    requires p.Valid() && q.Valid() && p.Repr !! q.Repr
    modifies p
    ensures r == old(p.Reported())
    ensures q.Valid() && q.Reported() == old(q.Reported()) && p.Repr !! q.Repr
  {
    r := p.Finish();
  }

  /** Two providers configured side by side keep separate caches: touching one
      leaves the other's report at that of a fresh cache. */
  method Independent(spec1: CacheSpec, spec2: CacheSpec, address: U64) returns (r1: Option<Report>, r2: Option<Report>)
    requires Buildable(spec1) && Buildable(spec2) && Touchable(spec1, address)
    ensures r1 == Some(ReportOf(spec1, Touch(spec1, InitialView(spec1), address)))
    ensures r2 == Some(Report(0, 0, 0, spec2))
  {
    var p := new CacheProvider();
    var q := new CacheProvider();
    var _ := p.Configure(spec1);
    var _ := q.Configure(spec2);
    p.TouchIfConfigured(address);
    r1 := p.GetReport();
    r2 := q.GetReport();
  }
}
