/** The `Thrashe` wrapper in src/thrashe.rs: a value whose dereference or
    prefetch is recorded as a touch in its provider's cache. The provider is
    an explicit argument and the wrapper's memory address an input, since
    the model has no pointers. */
module Instrumented {
  import opened Bits
  import opened Cache
  import opened Provider

  /** `Thrashe<T, C>`; `Thrashe::new` is the datatype constructor. */
  datatype Thrashe<T> = Thrashe(inner: T)

  /** `deref`: touch the wrapper's address when the provider is configured,
      then hand out the wrapped value. */
  method Deref<T>(provider: CacheProvider, value: Thrashe<T>, address: U64) returns (r: T)
    requires provider.Valid()
    requires provider.slot.Some? ==> Touchable(provider.slot.value.spec, address)
    modifies provider.Repr
    ensures r == value.inner
    ensures provider.Valid() && provider.Repr == old(provider.Repr) && provider.slot == old(provider.slot)
    ensures provider.slot.Some? ==>
      provider.slot.value.View() == Touch(provider.slot.value.spec, old(provider.slot.value.View()), address)
  {
    provider.TouchIfConfigured(address);
    r := value.inner;
  }

  /** `prefetch`: the same touch, without handing out the value. */
  method Prefetch<T>(provider: CacheProvider, value: Thrashe<T>, address: U64)
    requires provider.Valid()
    requires provider.slot.Some? ==> Touchable(provider.slot.value.spec, address)
    modifies provider.Repr
    ensures provider.Valid() && provider.Repr == old(provider.Repr) && provider.slot == old(provider.slot)
    ensures provider.slot.Some? ==>
      provider.slot.value.View() == Touch(provider.slot.value.spec, old(provider.slot.value.View()), address)
  {
    provider.TouchIfConfigured(address);
  }
}
