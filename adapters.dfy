/**
 * The adapter selection rule shared by every demo: enumerate the DXGI
 * adapters in order, skip those flagged as software adapters, and take the
 * first one whose upgrade to `IDXGIAdapter3` (`ComPtr::As`) succeeds.
 */
module Adapters {
  import opened Native

  /** `DXGI_ADAPTER_FLAG_SOFTWARE`. */
  const AdapterFlagSoftware: bv32 := 2

  /**
   * An enumerated adapter: the `Flags` of its `DXGI_ADAPTER_DESC1` and
   * whether querying it for `IDXGIAdapter3` succeeds.
   */
  datatype Adapter = Adapter(flags: bv32, upgrades: bool)

  predicate IsSoftware(a: Adapter)
  {
    a.flags & AdapterFlagSoftware != 0
  }

  /** An adapter the rule accepts. */
  predicate Eligible(a: Adapter)
  {
    !IsSoftware(a) && a.upgrades
  }

  /** The index of the first eligible adapter at or after `from`, if any. */
  function FirstEligibleFrom(adapters: seq<Adapter>, from: nat): (r: Option<nat>)
    requires from <= |adapters|
    ensures r.Some? ==> from <= r.value < |adapters| && Eligible(adapters[r.value])
    ensures r.Some? ==> forall j :: from <= j < r.value ==> !Eligible(adapters[j])
    ensures r.None? ==> forall j :: from <= j < |adapters| ==> !Eligible(adapters[j])
    decreases |adapters| - from
  {
    if from == |adapters| then None
    else if Eligible(adapters[from]) then Some(from)
    else FirstEligibleFrom(adapters, from + 1)
  }

  /** The adapter the rule picks from a whole enumeration. */
  function FirstEligible(adapters: seq<Adapter>): Option<nat>
  {
    FirstEligibleFrom(adapters, 0)
  }

  /** The choice is never a software adapter, and it fails only when no adapter qualifies. */
  lemma SelectionRule(adapters: seq<Adapter>)
    ensures FirstEligible(adapters).Some? ==> !IsSoftware(adapters[FirstEligible(adapters).value])
    ensures FirstEligible(adapters).None? <==> forall j :: 0 <= j < |adapters| ==> !Eligible(adapters[j])
  {
  }

  /** Any eligible adapter bounds the choice from above: the rule picks the first one. */
  lemma {:induction false} FirstEligibleIsLeast(adapters: seq<Adapter>, from: nat, k: nat)
    requires from <= k < |adapters| && Eligible(adapters[k])
    ensures FirstEligibleFrom(adapters, from).Some?
    ensures FirstEligibleFrom(adapters, from).value <= k
    decreases k - from
  {
    if !Eligible(adapters[from]) {
      FirstEligibleIsLeast(adapters, from + 1, k);
    }
  }

  /**
   * The enumeration loop: `adapter` is reassigned by every `As` attempt (a
   * failed query leaves it null) and the loop stops at the first success;
   * a null adapter afterwards is an error with `message`.
   */
  method GetAdapter(adapters: seq<Adapter>, message: string) returns (r: Result<nat>)
    ensures r.Ok? <==> FirstEligible(adapters).Some?
    ensures r.Ok? ==> r.value == FirstEligible(adapters).value
    ensures r.Err? ==> r.message == message
  {
    var adapter: Option<nat> := None;
    var adapterIndex := 0;
    while adapterIndex < |adapters|
      invariant 0 <= adapterIndex <= |adapters|
      invariant adapter == None
      invariant FirstEligible(adapters) == FirstEligibleFrom(adapters, adapterIndex)
      decreases |adapters| - adapterIndex
    {
      var a := adapters[adapterIndex];
      if IsSoftware(a) {
        adapterIndex := adapterIndex + 1;
        continue;
      }
      adapter := if a.upgrades then Some(adapterIndex) else None;
      if a.upgrades {
        break;
      }
      adapterIndex := adapterIndex + 1;
    }
    if adapter == None {
      return Err(message);
    }
    return Ok(adapter.value);
  }
}
