/**
 * The HelloTeapot `Graphics` base class: adapter selection with an optional
 * WARP (software rasteriser) adapter, and the render-target heap of the
 * swap-chain buffers.
 */
module HelloTeapotGraphics {
  import opened Native
  import Layout
  import opened Descriptors
  import Adapters
  import TeapotGraphics = Graphics

  /** Where the `adapter` member came from. */
  datatype AdapterChoice = WarpAdapter | Enumerated(index: nat)

  /**
   * The enumeration loop over the `adapter` member: every `As` attempt on a
   * hardware adapter overwrites it (null on failure) and the first success
   * ends the loop; software adapters leave it as it was.
   */
  function EnumerationFrom(adapters: seq<Adapters.Adapter>, from: nat, current: Option<AdapterChoice>): Option<AdapterChoice>
    requires from <= |adapters|
    decreases |adapters| - from
  {
    if from == |adapters| then current
    else if Adapters.IsSoftware(adapters[from]) then EnumerationFrom(adapters, from + 1, current)
    else if adapters[from].upgrades then Some(Enumerated(from))
    else EnumerationFrom(adapters, from + 1, None)
  }

  /**
   * The `adapter` member after `getAdapter(useWarp)`: the WARP enumerator's
   * result (its status is not checked, so a failure leaves the member
   * null), or the enumeration loop starting from the member's value.
   */
  function SelectedAdapter(useWarp: bool, warpOk: bool, adapters: seq<Adapters.Adapter>, prior: Option<AdapterChoice>): Option<AdapterChoice>
  {
    if useWarp then (if warpOk then Some(WarpAdapter) else None)
    else EnumerationFrom(adapters, 0, prior)
  }

  /** Convert the shared rule's index into an enumerated choice. */
  function AsChoice(i: Option<nat>): Option<AdapterChoice>
  {
    if i.Some? then Some(Enumerated(i.value)) else None
  }

  /**
   * Starting from a null member, the loop implements the shared selection
   * rule from any position on.
   */
  lemma {:induction false} EnumerationIsSelectionRule(adapters: seq<Adapters.Adapter>, from: nat)
    requires from <= |adapters|
    ensures EnumerationFrom(adapters, from, None) == AsChoice(Adapters.FirstEligibleFrom(adapters, from))
    decreases |adapters| - from
  {
    if from < |adapters| && !Adapters.Eligible(adapters[from]) {
      EnumerationIsSelectionRule(adapters, from + 1);
    }
  }

  /**
   * With `useWarp` the enumeration is skipped: the choice depends on
   * nothing but the WARP enumerator.  Without it, and from the null member
   * the constructor starts with, the choice is the first non-software
   * adapter whose upgrade succeeds, never a software adapter.
   */
  lemma SelectionCases(useWarp: bool, warpOk: bool, adapters: seq<Adapters.Adapter>, others: seq<Adapters.Adapter>,
                       prior: Option<AdapterChoice>, otherPrior: Option<AdapterChoice>)
    ensures useWarp ==> SelectedAdapter(useWarp, warpOk, adapters, prior) == SelectedAdapter(useWarp, warpOk, others, otherPrior)
    ensures useWarp ==> (SelectedAdapter(useWarp, warpOk, adapters, prior).Some? <==> warpOk)
    ensures !useWarp ==> SelectedAdapter(useWarp, warpOk, adapters, None) == AsChoice(Adapters.FirstEligible(adapters))
    ensures !useWarp && SelectedAdapter(useWarp, warpOk, adapters, None).Some? ==>
      var c := SelectedAdapter(useWarp, warpOk, adapters, None);
      c.value.Enumerated? && c.value.index < |adapters| && !Adapters.IsSoftware(adapters[c.value.index])
  {
    EnumerationIsSelectionRule(adapters, 0);
  }

  /** Distinct buffers get distinct render-target handles, each inside the heap. */
  lemma RtvOffsetsDistinct(i: nat, j: nat, bufferCount: nat, rtvStep: nat)
    requires i < bufferCount && j < bufferCount && rtvStep > 0
    ensures i != j ==> Layout.HandleOffset(i, rtvStep) != Layout.HandleOffset(j, rtvStep)
    ensures Layout.HandleOffset(i, rtvStep) / rtvStep < bufferCount
  {
    Layout.HandleOffsetDecodes(i, rtvStep);
    Layout.HandleOffsetDecodes(j, rtvStep);
  }

  class Graphics {
    const bufferCount: nat
    var adapter: Option<AdapterChoice>
    var descHeapRtv: DescriptorHeap?

    /** The members before the constructor's calls: a null adapter and no heap. */
    constructor (bufferCount: nat)
      ensures this.bufferCount == bufferCount && adapter == None && descHeapRtv == null
    {
      this.bufferCount := bufferCount;
      adapter := None;
      descHeapRtv := null;
    }

    /**
     * `getAdapter(useWarp)`; `warpOk` is whether `EnumWarpAdapter`
     * produced an adapter.  A null member afterwards is an error.
     */
    method GetAdapter(useWarp: bool, warpOk: bool, adapters: seq<Adapters.Adapter>) returns (r: Outcome)
      modifies this
      ensures adapter == SelectedAdapter(useWarp, warpOk, adapters, old(adapter))
      ensures r == if adapter == None then Fail("Error getting an adapter.") else Pass
      ensures descHeapRtv == old(descHeapRtv)
    {
      if useWarp {
        adapter := if warpOk then Some(WarpAdapter) else None;
      } else {
        var adapterIndex := 0;
        while adapterIndex < |adapters|
          invariant 0 <= adapterIndex <= |adapters|
          invariant SelectedAdapter(useWarp, warpOk, adapters, old(adapter)) == EnumerationFrom(adapters, adapterIndex, adapter)
          invariant descHeapRtv == old(descHeapRtv)
          decreases |adapters| - adapterIndex
        {
          var desc := adapters[adapterIndex];
          if Adapters.IsSoftware(desc) {
            adapterIndex := adapterIndex + 1;
            continue;
          }
          adapter := if desc.upgrades then Some(Enumerated(adapterIndex)) else None;
          if desc.upgrades {
            break;
          }
          adapterIndex := adapterIndex + 1;
        }
      }
      if adapter == None {
        return Fail("Error getting an adapter.");
      }
      r := Pass;
    }

    /** `createDescriptoprHeapRtv`: `bufferCount` descriptors, buffer `i`'s view at `i * rtvStep`. */
    method CreateDescriptorHeapRtv(createOk: bool, rtvStep: nat) returns (r: Outcome)
      requires rtvStep > 0
      modifies this
      ensures r == if createOk then Pass else Fail("Error creating descriptor heap.")
      ensures adapter == old(adapter)
      ensures !createOk ==> descHeapRtv == old(descHeapRtv)
      ensures createOk ==> descHeapRtv != null && fresh(descHeapRtv) && fresh(descHeapRtv.slots)
      ensures createOk ==> descHeapRtv.step == rtvStep && descHeapRtv.slots.Length == bufferCount
      ensures createOk ==> forall i :: 0 <= i < bufferCount ==> descHeapRtv.slots[i] == Some(RenderTargetView(i))
    {
      var heap := TeapotGraphics.CreateDescriptorHeapRtv(bufferCount, createOk, rtvStep);
      if heap.Err? {
        return Fail(heap.message);
      }
      descHeapRtv := heap.value;
      r := Pass;
    }
  }
}
