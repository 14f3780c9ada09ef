/**
 * The per-frame bookkeeping of the TeapotTutorial `Graphics` base class and
 * of `Graphics1`, which derives from it and declares its own
 * `commandAllocators`, `fences` and `fenceValues` members with the same
 * creation code.  Each of the two objects owns one `FrameResources`.
 */
module Graphics {
  import opened Native
  import Adapters
  import opened Descriptors

  /** An allocator created for frame `frame`. */
  datatype CommandAllocator = CommandAllocator(frame: nat)

  /**
   * The vectors grown by the creation loops.  `fences[i]` is the value last
   * signalled on fence `i` (a fence is created holding 0) and
   * `fenceValues[i]` the CPU-side counter for frame `i`.
   */
  class FrameResources {
    const bufferCount: nat
    var commandAllocators: seq<CommandAllocator>
    var fences: seq<nat>
    var fenceValues: seq<nat>

    /** One fence per counter, and no fence ever holds a value its counter has not reached. */
    predicate Valid()
      reads this
    {
      |fences| == |fenceValues| &&
      forall i :: 0 <= i < |fences| ==> fences[i] <= fenceValues[i]
    }

    /** Before the creation steps run, every vector is empty. */
    constructor (bufferCount: nat)
      ensures this.bufferCount == bufferCount
      ensures commandAllocators == [] && fences == [] && fenceValues == []
      ensures Valid()
    {
      this.bufferCount := bufferCount;
      commandAllocators := [];
      fences := [];
      fenceValues := [];
    }

    /**
     * `createCommandAllocators`: one allocator per back buffer, appended in
     * order, stopping with an error at the first failed creation.
     */
    method CreateCommandAllocators(creates: nat -> bool) returns (r: Outcome)
      modifies this
      ensures var k := FirstFailure(creates, bufferCount);
        commandAllocators == old(commandAllocators) + Allocators(k) &&
        (r == Pass <==> k == bufferCount)
      ensures r.Fail? ==> r.message == "Error creating command allocator."
      ensures fences == old(fences) && fenceValues == old(fenceValues)
    {
      var i := 0;
      while i < bufferCount
        invariant 0 <= i <= bufferCount
        invariant forall j :: 0 <= j < i ==> creates(j)
        invariant commandAllocators == old(commandAllocators) + Allocators(i)
        invariant fences == old(fences) && fenceValues == old(fenceValues)
      {
        if !creates(i) {
          FirstFailureUnique(creates, bufferCount, i);
          return Fail("Error creating command allocator.");
        }
        commandAllocators := commandAllocators + [CommandAllocator(i)];
        i := i + 1;
      }
      FirstFailureUnique(creates, bufferCount, bufferCount);
      return Pass;
    }

    /**
     * `createCommandList`: the list is created (open) on the first
     * allocator and closed straight away, so it is returned closed.
     */
    method CreateCommandList(createOk: bool, closeOk: bool) returns (r: Result<CommandList>)
      requires |commandAllocators| > 0
      ensures r.Ok? <==> createOk && closeOk
      ensures r.Ok? ==> fresh(r.value) && !r.value.open && r.value.recorded == []
      ensures !createOk ==> r == Err("Error creating command list.")
      ensures createOk && !closeOk ==> r == Err("Error closing command list.")
    {
      if !createOk {
        return Err("Error creating command list.");
      }
      var list := new CommandList();
      list.Close(closeOk);
      if !closeOk {
        return Err("Error closing command list.");
      }
      return Ok(list);
    }

    /**
     * `createFences`: one fence created at 0 and one counter of 0 per back
     * buffer, appended in order, stopping at the first failed creation.
     */
    method CreateFences(creates: nat -> bool) returns (r: Outcome)
      modifies this
      ensures var k := FirstFailure(creates, bufferCount);
        fences == old(fences) + Zeros(k) &&
        fenceValues == old(fenceValues) + Zeros(k) &&
        (r == Pass <==> k == bufferCount)
      ensures r.Fail? ==> r.message == "Error creating fence."
      ensures commandAllocators == old(commandAllocators)
      ensures old(Valid()) ==> Valid()
    {
      var i := 0;
      while i < bufferCount
        invariant 0 <= i <= bufferCount
        invariant forall j :: 0 <= j < i ==> creates(j)
        invariant fences == old(fences) + Zeros(i)
        invariant fenceValues == old(fenceValues) + Zeros(i)
        invariant commandAllocators == old(commandAllocators)
        invariant old(Valid()) ==> Valid()
      {
        if !creates(i) {
          FirstFailureUnique(creates, bufferCount, i);
          return Fail("Error creating fence.");
        }
        var initialValue := 0;
        fences := fences + [initialValue];
        fenceValues := fenceValues + [initialValue];
        i := i + 1;
      }
      FirstFailureUnique(creates, bufferCount, bufferCount);
      return Pass;
    }

    /**
     * `waitFrameComplete` (and `Graphics1::waitForPreviousFrame`, which is
     * the same code applied to the current back-buffer index): block until
     * fence `frameIndex` reaches `fenceValues[frameIndex]`.  The value
     * waited for is returned; nothing changes.
     */
    method WaitFrameComplete(frameIndex: nat, setEventOk: bool, wait: nat)
      returns (fenceValue: nat, r: Outcome)
      requires frameIndex < |fences| && frameIndex < |fenceValues|
      ensures fenceValue == fenceValues[frameIndex]
      ensures r == AwaitFence(setEventOk, wait)
    {
      fenceValue := fenceValues[frameIndex];
      if !setEventOk {
        return fenceValue, Fail("Failed set event on completion.");
      }
      if wait != WAIT_OBJECT_0 {
        return fenceValue, Fail("Failed WaitForSingleObject().");
      }
      r := Pass;
    }

    /**
     * The destructor: `waitFrameComplete(i)` for `i = 0, 1, …` in order.
     * The waits of frames up to the first failure are attempted; `waitedOn`
     * lists their indices.
     */
    method Release(setEventOk: nat -> bool, waits: nat -> nat) returns (waitedOn: seq<nat>, r: Outcome)
      requires bufferCount <= |fences| && bufferCount <= |fenceValues|
      ensures var k := FirstFailedWait(setEventOk, waits, 0, bufferCount);
        k < bufferCount ==> waitedOn == Indices(k + 1) && r == AwaitFence(setEventOk(k), waits(k))
      ensures FirstFailedWait(setEventOk, waits, 0, bufferCount) == bufferCount ==>
        waitedOn == Indices(bufferCount) && r == Pass
    {
      waitedOn := [];
      var i := 0;
      while i < bufferCount
        invariant 0 <= i <= bufferCount
        invariant FirstFailedWait(setEventOk, waits, 0, bufferCount) == FirstFailedWait(setEventOk, waits, i, bufferCount)
        invariant waitedOn == Indices(i)
      {
        var fenceValue;
        fenceValue, r := WaitFrameComplete(i, setEventOk(i), waits(i));
        waitedOn := waitedOn + [i];
        if r.Fail? {
          return;
        }
        i := i + 1;
      }
      r := Pass;
    }

    /**
     * The end of `render`: `++fenceValues[frameIndex]`, then signal the new
     * value on fence `frameIndex`.  The counter is raised even when the
     * signal fails.
     */
    method SignalFrame(frameIndex: nat, signalOk: bool) returns (r: Outcome)
      requires frameIndex < |fences| && frameIndex < |fenceValues|
      modifies this
      ensures fenceValues == old(fenceValues)[frameIndex := old(fenceValues[frameIndex]) + 1]
      ensures fences == if signalOk then old(fences)[frameIndex := fenceValues[frameIndex]] else old(fences)
      ensures r == if signalOk then Pass else Fail("Failed signal.")
      ensures commandAllocators == old(commandAllocators)
      ensures old(Valid()) ==> Valid()
    {
      fenceValues := fenceValues[frameIndex := fenceValues[frameIndex] + 1];
      if !signalOk {
        return Fail("Failed signal.");
      }
      fences := fences[frameIndex := fenceValues[frameIndex]];
      r := Pass;
    }
  }

  /** The allocators of frames `0 .. n-1`, in order. */
  function Allocators(n: nat): (r: seq<CommandAllocator>)
    ensures |r| == n && forall i :: 0 <= i < n ==> r[i] == CommandAllocator(i)
  {
    if n == 0 then [] else Allocators(n - 1) + [CommandAllocator(n - 1)]
  }

  /** `n` zero fence values. */
  function Zeros(n: nat): (r: seq<nat>)
    ensures |r| == n && forall i :: 0 <= i < n ==> r[i] == 0
  {
    if n == 0 then [] else Zeros(n - 1) + [0]
  }

  /** The frame indices `0 .. n-1`, in increasing order. */
  function Indices(n: nat): (r: seq<nat>)
    ensures |r| == n && forall i :: 0 <= i < n ==> r[i] == i
  {
    if n == 0 then [] else Indices(n - 1) + [n - 1]
  }

  /** The first frame from `from` on whose wait fails, or `n` when none of them fails. */
  function FirstFailedWait(setEventOk: nat -> bool, waits: nat -> nat, from: nat, n: nat): (k: nat)
    requires from <= n
    ensures from <= k <= n
    ensures forall i :: from <= i < k ==> AwaitFence(setEventOk(i), waits(i)) == Pass
    ensures k < n ==> AwaitFence(setEventOk(k), waits(k)).Fail?
    decreases n - from
  {
    if from == n then n
    else if AwaitFence(setEventOk(from), waits(from)).Fail? then from
    else FirstFailedWait(setEventOk, waits, from + 1, n)
  }

  /**
   * A signal always publishes a value above every value fence `frameIndex`
   * held before: the GPU has something new to reach before the next wait.
   */
  lemma SignalIncreases(before: seq<nat>, beforeValues: seq<nat>, frameIndex: nat)
    requires |before| == |beforeValues| && frameIndex < |before|
    requires forall i :: 0 <= i < |before| ==> before[i] <= beforeValues[i]
    ensures var values := beforeValues[frameIndex := beforeValues[frameIndex] + 1];
      before[frameIndex] < values[frameIndex] &&
      forall i :: 0 <= i < |before| && i != frameIndex ==> values[i] == beforeValues[i]
  {
  }

  /** `getAdapter`: the shared selection rule with this class's message. */
  method GetAdapter(adapters: seq<Adapters.Adapter>) returns (r: Result<nat>)
    ensures r.Ok? <==> Adapters.FirstEligible(adapters).Some?
    ensures r.Ok? ==> r.value == Adapters.FirstEligible(adapters).value
    ensures r.Err? ==> r.message == "Error getting an adapter."
  {
    r := Adapters.GetAdapter(adapters, "Error getting an adapter.");
  }

  /**
   * `createDescriptoprHeapRtv`: a heap of exactly `bufferCount` render
   * target descriptors, the view of back buffer `i` at `i * rtvStep`.
   */
  method CreateDescriptorHeapRtv(bufferCount: nat, createOk: bool, rtvStep: nat)
    returns (r: Result<DescriptorHeap>)
    requires rtvStep > 0
    ensures r.Err? <==> !createOk
    ensures r.Err? ==> r.message == "Error creating descriptor heap."
    ensures r.Ok? ==> fresh(r.value) && fresh(r.value.slots) && r.value.step == rtvStep
    ensures r.Ok? ==> r.value.slots.Length == bufferCount
    ensures r.Ok? ==> forall i :: 0 <= i < bufferCount ==> r.value.slots[i] == Some(RenderTargetView(i))
  {
    if !createOk {
      return Err("Error creating descriptor heap.");
    }
    var heap := new DescriptorHeap(bufferCount, rtvStep);
    heap.CreateRenderTargetViews(bufferCount);
    return Ok(heap);
  }

  /** `createDescriptorHeapDepthStencil`: a heap of one descriptor holding the depth-stencil view. */
  method CreateDescriptorHeapDepthStencil(createOk: bool, dsvStep: nat)
    returns (r: Result<DescriptorHeap>)
    requires dsvStep > 0
    ensures r.Err? <==> !createOk
    ensures r.Err? ==> r.message == "Error creating depth stencil descriptor heap."
    ensures r.Ok? ==> fresh(r.value) && fresh(r.value.slots)
    ensures r.Ok? ==> r.value.slots.Length == 1 && r.value.slots[0] == Some(DepthStencilView)
  {
    if !createOk {
      return Err("Error creating depth stencil descriptor heap.");
    }
    var heap := new DescriptorHeap(1, dsvStep);
    heap.HandleOfSlot(0);
    heap.Write(0, DepthStencilView);
    return Ok(heap);
  }
}
