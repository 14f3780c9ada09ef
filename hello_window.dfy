/**
 * HelloWindow, the clear-the-screen demo: hardware adapter selection, the
 * swap-chain buffers and their render-target heap, and a frame loop that
 * picks the back buffer round-robin from a frame counter and uses that
 * counter as the fence value of the frame.
 */
module HelloWindow {
  import opened Native
  import Layout
  import opened Descriptors
  import Adapters

  /** `WinMain`'s swap-chain buffer count. */
  const BufferCount: nat := 2

  /** `createDescriptoprHeapRTV` reserves this many descriptors, whatever the buffer count. */
  const RtvHeapSize: nat := 10

  /** `getAdapter`: the shared selection rule, with this demo's message. */
  method GetAdapter(adapters: seq<Adapters.Adapter>) returns (r: Result<nat>)
    ensures r.Ok? <==> Adapters.FirstEligible(adapters).Some?
    ensures r.Ok? ==> r.value == Adapters.FirstEligible(adapters).value
    ensures r.Ok? ==> !Adapters.IsSoftware(adapters[r.value]) && adapters[r.value].upgrades
    ensures r.Err? ==> r.message == "Error getting hardware adapter."
  {
    r := Adapters.GetAdapter(adapters, "Error getting hardware adapter.");
  }

  /** A swap-chain buffer as `getBuffers` leaves it: its index and its debug name. */
  datatype SwapChainBuffer = SwapChainBuffer(index: nat, name: string)

  /**
   * `getBuffers`: a vector of `bufferCount` entries, entry `i` fetched with
   * `GetBuffer(i)` and named; the first failed fetch is an error.
   */
  method GetBuffers(bufferCount: nat, gets: nat -> bool) returns (r: Result<seq<SwapChainBuffer>>)
    ensures r.Ok? <==> FirstFailure(gets, bufferCount) == bufferCount
    ensures r.Err? ==> r.message == "Error getting buffer."
    ensures r.Ok? ==> |r.value| == bufferCount
    ensures r.Ok? ==> forall i :: 0 <= i < bufferCount ==> r.value[i] == SwapChainBuffer(i, "SwapChain_Buffer")
  {
    var buffers: seq<Option<SwapChainBuffer>> := seq(bufferCount, _ => None);
    var i := 0;
    while i < bufferCount
      invariant 0 <= i <= bufferCount && |buffers| == bufferCount
      invariant forall j :: 0 <= j < i ==> gets(j)
      invariant forall j :: 0 <= j < bufferCount ==>
        buffers[j] == if j < i then Some(SwapChainBuffer(j, "SwapChain_Buffer")) else None
    {
      if !gets(i) {
        FirstFailureUnique(gets, bufferCount, i);
        return Err("Error getting buffer.");
      }
      buffers := buffers[i := Some(SwapChainBuffer(i, "SwapChain_Buffer"))];
      i := i + 1;
    }
    FirstFailureUnique(gets, bufferCount, bufferCount);
    return Ok(seq(bufferCount, j requires 0 <= j < bufferCount => buffers[j].value));
  }

  /**
   * `createDescriptoprHeapRTV`: a heap of 10 descriptors, of which the first
   * `bufferCount` get the views of the buffers.  The fixed size covers the
   * loop only while `bufferCount <= 10`.
   */
  method CreateDescriptorHeapRtv(bufferCount: nat, createOk: bool, rtvStep: nat)
    returns (r: Result<DescriptorHeap>)
    requires bufferCount <= RtvHeapSize && rtvStep > 0
    ensures r.Err? <==> !createOk
    ensures r.Err? ==> r.message == "Error creating descriptor heap."
    ensures r.Ok? ==> fresh(r.value) && fresh(r.value.slots) && r.value.step == rtvStep
    ensures r.Ok? ==> r.value.slots.Length == RtvHeapSize
    ensures r.Ok? ==> forall i :: 0 <= i < RtvHeapSize ==>
      r.value.slots[i] == if i < bufferCount then Some(RenderTargetView(i)) else None
  {
    if !createOk {
      return Err("Error creating descriptor heap.");
    }
    var heap := new DescriptorHeap(RtvHeapSize, rtvStep);
    heap.CreateRenderTargetViews(bufferCount);
    return Ok(heap);
  }

  /** `createCommandList`: unlike the other demos, the list is left open. */
  method CreateCommandList(createOk: bool) returns (r: Result<CommandList>)
    ensures r.Err? <==> !createOk
    ensures r.Err? ==> r.message == "Error creating command list."
    ensures r.Ok? ==> fresh(r.value) && r.value.open && r.value.recorded == []
  {
    if !createOk {
      return Err("Error creating command list.");
    }
    var list := new CommandList();
    return Ok(list);
  }

  // -----------------------------------------------------------------------
  // Round-robin back buffers
  // -----------------------------------------------------------------------

  /** The buffer `render` draws into when the counter has just become `frameCount`. */
  function BackBufferIndex(frameCount: nat, bufferCount: nat): nat
    requires frameCount >= 1 && bufferCount > 0
  {
    (frameCount - 1) % bufferCount
  }

  /**
   * The index is always a valid buffer, the first frame draws into buffer
   * 0, each frame moves to the next buffer round-robin, and the cycle
   * repeats every `bufferCount` frames.
   */
  lemma RoundRobin(frameCount: nat, bufferCount: nat)
    requires frameCount >= 1 && bufferCount > 0
    ensures BackBufferIndex(frameCount, bufferCount) < bufferCount
    ensures BackBufferIndex(1, bufferCount) == 0
    ensures BackBufferIndex(frameCount + 1, bufferCount) == (BackBufferIndex(frameCount, bufferCount) + 1) % bufferCount
    ensures BackBufferIndex(frameCount + bufferCount, bufferCount) == BackBufferIndex(frameCount, bufferCount)
  {
    var q, i := (frameCount - 1) / bufferCount, BackBufferIndex(frameCount, bufferCount);
    NextIndex(frameCount - 1, bufferCount, q, i);
    Layout.MulSucc(q, bufferCount);
    Layout.DivModUnique(frameCount - 1 + bufferCount, bufferCount, q + 1, i);
  }

  /** One step of the counter moves the remainder to the next buffer, wrapping at `n`. */
  lemma NextIndex(s: nat, n: nat, q: nat, i: nat)
    requires i < n && s == q * n + i
    ensures (s + 1) % n == (i + 1) % n
  {
    if i + 1 < n {
      Layout.DivModUnique(s + 1, n, q, i + 1);
    } else {
      Layout.MulSucc(q, n);
      Layout.DivModUnique(s + 1, n, q + 1, 0);
    }
  }

  /** With two buffers the frames alternate 0, 1, 0, 1, …: odd frames use buffer 0. */
  lemma TwoBuffersAlternate(frameCount: nat)
    requires frameCount >= 1
    ensures BackBufferIndex(frameCount, BufferCount) == (if frameCount % 2 == 1 then 0 else 1)
    ensures BackBufferIndex(frameCount + 1, BufferCount) != BackBufferIndex(frameCount, BufferCount)
  {
    RoundRobin(frameCount, BufferCount);
  }

  // -----------------------------------------------------------------------
  // The frame loop
  // -----------------------------------------------------------------------

  /** What each checked native step of one `render` reports. */
  datatype RenderOutcome = RenderOutcome(
    closeOk: bool,
    presentOk: bool,
    setEventOk: bool,
    signalOk: bool,
    wait: nat,
    allocatorResetOk: bool,
    listResetOk: bool)

  /** The first failing step of a frame decides its error. */
  function RenderResult(o: RenderOutcome): Outcome
  {
    if !o.closeOk then Fail("Failed closing command list.")
    else if !o.presentOk then Fail("Failed present.")
    else if !o.setEventOk then Fail("Failed set event on completion.")
    else if !o.signalOk then Fail("Failed signal.")
    else if o.wait != WAIT_OBJECT_0 then Fail("Failed WaitForSingleObject().")
    else if !o.allocatorResetOk then Fail("Failed command allocator reset.")
    else if !o.listResetOk then Fail("Failed command list reset.")
    else Pass
  }

  /** Whether a frame gets as far as signalling its fence value. */
  predicate ReachesSignal(o: RenderOutcome)
  {
    o.closeOk && o.presentOk && o.setEventOk && o.signalOk
  }

  /** The commands of one frame: transition, clear, transition back. */
  function FrameCommands(index: nat, rtvStep: nat): seq<Command>
  {
    [ Transition(BackBuffer(index), Present, RenderTarget),
      ClearRenderTarget(Layout.HandleOffset(index, rtvStep)),
      Transition(BackBuffer(index), RenderTarget, Present) ]
  }

  /** `render` with its `static frameCount`, and the objects `WinMain` passes to it. */
  class Renderer {
    const bufferCount: nat
    const descHeapRtv: DescriptorHeap
    const commandList: CommandList
    const commandQueue: CommandQueue
    /** `render`'s `static uint64_t frameCount`. */
    var frameCount: nat
    /** The value last signalled on the fence (created holding 0). */
    var fence: nat

    /**
     * Between frames: the list is open and empty, every frame so far has
     * signalled its own number, and the heap holds the views of all buffers.
     */
    predicate Valid()
      reads this, commandList, descHeapRtv, descHeapRtv.slots
    {
      bufferCount > 0 &&
      commandList.open && commandList.recorded == [] &&
      fence == frameCount &&
      descHeapRtv.step > 0 && bufferCount <= descHeapRtv.slots.Length &&
      forall i :: 0 <= i < bufferCount ==> descHeapRtv.slots[i] == Some(RenderTargetView(i))
    }

    constructor (bufferCount: nat, descHeapRtv: DescriptorHeap, commandList: CommandList, commandQueue: CommandQueue)
      requires bufferCount > 0 && commandList.open && commandList.recorded == []
      requires descHeapRtv.step > 0 && bufferCount <= descHeapRtv.slots.Length
      requires forall i :: 0 <= i < bufferCount ==> descHeapRtv.slots[i] == Some(RenderTargetView(i))
      ensures this.bufferCount == bufferCount && this.descHeapRtv == descHeapRtv
      ensures this.commandList == commandList && this.commandQueue == commandQueue
      ensures frameCount == 0 && fence == 0
      ensures Valid()
    {
      this.bufferCount := bufferCount;
      this.descHeapRtv := descHeapRtv;
      this.commandList := commandList;
      this.commandQueue := commandQueue;
      frameCount := 0;
      fence := 0;
    }

    /**
     * One frame.  The counter goes up first, whatever happens next; the
     * frame draws into buffer `(frameCount - 1) % bufferCount`, waits for
     * and signals fence value `frameCount`, and then reopens the list.
     */
    method Render(o: RenderOutcome) returns (r: Outcome)
      requires Valid()
      modifies this, commandList, commandQueue
      ensures frameCount == old(frameCount) + 1
      ensures r == RenderResult(o)
      ensures r == Pass ==> commandList.open && commandList.recorded == []
      ensures r != Pass ==> commandList.open == !o.closeOk
      ensures r != Pass ==>
        commandList.recorded == FrameCommands(BackBufferIndex(frameCount, bufferCount), descHeapRtv.step)
      ensures o.closeOk ==>
        commandQueue.executed == old(commandQueue.executed) + [FrameCommands(BackBufferIndex(frameCount, bufferCount), descHeapRtv.step)]
      ensures fence == if ReachesSignal(o) then frameCount else old(fence)
      ensures ReachesSignal(o) ==> fence > old(fence)
      ensures r == Pass ==> Valid()
    {
      frameCount := frameCount + 1;
      var descHandleRtvStep := descHeapRtv.step;
      var index := (frameCount - 1) % bufferCount;
      var descHandleRtv := index * descHandleRtvStep;
      commandList.Record(Transition(BackBuffer(index), Present, RenderTarget));
      commandList.Record(ClearRenderTarget(descHandleRtv));
      commandList.Record(Transition(BackBuffer(index), RenderTarget, Present));
      assert commandList.recorded == FrameCommands(BackBufferIndex(frameCount, bufferCount), descHandleRtvStep);
      commandList.Close(o.closeOk);
      if !o.closeOk {
        return Fail("Failed closing command list.");
      }
      commandQueue.Execute(commandList);
      if !o.presentOk {
        return Fail("Failed present.");
      }
      if !o.setEventOk {
        return Fail("Failed set event on completion.");
      }
      if !o.signalOk {
        return Fail("Failed signal.");
      }
      fence := frameCount;
      if o.wait != WAIT_OBJECT_0 {
        return Fail("Failed WaitForSingleObject().");
      }
      if !o.allocatorResetOk {
        return Fail("Failed command allocator reset.");
      }
      commandList.Reset(o.listResetOk);
      if !o.listResetOk {
        return Fail("Failed command list reset.");
      }
      r := Pass;
    }
  }

  /**
   * The render target cleared in frame `frameCount` is the view the heap
   * loop wrote for the buffer of that frame.
   */
  lemma FrameClearsItsBuffer(frameCount: nat, bufferCount: nat, rtvStep: nat)
    requires frameCount >= 1 && bufferCount > 0 && rtvStep > 0
    ensures var cmds := FrameCommands(BackBufferIndex(frameCount, bufferCount), rtvStep);
      cmds[1].rtvOffset % rtvStep == 0 &&
      cmds[1].rtvOffset / rtvStep == BackBufferIndex(frameCount, bufferCount) &&
      cmds[1].rtvOffset / rtvStep < bufferCount &&
      cmds[0].resource == cmds[2].resource == BackBuffer(cmds[1].rtvOffset / rtvStep)
  {
    RoundRobin(frameCount, bufferCount);
    Layout.HandleOffsetDecodes(BackBufferIndex(frameCount, bufferCount), rtvStep);
  }
}
