/**
 * `Main2.cpp`, the single-file version of the teapot demo: global
 * fixed-size arrays of allocators, fences and fence counters for two back
 * buffers, one constant buffer split into `numParts * numBackBuffers`
 * aligned views, and a frame loop that binds frame `f`'s table of
 * `numParts` views.
 */
module Main2 {
  import opened Native
  import Layout
  import opened Descriptors
  import Graphics
  import TeapotTutorial

  const NumParts: nat := 28
  const NumBackBuffers: nat := 2

  /** The hull-shader constants `render` binds: fixed, not steerable from the keyboard. */
  const RootConstants: seq<int> := [16, 16]

  const ControlPointsErrors := UploadErrors("Error creating control points buffer.",
                                            "Error creating control points buffer upload heap.")
  const ControlPointsIndexErrors := UploadErrors("Error creating control points index buffer.",
                                                 "Error creating control points index buffer upload heap.")
  const ColorsErrors := UploadErrors("Error creating color buffer heap.",
                                     "Error creating color buffer upload heap.")

  // -----------------------------------------------------------------------
  // The constant buffer and its views
  // -----------------------------------------------------------------------

  /** `createDsConstantBuffers`'s buffer size: one aligned element per view. */
  function DsConstantBufferSize(): nat
  {
    Layout.ConstantElementSize() * NumParts * NumBackBuffers
  }

  /** The view written to slot `i`: element `i` of the one constant buffer. */
  function ConstantView(i: nat): Descriptor
  {
    ConstantBufferView(0, Layout.BlockStart(i, Layout.ConstantElementSize()), Layout.ConstantElementSize())
  }

  /**
   * Every view lies inside the buffer, starts on a 256-byte boundary as
   * constant-buffer views must, and distinct views share no byte.
   */
  lemma ConstantViewsLayout(i: nat, j: nat)
    requires i < NumParts * NumBackBuffers && j < NumParts * NumBackBuffers
    ensures ConstantView(i).location + ConstantView(i).size <= DsConstantBufferSize()
    ensures ConstantView(i).location % 256 == 0 && ConstantView(i).size == 256
    ensures i != j ==> ConstantView(i).location + ConstantView(i).size <= ConstantView(j).location ||
                       ConstantView(j).location + ConstantView(j).size <= ConstantView(i).location
  {
    Layout.ConstantElementSizeIsLeastMultiple();
    Layout.BlockInBounds(i, NumParts * NumBackBuffers, 256);
    Layout.HandleOffsetDecodes(i, 256);
    if i != j {
      Layout.BlocksDisjoint(i, j, 256);
    }
  }

  /**
   * `createDsConstantBuffers`: a shader-visible heap of `numParts *
   * numBackBuffers` descriptors whose slot `i` views element `i` of the
   * constant buffer.
   */
  method CreateDsConstantBuffers(heapOk: bool, descriptorSize: nat) returns (r: Result<DescriptorHeap>)
    requires descriptorSize > 0
    ensures r.Err? <==> !heapOk
    ensures r.Err? ==> r.message == "Error creating constant buffer heap."
    ensures r.Ok? ==> fresh(r.value) && fresh(r.value.slots) && r.value.step == descriptorSize
    ensures r.Ok? ==> r.value.slots.Length == NumParts * NumBackBuffers
    ensures r.Ok? ==> forall i :: 0 <= i < r.value.slots.Length ==> r.value.slots[i] == Some(ConstantView(i))
  {
    if !heapOk {
      return Err("Error creating constant buffer heap.");
    }
    var heap := new DescriptorHeap(NumParts * NumBackBuffers, descriptorSize);
    var elementSizeAligned := Layout.AlignTo256(Layout.MatrixSize as bv64) as nat;
    var i := 0;
    while i < NumParts * NumBackBuffers
      invariant 0 <= i <= NumParts * NumBackBuffers
      invariant forall k :: 0 <= k < heap.slots.Length ==>
        heap.slots[k] == if k < i then Some(ConstantView(k)) else None
    {
      var address := i * elementSizeAligned;
      heap.HandleOfSlot(i);
      heap.Write(i * descriptorSize, ConstantBufferView(0, address, elementSizeAligned));
      i := i + 1;
    }
    return Ok(heap);
  }

  /**
   * Frame `f`'s table starts at slot `f * numParts` and holds exactly the
   * views of elements `f * numParts .. f * numParts + numParts - 1`; the
   * tables of the two frames do not overlap and both lie in the heap.
   */
  lemma FrameTablesLayout(f: nat, g: nat, part: nat)
    requires f < NumBackBuffers && g < NumBackBuffers && part < NumParts
    ensures Layout.TableStart(f, NumParts) + NumParts <= NumParts * NumBackBuffers
    ensures Layout.Slot(f, NumParts, part) - Layout.TableStart(f, NumParts) == part
    ensures Layout.Slot(f, NumParts, part) < NumParts * NumBackBuffers
    ensures f < g ==> Layout.TableStart(f, NumParts) + NumParts <= Layout.TableStart(g, NumParts)
  {
    Layout.TableInHeap(f, NumParts, NumBackBuffers);
    Layout.SlotInTable(f, part, NumParts);
    Layout.SlotInBounds(f, part, NumParts, NumBackBuffers);
    if f < g {
      Layout.TablesDisjoint(f, g, NumParts);
    }
  }

  /** The commands `render` records for back buffer `frameIndex`. */
  function RenderCommands(frameIndex: nat, rtvStep: nat, descriptorSize: nat): seq<Command>
  {
    [ SetPipelineState(Wireframe),
      Transition(BackBuffer(frameIndex), Present, RenderTarget),
      SetRenderTarget(Layout.HandleOffset(frameIndex, rtvStep)),
      ClearRenderTarget(Layout.HandleOffset(frameIndex, rtvStep)),
      SetRootDescriptorTable(0, Layout.HandleOffset(Layout.TableStart(frameIndex, NumParts), descriptorSize)),
      SetRootConstants(1, RootConstants),
      Transition(BackBuffer(frameIndex), RenderTarget, Present) ]
  }

  /**
   * The table bound for frame `f` names slot `f * numParts`, and the render
   * target set is the slot `f` the render-target loop wrote.
   */
  lemma RenderCommandsBindFrame(frameIndex: nat, rtvStep: nat, descriptorSize: nat)
    requires frameIndex < NumBackBuffers && rtvStep > 0 && descriptorSize > 0
    ensures var cmds := RenderCommands(frameIndex, rtvStep, descriptorSize);
      cmds[2].rtvOffset / rtvStep == frameIndex &&
      cmds[4].offset % descriptorSize == 0 &&
      cmds[4].offset / descriptorSize == Layout.TableStart(frameIndex, NumParts) &&
      cmds[5].values == [16, 16]
  {
    Layout.HandleOffsetDecodes(frameIndex, rtvStep);
    Layout.HandleOffsetDecodes(Layout.TableStart(frameIndex, NumParts), descriptorSize);
  }

  // -----------------------------------------------------------------------
  // The globals
  // -----------------------------------------------------------------------

  class Main2App {
    const commandAllocators: array<Option<Graphics.CommandAllocator>>
    /** `fences[i]`: `None` until created, then the value last signalled on it. */
    const fences: array<Option<nat>>
    const fenceValues: array<nat>
    const rtvHeap: DescriptorHeap
    const commandQueue: CommandQueue
    var commandList: CommandList?
    var cbvHeap: DescriptorHeap?

    /** The state between frames, once every creation step has succeeded. */
    predicate Valid()
      reads this, commandAllocators, fences, fenceValues, rtvHeap, rtvHeap.slots, commandList, cbvHeap
      reads if cbvHeap != null then {cbvHeap.slots} else {}
    {
      commandAllocators.Length == NumBackBuffers &&
      fences.Length == NumBackBuffers && fenceValues.Length == NumBackBuffers &&
      (forall i :: 0 <= i < NumBackBuffers ==> commandAllocators[i].Some?) &&
      (forall i :: 0 <= i < NumBackBuffers ==> fences[i].Some? && fences[i].value <= fenceValues[i]) &&
      commandList != null && !commandList.open &&
      rtvHeap.step > 0 && rtvHeap.slots.Length == NumBackBuffers &&
      (forall i :: 0 <= i < NumBackBuffers ==> rtvHeap.slots[i] == Some(RenderTargetView(i))) &&
      cbvHeap != null && cbvHeap.step > 0 && cbvHeap.slots.Length == NumParts * NumBackBuffers &&
      (forall i :: 0 <= i < cbvHeap.slots.Length ==> cbvHeap.slots[i] == Some(ConstantView(i)))
    }

    /**
     * The globals at start-up, after `initialize` has created the queue and
     * the render-target heap: no allocator, fence, list or constant heap
     * yet, and the zero-initialised counters.
     */
    constructor (rtvHeap: DescriptorHeap, commandQueue: CommandQueue)
      ensures this.rtvHeap == rtvHeap && this.commandQueue == commandQueue
      ensures fresh(commandAllocators) && fresh(fences) && fresh(fenceValues)
      ensures commandAllocators.Length == NumBackBuffers && fences.Length == NumBackBuffers
      ensures fenceValues.Length == NumBackBuffers
      ensures forall i :: 0 <= i < NumBackBuffers ==>
        commandAllocators[i] == None && fences[i] == None && fenceValues[i] == 0
      ensures commandList == null && cbvHeap == null
    {
      this.rtvHeap := rtvHeap;
      this.commandQueue := commandQueue;
      commandAllocators := new Option<Graphics.CommandAllocator>[NumBackBuffers](_ => None);
      fences := new Option<nat>[NumBackBuffers](_ => None);
      fenceValues := new nat[NumBackBuffers](_ => 0);
      commandList := null;
      cbvHeap := null;
    }

    /** `createCommandAllocators`: `commandAllocators[i]` for each `i` up to the first failure. */
    method CreateCommandAllocators(creates: nat -> bool) returns (r: Outcome)
      requires commandAllocators.Length == NumBackBuffers
      modifies commandAllocators
      ensures var k := FirstFailure(creates, NumBackBuffers);
        (r == Pass <==> k == NumBackBuffers) &&
        forall i :: 0 <= i < NumBackBuffers ==>
          commandAllocators[i] == if i < k then Some(Graphics.CommandAllocator(i)) else old(commandAllocators[i])
      ensures r.Fail? ==> r.message == "Error creating command allocator."
    {
      var i := 0;
      while i < NumBackBuffers
        invariant 0 <= i <= NumBackBuffers
        invariant forall j :: 0 <= j < i ==> creates(j)
        invariant forall j :: 0 <= j < NumBackBuffers ==>
          commandAllocators[j] == if j < i then Some(Graphics.CommandAllocator(j)) else old(commandAllocators[j])
      {
        if !creates(i) {
          FirstFailureUnique(creates, NumBackBuffers, i);
          return Fail("Error creating command allocator.");
        }
        commandAllocators[i] := Some(Graphics.CommandAllocator(i));
        i := i + 1;
      }
      FirstFailureUnique(creates, NumBackBuffers, NumBackBuffers);
      return Pass;
    }

    /** `createCommandList`: created on allocator 0 and closed at once. */
    method CreateCommandList(createOk: bool, closeOk: bool) returns (r: Outcome)
      requires commandAllocators.Length > 0 && commandAllocators[0].Some?
      modifies this
      ensures r == Pass <==> createOk && closeOk
      ensures !createOk ==> r == Fail("Error creating command list.") && commandList == old(commandList)
      ensures createOk && !closeOk ==> r == Fail("Error closing command list.")
      ensures r == Pass ==> commandList != null && fresh(commandList) && !commandList.open && commandList.recorded == []
      ensures cbvHeap == old(cbvHeap)
    {
      if !createOk {
        return Fail("Error creating command list.");
      }
      var list := new CommandList();
      commandList := list;
      list.Close(closeOk);
      if !closeOk {
        return Fail("Error closing command list.");
      }
      r := Pass;
    }

    /** `createFences`: fence `i` created at 0 and `fenceValues[i] = 0`, up to the first failure. */
    method CreateFences(creates: nat -> bool) returns (r: Outcome)
      requires fences.Length == NumBackBuffers && fenceValues.Length == NumBackBuffers
      modifies fences, fenceValues
      ensures var k := FirstFailure(creates, NumBackBuffers);
        (r == Pass <==> k == NumBackBuffers) &&
        forall i :: 0 <= i < NumBackBuffers ==>
          fences[i] == (if i < k then Some(0) else old(fences[i])) &&
          fenceValues[i] == (if i < k then 0 else old(fenceValues[i]))
      ensures r.Fail? ==> r.message == "Error creating fence."
    {
      var i := 0;
      while i < NumBackBuffers
        invariant 0 <= i <= NumBackBuffers
        invariant forall j :: 0 <= j < i ==> creates(j)
        invariant forall j :: 0 <= j < NumBackBuffers ==>
          fences[j] == (if j < i then Some(0) else old(fences[j])) &&
          fenceValues[j] == (if j < i then 0 else old(fenceValues[j]))
      {
        if !creates(i) {
          FirstFailureUnique(creates, NumBackBuffers, i);
          return Fail("Error creating fence.");
        }
        var initialValue := 0;
        fences[i] := Some(initialValue);
        fenceValues[i] := initialValue;
        i := i + 1;
      }
      FirstFailureUnique(creates, NumBackBuffers, NumBackBuffers);
      return Pass;
    }

    /**
     * An upload (`createControlPointsBuffer`, `createControlPointsIndexBuffer`,
     * `createDsColorsStructuredBuffer`) through fence 0: fence 0 is signalled
     * to 1, waited for, and set back to 0; the other fence is not touched.
     */
    method UploadBuffer(target: Resource, o: UploadOutcome, errors: UploadErrors) returns (r: Outcome)
      requires fences.Length == NumBackBuffers && fences[0].Some?
      requires commandList != null && !commandList.open
      modifies fences, commandList, commandQueue
      ensures r == UploadResult(o, errors)
      ensures r == Pass ==> fences[0] == Some(0) && !commandList.open
      ensures fences[1] == old(fences[1])
      ensures r == Pass ==> commandQueue.executed == old(commandQueue.executed) + [UploadCommands(target)]
    {
      var fence := fences[0].value;
      fence, r := Upload(commandList, commandQueue, target, fence, o, errors);
      fences[0] := Some(fence);
    }

    /** `createDsConstantBuffers`, storing the heap in `descHeapCbv`. */
    method CreateConstantBufferViews(heapOk: bool, descriptorSize: nat) returns (r: Outcome)
      requires descriptorSize > 0
      modifies this
      ensures r == Pass <==> heapOk
      ensures r.Fail? ==> r.message == "Error creating constant buffer heap." && cbvHeap == old(cbvHeap)
      ensures r == Pass ==> cbvHeap != null && fresh(cbvHeap) && fresh(cbvHeap.slots) && cbvHeap.step == descriptorSize
      ensures r == Pass ==> cbvHeap.slots.Length == NumParts * NumBackBuffers
      ensures r == Pass ==> forall i :: 0 <= i < cbvHeap.slots.Length ==> cbvHeap.slots[i] == Some(ConstantView(i))
      ensures commandList == old(commandList)
    {
      var heap := CreateDsConstantBuffers(heapOk, descriptorSize);
      if heap.Err? {
        return Fail(heap.message);
      }
      cbvHeap := heap.value;
      r := Pass;
    }

    /**
     * `waitForPreviousFrame`: block until fence `frameIndex` reaches
     * `fenceValues[frameIndex]`; the value is returned and nothing changes.
     */
    method WaitForPreviousFrame(frameIndex: nat, setEventOk: bool, wait: nat)
      returns (fenceValue: nat, r: Outcome)
      requires frameIndex < fences.Length && frameIndex < fenceValues.Length && fences[frameIndex].Some?
      ensures fenceValue == fenceValues[frameIndex]
      ensures r == AwaitFence(setEventOk, wait)
    {
      fenceValue := fenceValues[frameIndex];
      if !setEventOk {
        return fenceValue, Fail("Failed set event on completion.");
      }
      if wait != WAIT_OBJECT_0 {
        return fenceValue, Fail("Failed WaitForSingleObject().");
      }
      r := Pass;
    }

    /** The recording part of `render`, on the freshly reset list. */
    method RecordFrame(frameIndex: nat)
      requires commandList != null && commandList.open && commandList.recorded == []
      requires cbvHeap != null
      modifies commandList
      ensures commandList.open
      ensures commandList.recorded == RenderCommands(frameIndex, rtvHeap.step, cbvHeap.step)
    {
      commandList.Record(SetPipelineState(Wireframe));
      commandList.Record(Transition(BackBuffer(frameIndex), Present, RenderTarget));
      var descHandleRtvStep := rtvHeap.step;
      var descHandleRtv := frameIndex * descHandleRtvStep;
      commandList.Record(SetRenderTarget(descHandleRtv));
      commandList.Record(ClearRenderTarget(descHandleRtv));
      var descriptorSize := cbvHeap.step;
      commandList.Record(SetRootDescriptorTable(0, (frameIndex * NumParts) * descriptorSize));
      commandList.Record(SetRootConstants(1, [16, 16]));
      commandList.Record(Transition(BackBuffer(frameIndex), RenderTarget, Present));
    }

    /** `++fenceValues[frameIndex]`, then signal the new value on fence `frameIndex`. */
    method SignalFrame(frameIndex: nat, signalOk: bool) returns (r: Outcome)
      requires frameIndex < fences.Length && frameIndex < fenceValues.Length
      modifies fences, fenceValues
      ensures fenceValues[..] == old(fenceValues[..])[frameIndex := old(fenceValues[frameIndex]) + 1]
      ensures fences[..] == if signalOk then old(fences[..])[frameIndex := Some(fenceValues[frameIndex])] else old(fences[..])
      ensures r == if signalOk then Pass else Fail("Failed signal.")
    {
      fenceValues[frameIndex] := fenceValues[frameIndex] + 1;
      if !signalOk {
        return Fail("Failed signal.");
      }
      fences[frameIndex] := Some(fenceValues[frameIndex]);
      r := Pass;
    }

    /**
     * The first part of `render`: reset the allocator and the list,
     * record the frame, close the list and submit it.
     */
    method RecordAndExecute(frameIndex: nat, o: TeapotTutorial.RenderOutcome) returns (r: Outcome)
      requires commandList != null && !commandList.open && cbvHeap != null
      modifies commandList, commandQueue
      ensures r.Fail? ==> r == TeapotTutorial.RenderResult(o)
      ensures r == Pass <==> o.allocatorResetOk && o.listResetOk && o.closeOk
      ensures o.allocatorResetOk && o.listResetOk ==>
        commandList.recorded == RenderCommands(frameIndex, rtvHeap.step, cbvHeap.step)
      ensures r == Pass ==> !commandList.open && commandQueue.executed == old(commandQueue.executed) + [commandList.recorded]
    {
      if !o.allocatorResetOk {
        return Fail("Error resetting command allocator.");
      }
      commandList.Reset(o.listResetOk);
      if !o.listResetOk {
        return Fail("Error resetting command list.");
      }
      RecordFrame(frameIndex);
      commandList.Close(o.closeOk);
      if !o.closeOk {
        return Fail("Failed closing command list.");
      }
      commandQueue.Execute(commandList);
      r := Pass;
    }

    /**
     * One frame on back buffer `frameIndex`; `nextFrameIndex` is the buffer
     * current after `Present`, whose fence is waited on.
     */
    method Render(frameIndex: nat, nextFrameIndex: nat, o: TeapotTutorial.RenderOutcome)
      returns (waited: Option<nat>, r: Outcome)
      requires Valid()
      requires frameIndex < NumBackBuffers && nextFrameIndex < NumBackBuffers
      modifies fences, fenceValues, commandList, commandQueue
      ensures r == TeapotTutorial.RenderResult(o)
      ensures TeapotTutorial.ReachesSignal(o) ==>
        fenceValues[..] == old(fenceValues[..])[frameIndex := old(fenceValues[frameIndex]) + 1]
      ensures !TeapotTutorial.ReachesSignal(o) ==> fenceValues[..] == old(fenceValues[..])
      ensures fences[..] == if TeapotTutorial.ReachesSignal(o) && o.signalOk
        then old(fences[..])[frameIndex := Some(fenceValues[frameIndex])] else old(fences[..])
      ensures waited.Some? <==> TeapotTutorial.ReachesSignal(o) && o.signalOk
      ensures waited.Some? ==> waited.value == fenceValues[nextFrameIndex]
      ensures o.allocatorResetOk && o.listResetOk ==>
        commandList.recorded == RenderCommands(frameIndex, rtvHeap.step, cbvHeap.step)
      ensures TeapotTutorial.ReachesSignal(o) ==>
        commandQueue.executed == old(commandQueue.executed) + [commandList.recorded]
      ensures r == Pass ==> Valid()
    {
      waited := None;
      r := RecordAndExecute(frameIndex, o);
      if r.Fail? {
        return;
      }
      if !o.presentOk {
        return waited, Fail("Failed present.");
      }
      r := SignalFrame(frameIndex, o.signalOk);
      if r.Fail? {
        return;
      }
      var fenceValue;
      fenceValue, r := WaitForPreviousFrame(nextFrameIndex, o.setEventOk, o.wait);
      waited := Some(fenceValue);
    }
  }
}
