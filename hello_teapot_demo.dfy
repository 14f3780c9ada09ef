/**
 * HelloTeapotDemo: the teapot drawn as 28 tessellated parts.  Each back
 * buffer has its own constant buffer holding one 256-byte-aligned matrix
 * per part, and the shader-visible heap holds one constant-buffer view per
 * (back buffer, part) pair, at slot `frame * 28 + part`.  The index data
 * lives in one index buffer per patch.
 */
module HelloTeapotDemo {
  import opened Native
  import Layout
  import opened Descriptors
  import Graphics

  /** `NUM_PARTS`: the parts the teapot is drawn in. */
  const NumParts: nat := 28

  /** `sizeof(uint32_t)`: the size of one index. */
  const IndexSize: nat := 4

  /** The index views of the 28 `drawPart` calls of `render`, in the order of the calls. */
  const PartIndexViews: seq<nat> :=
    [0, 0, 0, 0, 1, 1, 1, 1, 2, 2, 2, 2, 3, 3, 3, 3, 4, 4, 4, 4, 5, 5, 6, 6, 7, 7, 8, 8]

  /** The patches `render` draws from: rim, two body patches, two lid patches, handle and spout. */
  const NumIndexViews: nat := 9

  const IndexErrors := UploadErrors(
    "Error creating control points index buffer.",
    "Error creating control points index buffer upload heap.")

  const ControlPointsErrors := UploadErrors(
    "Error creating control points buffer.",
    "Error creating control points buffer upload heap.")

  /**
   * The rule behind the schedule: parts 0 to 19 draw patches 0 to 4 four
   * times each (the four rotations), parts 20 to 27 patches 5 to 8 twice
   * each (plain and mirrored).
   */
  function PartIndexView(part: nat): (view: nat)
    requires part < NumParts
    ensures view < NumIndexViews
  {
    if part < 20 then part / 4 else 5 + (part - 20) / 2
  }

  /**
   * The calls of `render` follow the rule: one call per part, each naming
   * one of the nine index views, the patches in non-decreasing order.
   */
  lemma DrawSchedule()
    ensures |PartIndexViews| == NumParts
    ensures forall p :: 0 <= p < NumParts ==> PartIndexViews[p] == PartIndexView(p)
    ensures forall p :: 0 <= p < NumParts - 1 ==> PartIndexView(p) <= PartIndexView(p + 1)
  {
  }

  // -----------------------------------------------------------------------
  // Constant buffers and their views
  // -----------------------------------------------------------------------

  /** `bufferSize` of `createConstantBuffers`: one aligned matrix per part. */
  function ConstBufferSize(): nat
  {
    Layout.ConstantElementSize() * NumParts
  }

  /** The view `createConstantBuffers` writes for part `part` of constant buffer `buffer`. */
  function PartView(buffer: nat, part: nat): Descriptor
  {
    ConstantBufferView(buffer, Layout.BlockStart(part, Layout.ConstantElementSize()), Layout.ConstantElementSize())
  }

  /**
   * The views of one frame: each lies inside its buffer, the views of
   * different parts do not overlap, and every (frame, part) slot is a
   * distinct slot of the heap of `NUM_PARTS * bufferCount` descriptors.
   */
  lemma PartViewsLayout(frame: nat, p: nat, g: nat, q: nat, bufferCount: nat)
    requires frame < bufferCount && g < bufferCount && p < NumParts && q < NumParts
    ensures PartView(frame, p).location + PartView(frame, p).size <= ConstBufferSize()
    ensures p != q ==>
      PartView(frame, p).location + PartView(frame, p).size <= PartView(frame, q).location ||
      PartView(frame, q).location + PartView(frame, q).size <= PartView(frame, p).location
    ensures Layout.Slot(frame, NumParts, p) < NumParts * bufferCount
    ensures Layout.Slot(frame, NumParts, p) == Layout.Slot(g, NumParts, q) <==> frame == g && p == q
  {
    Layout.BlockInBounds(p, NumParts, Layout.ConstantElementSize());
    if p != q {
      Layout.BlocksDisjoint(p, q, Layout.ConstantElementSize());
    }
    Layout.SlotInBounds(frame, p, NumParts, bufferCount);
    Layout.SlotInjective(frame, p, g, q, NumParts);
  }

  /** `bufferCount` new constant buffers of `ConstBufferSize()` bytes. */
  function ConstantBuffers(n: nat): (r: seq<ConstantBuffer>)
    ensures |r| == n && forall i :: 0 <= i < n ==> r[i] == ConstantBuffer(ConstBufferSize())
  {
    if n == 0 then [] else ConstantBuffers(n - 1) + [ConstantBuffer(ConstBufferSize())]
  }

  /** A constant buffer in the upload heap, by its size in bytes. */
  datatype ConstantBuffer = ConstantBuffer(size: nat)

  // -----------------------------------------------------------------------
  // Index buffers
  // -----------------------------------------------------------------------

  /** `D3D12_INDEX_BUFFER_VIEW`: the buffer it starts at and its size in bytes. */
  datatype IndexBufferView = IndexBufferView(buffer: Resource, sizeInBytes: nat)

  /** `D3D12_VERTEX_BUFFER_VIEW` of the control points. */
  datatype VertexBufferView = VertexBufferView(buffer: Resource, strideInBytes: nat, sizeInBytes: nat)

  /** The index buffers of the first `n` patches, one per patch in patch order. */
  function PatchBuffers(n: nat): (r: seq<Resource>)
    ensures |r| == n
    ensures forall i :: 0 <= i < n ==> r[i] == IndexBuffer(i)
  {
    if n == 0 then [] else PatchBuffers(n - 1) + [IndexBuffer(n - 1)]
  }

  /** The views of the first `n` patches: `SizeInBytes` is four bytes per index. */
  function PatchViews(patches: seq<nat>, n: nat): (r: seq<IndexBufferView>)
    requires n <= |patches|
    ensures |r| == n
  {
    if n == 0 then [] else PatchViews(patches, n - 1) + [IndexBufferView(IndexBuffer(n - 1), IndexSize * patches[n - 1])]
  }

  /** The uploads the index-buffer loop submits for the first `n` patches. */
  function PatchUploads(n: nat): (r: seq<seq<Command>>)
    ensures |r| == n
    ensures forall i :: 0 <= i < n ==> r[i] == UploadCommands(IndexBuffer(i))
  {
    if n == 0 then [] else PatchUploads(n - 1) + [UploadCommands(IndexBuffer(n - 1))]
  }

  /** Index of the first upload at or after `from` that does not pass, or `|outcomes|`. */
  function FirstFailedUpload(outcomes: seq<UploadOutcome>, errors: UploadErrors, from: nat): (k: nat)
    requires from <= |outcomes|
    ensures from <= k <= |outcomes|
    ensures forall i :: from <= i < k ==> UploadResult(outcomes[i], errors) == Pass
    ensures k < |outcomes| ==> UploadResult(outcomes[k], errors) != Pass
    decreases |outcomes| - from
  {
    if from == |outcomes| then from
    else if UploadResult(outcomes[from], errors) != Pass then from
    else FirstFailedUpload(outcomes, errors, from + 1)
  }

  /** Patch `i`'s view is the `i`th, over its own index buffer, four bytes per index. */
  lemma {:induction false} PatchViewAt(patches: seq<nat>, n: nat, i: nat)
    requires i < n <= |patches|
    ensures PatchViews(patches, n)[i] == IndexBufferView(IndexBuffer(i), IndexSize * patches[i])
  {
    if i < n - 1 {
      PatchViewAt(patches, n - 1, i);
    }
  }

  /** The number of indices `drawPart` draws with a view is the length of its patch. */
  lemma NumIndicesIsPatchLength(patches: seq<nat>, i: nat)
    requires i < |patches|
    ensures PatchViews(patches, |patches|)[i].buffer == IndexBuffer(i)
    ensures PatchViews(patches, |patches|)[i].sizeInBytes / IndexSize == patches[i]
  {
    PatchViewAt(patches, |patches|, i);
  }

  // -----------------------------------------------------------------------
  // Recording a frame
  // -----------------------------------------------------------------------

  /** The commands of one `drawPart`: its frame's table for the part, the patch's index view, the draw. */
  function DrawPartCommands(frameIndex: nat, currPart: nat, indexView: nat, cbvStep: nat, numIndices: nat): seq<Command>
  {
    [ SetRootDescriptorTable(0, Layout.HandleOffset(Layout.Slot(frameIndex, NumParts, currPart), cbvStep)),
      SetIndexBuffer(indexView),
      DrawIndexed(numIndices) ]
  }

  /** The matrix `drawPart` copies into its frame's constant buffer. */
  function PartWrite(frameIndex: nat, currPart: nat): BufferWrite
  {
    BufferWrite(frameIndex, Layout.BlockStart(currPart, Layout.ConstantElementSize()), Layout.MatrixSize)
  }

  /** A `memcpy` into a mapped constant buffer: buffer index, byte offset and length. */
  datatype BufferWrite = BufferWrite(buffer: nat, offset: nat, length: nat)

  /** The commands of the first `n` parts of the schedule. */
  function DrawSequence(frameIndex: nat, views: seq<IndexBufferView>, cbvStep: nat, n: nat): seq<Command>
    requires n <= NumParts && |views| >= NumIndexViews
  {
    if n == 0 then [] else
    var view := PartIndexView(n - 1);
    DrawSequence(frameIndex, views, cbvStep, n - 1) +
    DrawPartCommands(frameIndex, n - 1, view, cbvStep, views[view].sizeInBytes / IndexSize)
  }

  /** The matrices copied by the first `n` parts: part `i`'s at `i * 256`. */
  function FrameWrites(frameIndex: nat, n: nat): (r: seq<BufferWrite>)
    ensures |r| == n && forall i :: 0 <= i < n ==> r[i] == PartWrite(frameIndex, i)
  {
    if n == 0 then [] else FrameWrites(frameIndex, n - 1) + [PartWrite(frameIndex, n - 1)]
  }

  /** Every matrix a frame copies goes to that frame's buffer, inside it. */
  lemma FrameWritesInBounds(frameIndex: nat, bufferCount: nat)
    requires frameIndex < bufferCount
    ensures forall i :: 0 <= i < NumParts ==>
      FrameWrites(frameIndex, NumParts)[i].buffer < bufferCount &&
      FrameWrites(frameIndex, NumParts)[i].offset + FrameWrites(frameIndex, NumParts)[i].length <= ConstBufferSize()
  {
    forall i | 0 <= i < NumParts
      ensures PartWrite(frameIndex, i).offset + PartWrite(frameIndex, i).length <= ConstBufferSize()
    {
      DrawBindsWrittenView(frameIndex, i, bufferCount, 1);
    }
  }

  /** The commands `render` records for back buffer `frameIndex`. */
  function FrameCommands(frameIndex: nat, views: seq<IndexBufferView>, rtvStep: nat, cbvStep: nat): seq<Command>
    requires |views| >= NumIndexViews
  {
    [ SetPipelineState(Wireframe),
      Transition(BackBuffer(frameIndex), Present, RenderTarget),
      SetRenderTarget(Layout.HandleOffset(frameIndex, rtvStep)),
      ClearRenderTarget(Layout.HandleOffset(frameIndex, rtvStep)) ] +
    DrawSequence(frameIndex, views, cbvStep, NumParts) +
    [ Transition(BackBuffer(frameIndex), RenderTarget, Present) ]
  }

  /**
   * Part `currPart` of frame `frameIndex` binds the heap slot its view was
   * written to, and its matrix lies inside that view and inside the buffer.
   */
  lemma DrawBindsWrittenView(frameIndex: nat, currPart: nat, bufferCount: nat, cbvStep: nat)
    requires frameIndex < bufferCount && currPart < NumParts && cbvStep > 0
    ensures var offset := Layout.HandleOffset(Layout.Slot(frameIndex, NumParts, currPart), cbvStep);
      offset % cbvStep == 0 && offset / cbvStep == Layout.Slot(frameIndex, NumParts, currPart) &&
      offset / cbvStep < NumParts * bufferCount
    ensures var w, v := PartWrite(frameIndex, currPart), PartView(frameIndex, currPart);
      w.buffer == v.buffer && v.location <= w.offset && w.offset + w.length <= v.location + v.size &&
      w.offset + w.length <= ConstBufferSize()
  {
    Layout.HandleOffsetDecodes(Layout.Slot(frameIndex, NumParts, currPart), cbvStep);
    Layout.SlotInBounds(frameIndex, currPart, NumParts, bufferCount);
    Layout.ConstantElementSizeIsLeastMultiple();
    Layout.BlockInBounds(currPart, NumParts, Layout.ConstantElementSize());
  }

  // -----------------------------------------------------------------------
  // A frame's steps
  // -----------------------------------------------------------------------

  /**
   * What each step of one `render` reports.  `waitForPreviousFrame` is
   * not defined in this file: its whole result is an input.
   */
  datatype RenderOutcome = RenderOutcome(
    allocatorResetOk: bool,
    listResetOk: bool,
    closeOk: bool,
    presentOk: bool,
    signalOk: bool,
    previousFrameWait: Outcome)

  /** The first failing step of a frame decides its error. */
  function RenderResult(o: RenderOutcome): Outcome
  {
    if !o.allocatorResetOk then Fail("Error resetting command allocator.")
    else if !o.listResetOk then Fail("Error resetting command list.")
    else if !o.closeOk then Fail("Failed closing command list.")
    else if !o.presentOk then Fail("Failed present.")
    else if !o.signalOk then Fail("Failed signal.")
    else o.previousFrameWait
  }

  /** Whether a frame gets as far as raising its fence counter. */
  predicate ReachesSignal(o: RenderOutcome)
  {
    o.allocatorResetOk && o.listResetOk && o.closeOk && o.presentOk
  }

  lemma RenderPassesIffAllStepsSucceed(o: RenderOutcome)
    ensures RenderResult(o) == Pass <==> ReachesSignal(o) && o.signalOk && o.previousFrameWait == Pass
  {
  }

  /**
   * The heap `createConstantBuffers` leaves: `NUM_PARTS` slots per frame,
   * and frame `f`'s part `p` slot views block `p` of frame `f`'s buffer.
   */
  predicate ViewsLaidOut(heap: DescriptorHeap, bufferCount: nat)
    reads heap.slots
  {
    heap.slots.Length == NumParts * bufferCount &&
    forall f, p :: 0 <= f < bufferCount && 0 <= p < NumParts ==>
      heap.slots[Layout.Slot(f, NumParts, p)] == Some(PartView(f, p))
  }

  class HelloTeapotDemo {
    const bufferCount: nat
    /** `GetDescriptorHandleIncrementSize` for render targets and for constant-buffer views. */
    const rtvStep: nat
    const cbvStep: nat
    const commandList: CommandList
    const commandQueue: CommandQueue
    /** The value last signalled on each frame's fence, and each frame's counter. */
    var fences: seq<nat>
    var fenceValues: seq<nat>
    var controlPointsBufferView: Option<VertexBufferView>
    var controlPointsIndexBuffers: seq<Resource>
    var controlPointsIndexBufferViews: seq<IndexBufferView>
    var descHeapCbv: DescriptorHeap?
    var constBuffers: seq<ConstantBuffer>
    /** Every matrix copied into a constant buffer so far, in order. */
    var constantWrites: seq<BufferWrite>

    /** Frame `i`'s fence never runs ahead of the value it waits for. */
    predicate FencesValid()
      reads this
    {
      |fences| == bufferCount && |fenceValues| == bufferCount &&
      forall i :: 0 <= i < bufferCount ==> fences[i] <= fenceValues[i]
    }

    /** The constant-buffer heap exists, with its views laid out for every frame. */
    predicate HeapValid()
      reads this, if descHeapCbv != null then {descHeapCbv.slots} else {}
    {
      descHeapCbv != null && descHeapCbv.step == cbvStep && ViewsLaidOut(descHeapCbv, bufferCount)
    }

    /** One constant buffer per frame, and every matrix write inside one of them. */
    predicate BuffersValid()
      reads this
    {
      |constBuffers| == bufferCount &&
      (forall i :: 0 <= i < |constBuffers| ==> constBuffers[i].size == ConstBufferSize()) &&
      forall i :: 0 <= i < |constantWrites| ==>
        constantWrites[i].buffer < |constBuffers| &&
        constantWrites[i].offset + constantWrites[i].length <= ConstBufferSize()
    }

    predicate Valid()
      reads this, commandList, if descHeapCbv != null then {descHeapCbv.slots} else {}
    {
      bufferCount > 0 && cbvStep > 0 && |controlPointsIndexBufferViews| >= NumIndexViews &&
      FencesValid() && HeapValid() && BuffersValid() && !commandList.open
    }

    /**
     * The members as the `Graphics` base leaves them: per-frame fences at
     * 0 and a closed command list; nothing of the demo's own yet.
     */
    constructor (bufferCount: nat, rtvStep: nat, cbvStep: nat, commandList: CommandList, commandQueue: CommandQueue)
      ensures this.bufferCount == bufferCount && this.rtvStep == rtvStep && this.cbvStep == cbvStep
      ensures this.commandList == commandList && this.commandQueue == commandQueue
      ensures fences == Graphics.Zeros(bufferCount) && fenceValues == Graphics.Zeros(bufferCount)
      ensures controlPointsBufferView == None && controlPointsIndexBuffers == [] && controlPointsIndexBufferViews == []
      ensures descHeapCbv == null && constBuffers == [] && constantWrites == []
    {
      this.bufferCount := bufferCount;
      this.rtvStep := rtvStep;
      this.cbvStep := cbvStep;
      this.commandList := commandList;
      this.commandQueue := commandQueue;
      fences := Graphics.Zeros(bufferCount);
      fenceValues := Graphics.Zeros(bufferCount);
      controlPointsBufferView := None;
      controlPointsIndexBuffers := [];
      controlPointsIndexBufferViews := [];
      descHeapCbv := null;
      constBuffers := [];
      constantWrites := [];
    }

    /**
     * `createControlPointsBuffer`: upload the control points through
     * frame 0's fence and describe them with a vertex-buffer view.
     */
    method CreateControlPointsBuffer(pointCount: nat, elementSize: nat, o: UploadOutcome) returns (r: Outcome)
      requires |fences| > 0
      modifies this, commandList, commandQueue
      ensures r == UploadResult(o, ControlPointsErrors)
      ensures r == Pass ==>
        controlPointsBufferView == Some(VertexBufferView(Buffer("Control Points Buffer"), elementSize, pointCount * elementSize))
      ensures r == Pass ==> fences == old(fences)[0 := 0] && !commandList.open
      ensures r == Pass ==> commandQueue.executed == old(commandQueue.executed) + [UploadCommands(Buffer("Control Points Buffer"))]
      ensures |fences| == |old(fences)| && fenceValues == old(fenceValues)
      ensures controlPointsIndexBuffers == old(controlPointsIndexBuffers)
      ensures controlPointsIndexBufferViews == old(controlPointsIndexBufferViews)
      ensures descHeapCbv == old(descHeapCbv) && constBuffers == old(constBuffers) && constantWrites == old(constantWrites)
    {
      var bufferSize := pointCount * elementSize;
      var fence;
      fence, r := Upload(commandList, commandQueue, Buffer("Control Points Buffer"), fences[0], o, ControlPointsErrors);
      fences := fences[0 := fence];
      if r.Fail? {
        return;
      }
      controlPointsBufferView := Some(VertexBufferView(Buffer("Control Points Buffer"), elementSize, bufferSize));
    }

    /**
     * One pass of the loop of `createControlPointsIndexBuffers`: create
     * patch `i`'s index buffer (appended as soon as it exists), upload the
     * patch through frame 0's fence and append its view.
     */
    method CreatePatchIndexBuffer(i: nat, patch: nat, o: UploadOutcome) returns (r: Outcome)
      requires |fences| > 0
      modifies this, commandList, commandQueue
      ensures r == UploadResult(o, IndexErrors)
      ensures controlPointsIndexBuffers == old(controlPointsIndexBuffers) + if o.defaultHeapOk then [IndexBuffer(i)] else []
      ensures controlPointsIndexBufferViews == old(controlPointsIndexBufferViews) +
        if r == Pass then [IndexBufferView(IndexBuffer(i), IndexSize * patch)] else []
      ensures r == Pass ==> fences == old(fences)[0 := 0] && !commandList.open
      ensures r == Pass ==> commandQueue.executed == old(commandQueue.executed) + [UploadCommands(IndexBuffer(i))]
      ensures |fences| == |old(fences)| && fenceValues == old(fenceValues)
      ensures controlPointsBufferView == old(controlPointsBufferView)
      ensures descHeapCbv == old(descHeapCbv) && constBuffers == old(constBuffers) && constantWrites == old(constantWrites)
    {
      var elementSize := IndexSize;
      var bufferSize := patch * elementSize;
      if !o.defaultHeapOk {
        return Fail(IndexErrors.defaultHeap);
      }
      var buffer := IndexBuffer(i);
      controlPointsIndexBuffers := controlPointsIndexBuffers + [buffer];
      var fence;
      fence, r := Upload(commandList, commandQueue, buffer, fences[0], o, IndexErrors);
      fences := fences[0 := fence];
      if r.Fail? {
        return;
      }
      controlPointsIndexBufferViews := controlPointsIndexBufferViews + [IndexBufferView(buffer, bufferSize)];
    }

    /**
     * `createControlPointsIndexBuffers`: one index buffer and one view per
     * patch, in patch order; the first failed upload is the error.
     */
    method CreateControlPointsIndexBuffers(patches: seq<nat>, outcomes: seq<UploadOutcome>) returns (r: Outcome)
      requires |outcomes| == |patches| && |fences| > 0
      modifies this, commandList, commandQueue
      ensures var k := FirstFailedUpload(outcomes, IndexErrors, 0);
        r == if k == |patches| then Pass else UploadResult(outcomes[k], IndexErrors)
      ensures controlPointsIndexBufferViews ==
        old(controlPointsIndexBufferViews) + PatchViews(patches, FirstFailedUpload(outcomes, IndexErrors, 0))
      ensures var k := FirstFailedUpload(outcomes, IndexErrors, 0);
        controlPointsIndexBuffers == old(controlPointsIndexBuffers) +
          PatchBuffers(if k < |patches| && outcomes[k].defaultHeapOk then k + 1 else k)
      ensures r == Pass ==> fences == if |patches| == 0 then old(fences) else old(fences)[0 := 0]
      ensures r == Pass ==> commandList.open == (old(commandList.open) && |patches| == 0)
      ensures r == Pass ==> commandQueue.executed == old(commandQueue.executed) + PatchUploads(|patches|)
      ensures |fences| == |old(fences)| && fenceValues == old(fenceValues)
      ensures controlPointsBufferView == old(controlPointsBufferView)
      ensures descHeapCbv == old(descHeapCbv) && constBuffers == old(constBuffers) && constantWrites == old(constantWrites)
    {
      ghost var k := FirstFailedUpload(outcomes, IndexErrors, 0);
      var i := 0;
      while i < |patches|
        invariant 0 <= i <= |patches| && i <= k
        invariant FirstFailedUpload(outcomes, IndexErrors, i) == k
        invariant controlPointsIndexBufferViews == old(controlPointsIndexBufferViews) + PatchViews(patches, i)
        invariant controlPointsIndexBuffers == old(controlPointsIndexBuffers) + PatchBuffers(i)
        invariant |fences| == |old(fences)| && fenceValues == old(fenceValues)
        invariant i > 0 ==> fences == old(fences)[0 := 0] && !commandList.open
        invariant i == 0 ==> fences == old(fences) && commandList.open == old(commandList.open)
        invariant commandQueue.executed == old(commandQueue.executed) + PatchUploads(i)
        invariant controlPointsBufferView == old(controlPointsBufferView)
        invariant descHeapCbv == old(descHeapCbv) && constBuffers == old(constBuffers) && constantWrites == old(constantWrites)
      {
        ghost var before := fences;
        r := CreatePatchIndexBuffer(i, patches[i], outcomes[i]);
        if r.Fail? {
          assert k == i;
          assert PatchBuffers(i + 1) == PatchBuffers(i) + [IndexBuffer(i)];
          return;
        }
        if i > 0 {
          assert before[0 := 0] == before;
        }
        assert FirstFailedUpload(outcomes, IndexErrors, i + 1) == k;
        assert PatchViews(patches, i + 1) == PatchViews(patches, i) + [IndexBufferView(IndexBuffer(i), IndexSize * patches[i])];
        assert PatchBuffers(i + 1) == PatchBuffers(i) + [IndexBuffer(i)];
        assert PatchUploads(i + 1) == PatchUploads(i) + [UploadCommands(IndexBuffer(i))];
        i := i + 1;
      }
      r := Pass;
    }

    /**
     * The constructor's uploads: the control points, then the index
     * buffers, all through frame 0's fence, which stays at 0.
     */
    method CreateUploads(pointCount: nat, elementSize: nat, pointsUpload: UploadOutcome,
                         patches: seq<nat>, outcomes: seq<UploadOutcome>) returns (r: Outcome)
      requires |outcomes| == |patches| && |fences| > 0 && fences[0] == 0
      requires controlPointsIndexBufferViews == [] && !commandList.open
      modifies this, commandList, commandQueue
      ensures r == Pass <==>
        UploadResult(pointsUpload, ControlPointsErrors) == Pass && FirstFailedUpload(outcomes, IndexErrors, 0) == |patches|
      ensures r == Pass ==> controlPointsIndexBufferViews == PatchViews(patches, |patches|)
      ensures r == Pass ==> !commandList.open && fences == old(fences)
      ensures fenceValues == old(fenceValues)
      ensures descHeapCbv == old(descHeapCbv) && constBuffers == old(constBuffers) && constantWrites == old(constantWrites)
    {
      r := CreateControlPointsBuffer(pointCount, elementSize, pointsUpload);
      if r.Fail? {
        return;
      }
      assert old(fences)[0 := 0] == old(fences);
      r := CreateControlPointsIndexBuffers(patches, outcomes);
    }

    /**
     * The constructor's steps after the base class: the uploads, the heap
     * and the constant buffers.  Once they pass, and with the nine patches
     * `render` draws, a frame can start.
     */
    method Initialize(pointCount: nat, elementSize: nat, pointsUpload: UploadOutcome,
                      patches: seq<nat>, outcomes: seq<UploadOutcome>, cbvHeapOk: bool) returns (r: Outcome)
      requires bufferCount > 0 && cbvStep > 0 && |outcomes| == |patches|
      requires fences == Graphics.Zeros(bufferCount) && fenceValues == Graphics.Zeros(bufferCount)
      requires controlPointsIndexBufferViews == [] && descHeapCbv == null && constBuffers == [] && constantWrites == []
      requires !commandList.open
      modifies this, commandList, commandQueue
      ensures r == Pass <==>
        UploadResult(pointsUpload, ControlPointsErrors) == Pass &&
        FirstFailedUpload(outcomes, IndexErrors, 0) == |patches| && cbvHeapOk
      ensures r == Pass ==> controlPointsIndexBufferViews == PatchViews(patches, |patches|)
      ensures r == Pass ==> |constBuffers| == bufferCount
      ensures r == Pass && |patches| >= NumIndexViews ==> Valid()
    {
      r := CreateUploads(pointCount, elementSize, pointsUpload, patches, outcomes);
      if r.Fail? {
        return;
      }
      r := CreateConstantBufferViews(cbvHeapOk);
    }

    /** `createCbvHeap` followed by `createConstantBuffers`, from no heap and no buffers. */
    method CreateConstantBufferViews(cbvHeapOk: bool) returns (r: Outcome)
      requires cbvStep > 0 && descHeapCbv == null && constBuffers == []
      modifies this
      ensures r == if cbvHeapOk then Pass else Fail("Error creating constant buffer heap.")
      ensures r == Pass ==> descHeapCbv != null && fresh(descHeapCbv.slots)
      ensures r == Pass ==> descHeapCbv.step == cbvStep && descHeapCbv.slots.Length == NumParts * bufferCount
      ensures r == Pass ==> forall f, p :: 0 <= f < bufferCount && 0 <= p < NumParts ==>
        descHeapCbv.slots[Layout.Slot(f, NumParts, p)] == Some(PartView(f, p))
      ensures r == Pass ==> constBuffers == ConstantBuffers(bufferCount)
      ensures fences == old(fences) && fenceValues == old(fenceValues)
      ensures controlPointsBufferView == old(controlPointsBufferView)
      ensures controlPointsIndexBuffers == old(controlPointsIndexBuffers)
      ensures controlPointsIndexBufferViews == old(controlPointsIndexBufferViews)
      ensures constantWrites == old(constantWrites)
    {
      r := CreateCbvHeap(cbvHeapOk);
      if r.Fail? {
        return;
      }
      CreateConstantBuffers();
      assert constBuffers == [] + ConstantBuffers(bufferCount);
      forall f, p | 0 <= f < bufferCount && 0 <= p < NumParts
        ensures descHeapCbv.slots[Layout.Slot(f, NumParts, p)] == Some(PartView(f, p))
      {
        assert 0 + f == f;
      }
    }

    /** `createCbvHeap`: `NUM_PARTS * bufferCount` empty constant-buffer view slots. */
    method CreateCbvHeap(createOk: bool) returns (r: Outcome)
      modifies this
      ensures r == if createOk then Pass else Fail("Error creating constant buffer heap.")
      ensures createOk ==> descHeapCbv != null && fresh(descHeapCbv) && fresh(descHeapCbv.slots)
      ensures createOk ==> descHeapCbv.step == cbvStep && descHeapCbv.slots.Length == NumParts * bufferCount
      ensures createOk ==> forall s :: 0 <= s < descHeapCbv.slots.Length ==> descHeapCbv.slots[s] == None
      ensures !createOk ==> descHeapCbv == old(descHeapCbv)
      ensures fences == old(fences) && fenceValues == old(fenceValues)
      ensures controlPointsBufferView == old(controlPointsBufferView)
      ensures controlPointsIndexBuffers == old(controlPointsIndexBuffers)
      ensures controlPointsIndexBufferViews == old(controlPointsIndexBufferViews)
      ensures constBuffers == old(constBuffers) && constantWrites == old(constantWrites)
    {
      if !createOk {
        return Fail("Error creating constant buffer heap.");
      }
      descHeapCbv := new DescriptorHeap(NumParts * bufferCount, cbvStep);
      r := Pass;
    }

    /**
     * One pass of the inner loop of `createConstantBuffers`: the views of
     * every part of buffer `i`.  Slots before frame `i`'s table keep
     * what they held, and so do the slots after it.
     */
    method CreateFrameViews(heap: DescriptorHeap, base: nat, i: nat)
      requires heap.step > 0 && i < bufferCount && heap.slots.Length == NumParts * bufferCount
      modifies heap.slots
      ensures forall s :: 0 <= s < heap.slots.Length ==>
        heap.slots[s] == if Layout.TableStart(i, NumParts) <= s < Layout.TableStart(i + 1, NumParts)
          then Some(PartView(base + i, s - Layout.TableStart(i, NumParts))) else old(heap.slots[s])
    {
      var elementSizeAligned := Layout.AlignTo256(Layout.MatrixSize as bv64) as nat;
      Layout.ConstantElementSizeIsLeastMultiple();
      ghost var start := Layout.TableStart(i, NumParts);
      Layout.MulSucc(i, NumParts);
      Layout.SlotInBounds(i, NumParts - 1, NumParts, bufferCount);
      var partIndex := 0;
      while partIndex < NumParts
        invariant 0 <= partIndex <= NumParts
        invariant forall s :: 0 <= s < heap.slots.Length ==>
          heap.slots[s] == if start <= s < start + partIndex then Some(PartView(base + i, s - start)) else old(heap.slots[s])
      {
        var address := partIndex * elementSizeAligned;
        var d := (i * NumParts + partIndex) * heap.step;
        Layout.HandleOffsetDecodes(Layout.Slot(i, NumParts, partIndex), heap.step);
        heap.Write(d, ConstantBufferView(base + i, address, elementSizeAligned));
        partIndex := partIndex + 1;
      }
    }

    /**
     * `createConstantBuffers`: one buffer of `NUM_PARTS` aligned matrices
     * per back buffer, and the view of part `p` of buffer `i` at slot
     * `i * NUM_PARTS + p`.  The creation results are not checked.
     */
    method CreateConstantBuffers()
      requires descHeapCbv != null && descHeapCbv.step == cbvStep && cbvStep > 0
      requires descHeapCbv.slots.Length == NumParts * bufferCount
      modifies this, descHeapCbv.slots
      ensures descHeapCbv == old(descHeapCbv)
      ensures constBuffers == old(constBuffers) + ConstantBuffers(bufferCount)
      ensures forall f, p :: 0 <= f < bufferCount && 0 <= p < NumParts ==>
        descHeapCbv.slots[Layout.Slot(f, NumParts, p)] == Some(PartView(|old(constBuffers)| + f, p))
      ensures fences == old(fences) && fenceValues == old(fenceValues)
      ensures controlPointsBufferView == old(controlPointsBufferView)
      ensures controlPointsIndexBuffers == old(controlPointsIndexBuffers)
      ensures controlPointsIndexBufferViews == old(controlPointsIndexBufferViews)
      ensures constantWrites == old(constantWrites)
    {
      var heap := descHeapCbv;
      var base := |constBuffers|;
      var i := 0;
      while i < bufferCount
        invariant 0 <= i <= bufferCount
        invariant constBuffers == old(constBuffers) + ConstantBuffers(i) && descHeapCbv == heap
        invariant forall s :: 0 <= s < heap.slots.Length ==>
          heap.slots[s] == if s < Layout.TableStart(i, NumParts)
            then Some(PartView(base + s / NumParts, s % NumParts)) else old(heap.slots[s])
        invariant fences == old(fences) && fenceValues == old(fenceValues)
        invariant controlPointsBufferView == old(controlPointsBufferView)
        invariant controlPointsIndexBuffers == old(controlPointsIndexBuffers)
        invariant controlPointsIndexBufferViews == old(controlPointsIndexBufferViews)
        invariant constantWrites == old(constantWrites)
      {
        constBuffers := constBuffers + [ConstantBuffer(ConstBufferSize())];
        CreateFrameViews(heap, base, i);
        forall s | Layout.TableStart(i, NumParts) <= s < Layout.TableStart(i + 1, NumParts)
          ensures s / NumParts == i && s % NumParts == s - Layout.TableStart(i, NumParts)
        {
          Layout.MulSucc(i, NumParts);
          Layout.DivModUnique(s, NumParts, i, s - Layout.TableStart(i, NumParts));
        }
        i := i + 1;
      }
      forall f, p | 0 <= f < bufferCount && 0 <= p < NumParts
        ensures heap.slots[Layout.Slot(f, NumParts, p)] == Some(PartView(base + f, p))
      {
        Layout.SlotDecodes(f, p, NumParts);
        Layout.SlotInBounds(f, p, NumParts, bufferCount);
      }
    }

    /** `drawPart`: bind the part's table, copy its matrix, draw its patch. */
    method DrawPart(frameIndex: nat, currPart: nat, indexView: nat)
      requires commandList.open && indexView < |controlPointsIndexBufferViews|
      modifies this, commandList
      ensures controlPointsIndexBufferViews == old(controlPointsIndexBufferViews)
      ensures commandList.open
      ensures commandList.recorded == old(commandList.recorded) +
        DrawPartCommands(frameIndex, currPart, indexView, cbvStep, controlPointsIndexBufferViews[indexView].sizeInBytes / IndexSize)
      ensures constantWrites == old(constantWrites) + [PartWrite(frameIndex, currPart)]
      ensures fences == old(fences) && fenceValues == old(fenceValues)
      ensures controlPointsBufferView == old(controlPointsBufferView)
      ensures controlPointsIndexBuffers == old(controlPointsIndexBuffers)
      ensures descHeapCbv == old(descHeapCbv) && constBuffers == old(constBuffers)
    {
      var constDataSizeAligned := Layout.AlignTo256(Layout.MatrixSize as bv64) as nat;
      Layout.ConstantElementSizeIsLeastMultiple();
      var descriptorSize := cbvStep;
      var d := (frameIndex * NumParts + currPart) * descriptorSize;
      commandList.Record(SetRootDescriptorTable(0, d));
      constantWrites := constantWrites + [BufferWrite(frameIndex, currPart * constDataSizeAligned, Layout.MatrixSize)];
      var view := controlPointsIndexBufferViews[indexView];
      commandList.Record(SetIndexBuffer(indexView));
      var numIndices := view.sizeInBytes / IndexSize;
      commandList.Record(DrawIndexed(numIndices));
    }

    /**
     * The 28 `drawPart` calls of `render`, whose `currPart++` and
     * index-view arguments the loop takes from the schedule.
     */
    method DrawTeapot(frameIndex: nat)
      requires commandList.open
      requires |controlPointsIndexBufferViews| >= NumIndexViews
      modifies this, commandList
      ensures controlPointsIndexBufferViews == old(controlPointsIndexBufferViews)
      ensures commandList.open
      ensures commandList.recorded == old(commandList.recorded) + DrawSequence(frameIndex, controlPointsIndexBufferViews, cbvStep, NumParts)
      ensures constantWrites == old(constantWrites) + FrameWrites(frameIndex, NumParts)
      ensures fences == old(fences) && fenceValues == old(fenceValues)
      ensures controlPointsBufferView == old(controlPointsBufferView)
      ensures controlPointsIndexBuffers == old(controlPointsIndexBuffers)
      ensures descHeapCbv == old(descHeapCbv) && constBuffers == old(constBuffers)
    {
      var currPart := 0;
      while currPart < NumParts
        invariant 0 <= currPart <= NumParts && commandList.open
        invariant controlPointsIndexBufferViews == old(controlPointsIndexBufferViews)
        invariant commandList.recorded == old(commandList.recorded) + DrawSequence(frameIndex, controlPointsIndexBufferViews, cbvStep, currPart)
        invariant constantWrites == old(constantWrites) + FrameWrites(frameIndex, currPart)
        invariant fences == old(fences) && fenceValues == old(fenceValues)
        invariant controlPointsBufferView == old(controlPointsBufferView)
        invariant controlPointsIndexBuffers == old(controlPointsIndexBuffers)
        invariant descHeapCbv == old(descHeapCbv) && constBuffers == old(constBuffers)
      {
        DrawPart(frameIndex, currPart, PartIndexView(currPart));
        currPart := currPart + 1;
      }
    }

    /** The recording part of `render`, on the freshly reset list. */
    method RecordFrame(frameIndex: nat)
      requires commandList.open && commandList.recorded == []
      requires |controlPointsIndexBufferViews| >= NumIndexViews
      modifies this, commandList
      ensures controlPointsIndexBufferViews == old(controlPointsIndexBufferViews)
      ensures commandList.open
      ensures commandList.recorded == FrameCommands(frameIndex, controlPointsIndexBufferViews, rtvStep, cbvStep)
      ensures constantWrites == old(constantWrites) + FrameWrites(frameIndex, NumParts)
      ensures fences == old(fences) && fenceValues == old(fenceValues)
      ensures controlPointsBufferView == old(controlPointsBufferView)
      ensures controlPointsIndexBuffers == old(controlPointsIndexBuffers)
      ensures descHeapCbv == old(descHeapCbv) && constBuffers == old(constBuffers)
    {
      commandList.Record(SetPipelineState(Wireframe));
      commandList.Record(Transition(BackBuffer(frameIndex), Present, RenderTarget));
      var descHandleRtv := frameIndex * rtvStep;
      commandList.Record(SetRenderTarget(descHandleRtv));
      commandList.Record(ClearRenderTarget(descHandleRtv));
      DrawTeapot(frameIndex);
      commandList.Record(Transition(BackBuffer(frameIndex), RenderTarget, Present));
    }

    /**
     * The first part of `render`: reset the allocator and the list,
     * record the frame, close the list and submit it.
     */
    method RecordAndExecute(frameIndex: nat, o: RenderOutcome) returns (r: Outcome)
      requires !commandList.open && |controlPointsIndexBufferViews| >= NumIndexViews
      modifies this, commandList, commandQueue
      ensures controlPointsIndexBufferViews == old(controlPointsIndexBufferViews)
      ensures r.Fail? ==> r == RenderResult(o)
      ensures r == Pass <==> o.allocatorResetOk && o.listResetOk && o.closeOk
      ensures o.allocatorResetOk && o.listResetOk ==>
        commandList.recorded == FrameCommands(frameIndex, controlPointsIndexBufferViews, rtvStep, cbvStep) &&
        constantWrites == old(constantWrites) + FrameWrites(frameIndex, NumParts)
      ensures r == Pass ==> !commandList.open && commandQueue.executed == old(commandQueue.executed) + [commandList.recorded]
      ensures fences == old(fences) && fenceValues == old(fenceValues)
      ensures controlPointsBufferView == old(controlPointsBufferView)
      ensures controlPointsIndexBuffers == old(controlPointsIndexBuffers)
      ensures descHeapCbv == old(descHeapCbv) && constBuffers == old(constBuffers)
    {
      if !o.allocatorResetOk {
        return Fail("Error resetting command allocator.");
      }
      commandList.Reset(o.listResetOk);
      if !o.listResetOk {
        return Fail("Error resetting command list.");
      }
      RecordFrame(frameIndex);
      commandList.Close(o.closeOk);
      if !o.closeOk {
        return Fail("Failed closing command list.");
      }
      commandQueue.Execute(commandList);
      r := Pass;
    }

    /**
     * One frame on back buffer `frameIndex`: record and submit, present,
     * raise and signal the frame's fence counter, then wait.
     */
    method Render(frameIndex: nat, o: RenderOutcome) returns (r: Outcome)
      requires Valid() && frameIndex < bufferCount
      modifies this, commandList, commandQueue
      ensures controlPointsIndexBufferViews == old(controlPointsIndexBufferViews)
      ensures r == RenderResult(o)
      ensures fenceValues == if ReachesSignal(o)
        then old(fenceValues)[frameIndex := old(fenceValues[frameIndex]) + 1] else old(fenceValues)
      ensures fences == if ReachesSignal(o) && o.signalOk
        then old(fences)[frameIndex := fenceValues[frameIndex]] else old(fences)
      ensures o.allocatorResetOk && o.listResetOk ==>
        commandList.recorded == FrameCommands(frameIndex, controlPointsIndexBufferViews, rtvStep, cbvStep)
      ensures o.allocatorResetOk && o.listResetOk ==>
        constantWrites == old(constantWrites) + FrameWrites(frameIndex, NumParts)
      ensures ReachesSignal(o) ==> commandQueue.executed == old(commandQueue.executed) + [commandList.recorded]
      ensures r == Pass ==> Valid()
    {
      r := RecordAndExecute(frameIndex, o);
      if r.Fail? {
        return;
      }
      if !o.presentOk {
        return Fail("Failed present.");
      }
      fenceValues := fenceValues[frameIndex := fenceValues[frameIndex] + 1];
      if !o.signalOk {
        return Fail("Failed signal.");
      }
      fences := fences[frameIndex := fenceValues[frameIndex]];
      r := o.previousFrameWait;
      if r == Pass {
        FrameWritesInBounds(frameIndex, bufferCount);
        assert FencesValid();
        assert HeapValid();
        assert BuffersValid();
      }
    }

    /** In a valid state, every part of every frame binds the view written for it. */
    lemma DrawnViewIsWritten(frameIndex: nat, currPart: nat)
      requires Valid() && frameIndex < bufferCount && currPart < NumParts
      ensures var offset := DrawPartCommands(frameIndex, currPart, 0, cbvStep, 0)[0].offset;
        descHeapCbv.ValidHandle(offset) && descHeapCbv.slots[offset / cbvStep] == Some(PartView(frameIndex, currPart))
      ensures PartWrite(frameIndex, currPart).buffer < |constBuffers|
    {
      DrawBindsWrittenView(frameIndex, currPart, bufferCount, cbvStep);
    }
  }
}
