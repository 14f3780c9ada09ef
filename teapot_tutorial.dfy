/**
 * `TeapotTutorial`, the tessellated-teapot demo built on `Graphics1`: the
 * key-press state machine that steers the tessellation factor and the fill
 * mode, the constant-buffer sizing, and the per-frame bookkeeping of
 * `render`.
 */
module TeapotTutorial {
  import opened Native
  import Layout
  import opened Descriptors
  import Graphics

  /** `WPARAM` codes of the keys '1' to '4'. */
  const KeyLessTessellation: nat := 49
  const KeyMoreTessellation: nat := 50
  const KeyWireframe: nat := 51
  const KeySolid: nat := 52

  const InitialTessFactor: int := 8
  const MinTessFactor: int := 1
  const MaxTessFactor: int := 64

  /** What the key callback changes: `tessFactor` and `currPipelineState`. */
  datatype KeyState = KeyState(tessFactor: int, fill: FillMode)

  /** The state once the constructor returns: factor 8, the wireframe pipeline current. */
  function InitialKeyState(): KeyState
  {
    KeyState(InitialTessFactor, Wireframe)
  }

  predicate InRange(s: KeyState)
  {
    MinTessFactor <= s.tessFactor <= MaxTessFactor
  }

  /** The key callback as a function of the state. */
  function Press(s: KeyState, key: nat): KeyState
  {
    if key == KeyLessTessellation then
      s.(tessFactor := if s.tessFactor - 1 < MinTessFactor then MinTessFactor else s.tessFactor - 1)
    else if key == KeyMoreTessellation then
      s.(tessFactor := if s.tessFactor + 1 > MaxTessFactor then MaxTessFactor else s.tessFactor + 1)
    else if key == KeyWireframe then
      s.(fill := Wireframe)
    else if key == KeySolid then
      s.(fill := Solid)
    else
      s
  }

  /**
   * From a state in range: '1' lowers the factor by one except at 1, '2'
   * raises it by one except at 64, and neither touches the fill mode; '3'
   * and '4' select wireframe and solid and leave the factor; any other key
   * changes nothing.
   */
  lemma PressEffect(s: KeyState, key: nat)
    requires InRange(s)
    ensures key == KeyLessTessellation ==>
      Press(s, key).fill == s.fill &&
      Press(s, key).tessFactor == (if s.tessFactor == MinTessFactor then MinTessFactor else s.tessFactor - 1)
    ensures key == KeyMoreTessellation ==>
      Press(s, key).fill == s.fill &&
      Press(s, key).tessFactor == (if s.tessFactor == MaxTessFactor then MaxTessFactor else s.tessFactor + 1)
    ensures key == KeyWireframe ==> Press(s, key) == KeyState(s.tessFactor, Wireframe)
    ensures key == KeySolid ==> Press(s, key) == KeyState(s.tessFactor, Solid)
    ensures key !in {KeyLessTessellation, KeyMoreTessellation, KeyWireframe, KeySolid} ==> Press(s, key) == s
  {
  }

  /** The factor saturates: a press never leaves the range 1..64. */
  lemma PressPreservesRange(s: KeyState, key: nat)
    requires InRange(s)
    ensures InRange(Press(s, key))
  {
  }

  /** The state after a sequence of key presses, in order. */
  function PressAll(s: KeyState, keys: seq<nat>): KeyState
    decreases |keys|
  {
    if keys == [] then s else PressAll(Press(s, keys[0]), keys[1..])
  }

  lemma {:induction false} PressAllPreservesRange(s: KeyState, keys: seq<nat>)
    requires InRange(s)
    ensures InRange(PressAll(s, keys))
    decreases |keys|
  {
    if keys != [] {
      PressPreservesRange(s, keys[0]);
      PressAllPreservesRange(Press(s, keys[0]), keys[1..]);
    }
  }

  /** Whatever keys are pressed after construction, `1 <= tessFactor <= 64`. */
  lemma ReachableStatesInRange(keys: seq<nat>)
    ensures InRange(PressAll(InitialKeyState(), keys))
  {
    PressAllPreservesRange(InitialKeyState(), keys);
  }

  /** Pressing '2' enough times from any state in range reaches the ceiling, and stays there. */
  lemma {:induction false} RaisingSaturates(s: KeyState, n: nat)
    requires InRange(s) && s.tessFactor + n >= MaxTessFactor
    ensures PressAll(s, seq(n, _ => KeyMoreTessellation)).tessFactor == MaxTessFactor
    decreases n
  {
    var keys := seq(n, _ => KeyMoreTessellation);
    if n == 0 {
      assert keys == [];
    } else {
      assert keys[1..] == seq(n - 1, _ => KeyMoreTessellation);
      RaisingSaturates(Press(s, KeyMoreTessellation), n - 1);
    }
  }

  // -----------------------------------------------------------------------
  // Constant buffer: one aligned matrix per back buffer
  // -----------------------------------------------------------------------

  /** `createConstantBuffer`'s size: one aligned element per back buffer. */
  function ConstantBufferSize(bufferCount: nat): nat
  {
    Layout.ConstantElementSize() * bufferCount
  }

  /** Frame `f`'s matrix at `f * aligned` lies inside the buffer, and frames do not overlap. */
  lemma FrameConstantsFit(f: nat, g: nat, bufferCount: nat)
    requires f < bufferCount && g < bufferCount
    ensures Layout.BlockStart(f, Layout.ConstantElementSize()) + Layout.MatrixSize <= ConstantBufferSize(bufferCount)
    ensures f != g ==> Layout.BlockStart(f, 256) + 256 <= Layout.BlockStart(g, 256) ||
                       Layout.BlockStart(g, 256) + 256 <= Layout.BlockStart(f, 256)
  {
    Layout.ConstantElementSizeIsLeastMultiple();
    Layout.WriteInBlock(f, bufferCount, 256, Layout.MatrixSize);
    if f != g {
      Layout.BlocksDisjoint(f, g, 256);
    }
  }

  /** `createConstantBuffer`: an upload buffer of `ConstantBufferSize(bufferCount)` bytes. */
  method CreateConstantBuffer(bufferCount: nat, createOk: bool) returns (r: Result<nat>)
    ensures r.Err? <==> !createOk
    ensures r.Err? ==> r.message == "Error creating constant buffer."
    ensures r.Ok? ==> r.value == 256 * bufferCount
    ensures r.Ok? ==> forall f :: 0 <= f < bufferCount ==> f * 256 + Layout.MatrixSize <= r.value
  {
    if !createOk {
      return Err("Error creating constant buffer.");
    }
    Layout.ConstantElementSizeIsLeastMultiple();
    var elementSizeAligned := Layout.AlignTo256(Layout.MatrixSize as bv64) as nat;
    var bufferSize := elementSizeAligned * bufferCount;
    forall f | 0 <= f < bufferCount
      ensures f * 256 + Layout.MatrixSize <= bufferSize
    {
      FrameConstantsFit(f, f, bufferCount);
    }
    return Ok(bufferSize);
  }

  // -----------------------------------------------------------------------
  // The demo object
  // -----------------------------------------------------------------------

  /** What each checked native step of one `render` reports. */
  datatype RenderOutcome = RenderOutcome(
    allocatorResetOk: bool,
    listResetOk: bool,
    closeOk: bool,
    presentOk: bool,
    signalOk: bool,
    setEventOk: bool,
    wait: nat)

  /** The first failing step of a frame decides its error. */
  function RenderResult(o: RenderOutcome): Outcome
  {
    if !o.allocatorResetOk then Fail("Error resetting command allocator.")
    else if !o.listResetOk then Fail("Error resetting command list.")
    else if !o.closeOk then Fail("Failed closing command list.")
    else if !o.presentOk then Fail("Failed present.")
    else if !o.signalOk then Fail("Failed signal.")
    else AwaitFence(o.setEventOk, o.wait)
  }

  /** Whether a frame gets as far as raising its fence counter. */
  predicate ReachesSignal(o: RenderOutcome)
  {
    o.allocatorResetOk && o.listResetOk && o.closeOk && o.presentOk
  }

  /** A frame completes exactly when every step succeeds. */
  lemma RenderPassesIffAllStepsSucceed(o: RenderOutcome)
    ensures RenderResult(o) == Pass <==>
      ReachesSignal(o) && o.signalOk && o.setEventOk && o.wait == WAIT_OBJECT_0
  {
  }

  /** The commands `render` records for back buffer `frameIndex`. */
  function RenderCommands(frameIndex: nat, s: KeyState, rtvStep: nat, numIndices: nat): seq<Command>
  {
    [ SetPipelineState(s.fill),
      Transition(BackBuffer(frameIndex), Present, RenderTarget),
      SetRenderTarget(Layout.HandleOffset(frameIndex, rtvStep)),
      ClearRenderTarget(Layout.HandleOffset(frameIndex, rtvStep)),
      SetRootConstants(1, [s.tessFactor, s.tessFactor]),
      SetRootDescriptorTable(2, 0),
      SetRootConstantBufferView(0, Layout.BlockStart(frameIndex, Layout.ConstantElementSize())),
      SetIndexBuffer(0),
      DrawIndexed(numIndices),
      Transition(BackBuffer(frameIndex), RenderTarget, Present) ]
  }

  /**
   * What a recorded frame binds: the render target written for buffer
   * `frameIndex`, both hull-shader constants equal to the current factor,
   * frame `frameIndex`'s matrix inside the constant buffer, and the back
   * buffer moved to the render-target state and back to present.
   */
  lemma RenderCommandsBindFrame(frameIndex: nat, bufferCount: nat, s: KeyState, rtvStep: nat, numIndices: nat)
    requires frameIndex < bufferCount && rtvStep > 0
    ensures var cmds := RenderCommands(frameIndex, s, rtvStep, numIndices);
      cmds[2].rtvOffset / rtvStep == frameIndex && cmds[2].rtvOffset % rtvStep == 0 &&
      cmds[4].values == [s.tessFactor, s.tessFactor] &&
      cmds[6].offset + Layout.MatrixSize <= ConstantBufferSize(bufferCount) &&
      cmds[1].after == cmds[9].before == RenderTarget && cmds[1].before == cmds[9].after == Present
  {
    Layout.HandleOffsetDecodes(frameIndex, rtvStep);
    FrameConstantsFit(frameIndex, frameIndex, bufferCount);
  }

  class TeapotTutorial {
    const bufferCount: nat
    /** `Graphics1`'s allocators, fences and counters, which `render` uses. */
    const frames: Graphics.FrameResources
    const rtvHeap: DescriptorHeap
    const commandList: CommandList
    const commandQueue: CommandQueue
    /** `TeapotData::patches.size()`: the index buffer holds that many 32-bit indices. */
    const patchIndexCount: nat
    var tessFactor: int
    var currPipelineState: FillMode

    function KeyStateOf(): KeyState
      reads this
    {
      KeyState(tessFactor, currPipelineState)
    }

    /** The state between frames. */
    predicate Valid()
      reads this, frames, rtvHeap, rtvHeap.slots, commandList
    {
      InRange(KeyStateOf()) &&
      frames.bufferCount == bufferCount && frames.Valid() &&
      |frames.commandAllocators| == bufferCount && |frames.fences| == bufferCount &&
      rtvHeap.step > 0 && rtvHeap.slots.Length == bufferCount &&
      (forall i :: 0 <= i < bufferCount ==> rtvHeap.slots[i] == Some(RenderTargetView(i))) &&
      !commandList.open
    }

    /**
     * The constructor once the base classes have set everything up: the
     * factor starts at 8 and the wireframe pipeline is current.
     */
    constructor (frames: Graphics.FrameResources, rtvHeap: DescriptorHeap,
                 commandList: CommandList, commandQueue: CommandQueue, patchIndexCount: nat)
      requires frames.Valid() && |frames.commandAllocators| == frames.bufferCount
      requires |frames.fences| == frames.bufferCount
      requires rtvHeap.step > 0 && rtvHeap.slots.Length == frames.bufferCount
      requires forall i :: 0 <= i < frames.bufferCount ==> rtvHeap.slots[i] == Some(RenderTargetView(i))
      requires !commandList.open
      ensures KeyStateOf() == InitialKeyState()
      ensures bufferCount == frames.bufferCount && this.frames == frames && this.rtvHeap == rtvHeap
      ensures this.commandList == commandList && this.commandQueue == commandQueue
      ensures this.patchIndexCount == patchIndexCount
      ensures Valid()
    {
      bufferCount := frames.bufferCount;
      this.frames := frames;
      this.rtvHeap := rtvHeap;
      this.commandList := commandList;
      this.commandQueue := commandQueue;
      this.patchIndexCount := patchIndexCount;
      tessFactor := InitialTessFactor;
      currPipelineState := Wireframe;
    }

    /** The key-press callback registered with the window. */
    method OnKeyPress(key: nat)
      modifies this
      ensures KeyStateOf() == Press(old(KeyStateOf()), key)
      ensures old(Valid()) ==> Valid()
    {
      if key == KeyLessTessellation {
        tessFactor := tessFactor - 1;
        if tessFactor < MinTessFactor {
          tessFactor := MinTessFactor;
        }
      } else if key == KeyMoreTessellation {
        tessFactor := tessFactor + 1;
        if tessFactor > MaxTessFactor {
          tessFactor := MaxTessFactor;
        }
      } else if key == KeyWireframe {
        currPipelineState := Wireframe;
      } else if key == KeySolid {
        currPipelineState := Solid;
      }
      if old(Valid()) {
        PressPreservesRange(old(KeyStateOf()), key);
      }
    }

    /** The recording part of `render`, on the freshly reset list. */
    method RecordFrame(frameIndex: nat)
      requires commandList.open && commandList.recorded == []
      requires rtvHeap.step > 0
      modifies commandList
      ensures commandList.open
      ensures commandList.recorded == RenderCommands(frameIndex, KeyStateOf(), rtvHeap.step, patchIndexCount)
    {
      commandList.Record(SetPipelineState(currPipelineState));
      commandList.Record(Transition(BackBuffer(frameIndex), Present, RenderTarget));
      var descriptorSize := rtvHeap.step;
      var descHandleRtv := frameIndex * descriptorSize;
      commandList.Record(SetRenderTarget(descHandleRtv));
      commandList.Record(ClearRenderTarget(descHandleRtv));
      commandList.Record(SetRootConstants(1, [tessFactor, tessFactor]));
      commandList.Record(SetRootDescriptorTable(2, 0));
      var constDataSizeAligned := Layout.AlignTo256(Layout.MatrixSize as bv64) as nat;
      Layout.ConstantElementSizeIsLeastMultiple();
      commandList.Record(SetRootConstantBufferView(0, frameIndex * constDataSizeAligned));
      commandList.Record(SetIndexBuffer(0));
      var indexBufferSize := patchIndexCount * 4;
      var numIndices := indexBufferSize / 4;
      commandList.Record(DrawIndexed(numIndices));
      commandList.Record(Transition(BackBuffer(frameIndex), RenderTarget, Present));
    }

    /**
     * One frame.  `frameIndex` is the back buffer current when the frame
     * starts; `nextFrameIndex` the one current after `Present`, whose fence
     * `waitForPreviousFrame` waits on.  `waited` is the fence value waited
     * for, when the frame gets that far.
     */
    method Render(frameIndex: nat, nextFrameIndex: nat, o: RenderOutcome)
      returns (waited: Option<nat>, r: Outcome)
      requires Valid()
      requires frameIndex < bufferCount && nextFrameIndex < bufferCount
      modifies commandList, commandQueue, frames
      ensures r == RenderResult(o)
      ensures ReachesSignal(o) ==>
        frames.fenceValues == old(frames.fenceValues)[frameIndex := old(frames.fenceValues[frameIndex]) + 1]
      ensures !ReachesSignal(o) ==> frames.fenceValues == old(frames.fenceValues)
      ensures frames.fences == if ReachesSignal(o) && o.signalOk
        then old(frames.fences)[frameIndex := frames.fenceValues[frameIndex]] else old(frames.fences)
      ensures waited.Some? <==> ReachesSignal(o) && o.signalOk
      ensures waited.Some? ==> waited.value == frames.fenceValues[nextFrameIndex]
      ensures o.allocatorResetOk && o.listResetOk ==>
        commandList.recorded == RenderCommands(frameIndex, KeyStateOf(), rtvHeap.step, patchIndexCount)
      ensures ReachesSignal(o) ==>
        commandQueue.executed == old(commandQueue.executed) + [commandList.recorded]
      ensures r == Pass ==> Valid()
      ensures frames.commandAllocators == old(frames.commandAllocators)
    {
      waited := None;
      if !o.allocatorResetOk {
        return waited, Fail("Error resetting command allocator.");
      }
      commandList.Reset(o.listResetOk);
      if !o.listResetOk {
        return waited, Fail("Error resetting command list.");
      }
      RecordFrame(frameIndex);
      commandList.Close(o.closeOk);
      if !o.closeOk {
        return waited, Fail("Failed closing command list.");
      }
      commandQueue.Execute(commandList);
      if !o.presentOk {
        return waited, Fail("Failed present.");
      }
      r := frames.SignalFrame(frameIndex, o.signalOk);
      if r.Fail? {
        return;
      }
      var fenceValue;
      fenceValue, r := frames.WaitFrameComplete(nextFrameIndex, o.setEventOk, o.wait);
      waited := Some(fenceValue);
    }
  }
}
