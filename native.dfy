/**
 * The native graphics objects the demos drive, reduced to the CPU-side
 * state the demos rely on.
 *
 * Every native call that can fail is an opaque step: the model receives
 * whether it succeeded as a parameter.  A failure becomes `Fail(message)`
 * with the text of the `runtime_error` the source throws at that point;
 * every such error ends the program, so no model operation continues after
 * one.
 */
module Native {

  datatype Option<T> = None | Some(value: T)

  datatype Result<T> = Ok(value: T) | Err(message: string)

  /** The result of an operation that either completes or throws. */
  datatype Outcome = Pass | Fail(message: string)

  /** `WAIT_OBJECT_0`: the value `WaitForSingleObject` returns when the event fired. */
  const WAIT_OBJECT_0: nat := 0

  /** The rasterizer fill mode of a pipeline state object. */
  datatype FillMode = Wireframe | Solid

  datatype ResourceState = Present | RenderTarget | CopyDest | VertexAndConstantBuffer

  /** GPU resources a command can name: swap-chain buffers by index, the index buffer of each patch, other buffers by name. */
  datatype Resource = BackBuffer(index: nat) | Buffer(name: string) | IndexBuffer(patch: nat)

  /**
   * The recorded commands the model keeps track of.  Offsets are byte
   * offsets from the start of a descriptor heap or of a constant buffer.
   */
  datatype Command =
    | SetPipelineState(fill: FillMode)
    | Transition(resource: Resource, before: ResourceState, after: ResourceState)
    | SetRenderTarget(rtvOffset: nat)
    | ClearRenderTarget(rtvOffset: nat)
    | SetRootConstants(parameter: nat, values: seq<int>)
    | SetRootConstantBufferView(parameter: nat, offset: nat)
    | SetRootDescriptorTable(parameter: nat, offset: nat)
    | SetIndexBuffer(view: nat)
    | DrawIndexed(indexCount: nat)
    | CopyFromUploadHeap(target: Resource)

  /**
   * A graphics command list: open (recording) or closed.  Commands may be
   * recorded and `Close` called only while it is open, and only a closed
   * list may be executed; the requires clauses below state these rules.
   */
  class CommandList {
    var open: bool
    var recorded: seq<Command>

    /** `CreateCommandList` returns a list that is open and empty. */
    constructor ()
      ensures open && recorded == []
    {
      open := true;
      recorded := [];
    }

    /** `Reset` reopens the list with no commands; a failed reset changes nothing. */
    method Reset(succeeded: bool)
      modifies this
      ensures succeeded ==> open && recorded == []
      ensures !succeeded ==> open == old(open) && recorded == old(recorded)
    {
      if succeeded {
        open := true;
        recorded := [];
      }
    }

    method Record(c: Command)
      requires open
      modifies this
      ensures open && recorded == old(recorded) + [c]
    {
      recorded := recorded + [c];
    }

    /** `Close` ends recording; a failed close leaves the list open. */
    method Close(succeeded: bool)
      requires open
      modifies this
      ensures open == !succeeded && recorded == old(recorded)
    {
      if succeeded {
        open := false;
      }
    }
  }

  /** A command queue, reduced to the log of the command lists submitted to it. */
  class CommandQueue {
    var executed: seq<seq<Command>>

    constructor ()
      ensures executed == []
    {
      executed := [];
    }

    /** `ExecuteCommandLists` with one list, which must be closed. */
    method Execute(list: CommandList)
      requires !list.open
      modifies this
      ensures executed == old(executed) + [list.recorded]
    {
      executed := executed + [list.recorded];
    }
  }

  /**
   * `SetEventOnCompletion` followed by `WaitForSingleObject(event, 10000)`:
   * the CPU blocks until the fence reaches a value or the wait times out.
   */
  function AwaitFence(setEventOk: bool, wait: nat): Outcome
  {
    if !setEventOk then Fail("Failed set event on completion.")
    else if wait != WAIT_OBJECT_0 then Fail("Failed WaitForSingleObject().")
    else Pass
  }

  /** A fence wait passes exactly when both native steps succeed. */
  lemma AwaitFencePasses(setEventOk: bool, wait: nat)
    ensures AwaitFence(setEventOk, wait) == Pass <==> setEventOk && wait == WAIT_OBJECT_0
    ensures !setEventOk ==> AwaitFence(setEventOk, wait).message == "Failed set event on completion."
    ensures setEventOk && wait != WAIT_OBJECT_0 ==> AwaitFence(setEventOk, wait).message == "Failed WaitForSingleObject()."
  {
  }

  /**
   * The index of the first of `n` numbered native calls that fails, or `n`
   * when all succeed: a creation loop that throws at its first failure
   * performs exactly this many successful iterations.
   */
  function FirstFailure(ok: nat -> bool, n: nat): (k: nat)
    ensures k <= n
    ensures forall i :: 0 <= i < k ==> ok(i)
    ensures k < n ==> !ok(k)
  {
    FirstFailureFrom(ok, 0, n)
  }

  function FirstFailureFrom(ok: nat -> bool, from: nat, n: nat): (k: nat)
    requires from <= n
    ensures from <= k <= n
    ensures forall i :: from <= i < k ==> ok(i)
    ensures k < n ==> !ok(k)
    decreases n - from
  {
    if from == n then n
    else if !ok(from) then from
    else FirstFailureFrom(ok, from + 1, n)
  }

  /** The first failure is determined by the calls' results: at most one index fits. */
  lemma FirstFailureUnique(ok: nat -> bool, n: nat, k: nat)
    requires k <= n
    requires forall i :: 0 <= i < k ==> ok(i)
    requires k < n ==> !ok(k)
    ensures FirstFailure(ok, n) == k
  {
  }

  // -----------------------------------------------------------------------
  // The fence-gated upload idiom
  // -----------------------------------------------------------------------

  /** What each native step of one upload reports. */
  datatype UploadOutcome = UploadOutcome(
    defaultHeapOk: bool,   // CreateCommittedResource for the destination buffer
    uploadHeapOk: bool,    // CreateCommittedResource for the upload heap
    listResetOk: bool,     // commandList->Reset
    listCloseOk: bool,     // commandList->Close
    signalOk: bool,        // commandQueue->Signal(fence, 1)
    setEventOk: bool,      // fence->SetEventOnCompletion(1, event)
    wait: nat,             // WaitForSingleObject(event, 10000)
    fenceResetOk: bool)    // fence->Signal(0)

  /** The messages an upload throws when one of its two buffers cannot be created. */
  datatype UploadErrors = UploadErrors(defaultHeap: string, uploadHeap: string)

  /** The fence value every upload signals and waits for. */
  const UploadFenceValue: nat := 1

  /** The commands an upload records: the copy and the transition to a readable state. */
  function UploadCommands(target: Resource): seq<Command>
  {
    [CopyFromUploadHeap(target), Transition(target, CopyDest, VertexAndConstantBuffer)]
  }

  /** The first failing step of an upload decides its error. */
  function UploadResult(o: UploadOutcome, errors: UploadErrors): Outcome
  {
    if !o.defaultHeapOk then Fail(errors.defaultHeap)
    else if !o.uploadHeapOk then Fail(errors.uploadHeap)
    else if !o.listResetOk then Fail("Error resetting command list.")
    else if !o.listCloseOk then Fail("Failed closing command list.")
    else if !o.signalOk then Fail("Error siganalling control points buffer uploaded.")
    else if AwaitFence(o.setEventOk, o.wait).Fail? then AwaitFence(o.setEventOk, o.wait)
    else if !o.fenceResetOk then Fail("Error setting fence value.")
    else Pass
  }

  lemma UploadPassesIffAllStepsSucceed(o: UploadOutcome, errors: UploadErrors)
    ensures UploadResult(o, errors) == Pass <==>
      o.defaultHeapOk && o.uploadHeapOk && o.listResetOk && o.listCloseOk &&
      o.signalOk && o.setEventOk && o.wait == WAIT_OBJECT_0 && o.fenceResetOk
  {
  }

  /**
   * One upload: record the copy on the (closed) command list, submit it,
   * signal fence value 1 on the queue, block until the fence reaches it and
   * then set the fence back to 0.  `fence` is the value last signalled on
   * the fence; the new one is returned.
   *
   * This is the corrected upload: it tests the results of `Reset` and
   * `Close`, which the source ignores (see README, Findings).
   */
  method Upload(list: CommandList, queue: CommandQueue, target: Resource, fence: nat,
                o: UploadOutcome, errors: UploadErrors)
    returns (fence': nat, r: Outcome)
    modifies list, queue
    ensures r == UploadResult(o, errors)
    ensures r == Pass ==> !list.open && fence' == 0 && list.recorded == UploadCommands(target)
    ensures r == Pass ==> queue.executed == old(queue.executed) + [UploadCommands(target)]
    ensures !o.signalOk ==> fence' == fence
  {
    fence' := fence;
    if !o.defaultHeapOk { return fence', Fail(errors.defaultHeap); }
    if !o.uploadHeapOk { return fence', Fail(errors.uploadHeap); }
    list.Reset(o.listResetOk);
    if !o.listResetOk { return fence', Fail("Error resetting command list."); }
    list.Record(CopyFromUploadHeap(target));
    list.Record(Transition(target, CopyDest, VertexAndConstantBuffer));
    list.Close(o.listCloseOk);
    if !o.listCloseOk { return fence', Fail("Failed closing command list."); }
    queue.Execute(list);
    if !o.signalOk { return fence', Fail("Error siganalling control points buffer uploaded."); }
    fence' := UploadFenceValue;
    r := AwaitFence(o.setEventOk, o.wait);
    if r.Fail? { return; }
    if !o.fenceResetOk { return fence', Fail("Error setting fence value."); }
    fence' := 0;
    r := Pass;
  }

  // -----------------------------------------------------------------------
  // Command-list legality of a sequence of calls
  // -----------------------------------------------------------------------

  /** A call on a command list, with the result the native API reported. */
  datatype ListCall = CallReset(ok: bool) | CallRecord | CallClose(ok: bool) | CallExecute

  /**
   * Replays `calls` on a list that starts `open` or closed: `None` when a
   * call is illegal in the list's state (recording or closing a closed
   * list, executing an open one), otherwise whether the list ends open.
   */
  function Replay(open: bool, calls: seq<ListCall>): Option<bool>
    decreases |calls|
  {
    if calls == [] then Some(open)
    else match calls[0]
      case CallReset(ok) => Replay(open || ok, calls[1..])
      case CallRecord => if open then Replay(open, calls[1..]) else None
      case CallClose(ok) => if open then Replay(!ok, calls[1..]) else None
      case CallExecute => if !open then Replay(open, calls[1..]) else None
  }

  /**
   * The list calls of an upload as the source writes them: the results of
   * `Reset` and `Close` are not checked, so recording and execution follow
   * whatever they reported.
   */
  function UploadCallsAsWritten(resetOk: bool, closeOk: bool): seq<ListCall>
  {
    [CallReset(resetOk), CallRecord, CallRecord, CallClose(closeOk), CallExecute]
  }

  /** The list calls of `Upload`, which stops at the first failed call. */
  function UploadCallsChecked(resetOk: bool, closeOk: bool): seq<ListCall>
  {
    if !resetOk then [CallReset(false)]
    else if !closeOk then [CallReset(true), CallRecord, CallRecord, CallClose(false)]
    else UploadCallsAsWritten(true, true)
  }

  /**
   * As written, a failed `Reset` makes the upload record on a closed list,
   * and a failed `Close` makes it execute an open one.
   */
  lemma UploadAsWrittenMisusesList()
    ensures Replay(false, UploadCallsAsWritten(false, true)) == None
    ensures Replay(false, UploadCallsAsWritten(true, false)) == None
    ensures Replay(false, UploadCallsAsWritten(true, true)) == Some(false)
  {
  }

  /** With the results checked, every call is legal from a closed list, whatever the API reports. */
  lemma UploadCheckedIsLegal(resetOk: bool, closeOk: bool)
    ensures Replay(false, UploadCallsChecked(resetOk, closeOk)) != None
    ensures resetOk && closeOk ==> Replay(false, UploadCallsChecked(resetOk, closeOk)) == Some(false)
  {
    var calls := UploadCallsChecked(resetOk, closeOk);
    if !resetOk {
      assert Replay(false, calls) == Replay(false, []);
    } else if !closeOk {
      var tail := [CallRecord, CallRecord, CallClose(false)];
      assert calls[1..] == tail && tail[1..][1..][1..] == [];
      assert Replay(true, tail[1..][1..]) == Replay(true, []);
      assert Replay(true, tail) == Replay(true, tail[1..][1..]);
    } else {
      UploadAsWrittenMisusesList();
    }
  }
}
