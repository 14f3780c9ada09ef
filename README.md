# DirectX 12 tutorials: the CPU-side rules

This project models the bookkeeping that three DirectX 12 tutorial programs do on the CPU. The programs are HelloWindow, HelloTeapot and TeapotTutorial, which also has the single-file variant `Main2.cpp`. The model proves properties of that bookkeeping:

- **Tessellation keys.** The TeapotTutorial key callback steers the tessellation factor (keys '1' and '2', saturating at 1 and 64) and the fill mode (keys '3' and '4').
- **Slot and offset layout.** Constant-buffer elements are 64-byte matrices rounded up to 256 bytes. Descriptor slots are laid out as `frame * numParts + part`, and each frame's table starts at `frame * numParts`. The model proves that every slot is in bounds and that slots are injective. It proves that views and tables are pairwise disjoint, and that the slot a frame binds is the slot that was written for it.
- **Per-frame fences.** This covers the creation loops that fill allocators, fences and counters, and the `++fenceValues[frameIndex]` of every frame. It also covers the fence-gated uploads: signal 1, wait, then set back to 0. Finally it covers the waits, including the destructor's wait loop.
- **Back-buffer round-robin.** In HelloWindow, frame `frameCount` draws into buffer `(frameCount - 1) % bufferCount`.
- **Adapter selection.** Take the first adapter that is not a software adapter and whose upgrade to `IDXGIAdapter3` succeeds. Fail with an error when there is none. HelloTeapot adds the WARP alternative.
- **Command-list lifecycle.** A list is open or closed. Recording and `Close` are legal only while it is open, and execution only while it is closed. `Reset` reopens it.

Every native call is an opaque step. The model receives each call's success or failure, or the value it returned, as a parameter. A failure produces the `runtime_error` message the program throws at that point. Objects whose fields the programs update become classes with `modifies` clauses:

- the command list and the command queue;
- descriptor heaps, whose fixed-size slots are an `array`;
- each demo object;
- the globals of `Main2.cpp`, whose `std::array`s are arrays.

The key callback, the layout arithmetic and the adapter rule are modelled as functions and lemmas.

Modules, one per file:

| module | file |
|---|---|
| `Native` | `native.dfy` |
| `Layout` | `layout.dfy` |
| `Descriptors` | `descriptors.dfy` |
| `Adapters` | `adapters.dfy` |
| `Graphics` | `graphics.dfy` |
| `HelloWindow` | `hello_window.dfy` |
| `HelloTeapotGraphics` | `hello_teapot_graphics.dfy` |
| `HelloTeapotDemo` | `hello_teapot_demo.dfy` |
| `TeapotTutorial` | `teapot_tutorial.dfy` |
| `Main2` | `main2.dfy` |

The `Graphics` module is the TeapotTutorial `Graphics`/`Graphics1` pair. Its `FrameResources` class holds the allocators, fences and counters that both of them create with the same code.

## Model

| member | source | states |
|---|---|---|
| `Native.CommandList.constructor` | HelloWindow/src/Main.cpp:227-237 | A newly created command list is open and holds no commands. |
| `Native.CommandList.Reset` | HelloWindow/src/Main.cpp:346-349 | A successful reset leaves the list open and empty. A failed reset changes nothing. |
| `Native.CommandList.Record` | TeapotTutorial/TeapotTutorial/TeapotTutorial.cpp:86-170 | A command may be recorded only on an open list. It is appended after the commands already there. |
| `Native.CommandList.Close` | TeapotTutorial/TeapotTutorial/TeapotTutorial.cpp:172-175 | Only an open list may be closed. A successful close closes it and a failed one leaves it open; the recorded commands are kept either way. |
| `Native.CommandQueue.constructor` | HelloWindow/src/Main.cpp:126-143 | A new queue has executed nothing. |
| `Native.CommandQueue.Execute` | TeapotTutorial/TeapotTutorial/TeapotTutorial.cpp:177-178 | Only a closed list may be executed. Its commands are appended to the queue's log. |
| `Native.AwaitFencePasses` | TeapotTutorial/TeapotTutorial/Graphics.cpp:301-310 | A fence wait passes exactly when `SetEventOnCompletion` succeeds and the wait returns `WAIT_OBJECT_0`. Each failure carries its own message. |
| `Native.FirstFailure` | TeapotTutorial/TeapotTutorial/Graphics1.cpp:18-27 | For a loop that throws at its first failed call: every call before index `k` succeeds, and call `k` fails unless `k == n`. |
| `Native.FirstFailureUnique` | TeapotTutorial/TeapotTutorial/Graphics1.cpp:18-27 | The calls' results determine that index: any `k` with those two properties is it. |
| `Native.UploadPassesIffAllStepsSucceed` | HelloTeapot/HelloTeapot/Source/HelloTeapotDemo.cpp:211-291 | An upload passes if and only if each of its eight native steps succeeds. |
| `Native.Upload` | TeapotTutorial/TeapotTutorial/Main2.cpp:491-564 | The result is the error of the first failing step. On success the list is closed and holds the copy and the transition to the readable state. On success that list has been executed and the fence is back at 0. A failed signal leaves the fence as it was. |
| `Native.UploadAsWrittenMisusesList` | TeapotTutorial/TeapotTutorial/Main2.cpp:529-537 | With the results of `Reset` and `Close` ignored, as written, a failed reset records on a closed list and a failed close executes an open one. |
| `Native.UploadCheckedIsLegal` | TeapotTutorial/TeapotTutorial/Main2.cpp:529-537 | With those results checked, every list call of an upload is legal in the list's state, whatever the API reports, and a full upload leaves the list closed. |
| `Adapters.FirstEligibleFrom` | HelloWindow/src/Main.cpp:87-104 | The index found is the first adapter at or after `from` that is neither a software adapter nor fails the upgrade. None means no adapter from `from` on qualifies. |
| `Adapters.SelectionRule` | HelloWindow/src/Main.cpp:87-109 | The chosen adapter is never a software adapter. Selection fails if and only if no adapter qualifies. |
| `Adapters.FirstEligibleIsLeast` | HelloWindow/src/Main.cpp:87-104 | Any qualifying adapter bounds the choice from above: the rule picks the first one. |
| `Adapters.GetAdapter` | HelloWindow/src/Main.cpp:87-109 | The enumeration loop succeeds exactly when some adapter qualifies. It returns the first such index; otherwise it fails with the given message. |
| `Descriptors.DescriptorHeap.constructor` | TeapotTutorial/TeapotTutorial/Graphics.cpp:154-164 | A heap of `NumDescriptors` empty slots, `step` bytes apart. |
| `Descriptors.DescriptorHeap.HandleOfSlot` | TeapotTutorial/TeapotTutorial/Graphics.cpp:169-170 | The handle `slot * step` of every slot is a valid handle of the heap, and it names that slot. |
| `Descriptors.DescriptorHeap.Write` | TeapotTutorial/TeapotTutorial/Graphics.cpp:171 | Creating a view at a valid handle changes exactly the slot it names. |
| `Descriptors.DescriptorHeap.CreateRenderTargetViews` | TeapotTutorial/TeapotTutorial/Graphics.cpp:166-172 | After the loop, slot `i` holds the render-target view of buffer `i` for every `i < count`. Every other slot is unchanged. |
| `Graphics.FrameResources.constructor` | TeapotTutorial/TeapotTutorial/Graphics.h:50-53 | Before the creation steps run, the allocator, fence and counter vectors are empty. |
| `Graphics.FrameResources.CreateCommandAllocators` | TeapotTutorial/TeapotTutorial/Graphics.cpp:244-256 | One allocator is appended per buffer, in order, up to the first failed creation. The step passes if and only if all `bufferCount` are created. |
| `Graphics.FrameResources.CreateCommandList` | TeapotTutorial/TeapotTutorial/Graphics1.cpp:30-41 | Succeeds if and only if both the creation and the close succeed; the list returned is then closed and empty. Each failure has its own message. |
| `Graphics.FrameResources.CreateFences` | TeapotTutorial/TeapotTutorial/Graphics1.cpp:43-57 | Up to the first failure, a fence at 0 and a counter of 0 are appended per buffer. The step passes if and only if all are created. Allocators are unchanged, and "no fence ahead of its counter" is preserved. |
| `Graphics.FrameResources.WaitFrameComplete` | TeapotTutorial/TeapotTutorial/Graphics.cpp:296-311 | Waits for `fenceValues[frameIndex]`, changes no state, and reports a failed wait as an error. |
| `Graphics.FrameResources.Release` | TeapotTutorial/TeapotTutorial/Graphics.cpp:26-32 | The destructor waits on frames 0, 1, … in increasing order. It stops at the first failed wait, and the outcome names that wait's error. |
| `Graphics.FrameResources.SignalFrame` | TeapotTutorial/TeapotTutorial/TeapotTutorial.cpp:185-191 | Only `fenceValues[frameIndex]` changes, by exactly +1, even when the signal fails. The fence gets the new value only when the signal succeeds. "No fence ahead of its counter" is preserved. |
| `Graphics.Allocators` | TeapotTutorial/TeapotTutorial/Graphics.cpp:246-255 | `n` allocators, the `i`-th created for frame `i`. |
| `Graphics.Zeros` | TeapotTutorial/TeapotTutorial/Graphics.cpp:273-284 | `n` values, all 0. |
| `Graphics.Indices` | TeapotTutorial/TeapotTutorial/Graphics.cpp:28-31 | The frame indices `0 .. n-1`, in increasing order. |
| `Graphics.FirstFailedWait` | TeapotTutorial/TeapotTutorial/Graphics.cpp:28-31 | Every wait before the index found passes, and the wait at it fails unless it is `n`. |
| `Graphics.SignalIncreases` | TeapotTutorial/TeapotTutorial/TeapotTutorial.cpp:185-188 | The value signalled is strictly above the fence's previous value, and no other frame's counter changes. |
| `Graphics.GetAdapter` | TeapotTutorial/TeapotTutorial/Graphics.cpp:60-86 | The shared selection rule, failing with "Error getting an adapter.". |
| `Graphics.CreateDescriptorHeapRtv` | TeapotTutorial/TeapotTutorial/Graphics.cpp:152-173 | The heap holds exactly `bufferCount` descriptors, and slot `i` holds buffer `i`'s render-target view. A failed creation is an error. |
| `Graphics.CreateDescriptorHeapDepthStencil` | TeapotTutorial/TeapotTutorial/Graphics.cpp:222-242 | The heap holds exactly one descriptor, the depth-stencil view. A failed creation is an error. |
| `HelloWindow.GetAdapter` | HelloWindow/src/Main.cpp:82-112 | Returns the first qualifying adapter, which is never a software adapter and whose upgrade succeeds. Fails with "Error getting hardware adapter." if and only if none qualifies. |
| `HelloWindow.GetBuffers` | HelloWindow/src/Main.cpp:175-189 | Succeeds if and only if every `GetBuffer` succeeds. The vector then has exactly `bufferCount` entries, entry `i` being buffer `i`. |
| `HelloWindow.CreateDescriptorHeapRtv` | HelloWindow/src/Main.cpp:191-214 | The heap has 10 descriptors. For `bufferCount <= 10`, slots below `bufferCount` hold the buffers' views and the rest stay empty. |
| `HelloWindow.CreateCommandList` | HelloWindow/src/Main.cpp:227-237 | The list is returned open and empty. A failed creation is an error. |
| `HelloWindow.RoundRobin` | HelloWindow/src/Main.cpp:263-273 | `(frameCount - 1) % bufferCount` is a valid buffer and the first frame uses buffer 0. Each frame uses the next buffer, wrapping around, and the cycle repeats every `bufferCount` frames. |
| `HelloWindow.TwoBuffersAlternate` | HelloWindow/src/Main.cpp:270-273 | With the two buffers `WinMain` creates, odd frames draw into buffer 0 and even frames into buffer 1. |
| `HelloWindow.Renderer.constructor` | HelloWindow/src/Main.cpp:261-265 | `frameCount` starts at 0, the fence holds 0, and the open, empty list and the filled heap make the state valid. |
| `HelloWindow.Renderer.Render` | HelloWindow/src/Main.cpp:261-350 | `frameCount` rises by exactly 1, whatever happens. The result is the first failing step's error. Once the close succeeds, the frame's commands for buffer `(frameCount - 1) % bufferCount` have been executed. Once the signal is reached, the fence holds `frameCount`, which is strictly above its previous value. A frame that passes leaves the list open and empty for the next frame. A frame that fails leaves the frame's commands in the list, and the list is open exactly when the close failed. |
| `HelloWindow.FrameClearsItsBuffer` | HelloWindow/src/Main.cpp:268-295 | The render target a frame clears is the heap slot of that frame's buffer, and both transitions name that buffer. |
| `HelloTeapotGraphics.EnumerationIsSelectionRule` | HelloTeapot/HelloTeapot/Source/Graphics.cpp:55-71 | Starting from a null adapter, the loop yields the shared rule's first qualifying adapter. |
| `HelloTeapotGraphics.SelectionCases` | HelloTeapot/HelloTeapot/Source/Graphics.cpp:45-78 | With `useWarp`, the choice depends only on the WARP enumerator, and the enumeration is skipped. Without it, the choice is the first qualifying enumerated adapter, never a software one. |
| `HelloTeapotGraphics.RtvOffsetsDistinct` | HelloTeapot/HelloTeapot/Source/Graphics.cpp:159-165 | Distinct buffers get distinct handles `i * rtvStep`, each naming a slot inside the heap. |
| `HelloTeapotGraphics.Graphics.constructor` | HelloTeapot/HelloTeapot/Headers/Graphics.h:36-41 | Before `getAdapter`, the adapter member is null and there is no heap. |
| `HelloTeapotGraphics.Graphics.GetAdapter` | HelloTeapot/HelloTeapot/Source/Graphics.cpp:45-78 | The member becomes the WARP adapter or the enumeration loop's result. A null member afterwards is the error "Error getting an adapter.". |
| `HelloTeapotGraphics.Graphics.CreateDescriptorHeapRtv` | HelloTeapot/HelloTeapot/Source/Graphics.cpp:145-166 | The heap has `bufferCount` descriptors and slot `i` holds buffer `i`'s render-target view. A failed creation is an error. |
| `HelloTeapotDemo.PartIndexView` | HelloTeapot/HelloTeapot/Source/HelloTeapotDemo.cpp:133-174 | Every part's index-view argument is below 9. |
| `HelloTeapotDemo.DrawSchedule` | HelloTeapot/HelloTeapot/Source/HelloTeapotDemo.cpp:133-174 | The 28 calls follow the rule "patches 0–4 four times each, then 5–8 twice each", in non-decreasing patch order. |
| `HelloTeapotDemo.PartViewsLayout` | HelloTeapot/HelloTeapot/Source/HelloTeapotDemo.cpp:421-433 | Each part's view lies inside its 28-element buffer, and different parts' views do not overlap. Slot `frame * 28 + part` lies inside the heap of `28 * bufferCount` and is injective. |
| `HelloTeapotDemo.ConstantBuffers` | HelloTeapot/HelloTeapot/Source/HelloTeapotDemo.cpp:408-419 | `n` buffers, each holding 28 aligned matrices. |
| `HelloTeapotDemo.PatchBuffers` | HelloTeapot/HelloTeapot/Source/HelloTeapotDemo.cpp:303-317 | Entry `i` is patch `i`'s index buffer, for each of the first `n` patches. |
| `HelloTeapotDemo.PatchViews` | HelloTeapot/HelloTeapot/Source/HelloTeapotDemo.cpp:377-382 | One index view per patch. |
| `HelloTeapotDemo.PatchUploads` | HelloTeapot/HelloTeapot/Source/HelloTeapotDemo.cpp:343-352 | Entry `i` is the upload of patch `i`'s index buffer, for each of the first `n` patches. |
| `HelloTeapotDemo.FirstFailedUpload` | HelloTeapot/HelloTeapot/Source/HelloTeapotDemo.cpp:295-383 | Every upload before the index found passes, and the one at it fails unless it is the number of patches. |
| `HelloTeapotDemo.PatchViewAt` | HelloTeapot/HelloTeapot/Source/HelloTeapotDemo.cpp:377-382 | The `i`-th view is over patch `i`'s own buffer and covers four bytes per index. |
| `HelloTeapotDemo.NumIndicesIsPatchLength` | HelloTeapot/HelloTeapot/Source/HelloTeapotDemo.cpp:65-68 | `drawPart`'s `numIndices` for view `i` is the length of patch `i`, drawn from patch `i`'s buffer. |
| `HelloTeapotDemo.FrameWrites` | HelloTeapot/HelloTeapot/Source/HelloTeapotDemo.cpp:59-63 | Part `i`'s 64-byte matrix goes to offset `i * 256` of its frame's buffer. |
| `HelloTeapotDemo.FrameWritesInBounds` | HelloTeapot/HelloTeapot/Source/HelloTeapotDemo.cpp:59-63 | Every matrix one frame copies lands in that frame's buffer, inside its `28 * 256` bytes. |
| `HelloTeapotDemo.DrawBindsWrittenView` | HelloTeapot/HelloTeapot/Source/HelloTeapotDemo.cpp:43-62 | The table `drawPart` binds names slot `frame * 28 + part`, inside the heap. Its matrix write lies inside that slot's view and inside the buffer. |
| `HelloTeapotDemo.RenderPassesIffAllStepsSucceed` | HelloTeapot/HelloTeapot/Source/HelloTeapotDemo.cpp:72-209 | A frame passes if and only if every step succeeds, the final wait included. |
| `HelloTeapotDemo.HelloTeapotDemo.constructor` | HelloTeapot/HelloTeapot/Headers/HelloTeapotDemo.h:36-46 | Fences and counters start at 0. There are no buffers, views, heap or constant buffers yet. |
| `HelloTeapotDemo.HelloTeapotDemo.CreateControlPointsBuffer` | HelloTeapot/HelloTeapot/Source/HelloTeapotDemo.cpp:211-291 | The result is the upload's. On success, the vertex view has the points' stride and size, frame 0's fence is back at 0, and the list is closed. No other member changes. |
| `HelloTeapotDemo.HelloTeapotDemo.CreatePatchIndexBuffer` | HelloTeapot/HelloTeapot/Source/HelloTeapotDemo.cpp:297-382 | The buffer is appended as soon as it exists. Its view, covering four bytes per index, is appended only when the upload passes. |
| `HelloTeapotDemo.HelloTeapotDemo.CreateControlPointsIndexBuffers` | HelloTeapot/HelloTeapot/Source/HelloTeapotDemo.cpp:293-384 | One buffer and one view per patch, in patch order, up to the first failed upload; its error is the result. On success every upload has been submitted and, when there is at least one patch, the fence is back at 0 and the list is closed. |
| `HelloTeapotDemo.HelloTeapotDemo.CreateUploads` | HelloTeapot/HelloTeapot/Source/HelloTeapotDemo.cpp:12-15 | Both upload steps pass if and only if every upload does. Then the views are those of all patches, the list is closed and the fences are unchanged. |
| `HelloTeapotDemo.HelloTeapotDemo.Initialize` | HelloTeapot/HelloTeapot/Source/HelloTeapotDemo.cpp:12-17 | The constructor's steps pass if and only if all uploads pass and the heap is created. Then there is one constant buffer per back buffer. With the nine patches `render` draws, the state is valid for a frame. |
| `HelloTeapotDemo.HelloTeapotDemo.CreateConstantBufferViews` | HelloTeapot/HelloTeapot/Source/HelloTeapotDemo.cpp:16-17 | On success the heap has `28 * bufferCount` slots. Slot `f * 28 + p` views part `p` of buffer `f`, and there is exactly one new buffer per frame. |
| `HelloTeapotDemo.HelloTeapotDemo.CreateCbvHeap` | HelloTeapot/HelloTeapot/Source/HelloTeapotDemo.cpp:386-399 | A heap of exactly `NUM_PARTS * bufferCount` empty slots. A failed creation is an error. |
| `HelloTeapotDemo.HelloTeapotDemo.CreateFrameViews` | HelloTeapot/HelloTeapot/Source/HelloTeapotDemo.cpp:421-434 | The inner loop fills exactly frame `i`'s table. Slot `i * 28 + p` then views part `p` of buffer `i`. |
| `HelloTeapotDemo.HelloTeapotDemo.CreateConstantBuffers` | HelloTeapot/HelloTeapot/Source/HelloTeapotDemo.cpp:401-436 | Exactly one buffer is appended per back buffer. Slot `f * 28 + p` views part `p` of buffer `f`, for every frame and part. |
| `HelloTeapotDemo.HelloTeapotDemo.DrawPart` | HelloTeapot/HelloTeapot/Source/HelloTeapotDemo.cpp:28-70 | Binds slot `frame * 28 + part` and copies the matrix to `part * 256`. It then draws the view's size divided by 4 indices. |
| `HelloTeapotDemo.HelloTeapotDemo.DrawTeapot` | HelloTeapot/HelloTeapot/Source/HelloTeapotDemo.cpp:132-174 | The 28 calls with `currPart` = 0..27 record the schedule's commands and the matrix writes of parts 0..27. |
| `HelloTeapotDemo.HelloTeapotDemo.RecordFrame` | HelloTeapot/HelloTeapot/Source/HelloTeapotDemo.cpp:88-185 | The list holds the frame's commands: the back buffer's render target, the 28 parts and both transitions. |
| `HelloTeapotDemo.HelloTeapotDemo.RecordAndExecute` | HelloTeapot/HelloTeapot/Source/HelloTeapotDemo.cpp:76-193 | Reset, record, close and execute. It fails with the first failing step's error and passes if and only if the three succeed. It then leaves the list closed and executed. |
| `HelloTeapotDemo.HelloTeapotDemo.Render` | HelloTeapot/HelloTeapot/Source/HelloTeapotDemo.cpp:72-209 | The result is the first failing step's error. Only `fenceValues[frameIndex]` rises, by 1, once present succeeds. The fence gets that value when the signal succeeds. A frame that passes leaves the state valid. |
| `HelloTeapotDemo.HelloTeapotDemo.DrawnViewIsWritten` | HelloTeapot/HelloTeapot/Source/HelloTeapotDemo.cpp:46-49 | In a valid state, the table each part binds is a valid handle whose slot holds the view created for that frame and part. |
| `Main2.ConstantViewsLayout` | TeapotTutorial/TeapotTutorial/Main2.cpp:669-682 | View `i` lies inside the one buffer of `256 * 28 * 2` bytes, is 256-byte aligned and 256 bytes long, and distinct views do not overlap. |
| `Main2.CreateDsConstantBuffers` | TeapotTutorial/TeapotTutorial/Main2.cpp:641-683 | A heap of `numParts * numBackBuffers` slots, slot `i` viewing element `i`. A failed heap creation is an error. |
| `Main2.FrameTablesLayout` | TeapotTutorial/TeapotTutorial/Main2.cpp:826-828 | Frame `f`'s table starts at slot `f * 28` and holds its 28 parts. The tables lie in the heap and do not overlap. |
| `Main2.RenderCommandsBindFrame` | TeapotTutorial/TeapotTutorial/Main2.cpp:807-831 | The render target set is the slot of buffer `frameIndex`, and the table bound starts at slot `frameIndex * 28`. The constants are `{16, 16}`. |
| `Main2.Main2App.constructor` | TeapotTutorial/TeapotTutorial/Main2.cpp:40-51 | The zero-initialised globals: no allocators, fences, list or constant heap, and counters of 0. |
| `Main2.Main2App.CreateCommandAllocators` | TeapotTutorial/TeapotTutorial/Main2.cpp:421-433 | `commandAllocators[i]` is set for every `i` before the first failure; the rest are unchanged. The step passes if and only if both are created. |
| `Main2.Main2App.CreateCommandList` | TeapotTutorial/TeapotTutorial/Main2.cpp:435-446 | Passes if and only if both steps succeed. The list is then closed and empty. |
| `Main2.Main2App.CreateFences` | TeapotTutorial/TeapotTutorial/Main2.cpp:448-462 | Fence `i` is created at 0 with `fenceValues[i] == 0` for every `i` before the first failure. Passes if and only if all are created. |
| `Main2.Main2App.UploadBuffer` | TeapotTutorial/TeapotTutorial/Main2.cpp:539-559 | A passing upload leaves fence 0 at 0 and the list closed, and has executed its commands. Fence 1 is never touched. |
| `Main2.Main2App.CreateConstantBufferViews` | TeapotTutorial/TeapotTutorial/Main2.cpp:641-653 | On success, `descHeapCbv` is the laid-out heap of `28 * 2` views. A failure leaves it as it was. |
| `Main2.Main2App.WaitForPreviousFrame` | TeapotTutorial/TeapotTutorial/Main2.cpp:756-772 | Waits for `fenceValues[frameIndex]`, changes nothing, and reports a failed wait as an error. |
| `Main2.Main2App.RecordFrame` | TeapotTutorial/TeapotTutorial/Main2.cpp:790-851 | The list holds the frame's commands: its render target, its table at slot `frameIndex * 28`, the constants and both transitions. |
| `Main2.Main2App.SignalFrame` | TeapotTutorial/TeapotTutorial/Main2.cpp:866-872 | Only `fenceValues[frameIndex]` changes, by +1. The fence gets the new value only when the signal succeeds. |
| `Main2.Main2App.RecordAndExecute` | TeapotTutorial/TeapotTutorial/Main2.cpp:776-859 | Passes if and only if both resets and the close succeed. It then leaves the frame's commands closed and executed; a failed step gives that step's error. |
| `Main2.Main2App.Render` | TeapotTutorial/TeapotTutorial/Main2.cpp:774-875 | The result is the first failing step's error. Only `fenceValues[frameIndex]` rises, by 1, once present succeeds. Fence `frameIndex` gets that value if the signal succeeds; otherwise, and in every other fence, nothing changes. The wait reads the next buffer's counter. A frame that passes leaves the globals valid. |
| `TeapotTutorial.PressEffect` | TeapotTutorial/TeapotTutorial/TeapotTutorial.cpp:46-65 | Key 49 lowers the factor by one except at 1, and key 50 raises it except at 64; neither changes the fill mode. Keys 51 and 52 select wireframe and solid and keep the factor. Any other key changes nothing. |
| `TeapotTutorial.PressPreservesRange` | TeapotTutorial/TeapotTutorial/TeapotTutorial.cpp:50-57 | A press never takes the factor out of 1..64. |
| `TeapotTutorial.PressAllPreservesRange` | TeapotTutorial/TeapotTutorial/TeapotTutorial.cpp:46-65 | Any sequence of presses from a state in range stays in range. |
| `TeapotTutorial.ReachableStatesInRange` | TeapotTutorial/TeapotTutorial/TeapotTutorial.h:46 | From the initial factor 8, every sequence of key presses keeps `1 <= tessFactor <= 64`. |
| `TeapotTutorial.RaisingSaturates` | TeapotTutorial/TeapotTutorial/TeapotTutorial.cpp:54-57 | Enough presses of key 50 reach 64, and the factor stays there. |
| `TeapotTutorial.FrameConstantsFit` | TeapotTutorial/TeapotTutorial/TeapotTutorial.cpp:150-156 | Frame `f`'s matrix at `f * 256` fits in the buffer of `256 * bufferCount` bytes, and frames do not overlap. |
| `TeapotTutorial.CreateConstantBuffer` | TeapotTutorial/TeapotTutorial/TeapotTutorial.cpp:211-253 | The buffer has `256 * bufferCount` bytes and holds every frame's matrix. A failed creation is an error. |
| `TeapotTutorial.RenderPassesIffAllStepsSucceed` | TeapotTutorial/TeapotTutorial/TeapotTutorial.cpp:70-194 | A frame passes if and only if every step succeeds, the final wait included. |
| `TeapotTutorial.RenderCommandsBindFrame` | TeapotTutorial/TeapotTutorial/TeapotTutorial.cpp:103-161 | The render target is buffer `frameIndex`'s slot, and both hull-shader constants equal `tessFactor`. Frame `frameIndex`'s matrix fits in the buffer, and the transitions go to render target and back. |
| `TeapotTutorial.TeapotTutorial.constructor` | TeapotTutorial/TeapotTutorial/TeapotTutorial.cpp:13-68 | Once the base classes have created the frames, the heap and the closed list, the tutorial starts with factor 8 and the wireframe pipeline, in a valid state. |
| `TeapotTutorial.TeapotTutorial.OnKeyPress` | TeapotTutorial/TeapotTutorial/TeapotTutorial.cpp:46-65 | The callback's new factor and pipeline are those of the key rule `Press`. A valid state stays valid, so the factor stays within 1..64. |
| `TeapotTutorial.TeapotTutorial.RecordFrame` | TeapotTutorial/TeapotTutorial/TeapotTutorial.cpp:86-170 | The list holds the frame's commands: the current pipeline, the back buffer's render target and clear, and the constants `{tessFactor, tessFactor}`. Then come the frame's constant view, the draw of every index, and both transitions. |
| `TeapotTutorial.TeapotTutorial.Render` | TeapotTutorial/TeapotTutorial/TeapotTutorial.cpp:70-194 | The result is the first failing step's error. Only `fenceValues[frameIndex]` rises, by 1, once present succeeds. Fence `frameIndex` gets that value if the signal succeeds; otherwise, and in every other fence, nothing changes. The wait reads the next buffer's counter. A frame that passes leaves the state valid. |
| `Layout.AlignTo256RoundsUp` | TeapotTutorial/TeapotTutorial/TeapotTutorial.cpp:138 | Unless `size + 255` wraps at 64 bits, `(size + 255) & ~255` is the next multiple of 256 at or above `size`. |
| `Layout.ConstantElementSizeIsLeastMultiple` | TeapotTutorial/TeapotTutorial/TeapotTutorial.cpp:213 | `(64 + 255) & ~255` is 256, the least multiple of 256 that holds a 64-byte matrix. |
| `Layout.SlotInBounds` | HelloTeapot/HelloTeapot/Source/HelloTeapotDemo.cpp:432 | `frame * numParts + part` is below `numParts * frames`. |
| `Layout.SlotDecodes` | HelloTeapot/HelloTeapot/Source/HelloTeapotDemo.cpp:432 | A slot determines its frame, by division, and its part, by remainder. |
| `Layout.SlotInjective` | HelloTeapot/HelloTeapot/Source/HelloTeapotDemo.cpp:432 | Two (frame, part) pairs share a slot if and only if they are equal. |
| `Layout.SlotInTable` | TeapotTutorial/TeapotTutorial/Main2.cpp:827 | Part `part` of a frame is entry `part` of that frame's table. |
| `Layout.TablesDisjoint` | TeapotTutorial/TeapotTutorial/Main2.cpp:826-828 | The tables of different frames do not overlap. |
| `Layout.TableInHeap` | TeapotTutorial/TeapotTutorial/Main2.cpp:826-828 | Every frame's table lies inside the heap. |
| `Layout.BlockInBounds` | HelloTeapot/HelloTeapot/Source/HelloTeapotDemo.cpp:423-424 | Block `i` of `count` blocks ends inside a buffer of `size * count` bytes. |
| `Layout.BlocksDisjoint` | HelloTeapot/HelloTeapot/Source/HelloTeapotDemo.cpp:423-429 | Distinct blocks `[i * size, (i + 1) * size)` do not overlap. |
| `Layout.WriteInBlock` | HelloTeapot/HelloTeapot/Source/HelloTeapotDemo.cpp:62 | A write no longer than a block, at a block's start, stays inside the buffer. |
| `Layout.HandleOffsetDecodes` | HelloWindow/src/Main.cpp:208-209 | `slot * step` is a multiple of `step` and names exactly `slot`. |

## Left out

- Every native object and its creation: device, factory, queue, swap chain, root signature, shaders, pipeline states, viewports, scissor rectangles, and every barrier except the two back-buffer transitions of each frame and the copy-destination-to-readable transition at the end of each upload. Each native call that a kept operation depends on is reduced to a success flag or a returned value passed in as a parameter.
- `GetDescriptorHandleIncrementSize` becomes a positive `step` parameter. `GetCurrentBackBufferIndex` becomes the `frameIndex` and `nextFrameIndex` parameters, which the caller supplies.
- GPU-side execution and real synchronisation. The fence is the value last signalled on it, and a wait is its two reported results. The 10-second timeout is folded into the wait result.
- Floating-point work: matrices, camera and mouse-driven rotations, the per-part rotations and mirror scales in HelloTeapot's `render`, clear colours and viewports. In HelloTeapot the memcpy of each part's matrix is modelled by its buffer, offset and length only. TeapotTutorial's memcpy of the frame's matrix (`TeapotTutorial.cpp:153`) is not modelled at all: `TeapotTutorial.RenderCommands` records no write, and `TeapotTutorial.RenderCommandsBindFrame` only bounds the root constant-buffer view's offset.
- Window creation, the message loops and the timer. The key callback is driven by calling `OnKeyPress` directly.
- Teapot geometry. The patch lengths are a `seq<nat>` parameter and the points are a count and an element size.
- Integer widths. The slot arithmetic is unbounded. The `UINT` products `(frameIndex * NUM_PARTS + currPart) * descriptorSize` and `i * rtvStep` do not wrap for any realistic descriptor size, so their 32-bit wrap-around is not modelled. Only the 64-bit `(size + 255) & ~255` is computed on `bv64`.
- 64-bit counters. HelloWindow's `frameCount` (`Main.cpp:263`) and every `fenceValues` entry (Main2, TeapotTutorial's `Graphics`, HelloTeapotDemo) are `UINT64` but are modelled as unbounded `nat`. So `HelloWindow.Renderer.Render`'s `fence > old(fence)`, `Graphics.SignalIncreases` and the other "rises by 1" clauses hold because the wrap-around at 2^64 frames is not modelled.
- The 28 straight-line `drawPart` calls become a loop over `PartIndexView`. `DrawSchedule` proves that the rule yields exactly the arguments of the 28 calls.
- `waitForPreviousFrame`, `createCommandAllocators`, `createCommandLists`, `createFences` and `createFenceEvents` of HelloTeapotDemo are declared in its header but not defined in `HelloTeapotDemo.cpp`. The model starts the demo with fences and counters at 0 and a closed list, and takes the frame's final wait result as an input.
- HelloTeapotDemo's header also differs from its source file in several places:
  - the constructor's parameters;
  - `createControlPointsBuffers` against `createControlPointsBuffer`;
  - `createControlPointsIndexBuffer` against `createControlPointsIndexBuffers`;
  - `drawPart`'s parameter list;
  - the undeclared `commandList` member.

  The model follows the definitions in the source file, with one command list.
- HelloTeapot's `Graphics.cpp` calls `createFactory(width, height)`, which does not match its declaration, and its `getSwapChainBuffers` is not modelled. The constructor's `getAdapter(false)` is `GetAdapter` with `useWarp` false.
- `HelloTeapotGraphics.Graphics.GetAdapter`: the status of `EnumWarpAdapter` is not checked by the source, so only whether it produced an adapter is modelled.
- `Main2.Main2App.Render`: `Main2.cpp:833` binds `dsColorsStructuredBuffer->GetGPUVirtualAddress()` as root parameter 2. That pointer is never set, because the initialisation (`Main2.cpp:87-102`) never calls `createDsColorsStructuredBuffer`, and its line 102 is commented out. As written, every frame dereferences a null pointer while recording and never gets past that line. The model does not record this binding, and its frames that pass assume the buffer was created before the loop.
- `Main2.cpp`'s `createControlPointsIndexBuffer` and `createDsColorsStructuredBuffer` are instances of `Main2.Main2App.UploadBuffer` with their own error messages. TeapotTutorial's constructor uploads through `createDefaultBuffer`, which lives in `Utils.h`; that helper is not part of this model.
- TeapotTutorial's transforms-and-colors heap and its shader-resource views are not modelled. Nor is the depth-stencil handle bound by `OMSetRenderTargets` (`TeapotTutorial.cpp:109`) or the depth-stencil clear at `render`: the model records only the render-target handle. The depth-stencil heap itself is modelled by `Graphics.CreateDescriptorHeapDepthStencil`.
- `HelloTeapotDemo.cpp:411` and `Main2.cpp:660` create constant buffers without checking the result. The model takes the creation as always succeeding, as the code does.
- `Graphics.cpp` and `Graphics1.cpp` of TeapotTutorial define identical allocator, list, fence and wait code. `Graphics.FrameResources` models it once, and `WaitFrameComplete` stands for both `waitFrameComplete` and `waitForPreviousFrame`.
- `Graphics.FrameResources.Release`: the destructor's failed wait throws out of `~Graphics` (`Graphics.cpp:26-32`). A destructor is implicitly `noexcept`, so the throw calls `std::terminate`, and the error never reaches a caller. The model returns that error as its outcome and does not model the termination.
- `TeapotTutorial.TeapotTutorial.RecordFrame` records `DrawIndexed(patches.size())`. The source computes `SizeInBytes` as `patches.size() * 4` and divides it by 4 again; the model performs the same two steps.

## Findings

| source | as written | input that shows it | evidently intended | confidence | as-written member | corrected member |
|---|---|---|---|---|---|---|
| TeapotTutorial/TeapotTutorial/Main2.cpp:529-537 | Every upload ignores the results of `commandList->Reset` and `commandList->Close`, then records and executes. The same holds at Main2.cpp:604-612 and 723-731, and at HelloTeapotDemo.cpp:254-263 and 343-352. | `Reset` fails on the closed list: the copy is recorded on a closed list. Or `Reset` succeeds and `Close` fails: an open list is executed. | Test both results and throw, as `render` does for the same two calls. | not executed | `Native.UploadAsWrittenMisusesList` | `Native.UploadCheckedIsLegal` |

`Native.Upload` is the corrected upload that the rest of the model uses. It stops with "Error resetting command list." or "Failed closing command list.", the messages `render` uses for the same two failures.
