/**
 * Descriptor heaps: fixed-size arrays of descriptor slots addressed by byte
 * offsets from the heap start, `slot * step`, where `step` is the device's
 * descriptor increment size for the heap type.
 */
module Descriptors {
  import opened Native
  import Layout

  /** What a descriptor slot describes. */
  datatype Descriptor =
    | RenderTargetView(backBuffer: nat)
      // a view of constant-buffer resource `buffer`, `size` bytes from byte `location`
    | ConstantBufferView(buffer: nat, location: nat, size: nat)
    | DepthStencilView

  class DescriptorHeap {
    /** `GetDescriptorHandleIncrementSize` for the heap's type. */
    const step: nat
    /** `None` marks a slot no view has been written to. */
    const slots: array<Option<Descriptor>>

    /** A heap of `numDescriptors` empty slots, `step` bytes apart. */
    constructor (numDescriptors: nat, step: nat)
      ensures this.step == step
      ensures fresh(slots) && slots.Length == numDescriptors
      ensures forall i :: 0 <= i < slots.Length ==> slots[i] == None
    {
      this.step := step;
      slots := new Option<Descriptor>[numDescriptors](_ => None);
    }

    /** The byte offset `offset` names a slot of this heap. */
    predicate ValidHandle(offset: nat)
    {
      step > 0 && offset % step == 0 && offset / step < slots.Length
    }

    /** The handle of every slot is valid, and names that slot. */
    lemma HandleOfSlot(slot: nat)
      requires step > 0 && slot < slots.Length
      ensures ValidHandle(Layout.HandleOffset(slot, step))
      ensures Layout.HandleOffset(slot, step) / step == slot
    {
      Layout.HandleOffsetDecodes(slot, step);
    }

    /**
     * `CreateRenderTargetView` / `CreateConstantBufferView` at a handle:
     * the named slot now holds `d`, every other slot is unchanged.
     */
    method Write(offset: nat, d: Descriptor)
      requires ValidHandle(offset)
      modifies slots
      ensures slots[..] == old(slots[..])[offset / step := Some(d)]
    {
      slots[offset / step] := Some(d);
    }

    /**
     * The loop every demo runs after creating its render-target heap: a
     * view of back buffer `i` at handle `i * step`, for each `i < count`.
     */
    method CreateRenderTargetViews(count: nat)
      requires step > 0 && count <= slots.Length
      modifies slots
      ensures forall i :: 0 <= i < slots.Length ==>
        slots[i] == (if i < count then Some(RenderTargetView(i)) else old(slots[i]))
    {
      var i := 0;
      while i < count
        invariant 0 <= i <= count
        invariant forall k :: 0 <= k < slots.Length ==>
          slots[k] == (if k < i then Some(RenderTargetView(k)) else old(slots[k]))
      {
        HandleOfSlot(i);
        Write(Layout.HandleOffset(i, step), RenderTargetView(i));
        i := i + 1;
      }
    }
  }
}
