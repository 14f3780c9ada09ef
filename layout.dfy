/**
 * Slot and offset arithmetic shared by the descriptor heaps and constant
 * buffers of all three demos.
 *
 * A descriptor heap is addressed in bytes: descriptor `slot` lives at byte
 * `slot * step` from the heap start, where `step` is the device's
 * descriptor increment size.  A constant buffer is addressed in bytes too:
 * element `i` of an array of 256-byte aligned constant blocks lives at
 * `i * aligned`.
 */
module Layout {

  /** sizeof(XMFLOAT4X4): sixteen 4-byte floats. */
  const MatrixSize: nat := 64

  /** `(size + 255) & ~255`, evaluated in 64-bit `size_t` arithmetic. */
  function AlignTo256(size: bv64): bv64
  {
    (size + 255) & !255
  }

  /**
   * Unless `size + 255` wraps around, the expression rounds `size` up to a
   * multiple of 256, by less than 256.
   */
  lemma AlignTo256RoundsUp(size: bv64)
    requires size <= 0xFFFF_FFFF_FFFF_FF00
    ensures AlignTo256(size) % 256 == 0
    ensures size <= AlignTo256(size)
    ensures AlignTo256(size) - size < 256
  {
  }

  /** The constant-buffer element size every demo uses: 256 bytes per matrix. */
  function ConstantElementSize(): nat
  {
    256
  }

  /**
   * The demos' `(sizeof(XMFLOAT4X4) + 255) & ~255` is that size: the least
   * multiple of 256 that holds a 64-byte matrix.
   */
  lemma ConstantElementSizeIsLeastMultiple()
    ensures AlignTo256(MatrixSize as bv64) as nat == ConstantElementSize()
    ensures ConstantElementSize() % 256 == 0 && MatrixSize <= ConstantElementSize()
    ensures forall m: nat :: m % 256 == 0 && MatrixSize <= m ==> ConstantElementSize() <= m
  {
    assert AlignTo256(64) == 256;
  }

  // ---------------------------------------------------------------------
  // Descriptor slots: `frame * numParts + part`
  // ---------------------------------------------------------------------

  /** The descriptor slot of part `part` of frame `frame`. */
  function Slot(frame: nat, numParts: nat, part: nat): nat
  {
    frame * numParts + part
  }

  /** First slot of frame `frame`'s descriptor table. */
  function TableStart(frame: nat, numParts: nat): nat
  {
    frame * numParts
  }

  lemma MulMonotone(a: nat, b: nat, n: nat)
    requires a <= b
    ensures a * n <= b * n
  {
  }

  /** Every slot of every frame lies inside a heap of `numParts * frames` descriptors. */
  lemma {:induction false} SlotInBounds(frame: nat, part: nat, numParts: nat, frames: nat)
    requires frame < frames && part < numParts
    ensures Slot(frame, numParts, part) < numParts * frames
  {
    MulMonotone(frame + 1, frames, numParts);
    assert (frame + 1) * numParts == frame * numParts + numParts;
  }

  /** A slot determines its frame and its part: the layout loses no information. */
  lemma {:induction false} SlotDecodes(frame: nat, part: nat, numParts: nat)
    requires part < numParts
    ensures Slot(frame, numParts, part) / numParts == frame
    ensures Slot(frame, numParts, part) % numParts == part
  {
    var s := Slot(frame, numParts, part);
    DivModUnique(s, numParts, frame, part);
  }

  lemma MulSucc(a: nat, n: nat)
    ensures (a + 1) * n == a * n + n
  {
  }

  lemma DivModUnique(s: nat, n: nat, q: nat, r: nat)
    requires r < n && s == q * n + r
    ensures s / n == q && s % n == r
  {
    var q', r' := s / n, s % n;
    if q' < q {
      MulSucc(q', n);
      MulMonotone(q' + 1, q, n);
    } else if q < q' {
      MulSucc(q, n);
      MulMonotone(q + 1, q', n);
    }
  }

  /** Distinct (frame, part) pairs get distinct slots, and equal pairs equal slots. */
  lemma SlotInjective(f1: nat, p1: nat, f2: nat, p2: nat, numParts: nat)
    requires p1 < numParts && p2 < numParts
    ensures Slot(f1, numParts, p1) == Slot(f2, numParts, p2) <==> f1 == f2 && p1 == p2
  {
    SlotDecodes(f1, p1, numParts);
    SlotDecodes(f2, p2, numParts);
  }

  /** Part `part` of frame `frame` is the `part`-th entry of that frame's table. */
  lemma SlotInTable(frame: nat, part: nat, numParts: nat)
    requires part < numParts
    ensures TableStart(frame, numParts) <= Slot(frame, numParts, part) < TableStart(frame, numParts) + numParts
    ensures Slot(frame, numParts, part) - TableStart(frame, numParts) == part
  {
  }

  /** Tables of different frames do not overlap. */
  lemma {:induction false} TablesDisjoint(f1: nat, f2: nat, numParts: nat)
    requires f1 < f2
    ensures TableStart(f1, numParts) + numParts <= TableStart(f2, numParts)
  {
    MulMonotone(f1 + 1, f2, numParts);
    assert (f1 + 1) * numParts == f1 * numParts + numParts;
  }

  /** The table of every frame lies inside the heap. */
  lemma {:induction false} TableInHeap(frame: nat, numParts: nat, frames: nat)
    requires frame < frames
    ensures TableStart(frame, numParts) + numParts <= numParts * frames
  {
    MulMonotone(frame + 1, frames, numParts);
    assert (frame + 1) * numParts == frame * numParts + numParts;
  }

  // ---------------------------------------------------------------------
  // Byte ranges of equally sized blocks: block i covers [i*size, (i+1)*size)
  // ---------------------------------------------------------------------

  /** First byte of block `i` when blocks are `size` bytes long. */
  function BlockStart(i: nat, size: nat): nat
  {
    i * size
  }

  /** Block `i` of `count` blocks ends inside a buffer of `size * count` bytes. */
  lemma {:induction false} BlockInBounds(i: nat, count: nat, size: nat)
    requires i < count
    ensures BlockStart(i, size) + size <= size * count
  {
    MulMonotone(i + 1, count, size);
    assert (i + 1) * size == i * size + size;
  }

  /** Distinct blocks cover disjoint byte ranges. */
  lemma {:induction false} BlocksDisjoint(i: nat, j: nat, size: nat)
    requires i != j
    ensures BlockStart(i, size) + size <= BlockStart(j, size) || BlockStart(j, size) + size <= BlockStart(i, size)
  {
    if i < j {
      MulMonotone(i + 1, j, size);
      assert (i + 1) * size == i * size + size;
    } else {
      MulMonotone(j + 1, i, size);
      assert (j + 1) * size == j * size + size;
    }
  }

  /**
   * A write of `len` bytes at `offset` inside block `i` stays inside a
   * buffer of `count` blocks.
   */
  lemma WriteInBlock(i: nat, count: nat, size: nat, len: nat)
    requires i < count && len <= size
    ensures BlockStart(i, size) + len <= size * count
  {
    BlockInBounds(i, count, size);
  }

  // ---------------------------------------------------------------------
  // Descriptor handles: byte offset `slot * step` from the heap start
  // ---------------------------------------------------------------------

  /** Byte offset of descriptor `slot` from the heap start. */
  function HandleOffset(slot: nat, step: nat): nat
  {
    slot * step
  }

  /** A handle offset is step-aligned and names exactly its slot. */
  lemma HandleOffsetDecodes(slot: nat, step: nat)
    requires step > 0
    ensures HandleOffset(slot, step) % step == 0
    ensures HandleOffset(slot, step) / step == slot
  {
    DivModUnique(HandleOffset(slot, step), step, slot, 0);
  }
}
