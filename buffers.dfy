/**
 * `hac::Buffer<T>` (src/buffer.rs): a GPU allocation of `capacity` elements of
 * a plain-data type `T`, each `size_of::<T>()` bytes long.
 *
 * The GPU memory is modelled element by element as the `contents` field;
 * the byte arithmetic the source performs on sizes and offsets is modelled
 * by `ByteSize` and proved to stay inside the allocation.
 */
module Buffers {
  import opened Common
  import opened Wgpu

  /**
   * wgpu's `COPY_BUFFER_ALIGNMENT`: buffer writes and buffer-to-buffer copies
   * must start at and span a multiple of 4 bytes, or the backend panics.
   */
  const COPY_BUFFER_ALIGNMENT: nat := 4

  /** How a kernel may access a buffer bound to it. */
  datatype BufferAccess = ReadOnly | ReadWrite

  /** Bytes taken by `count` elements of `elemSize` bytes: `count * size_of::<T>()`. */
  function ByteSize(count: nat, elemSize: nat): nat {
    count * elemSize
  }

  /** A byte offset or length wgpu accepts for a write or a copy. */
  predicate CopyAligned(bytes: nat) {
    bytes % COPY_BUFFER_ALIGNMENT == 0
  }

  /**
   * Elements whose size is a multiple of 4 bytes (`f32`, `i32`, `u32`, as in
   * every buffer the examples create) give aligned sizes and offsets at any
   * count; for other sizes some count is unaligned.
   */
  lemma {:induction false} ElementsAligned(elemSize: nat)
    ensures CopyAligned(elemSize) <==> forall count: nat :: CopyAligned(ByteSize(count, elemSize))
  {
    if CopyAligned(elemSize) {
      forall count: nat
        ensures CopyAligned(ByteSize(count, elemSize))
      {
        var k := elemSize / 4;
        assert elemSize == 4 * k;
        assert ByteSize(count, elemSize) == 4 * (count * k);
      }
    } else {
      assert ByteSize(1, elemSize) == elemSize;
    }
  }

  /**
   * The byte range a write of `count` elements at element `index` touches,
   * `[index * size, index * size + count * size)`, lies inside an allocation
   * of `capacity` elements exactly when `index + count <= capacity`.
   * (The converse needs elements of non-zero size.)
   */
  lemma {:induction false} WriteRangeInAllocation(index: nat, count: nat, capacity: nat, elemSize: nat)
    ensures index + count <= capacity ==>
      ByteSize(index, elemSize) + ByteSize(count, elemSize) <= ByteSize(capacity, elemSize)
    ensures elemSize > 0 && ByteSize(index, elemSize) + ByteSize(count, elemSize) <= ByteSize(capacity, elemSize) ==>
      index + count <= capacity
  {
    assert ByteSize(index, elemSize) + ByteSize(count, elemSize) == (index + count) * elemSize;
    if index + count <= capacity {
      MulMonotonic(index + count, capacity, elemSize);
    } else if elemSize > 0 {
      MulStrictlyMonotonic(capacity, index + count, elemSize);
    }
  }

  /** `s` with `data` written over it starting at element `index`. */
  function Overwrite<T>(s: seq<T>, data: seq<T>, index: nat): (r: seq<T>)
    requires index + |data| <= |s|
    ensures |r| == |s|
    ensures forall i :: index <= i < index + |data| ==> r[i] == data[i - index]
    ensures forall i :: 0 <= i < |s| && !(index <= i < index + |data|) ==> r[i] == s[i]
  {
    s[..index] + data + s[index + |data|..]
  }

  class Buffer<T> {
    /** The backend buffer. */
    const handle: BufferHandle
    /** `size_of::<T>()`. */
    const elemSize: nat
    /** The buffer's memory, one entry per element. */
    var contents: seq<T>

    /** Number of elements the buffer holds. */
    function Capacity(): nat
      reads this
    {
      |contents|
    }

    /** `handle.size()`: the size of the allocation in bytes. */
    function Size(): nat
      reads this
    {
      ByteSize(|contents|, elemSize)
    }

    /**
     * `Buffer::new`: allocates `capacity * size_of::<T>()` bytes. The
     * documented panic when that exceeds `max_buffer_size` is a precondition.
     * wgpu hands out new buffers zero-filled; `zero` is the element whose
     * bytes are all zero.
     */
    constructor New(handle: BufferHandle, capacity: u64, elemSize: nat, zero: T, maxBufferSize: u64)
      requires ByteSize(capacity, elemSize) <= maxBufferSize
      ensures this.handle == handle && this.elemSize == elemSize
      ensures Capacity() == capacity && Size() == ByteSize(capacity, elemSize) <= maxBufferSize
      ensures forall i :: 0 <= i < capacity ==> contents[i] == zero
    {
      this.handle := handle;
      this.elemSize := elemSize;
      contents := seq(capacity, _ => zero);
    }

    /** `Buffer::empty_like`: a new zero-filled buffer of the same byte size as `original`. */
    constructor EmptyLike(handle: BufferHandle, original: Buffer<T>, zero: T)
      ensures this.handle == handle && elemSize == original.elemSize
      ensures Size() == original.Size() && Capacity() == original.Capacity()
      ensures forall i :: 0 <= i < Capacity() ==> contents[i] == zero
    {
      this.handle := handle;
      elemSize := original.elemSize;
      contents := seq(|original.contents|, _ => zero);
    }

    /**
     * `Buffer::from_slice`: allocates exactly the bytes of `data` and fills
     * them with `data`. The limit on the size comes from the caller's
     * documented contract (`Context::buffer_from_slice`). Only data of a
     * multiple of 4 bytes is modelled: wgpu pads any other up to the next
     * multiple of 4.
     */
    constructor FromSlice(handle: BufferHandle, data: seq<T>, elemSize: nat, maxBufferSize: u64)
      requires ByteSize(|data|, elemSize) <= maxBufferSize
      requires CopyAligned(ByteSize(|data|, elemSize))
      ensures this.handle == handle && this.elemSize == elemSize
      ensures contents == data && Size() == ByteSize(|data|, elemSize)
    {
      this.handle := handle;
      this.elemSize := elemSize;
      contents := data;
    }

    /**
     * `Buffer::write`: writes `data` starting at element `index`, i.e. at byte
     * offset `index * size_of::<T>()`. The documented panic on an overrun is
     * a precondition, and so is wgpu's panic on an offset or a length that is
     * not a multiple of 4 bytes. Only elements `index .. index + |data|` change.
     */
    method Write(data: seq<T>, index: u64)
      requires index + |data| <= Capacity()
      requires CopyAligned(ByteSize(index, elemSize)) && CopyAligned(ByteSize(|data|, elemSize))
      modifies this
      ensures Capacity() == old(Capacity()) && Size() == old(Size())
      ensures contents == Overwrite(old(contents), data, index)
    {
      ghost var offset := ByteSize(index, elemSize);
      WriteRangeInAllocation(index, |data|, |contents|, elemSize);
      assert offset + ByteSize(|data|, elemSize) <= Size();
      contents := Overwrite(contents, data, index);
    }

    /**
     * `Buffer::read_to_vec`: copies the whole allocation, from byte offset 0
     * to `handle.size()`, and returns it as `capacity` elements. wgpu panics
     * on a copy whose size is not a multiple of 4 bytes: a precondition.
     */
    method ReadToVec() returns (r: seq<T>)
      requires CopyAligned(Size())
      ensures |r| == Capacity() && ByteSize(|r|, elemSize) == Size()
      ensures forall i :: 0 <= i < |r| ==> r[i] == contents[i]
    {
      var copySize := Size();
      r := contents;
      assert ByteSize(|r|, elemSize) == copySize;
    }
  }

  /** Reading a buffer back after a write returns the written data at the written place. */
  method WriteThenRead<T>(buffer: Buffer<T>, data: seq<T>, index: u64) returns (r: seq<T>)
    requires index + |data| <= buffer.Capacity()
    requires CopyAligned(ByteSize(index, buffer.elemSize)) && CopyAligned(ByteSize(|data|, buffer.elemSize))
    requires CopyAligned(buffer.Size())
    modifies buffer
    ensures |r| == old(buffer.Capacity())
    ensures r[index..index + |data|] == data
    ensures forall i :: 0 <= i < |r| && !(index <= i < index + |data|) ==> r[i] == old(buffer.contents[i])
  {
    buffer.Write(data, index);
    r := buffer.ReadToVec();
    assert r == buffer.contents;
  }
}
