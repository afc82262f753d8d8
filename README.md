# hac, modelled in Dafny

`hac` is a thin layer over wgpu for general-purpose GPU compute. A program:

- allocates typed buffers and images,
- collects them into bind groups with a `BindGroupDescriptor`,
- creates a `Kernel` (a compute pipeline plus its bind groups) from a `KernelInfo`,
- enqueues commands on a `CommandQueue` and executes the queue into one compute pass.

Images are read back through a staging buffer whose rows are padded to a multiple of 256 bytes.

This project models that core and proves properties of the model.

- **Opaque handles.** Backend objects are handles: devices, textures, views, samplers, shader modules and bind groups.
- **Descriptors as values.** What hac hands to wgpu (layouts, entries, pipeline layouts, texture descriptors) is a datatype.
- **Recorded compute pass.** The pass is a class that records the calls made on it, in order.
- **Backend rules as predicates.** The panics the documentation of `CommandQueue::execute` lists are raised by wgpu, not by hac. They are stated as predicates over the queued commands (`CommandQueues.Valid`).

Files:

- `common.dfy`: integer types, `Option`, and arithmetic and sequence lemmas.
- `wgpu.dfy`: the slice of the wgpu API the core uses, including the recording `ComputePass`.
- `ranges.dfy`: `hac::Range`.
- `buffers.dfy`: `hac::Buffer<T>`, modelled as a class whose contents are a sequence of elements.
- `images.dfy`: `hac::Image`, the padded read-back, and creation from RGBA8 data.
- `bind_groups.dfy`: bindings, `BindGroupDescriptor` (a class) and `BindGroup`.
- `kernels.dfy`: `KernelInfo`, `Kernel` and `Kernel::new`.
- `command_queues.dfy`: `Command`, `CommandQueue` (a class), execution on a compute pass, `Kernel::dispatch`, and the validity rules.
- `gaussian_blur.dfy`: the command sequence of the Gaussian-blur example, as a sample input for those rules.

## Model

| member | source | states |
|---|---|---|
| Ranges.New | src/lib.rs:109-111 | the range has exactly the given x, y and z |
| Ranges.D1 | src/lib.rs:114-116 | x as given, y and z are 1 |
| Ranges.D2 | src/lib.rs:119-121 | x and y as given, z is 1 |
| Ranges.D3 | src/lib.rs:124-126 | the same extents as `Range::new` |
| Ranges.ConstructorsAgree | src/lib.rs:109-126 | `d1`, `d2` and `d3` are `new` with the missing extents set to 1, and agree with each other |
| Buffers.ByteSize | src/buffer.rs:54 | (definition) `capacity * size_of::<T>()`, the bytes of `count` elements, as the allocation and the write offset compute it |
| Buffers.ElementsAligned | src/buffer.rs:90-143 | sizes and offsets of any element count meet wgpu's 4-byte copy alignment exactly when the element size is a multiple of 4 |
| Buffers.WriteRangeInAllocation | src/buffer.rs:85-95 | a write of `count` elements at byte offset `index * size` stays inside a `capacity`-element allocation when `index + count <= capacity`; for non-zero element size the converse also holds |
| Buffers.Overwrite | src/buffer.rs:90-95 | the written elements are the data, every other element is unchanged, and the length is kept |
| Buffers.Buffer.New | src/buffer.rs:42-64 | the allocation is `capacity * size_of::<T>()` bytes and within `max_buffer_size`; the contents are zero |
| Buffers.Buffer.EmptyLike | src/buffer.rs:66-83 | the new buffer has the original's byte size and capacity, and zero contents |
| Buffers.Buffer.FromSlice | src/buffer.rs:97-113 | for data of a multiple of 4 bytes, the buffer holds exactly the data, in `|data| * size_of::<T>()` bytes |
| Buffers.Buffer.Write | src/buffer.rs:85-95 | for a 4-byte-aligned offset and length inside the buffer, only the elements from `index` to `index + |data|` change, to the data; size and capacity are kept |
| Buffers.Buffer.ReadToVec | src/buffer.rs:115-143 | for a buffer of a multiple of 4 bytes, the whole allocation, `capacity` elements, comes back element for element |
| Buffers.WriteThenRead | src/buffer.rs:85-143 | reading back after a write returns the written data at the written place and the old contents elsewhere |
| Images.ToTextureSampleType | src/image.rs:23-31 | each image sample type maps to the wgpu sample type of the same kind, with filterability kept |
| Images.SampleTypeRoundTrip | src/image.rs:23-31 | the conversion is undone by its inverse, and reaches every non-depth sample type |
| Images.DimensionFor | src/image.rs:75-79 | 2D exactly when there is one layer, 3D otherwise |
| Images.New | src/image.rs:74-105 | the image has the requested size and format, and is 2D exactly for one layer |
| Images.EmptyLike | src/image.rs:107-140 | a new texture with the original's size, format and dimension, so an identical texture descriptor |
| Images.EmptyLikeOfNew | src/image.rs:74-140 | an empty copy of a new image is a new image created from the same info |
| Images.UnpaddedBytesPerRow | src/image.rs:175 | (definition) `bytes_per_pixel * width`, the bytes of one row of pixels |
| Images.PaddedBytesPerRow | src/image.rs:169-173 | the pitch is a multiple of 256, at least the unpadded row and less than 256 bytes more; it is unchanged when the row is already aligned |
| Images.StagingBufferSize | src/image.rs:177-178 | the staging buffer, `padded_bytes_per_row * height` bytes, has room for every unpadded row |
| Images.Unpad | src/image.rs:221-227 | (definition) the first `unpadded` bytes of each whole `padded`-byte chunk, concatenated |
| Images.UnpadLength | src/image.rs:219-227 | `height` padded rows unpad to `unpadded_bytes_per_row * height` bytes, the size of `pixels` |
| Images.UnpadChunks | src/image.rs:221-227 | output chunk `r` (at the unpadded pitch) is staging chunk `r` cut to the unpadded width |
| Images.UnpadAt | src/image.rs:219-227 | output row `r` is the first `unpadded` bytes of staging row `r`, found by index arithmetic |
| Images.UnpadIgnoresPadding | src/image.rs:221-227 | two staging buffers of `height` padded rows that agree on the unpadded part of every row read back the same bytes, whatever the padding holds |
| Images.Pad | src/image.rs:194-210 | (definition) what the texture-to-buffer copy writes: each row of pixels followed by its padding |
| Images.UnpadPad | src/image.rs:194-227 | the padded texture-to-buffer copy followed by unpadding returns the texture's bytes unchanged, and the padded copy has `height` padded rows |
| Images.CopyFromSlice | src/image.rs:226 | `copy_from_slice` writes the source over the target range and nothing else |
| Images.CopyUnpaddedRows | src/image.rs:219-227 | after the chunk-by-chunk copy, `pixels` holds exactly the unpadded staging bytes |
| Images.ReadToVec | src/image.rs:162-230 | for a single-layer image, the result has `bytes_per_pixel * width * height` bytes and is the staging buffer with the padding of every row removed |
| Images.Rgba8Format | src/image.rs:263-267 | floats get `Rgba8Unorm`, unsigned integers `Rgba8Uint`, signed integers `Rgba8Sint`, and only those |
| Images.Rgba8FormatSampleType | src/image.rs:247-267 | the chosen format has 4-byte texels and reads back the requested sample type, except that `Rgba8Unorm` is always filterable |
| Images.FromRgba8Image | src/image.rs:251-307 | a single-layer 2D image of the chosen format, and an upload of the RGBA bytes at offset 0, with rows of `4 * width` bytes (none for width 0) |
| Images.Rgba8UploadMatchesReadBack | src/image.rs:295-304 | the upload's row length equals the unpadded row length `read_to_vec` packs its output with |
| BindGroups.BufferBindingType | src/bind_group.rs:15-24 | a storage buffer with no dynamic offset or minimum size, read-only exactly for read-only access |
| BindGroups.TextureBindingType | src/bind_group.rs:35-42 | a non-multisampled sampled texture with the binding's sample type and view dimension |
| BindGroups.StorageTextureBindingType | src/bind_group.rs:54-61 | a storage texture with the binding's access, format and view dimension |
| BindGroups.SamplerBindingTypeOf | src/bind_group.rs:71-75 | a sampler of the binding's sampler type |
| BindGroups.BindingTypeOf | src/bind_group.rs:97-106 | each kind of binding gets a layout type of that kind, in both directions |
| BindGroups.IntoResource | src/bind_group.rs:87-94 | (definition) the resource a binding was made with, whatever its kind |
| BindGroups.ViewDimensionFor | src/bind_group.rs:180-184 | a 2D view exactly for a 2D image, a 3D view otherwise |
| BindGroups.ImageBinding | src/bind_group.rs:179-196 | the image's view, bound for sampling with the image's view dimension and its format's sample type |
| BindGroups.StorageImageBinding | src/bind_group.rs:205-221 | the image's view, bound for storage with the given access, the image's format and its view dimension |
| BindGroups.ImageBindingTypesAgree | src/bind_group.rs:179-221 | images of the same format and dimension get the same layout types, whichever texture they are |
| BindGroups.LayoutOf | src/bind_group.rs:228-252 | (definition) one compute-only layout entry per binding, numbered by position |
| BindGroups.EntriesOf | src/bind_group.rs:237-244 | (definition) one resource entry per binding, numbered by position |
| BindGroups.BindGroupOf | src/bind_group.rs:224-266 | (definition) the bind group created from those entries with that layout |
| BindGroups.LayoutAfterPush | src/bind_group.rs:224-244 | pushing a binding keeps the earlier entries and adds one numbered after them |
| BindGroups.SameLayoutIffSameTypes | src/bind_group.rs:224-252 | two binding lists give the same layout exactly when they are as long and pairwise have the same layout type |
| BindGroups.BindGroupDescriptor.New | src/bind_group.rs:119-124 | no bindings |
| BindGroups.BindGroupDescriptor.PushBuffer | src/bind_group.rs:133-141 | appends the whole buffer, with the given access, as the last binding |
| BindGroups.BindGroupDescriptor.PushSampler | src/bind_group.rs:158-166 | appends the sampler, with the given sampler type, as the last binding |
| BindGroups.BindGroupDescriptor.PushImage | src/bind_group.rs:179-196 | appends the image's sampled binding as the last binding |
| BindGroups.BindGroupDescriptor.PushStorageImage | src/bind_group.rs:205-221 | appends the image's storage binding as the last binding |
| BindGroups.BindGroupDescriptor.IntoBindGroup | src/bind_group.rs:224-266 | one compute-only layout entry and one resource entry per binding, both numbered by position; the group is created with that layout |
| Kernels.PushConstantRanges | src/kernel.rs:66-70 | no push-constant range without a range, and exactly one compute-stage range equal to the given one otherwise |
| Kernels.KernelOf | src/kernel.rs:53-95 | (definition) the kernel `Kernel::new` builds from a `KernelInfo` |
| Kernels.KernelOfConsistent | src/kernel.rs:53-95 | a kernel made from bind groups created with their own layouts sets each group where the pipeline expects its layout |
| Kernels.New | src/kernel.rs:53-95 | the pipeline layout lists the groups' layouts in order, and the kernel keeps the groups in the same order; push ranges, program and entry point are passed through |
| CommandQueues.KernelCalls | src/command_queue.rs:145-155 | setting a kernel sets its pipeline, then bind group `i` at index `i` for each of its groups |
| CommandQueues.CommandCalls | src/command_queue.rs:141-166 | push constants, bind groups and dispatches are forwarded unchanged in one call; a kernel makes its `KernelCalls` |
| CommandQueues.ExecuteCommand | src/command_queue.rs:141-166 | executing a command appends exactly its calls to the pass |
| CommandQueues.Replay | src/command_queue.rs:123-125 | the calls of the commands, taken in queue order and concatenated; at least one call per command |
| CommandQueues.ReplaySnoc | src/command_queue.rs:123-125 | one more queued command adds its calls at the end of the trace |
| CommandQueues.ReplayAppend | src/command_queue.rs:123-125 | replaying two queues in turn is replaying them joined |
| CommandQueues.ReplayCons | src/command_queue.rs:123-125 | the first queued command's calls come first (FIFO order) |
| CommandQueues.CommandQueue.New | src/command_queue.rs:40-45 | an empty queue |
| CommandQueues.CommandQueue.EnqueueSetKernel | src/command_queue.rs:53-56 | appends `SetKernel` at the back |
| CommandQueues.CommandQueue.EnqueueSetPushConstants | src/command_queue.rs:66-70 | appends `SetPushConstants` at the back |
| CommandQueues.CommandQueue.EnqueueSetBindGroup | src/command_queue.rs:83-87 | appends `SetBindGroup` at the back |
| CommandQueues.CommandQueue.EnqueueDispatch | src/command_queue.rs:95-98 | appends `Dispatch` at the back |
| CommandQueues.CommandQueue.Execute | src/command_queue.rs:111-130 | the submitted pass is the replay of the commands in FIFO order |
| CommandQueues.DispatchKernel | src/kernel.rs:103-113 | the pass sets the kernel, then dispatches the given workgroups |
| CommandQueues.CurrentKernelIffSet | src/command_queue.rs:102-105 | a kernel is current exactly when some command sets one |
| CommandQueues.CurrentPipelineAppend | src/command_queue.rs:141-166 | the pipeline current after two traces is the second's, or the first's if the second sets none |
| CommandQueues.KernelCallsSetPipeline | src/command_queue.rs:145-155 | after setting a kernel, its pipeline is the current pipeline |
| CommandQueues.ReplayTracksKernel | src/command_queue.rs:111-166 | after any commands, the pass's current pipeline is that of the kernel most recently set, and there is none exactly when no kernel was set |
| CommandQueues.KernelSetBeforeUseMeansPipelineSet | src/command_queue.rs:102-105 | when kernels are set before use, every dispatch and push-constant write is recorded while the most recent kernel's pipeline is set |
| CommandQueues.CurrentKernel | src/command_queue.rs:102-110 | (definition) the kernel set most recently by the commands, if any |
| CommandQueues.KernelSetBeforeUse | src/command_queue.rs:104-105 | (definition) every dispatch and push-constant write has a current kernel |
| CommandQueues.KernelSetBeforeUseIff | src/command_queue.rs:104-105 | a kernel is set before use exactly when every dispatch and push-constant write has some earlier `SetKernel` |
| CommandQueues.PushConstantsAligned | src/command_queue.rs:58-59 | (definition) every push-constant write has an offset and a length that are multiples of 4 |
| CommandQueues.PushConstantsWithinLimit | src/command_queue.rs:106-107 | (definition) push constants need the feature, and every write ends within the maximum push-constant size |
| CommandQueues.PushConstantsInRange | src/kernel.rs:66-70 | (definition) every push-constant write lies inside a compute-stage push-constant range of the current kernel's pipeline layout |
| CommandQueues.DispatchWithinLimit | src/command_queue.rs:92-94 | (definition) no dispatch exceeds the per-dimension workgroup limit |
| CommandQueues.BindGroupLayoutsMatch | src/command_queue.rs:109-110 | (definition) a bind group set at an index has the layout the current kernel's pipeline expects there |
| CommandQueues.BindGroupsValid | src/bind_group.rs:246-265 | (definition) every bind group set directly was created with its own layout |
| CommandQueues.KernelsConsistent | src/kernel.rs:53-95 | (definition) every kernel set sets its bind groups where its pipeline expects their layouts |
| CommandQueues.Valid | src/command_queue.rs:102-110 | (definition) the conjunction of the rules above: the panics the documentation of `execute` lists, plus the kernel's push-constant range |
| CommandQueues.PushConstantsSetOncePerKernel | src/command_queue.rs:108 | (definition) between two push-constant writes there is a `SetKernel` |
| CommandQueues.AcceptedUnder | src/command_queue.rs:102-110 | (definition) one command, other than setting a kernel, meets the rules of `Valid` while a given kernel is current |
| CommandQueues.SingleKernelQueueValid | src/command_queue.rs:102-110 | a queue that sets one kernel first and no other is accepted exactly when that kernel is consistent and every later command is accepted under it |
| CommandQueues.DispatchKernelValid | src/kernel.rs:103-113 | `Kernel::dispatch` is accepted for a consistent kernel within the workgroup limit, and sets push constants at most once |
| GaussianBlur.SwappedImagesShareLayout | examples/gaussian_blur/main.rs:47-63 | the two image bind groups, with the images swapped, have the same layout |
| GaussianBlur.BlurKernelConsistent | examples/gaussian_blur/main.rs:80-85 | the example's kernel sets each bind group where its pipeline expects that layout |
| GaussianBlur.BlurCommandsValid | examples/gaussian_blur/main.rs:90-98 | the example's queue satisfies every rule of `CommandQueues.Valid`, push constants within the kernel's range `0..8` included, for pictures within the workgroup limit |
| GaussianBlur.BlurCommandsSetTwice | examples/gaussian_blur/main.rs:92-97 | the example's queue sets push constants twice after a single `SetKernel` |

## Left out

- `src/context.rs` and `src/sampler.rs` are not part of this model. The model takes device-created objects as handles, and the limits as a `Limits` value.
- `Program::from_source` is not modelled: a program is a shader-module handle.
- GPU submission, buffer mapping and device polling are not modelled. `Images.ReadToVec` takes the bytes of the staging buffer as an input. `Buffers.Buffer.ReadToVec` returns the modelled contents.
- The wgpu texture-format table is not modelled beyond the three RGBA8 formats. Other formats are an `Other` value carrying a block size and sample type.
- Ownership, `Arc` sharing and lifetimes are not modelled. Values and handles are compared structurally.
- Rust's debug-build overflow panics are not modelled. `Images.WrappingMulU32` models the release-build wrap of `width * bytes_per_pixel`.
- The `as u32` cast of `padded_bytes_per_row` is not modelled, nor the `as u32` casts of binding indices. Indices are natural numbers.
- `Image::write` is not modelled. `Images.FromRgba8Image` returns the upload request (`TextureWrite`) instead of performing it.
- Buffers.Buffer.New: a documented panic (over `max_buffer_size`) is a precondition.
- Buffers.Buffer.New and Buffers.Buffer.EmptyLike: zero-filled contents are an assumption about wgpu.
- Buffers.Buffer.Write: a documented panic (overrun) is a precondition.
- Buffers.Buffer.FromSlice: a documented panic (over `max_buffer_size`) is a precondition.
- Buffers.Buffer.FromSlice: only data of a multiple of 4 bytes is modelled. wgpu pads other data up to the next multiple of 4, so the real buffer is larger and reads back the padding too.
- Buffers.Buffer.Write: wgpu's panic on a byte offset or length that is not a multiple of 4 is a precondition.
- Buffers.Buffer.ReadToVec: wgpu's panic on copying a buffer whose size is not a multiple of 4 bytes is a precondition.
- Buffers.WriteThenRead: it carries the alignment preconditions of `Write` and `ReadToVec`.
- Images.ReadToVec reads back only single-layer images. For an image of several layers the texture-to-buffer copy does not fit the staging buffer of one layer, and the backend panics.
- Images.ReadToVec requires a non-empty row, because `chunks_exact` panics on a chunk size of 0. It also requires a staging buffer of the size the copy creates.
- Images.UnpadAt requires `0 < unpadded`, for the same reason.
- Images.FromRgba8Image states `bytes_per_row` only for widths below 2^30, where `4 * width` does not wrap.
- CommandQueues.Valid: the rules are the panics the documentation of `execute` lists, and the push-constant range of the current kernel. The rest of wgpu's validation is not modelled: the shader's entry point, features other than push constants, binding sizes and resource usage.
- CommandQueues.Valid: bind-group layout matching is required only while a kernel is current.
- CommandQueues.BindGroupLayoutsMatch: the rule is checked when a group is set, and only at indices the current kernel has. wgpu checks compatibility at the next dispatch, and accepts a group at any index below `max_bind_groups`.

## Findings

| source | as written | input that shows it | evidently intended | confidence | as-written member | corrected member |
|---|---|---|---|---|---|---|
| src/command_queue.rs:108 | the documentation of `execute` says it panics if `SetPushConstants` is used twice for the same kernel | examples/gaussian_blur/main.rs:92-97 sets push constants twice after one `SetKernel` | push constants may be set again before each dispatch; wgpu accepts repeated writes | medium, not executed | GaussianBlur.BlurCommandsSetTwice (the example breaks `CommandQueues.PushConstantsSetOncePerKernel`) | GaussianBlur.BlurCommandsValid (the example meets `CommandQueues.Valid`, which has no such rule) |
