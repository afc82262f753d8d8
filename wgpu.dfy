/**
 * The part of the `wgpu` backend that the library talks to, as plain values.
 *
 * Every backend object (buffer, sampler, texture, view, shader module) is an
 * opaque handle. Objects the library creates from a descriptor (bind-group
 * layouts, bind groups, pipeline layouts, pipelines) are represented by the
 * descriptor they were created from, without its debug label. A compute pass
 * is a recorder of the calls made on it.
 */
module Wgpu {
  import opened Common

  // ---------------------------------------------------------------- handles

  datatype BufferHandle = BufferHandle(id: nat)
  datatype SamplerHandle = SamplerHandle(id: nat)
  datatype TextureHandle = TextureHandle(id: nat)
  datatype TextureViewHandle = TextureViewHandle(id: nat)
  datatype ShaderModule = ShaderModule(id: nat)

  // ------------------------------------------------------- textures, formats

  datatype TextureSampleType = Float(filterable: bool) | Depth | Sint | Uint

  /**
   * `wgpu::TextureFormat`. The three formats the library names itself are
   * spelled out; every other format carries the row of wgpu's format table
   * that `describe()` returns for it.
   */
  datatype TextureFormat =
    | Rgba8Unorm
    | Rgba8Uint
    | Rgba8Sint
    | Other(id: nat, blockSize: nat, sampleType: TextureSampleType)

  /** The two columns of `TextureFormat::describe()` the library reads. */
  datatype TextureFormatInfo = TextureFormatInfo(blockSize: nat, sampleType: TextureSampleType)

  /** `TextureFormat::describe()`: bytes per texel block and the sample type. */
  function Describe(format: TextureFormat): TextureFormatInfo {
    match format
    case Rgba8Unorm => TextureFormatInfo(4, TextureSampleType.Float(true))
    case Rgba8Uint => TextureFormatInfo(4, TextureSampleType.Uint)
    case Rgba8Sint => TextureFormatInfo(4, TextureSampleType.Sint)
    case Other(_, blockSize, sampleType) => TextureFormatInfo(blockSize, sampleType)
  }

  datatype TextureDimension = D1 | D2 | D3

  datatype TextureViewDimension = D1 | D2 | D2Array | Cube | CubeArray | D3

  datatype StorageTextureAccess = WriteOnly | ReadOnly | ReadWrite

  datatype SamplerBindingType = Filtering | NonFiltering | Comparison

  /** `wgpu::Extent3d`. */
  datatype Extent3d = Extent3d(width: u32, height: u32, depthOrArrayLayers: u32)

  /** `wgpu::ImageDataLayout`: how texel rows are laid out in a linear byte buffer. */
  datatype ImageDataLayout = ImageDataLayout(offset: u64, bytesPerRow: Option<u32>, rowsPerImage: Option<u32>)

  // -------------------------------------------------------------- bindings

  datatype ShaderStages = Vertex | Fragment | Compute

  datatype BufferBindingType = Uniform | Storage(readOnly: bool)

  /** `wgpu::BindingType`: the type part of one bind-group layout entry. */
  datatype BindingType =
    | Buffer(ty: BufferBindingType, hasDynamicOffset: bool, minBindingSize: Option<nat>)
    | Sampler(samplerType: SamplerBindingType)
    | Texture(sampleType: TextureSampleType, viewDimension: TextureViewDimension, multisampled: bool)
    | StorageTexture(access: StorageTextureAccess, format: TextureFormat, viewDimension: TextureViewDimension)

  /** `wgpu::BindingResource`: what one bind-group entry points at. */
  datatype BindingResource =
    | BufferRange(buffer: BufferHandle, offset: nat, size: Option<nat>)
    | SamplerResource(sampler: SamplerHandle)
    | TextureView(view: TextureViewHandle)

  /** `Buffer::as_entire_binding()`: the whole buffer from offset 0. */
  function AsEntireBinding(buffer: BufferHandle): BindingResource {
    BufferRange(buffer, 0, None)
  }

  datatype BindGroupLayoutEntry = BindGroupLayoutEntry(binding: nat, visibility: ShaderStages, ty: BindingType, count: Option<nat>)

  datatype BindGroupEntry = BindGroupEntry(binding: nat, resource: BindingResource)

  /** A bind-group layout, created from its list of entries. */
  datatype BindGroupLayout = BindGroupLayout(entries: seq<BindGroupLayoutEntry>)

  /** A bind group, created from a layout and one resource entry per slot. */
  datatype BindGroupHandle = BindGroupHandle(layout: BindGroupLayout, entries: seq<BindGroupEntry>)

  // ------------------------------------------------------------- pipelines

  /** `std::ops::Range<u32>`: the half-open byte range `start..end`. */
  datatype ByteRange = ByteRange(start: u32, end: u32)

  datatype PushConstantRange = PushConstantRange(stages: ShaderStages, range: ByteRange)

  datatype PipelineLayout = PipelineLayout(bindGroupLayouts: seq<BindGroupLayout>, pushConstantRanges: seq<PushConstantRange>)

  datatype ComputePipeline = ComputePipeline(layout: PipelineLayout, shaderModule: ShaderModule, entryPoint: string)

  // ---------------------------------------------------------- compute pass

  /** One call made on a `wgpu::ComputePass`. */
  datatype PassCall =
    | SetPipeline(pipeline: ComputePipeline)
    | SetBindGroup(index: nat, group: BindGroupHandle, offsets: seq<nat>)
    | SetPushConstants(offset: u32, data: seq<byte>)
    | DispatchWorkgroups(x: u32, y: u32, z: u32)

  /** A compute pass being recorded: the calls made on it so far, in order. */
  class ComputePass {
    var calls: seq<PassCall>

    constructor ()
      ensures calls == []
    {
      calls := [];
    }

    method SetPipeline(pipeline: ComputePipeline)
      modifies this
      ensures calls == old(calls) + [PassCall.SetPipeline(pipeline)]
    {
      calls := calls + [PassCall.SetPipeline(pipeline)];
    }

    method SetBindGroup(index: nat, group: BindGroupHandle, offsets: seq<nat>)
      modifies this
      ensures calls == old(calls) + [PassCall.SetBindGroup(index, group, offsets)]
    {
      calls := calls + [PassCall.SetBindGroup(index, group, offsets)];
    }

    method SetPushConstants(offset: u32, data: seq<byte>)
      modifies this
      ensures calls == old(calls) + [PassCall.SetPushConstants(offset, data)]
    {
      calls := calls + [PassCall.SetPushConstants(offset, data)];
    }

    method DispatchWorkgroups(x: u32, y: u32, z: u32)
      modifies this
      ensures calls == old(calls) + [PassCall.DispatchWorkgroups(x, y, z)]
    {
      calls := calls + [PassCall.DispatchWorkgroups(x, y, z)];
    }
  }
}
