/**
 * The command sequence of the Gaussian-blur example
 * (examples/gaussian_blur/main.rs), built from the model's own operations,
 * as a sample input for the command-queue validity rules.
 *
 * Backend objects get fixed handles; the weights, the decoded picture and
 * the shader source play no part and are left out.
 */
module GaussianBlur {
  import opened Common
  import opened Wgpu
  import opened BindGroups
  import opened Kernels
  import opened CommandQueues
  import Images
  import Buffers
  import Ranges

  /** The example asks for the push-constants feature and 8 bytes of push constants. */
  const BLUR_LIMITS: Limits := Limits(true, 8, DEFAULT_LIMITS.maxComputeWorkgroupsPerDimension)

  /** The picture uploaded as an RGBA8 image of filterable floats, and its empty twin. */
  function BlurImages(width: u32, height: u32, rgba: seq<byte>): (Images.Image, Images.Image) {
    var im0 := Images.FromRgba8Image(TextureHandle(0), TextureViewHandle(0), width, height, rgba,
                                     Images.ImageSampleType.Float(true)).0;
    (im0, Images.EmptyLike(im0, TextureHandle(1), TextureViewHandle(1)))
  }

  /** The bind group that samples `input` and writes `output`. */
  function ImageBindGroup(input: Images.Image, output: Images.Image): BindGroup {
    BindGroupOf([ImageBinding(input), StorageImageBinding(output, StorageTextureAccess.WriteOnly)])
  }

  /** The kernel: a filtering sampler, the first image pair and the two read-only weight buffers. */
  function BlurKernel(im0: Images.Image, im1: Images.Image): Kernel {
    var samplerGroup := BindGroupOf([Binding.Sampler(SamplerBinding(SamplerResource(SamplerHandle(0)), SamplerBindingType.Filtering))]);
    var gaussGroup := BindGroupOf([
      Binding.Buffer(BufferBinding(AsEntireBinding(BufferHandle(0)), Buffers.BufferAccess.ReadOnly)),
      Binding.Buffer(BufferBinding(AsEntireBinding(BufferHandle(1)), Buffers.BufferAccess.ReadOnly))]);
    KernelOf(KernelInfo(ShaderModule(0), "gaussian_pass", [samplerGroup, ImageBindGroup(im0, im1), gaussGroup],
                        Some(ByteRange(0, 8))))
  }

  /**
   * The queue the example executes: a horizontal pass, then the images
   * swapped through bind group 1 and a vertical pass. The push constants
   * are the two `i32` pairs `[1, 0]` and `[0, 1]`, little-endian.
   */
  function BlurCommands(width: u32, height: u32, rgba: seq<byte>): seq<Command> {
    var (im0, im1) := BlurImages(width, height, rgba);
    var workgroups := Ranges.D2(width, height);
    [SetKernel(BlurKernel(im0, im1)),
     Command.SetPushConstants(0, [1, 0, 0, 0, 0, 0, 0, 0]),
     Dispatch(workgroups),
     Command.SetBindGroup(1, ImageBindGroup(im1, im0)),
     Command.SetPushConstants(0, [0, 0, 0, 0, 1, 0, 0, 0]),
     Dispatch(workgroups)]
  }

  /** Swapping the images keeps the layout: both images have the same format and dimension. */
  lemma SwappedImagesShareLayout(width: u32, height: u32, rgba: seq<byte>)
    ensures var (im0, im1) := BlurImages(width, height, rgba);
      ImageBindGroup(im1, im0).layout == ImageBindGroup(im0, im1).layout
  {
    var (im0, im1) := BlurImages(width, height, rgba);
    ImageBindingTypesAgree(im0, im1, StorageTextureAccess.WriteOnly);
    var b1 := [ImageBinding(im1), StorageImageBinding(im0, StorageTextureAccess.WriteOnly)];
    var b0 := [ImageBinding(im0), StorageImageBinding(im1, StorageTextureAccess.WriteOnly)];
    SameLayoutIffSameTypes(b1, b0);
  }

  /** The example's kernel sets each of its bind groups where its pipeline expects that group's layout. */
  lemma BlurKernelConsistent(im0: Images.Image, im1: Images.Image)
    ensures BlurKernel(im0, im1).Consistent()
  {
    var samplerGroup := BindGroupOf([Binding.Sampler(SamplerBinding(SamplerResource(SamplerHandle(0)), SamplerBindingType.Filtering))]);
    var gaussGroup := BindGroupOf([
      Binding.Buffer(BufferBinding(AsEntireBinding(BufferHandle(0)), Buffers.BufferAccess.ReadOnly)),
      Binding.Buffer(BufferBinding(AsEntireBinding(BufferHandle(1)), Buffers.BufferAccess.ReadOnly))]);
    KernelOfConsistent(KernelInfo(ShaderModule(0), "gaussian_pass", [samplerGroup, ImageBindGroup(im0, im1), gaussGroup],
                                  Some(ByteRange(0, 8))));
  }

  /**
   * The example's queue satisfies every rule of `Valid`, push-constant
   * ranges included, for a picture within the workgroup limit.
   */
  lemma BlurCommandsValid(width: u32, height: u32, rgba: seq<byte>)
    requires width <= 65535 && height <= 65535
    ensures Valid(BlurCommands(width, height, rgba), BLUR_LIMITS)
  {
    var (im0, im1) := BlurImages(width, height, rgba);
    var kernel := BlurKernel(im0, im1);
    var commands := BlurCommands(width, height, rgba);
    SwappedImagesShareLayout(width, height, rgba);
    BlurKernelConsistent(im0, im1);
    assert PushConstantRange(ShaderStages.Compute, ByteRange(0, 8)) in kernel.pipeline.layout.pushConstantRanges;
    var rest := commands[1..];
    forall j | 0 <= j < |rest|
      ensures !rest[j].SetKernel? && AcceptedUnder(rest[j], kernel, BLUR_LIMITS)
    {
    }
    assert commands == [SetKernel(kernel)] + rest;
    SingleKernelQueueValid(kernel, rest, BLUR_LIMITS);
  }

  /** Yet it sets push constants twice after its single `SetKernel`. */
  lemma BlurCommandsSetTwice(width: u32, height: u32, rgba: seq<byte>)
    ensures !PushConstantsSetOncePerKernel(BlurCommands(width, height, rgba))
  {
    var commands := BlurCommands(width, height, rgba);
    assert commands[1].SetPushConstants? && commands[4].SetPushConstants?;
    assert !commands[2].SetKernel? && !commands[3].SetKernel?;
  }
}
