/**
 * `hac::BindGroupDescriptor` and `hac::BindGroup` (src/bind_group.rs): a
 * builder that collects buffers, samplers and images in push order, and turns
 * them into a bind-group layout and a bind group whose i-th entry is the i-th
 * push.
 */
module BindGroups {
  import opened Common
  import opened Wgpu
  import Buffers
  import Images

  // -------------------------------------------------------------- bindings

  /** A buffer to bind, with the access the kernel has to it. */
  datatype BufferBinding = BufferBinding(resource: BindingResource, access: Buffers.BufferAccess)

  /** An image to sample from. */
  datatype TextureBinding = TextureBinding(resource: BindingResource, dimension: TextureViewDimension, sampleType: TextureSampleType)

  /** An image to load from or store to. */
  datatype StorageTextureBinding = StorageTextureBinding(resource: BindingResource, access: StorageTextureAccess,
                                                         format: TextureFormat, dimension: TextureViewDimension)

  /** A sampler. */
  datatype SamplerBinding = SamplerBinding(resource: BindingResource, bindingType: SamplerBindingType)

  /** Everything that can be bound to a bind group. */
  datatype Binding =
    | Buffer(buffer: BufferBinding)
    | Sampler(sampler: SamplerBinding)
    | Texture(texture: TextureBinding)
    | StorageTexture(storageTexture: StorageTextureBinding)

  /** `From<&BufferBinding> for wgpu::BindingType`: a storage buffer, read-only exactly for read-only access. */
  function BufferBindingType(b: BufferBinding): (t: BindingType)
    ensures t.Buffer? && t.ty.Storage?
    ensures t.ty.readOnly <==> b.access == Buffers.BufferAccess.ReadOnly
    ensures !t.hasDynamicOffset && t.minBindingSize == None
  {
    BindingType.Buffer(Storage(b.access == Buffers.BufferAccess.ReadOnly), false, None)
  }

  /** `From<&TextureBinding> for wgpu::BindingType`: a sampled, never multisampled, texture. */
  function TextureBindingType(b: TextureBinding): (t: BindingType)
    ensures t.Texture? && !t.multisampled
    ensures t.sampleType == b.sampleType && t.viewDimension == b.dimension
  {
    BindingType.Texture(b.sampleType, b.dimension, false)
  }

  /** `From<&StorageTextureBinding> for wgpu::BindingType`: the binding's access, format and dimension. */
  function StorageTextureBindingType(b: StorageTextureBinding): (t: BindingType)
    ensures t.StorageTexture?
    ensures t.access == b.access && t.format == b.format && t.viewDimension == b.dimension
  {
    BindingType.StorageTexture(b.access, b.format, b.dimension)
  }

  /** `From<&SamplerBinding> for wgpu::BindingType`: exactly the binding's sampler type. */
  function SamplerBindingTypeOf(b: SamplerBinding): (t: BindingType)
    ensures t.Sampler? && t.samplerType == b.bindingType
  {
    BindingType.Sampler(b.bindingType)
  }

  /** `From<&Binding> for wgpu::BindingType`: each kind of binding gets a layout type of its own kind. */
  function BindingTypeOf(b: Binding): (t: BindingType)
    ensures t.Buffer? <==> b.Buffer?
    ensures t.Sampler? <==> b.Sampler?
    ensures t.Texture? <==> b.Texture?
    ensures t.StorageTexture? <==> b.StorageTexture?
  {
    match b
    case Buffer(buffer) => BufferBindingType(buffer)
    case Sampler(sampler) => SamplerBindingTypeOf(sampler)
    case Texture(texture) => TextureBindingType(texture)
    case StorageTexture(storageTexture) => StorageTextureBindingType(storageTexture)
  }

  /** `Binding::into_resource`: the resource the binding was made with. */
  function IntoResource(b: Binding): BindingResource {
    match b
    case Buffer(buffer) => buffer.resource
    case Sampler(sampler) => sampler.resource
    case Texture(texture) => texture.resource
    case StorageTexture(storageTexture) => storageTexture.resource
  }

  /** The view dimension an image is bound with: 2D exactly for a 2D image, 3D otherwise. */
  function ViewDimensionFor(dimension: TextureDimension): (v: TextureViewDimension)
    ensures v == TextureViewDimension.D2 <==> dimension == TextureDimension.D2
    ensures v == TextureViewDimension.D3 <==> dimension != TextureDimension.D2
  {
    if dimension == TextureDimension.D2 then TextureViewDimension.D2 else TextureViewDimension.D3
  }

  /**
   * The binding `push_image` makes: the image's view, for sampling, with the
   * view dimension of the image and the sample type of its format.
   */
  function ImageBinding(image: Images.Image): (b: Binding)
    ensures b.Texture? && b.texture.resource == TextureView(image.view)
    ensures b.texture.dimension == ViewDimensionFor(image.dimension)
    ensures b.texture.sampleType == Describe(image.format).sampleType
  {
    var dimension := ViewDimensionFor(image.dimension);
    var sampleType := Describe(image.format).sampleType;
    Binding.Texture(TextureBinding(TextureView(image.view), dimension, sampleType))
  }

  /**
   * The binding `push_storage_image` makes: the image's view, for storage,
   * with the given access, the image's format and its view dimension.
   */
  function StorageImageBinding(image: Images.Image, access: StorageTextureAccess): (b: Binding)
    ensures b.StorageTexture? && b.storageTexture.resource == TextureView(image.view)
    ensures b.storageTexture.access == access && b.storageTexture.format == image.format
    ensures b.storageTexture.dimension == ViewDimensionFor(image.dimension)
  {
    var dimension := ViewDimensionFor(image.dimension);
    Binding.StorageTexture(StorageTextureBinding(TextureView(image.view), access, image.format, dimension))
  }

  /**
   * Binding an image depends only on its format and dimension: images of
   * the same format and dimension get the same layout type, whichever
   * texture they live in.
   */
  lemma ImageBindingTypesAgree(a: Images.Image, b: Images.Image, access: StorageTextureAccess)
    requires a.format == b.format && a.dimension == b.dimension
    ensures BindingTypeOf(ImageBinding(a)) == BindingTypeOf(ImageBinding(b))
    ensures BindingTypeOf(StorageImageBinding(a, access)) == BindingTypeOf(StorageImageBinding(b, access))
  {
  }

  // ----------------------------------------------------------- bind groups

  /** The layout entry the `i`-th binding becomes. */
  function LayoutEntry(i: nat, b: Binding): BindGroupLayoutEntry {
    BindGroupLayoutEntry(i, ShaderStages.Compute, BindingTypeOf(b), None)
  }

  /** The resource entry the `i`-th binding becomes. */
  function GroupEntry(i: nat, b: Binding): BindGroupEntry {
    BindGroupEntry(i, IntoResource(b))
  }

  /** The layout a list of bindings is created with: one entry per binding, numbered in order. */
  function LayoutOf(bindings: seq<Binding>): BindGroupLayout {
    BindGroupLayout(seq(|bindings|, i requires 0 <= i < |bindings| => LayoutEntry(i, bindings[i])))
  }

  /** The resource entries a list of bindings is created with. */
  function EntriesOf(bindings: seq<Binding>): seq<BindGroupEntry> {
    seq(|bindings|, i requires 0 <= i < |bindings| => GroupEntry(i, bindings[i]))
  }

  /** `hac::BindGroup`: the layout and the bind group created with it. */
  datatype BindGroup = BindGroup(layout: BindGroupLayout, handle: BindGroupHandle) {
    /** The bind group was created with this layout. */
    predicate Valid() {
      handle.layout == layout
    }
  }

  /** The bind group `into_bind_group` makes from a list of bindings. */
  function BindGroupOf(bindings: seq<Binding>): BindGroup {
    BindGroup(LayoutOf(bindings), BindGroupHandle(LayoutOf(bindings), EntriesOf(bindings)))
  }

  /**
   * Pushing one more binding leaves the layout entries of the earlier ones
   * as they were and adds one entry, numbered after them.
   */
  lemma {:induction false} LayoutAfterPush(bindings: seq<Binding>, b: Binding)
    ensures LayoutOf(bindings + [b]).entries == LayoutOf(bindings).entries + [LayoutEntry(|bindings|, b)]
    ensures EntriesOf(bindings + [b]) == EntriesOf(bindings) + [GroupEntry(|bindings|, b)]
  {
    assert LayoutOf(bindings + [b]).entries == LayoutOf(bindings).entries + [LayoutEntry(|bindings|, b)];
    assert EntriesOf(bindings + [b]) == EntriesOf(bindings) + [GroupEntry(|bindings|, b)];
  }

  /**
   * A layout depends only on the kinds of the bindings: two lists of
   * bindings make the same layout exactly when they are as long and their
   * bindings pairwise have the same layout type, whatever resources they name.
   */
  lemma {:induction false} SameLayoutIffSameTypes(b1: seq<Binding>, b2: seq<Binding>)
    ensures LayoutOf(b1) == LayoutOf(b2) <==>
      |b1| == |b2| && forall i :: 0 <= i < |b1| ==> BindingTypeOf(b1[i]) == BindingTypeOf(b2[i])
  {
    if LayoutOf(b1) == LayoutOf(b2) {
      assert |LayoutOf(b1).entries| == |b1| && |LayoutOf(b2).entries| == |b2|;
      forall i | 0 <= i < |b1|
        ensures BindingTypeOf(b1[i]) == BindingTypeOf(b2[i])
      {
        assert LayoutOf(b1).entries[i] == LayoutOf(b2).entries[i];
      }
    }
    if |b1| == |b2| && forall i :: 0 <= i < |b1| ==> BindingTypeOf(b1[i]) == BindingTypeOf(b2[i]) {
      assert LayoutOf(b1).entries == LayoutOf(b2).entries;
    }
  }

  // ------------------------------------------------------------- builder

  /** `hac::BindGroupDescriptor`: the bindings pushed so far, in push order. */
  class BindGroupDescriptor {
    var bindings: seq<Binding>

    /** `BindGroupDescriptor::new`: no bindings yet. */
    constructor New()
      ensures bindings == []
    {
      bindings := [];
    }

    /** `push_buffer`: binds the whole buffer as the next binding. */
    method PushBuffer<T>(buffer: Buffers.Buffer<T>, access: Buffers.BufferAccess)
      modifies this
      ensures bindings == old(bindings) + [Binding.Buffer(BufferBinding(AsEntireBinding(buffer.handle), access))]
    {
      var binding := Binding.Buffer(BufferBinding(AsEntireBinding(buffer.handle), access));
      bindings := bindings + [binding];
    }

    /** `push_sampler`: binds the sampler, with the given sampler type, as the next binding. */
    method PushSampler(sampler: SamplerHandle, bindingType: SamplerBindingType)
      modifies this
      ensures bindings == old(bindings) + [Binding.Sampler(SamplerBinding(SamplerResource(sampler), bindingType))]
    {
      var binding := Binding.Sampler(SamplerBinding(SamplerResource(sampler), bindingType));
      bindings := bindings + [binding];
    }

    /** `push_image`: binds the image's view for sampling, with its format's sample type. */
    method PushImage(image: Images.Image)
      modifies this
      ensures bindings == old(bindings) + [ImageBinding(image)]
    {
      bindings := bindings + [ImageBinding(image)];
    }

    /** `push_storage_image`: binds the image's view for storage, with its format and the given access. */
    method PushStorageImage(image: Images.Image, access: StorageTextureAccess)
      modifies this
      ensures bindings == old(bindings) + [StorageImageBinding(image, access)]
    {
      bindings := bindings + [StorageImageBinding(image, access)];
    }

    /**
     * `into_bind_group`: walks the bindings in order and emits, for the i-th
     * one, a compute-only layout entry and a resource entry both numbered i.
     */
    method IntoBindGroup() returns (group: BindGroup)
      ensures group.Valid()
      ensures |group.layout.entries| == |group.handle.entries| == |bindings|
      ensures forall i :: 0 <= i < |bindings| ==>
        group.layout.entries[i].binding == i && group.layout.entries[i].visibility == ShaderStages.Compute &&
        group.layout.entries[i].ty == BindingTypeOf(bindings[i]) && group.layout.entries[i].count == None
      ensures forall i :: 0 <= i < |bindings| ==>
        group.handle.entries[i].binding == i && group.handle.entries[i].resource == IntoResource(bindings[i])
      ensures group == BindGroupOf(bindings)
    {
      var layoutEntries: seq<BindGroupLayoutEntry> := [];
      var bindGroupEntries: seq<BindGroupEntry> := [];
      var i := 0;
      while i < |bindings|
        invariant 0 <= i <= |bindings|
        invariant |layoutEntries| == |bindGroupEntries| == i
        invariant forall k :: 0 <= k < i ==> layoutEntries[k] == LayoutEntry(k, bindings[k])
        invariant forall k :: 0 <= k < i ==> bindGroupEntries[k] == GroupEntry(k, bindings[k])
      {
        var binding := bindings[i];
        layoutEntries := layoutEntries + [BindGroupLayoutEntry(i, ShaderStages.Compute, BindingTypeOf(binding), None)];
        bindGroupEntries := bindGroupEntries + [BindGroupEntry(i, IntoResource(binding))];
        i := i + 1;
      }
      var layout := BindGroupLayout(layoutEntries);
      group := BindGroup(layout, BindGroupHandle(layout, bindGroupEntries));
      assert layoutEntries == LayoutOf(bindings).entries;
      assert bindGroupEntries == EntriesOf(bindings);
    }
  }
}
