/**
 * `hac::Kernel` (src/kernel.rs): a compute pipeline together with the bind
 * groups it was created with, in the order they were given.
 */
module Kernels {
  import opened Common
  import opened Wgpu
  import opened BindGroups

  /** `hac::KernelInfo`: the program, its entry point, the bind groups and the optional push-constant range. */
  datatype KernelInfo = KernelInfo(program: ShaderModule, entryPoint: string, bindGroups: seq<BindGroup>,
                                   pushConstantsRange: Option<ByteRange>)

  /** `hac::Kernel`: the pipeline and the bind groups to set, by position, whenever the kernel is set. */
  datatype Kernel = Kernel(pipeline: ComputePipeline, bindGroups: seq<BindGroupHandle>) {
    /**
     * Each bind group the kernel sets was created with the layout the
     * pipeline expects at its position.
     */
    predicate Consistent() {
      |bindGroups| == |pipeline.layout.bindGroupLayouts| &&
      forall i :: 0 <= i < |bindGroups| ==> bindGroups[i].layout == pipeline.layout.bindGroupLayouts[i]
    }
  }

  /**
   * The push-constant ranges of the pipeline layout, taken as the first
   * `is_some as usize` elements of a one-element array: none without a
   * range, and one compute-stage range carrying exactly the given range
   * otherwise.
   */
  function PushConstantRanges(range: Option<ByteRange>): (r: seq<PushConstantRange>)
    ensures range.None? ==> r == []
    ensures range.Some? ==> r == [PushConstantRange(ShaderStages.Compute, range.value)]
  {
    var isSome := if range.Some? then 1 else 0;
    [PushConstantRange(ShaderStages.Compute, range.GetOr(ByteRange(0, 0)))][0..isSome]
  }

  /** The layouts of the given bind groups, in order. */
  function LayoutsOf(groups: seq<BindGroup>): seq<BindGroupLayout> {
    seq(|groups|, i requires 0 <= i < |groups| => groups[i].layout)
  }

  /** The bind groups themselves, in order. */
  function HandlesOf(groups: seq<BindGroup>): seq<BindGroupHandle> {
    seq(|groups|, i requires 0 <= i < |groups| => groups[i].handle)
  }

  /** The kernel `Kernel::new` creates from `info`. */
  function KernelOf(info: KernelInfo): Kernel {
    var layout := PipelineLayout(LayoutsOf(info.bindGroups), PushConstantRanges(info.pushConstantsRange));
    Kernel(ComputePipeline(layout, info.program, info.entryPoint), HandlesOf(info.bindGroups))
  }

  /**
   * A kernel made from bind groups that were each created with their own
   * layout (as `into_bind_group` creates them) sets every group at the
   * position where its pipeline expects that group's layout.
   */
  lemma KernelOfConsistent(info: KernelInfo)
    requires forall g :: g in info.bindGroups ==> g.Valid()
    ensures KernelOf(info).Consistent()
  {
    var k := KernelOf(info);
    forall i | 0 <= i < |k.bindGroups|
      ensures k.bindGroups[i].layout == k.pipeline.layout.bindGroupLayouts[i]
    {
      assert info.bindGroups[i] in info.bindGroups;
    }
  }

  /**
   * `Kernel::new`: collects the layouts and the bind groups of `info` in one
   * pass, in the order given, and creates the pipeline from them, the
   * push-constant ranges, and the program and entry point unchanged.
   */
  method New(info: KernelInfo) returns (k: Kernel)
    ensures |k.bindGroups| == |k.pipeline.layout.bindGroupLayouts| == |info.bindGroups|
    ensures forall i :: 0 <= i < |info.bindGroups| ==>
      k.bindGroups[i] == info.bindGroups[i].handle && k.pipeline.layout.bindGroupLayouts[i] == info.bindGroups[i].layout
    ensures info.pushConstantsRange.None? ==> k.pipeline.layout.pushConstantRanges == []
    ensures info.pushConstantsRange.Some? ==>
      k.pipeline.layout.pushConstantRanges == [PushConstantRange(ShaderStages.Compute, info.pushConstantsRange.value)]
    ensures k.pipeline.shaderModule == info.program && k.pipeline.entryPoint == info.entryPoint
    ensures (forall g :: g in info.bindGroups ==> g.Valid()) ==> k.Consistent()
    ensures k == KernelOf(info)
  {
    var layouts: seq<BindGroupLayout> := [];
    var bindGroups: seq<BindGroupHandle> := [];
    var i := 0;
    while i < |info.bindGroups|
      invariant 0 <= i <= |info.bindGroups|
      invariant |layouts| == |bindGroups| == i
      invariant forall j :: 0 <= j < i ==> layouts[j] == info.bindGroups[j].layout
      invariant forall j :: 0 <= j < i ==> bindGroups[j] == info.bindGroups[j].handle
    {
      var bindGroup := info.bindGroups[i];
      layouts := layouts + [bindGroup.layout];
      bindGroups := bindGroups + [bindGroup.handle];
      i := i + 1;
    }
    var pipelineLayout := PipelineLayout(layouts, PushConstantRanges(info.pushConstantsRange));
    var pipeline := ComputePipeline(pipelineLayout, info.program, info.entryPoint);
    k := Kernel(pipeline, bindGroups);
    assert layouts == LayoutsOf(info.bindGroups);
    assert bindGroups == HandlesOf(info.bindGroups);
    if forall g :: g in info.bindGroups ==> g.Valid() {
      KernelOfConsistent(info);
    }
  }
}
