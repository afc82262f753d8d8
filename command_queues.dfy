/**
 * `hac::CommandQueue` (src/command_queue.rs) and `Kernel::dispatch`
 * (src/kernel.rs): a FIFO of commands that `execute` replays, in order, into
 * a compute pass.
 *
 * The queue itself checks nothing. The panics its documentation lists come
 * from the backend when the pass is recorded; they are stated here as
 * validity predicates over the command sequence.
 */
module CommandQueues {
  import opened Common
  import opened Wgpu
  import opened BindGroups
  import opened Kernels
  import Ranges

  /** `hac::Command`. */
  datatype Command =
    | SetKernel(kernel: Kernel)
    | SetPushConstants(offset: u32, data: seq<byte>)
    | SetBindGroup(index: u32, bindGroup: BindGroup)
    | Dispatch(workgroups: Ranges.Range)

  // ------------------------------------------------------- what a command does

  /** The calls setting a kernel makes: its pipeline, then each of its bind groups at its own position. */
  function KernelCalls(kernel: Kernel): (calls: seq<PassCall>)
    ensures |calls| == |kernel.bindGroups| + 1
    ensures calls[0] == PassCall.SetPipeline(kernel.pipeline)
    ensures forall i :: 0 <= i < |kernel.bindGroups| ==> calls[i + 1] == PassCall.SetBindGroup(i, kernel.bindGroups[i], [])
  {
    [PassCall.SetPipeline(kernel.pipeline)] +
    seq(|kernel.bindGroups|, i requires 0 <= i < |kernel.bindGroups| => PassCall.SetBindGroup(i, kernel.bindGroups[i], []))
  }

  /**
   * `ExecuteCommand::execute`: the calls one command makes on the compute
   * pass. Every command other than setting a kernel forwards its arguments
   * unchanged in a single call.
   */
  function CommandCalls(command: Command): (calls: seq<PassCall>)
    ensures command.SetKernel? ==> calls == KernelCalls(command.kernel)
    ensures command.SetPushConstants? ==> calls == [PassCall.SetPushConstants(command.offset, command.data)]
    ensures command.SetBindGroup? ==> calls == [PassCall.SetBindGroup(command.index, command.bindGroup.handle, [])]
    ensures command.Dispatch? ==>
      calls == [PassCall.DispatchWorkgroups(command.workgroups.x, command.workgroups.y, command.workgroups.z)]
  {
    match command
    case SetPushConstants(offset, data) => [PassCall.SetPushConstants(offset, data)]
    case SetKernel(kernel) => KernelCalls(kernel)
    case SetBindGroup(index, bindGroup) => [PassCall.SetBindGroup(index, bindGroup.handle, [])]
    case Dispatch(workgroups) => [PassCall.DispatchWorkgroups(workgroups.x, workgroups.y, workgroups.z)]
  }

  /** The calls a queue of commands makes, command after command, first in first out. */
  function Replay(commands: seq<Command>): (calls: seq<PassCall>)
    ensures |calls| >= |commands|
  {
    if |commands| == 0 then []
    else Replay(commands[..|commands| - 1]) + CommandCalls(commands[|commands| - 1])
  }

  /** Enqueuing one more command adds its calls at the end of the trace. */
  lemma {:induction false} ReplaySnoc(commands: seq<Command>, c: Command)
    ensures Replay(commands + [c]) == Replay(commands) + CommandCalls(c)
  {
    var s := commands + [c];
    assert s[..|s| - 1] == commands && s[|s| - 1] == c;
  }

  /** Replaying two queues one after the other is replaying them joined. */
  lemma {:induction false} ReplayAppend(a: seq<Command>, b: seq<Command>)
    ensures Replay(a + b) == Replay(a) + Replay(b)
    decreases |b|
  {
    if |b| == 0 {
      assert a + b == a;
    } else {
      var init, last := b[..|b| - 1], b[|b| - 1];
      DropLastOfConcat(a, b);
      ReplayAppend(a, init);
      ConcatAssociative(Replay(a), Replay(init), CommandCalls(last));
    }
  }

  /** Every command is replayed exactly once, in queue order: the trace is the commands' calls concatenated. */
  lemma {:induction false} ReplayCons(c: Command, rest: seq<Command>)
    ensures Replay([c] + rest) == CommandCalls(c) + Replay(rest)
  {
    ReplayAppend([c], rest);
    ReplaySingle(c);
  }

  /** A queue of one command replays that command's calls. */
  lemma {:induction false} ReplaySingle(c: Command)
    ensures Replay([c]) == CommandCalls(c)
  {
    assert [c][..0] == [];
    assert Replay([c]) == Replay([]) + CommandCalls(c);
  }

  /** `ExecuteCommand::execute` on a compute pass: appends exactly the command's calls. */
  method ExecuteCommand(pass: ComputePass, command: Command)
    modifies pass
    ensures pass.calls == old(pass.calls) + CommandCalls(command)
  {
    match command {
      case SetPushConstants(offset, data) =>
        pass.SetPushConstants(offset, data);
      case SetKernel(kernel) =>
        pass.SetPipeline(kernel.pipeline);
        var i := 0;
        while i < |kernel.bindGroups|
          invariant 0 <= i <= |kernel.bindGroups|
          invariant |pass.calls| == |old(pass.calls)| + 1 + i
          invariant pass.calls[..|old(pass.calls)| + 1] == old(pass.calls) + [PassCall.SetPipeline(kernel.pipeline)]
          invariant forall j :: 0 <= j < i ==>
            pass.calls[|old(pass.calls)| + 1 + j] == PassCall.SetBindGroup(j, kernel.bindGroups[j], [])
        {
          pass.SetBindGroup(i, kernel.bindGroups[i], []);
          i := i + 1;
        }
        assert pass.calls == old(pass.calls) + KernelCalls(kernel);
      case SetBindGroup(index, bindGroup) =>
        pass.SetBindGroup(index, bindGroup.handle, []);
      case Dispatch(workgroups) =>
        pass.DispatchWorkgroups(workgroups.x, workgroups.y, workgroups.z);
    }
  }

  /** `hac::CommandQueue`: the commands enqueued so far, oldest first. */
  class CommandQueue {
    var commands: seq<Command>

    /** `CommandQueue::new`: an empty queue. */
    constructor New()
      ensures commands == []
    {
      commands := [];
    }

    /** `enqueue_set_kernel`. */
    method EnqueueSetKernel(kernel: Kernel)
      modifies this
      ensures commands == old(commands) + [SetKernel(kernel)]
    {
      commands := commands + [SetKernel(kernel)];
    }

    /** `enqueue_set_push_constants`. */
    method EnqueueSetPushConstants(offset: u32, data: seq<byte>)
      modifies this
      ensures commands == old(commands) + [Command.SetPushConstants(offset, data)]
    {
      commands := commands + [Command.SetPushConstants(offset, data)];
    }

    /** `enqueue_set_bind_group`. */
    method EnqueueSetBindGroup(index: u32, bindGroup: BindGroup)
      modifies this
      ensures commands == old(commands) + [Command.SetBindGroup(index, bindGroup)]
    {
      commands := commands + [Command.SetBindGroup(index, bindGroup)];
    }

    /** `enqueue_dispatch`. */
    method EnqueueDispatch(workgroups: Ranges.Range)
      modifies this
      ensures commands == old(commands) + [Dispatch(workgroups)]
    {
      commands := commands + [Dispatch(workgroups)];
    }

    /**
     * `CommandQueue::execute`: begins a compute pass and executes the
     * commands on it in FIFO order; the result is the pass that is
     * submitted.
     */
    method Execute() returns (submitted: seq<PassCall>)
      ensures submitted == Replay(commands)
    {
      var pass := new ComputePass();
      var i := 0;
      while i < |commands|
        invariant 0 <= i <= |commands|
        invariant pass.calls == Replay(commands[..i])
      {
        ExecuteCommand(pass, commands[i]);
        assert commands[..i + 1][..i] == commands[..i];
        i := i + 1;
      }
      assert commands[..i] == commands;
      submitted := pass.calls;
    }
  }

  /**
   * `Kernel::dispatch`: a fresh queue holding the kernel and one dispatch,
   * executed; the pass sets the kernel, then dispatches `workgroups`.
   */
  method DispatchKernel(kernel: Kernel, workgroups: Ranges.Range) returns (submitted: seq<PassCall>)
    ensures submitted == Replay([SetKernel(kernel), Dispatch(workgroups)])
    ensures submitted == KernelCalls(kernel) + [PassCall.DispatchWorkgroups(workgroups.x, workgroups.y, workgroups.z)]
  {
    var queue := new CommandQueue.New();
    queue.EnqueueSetKernel(kernel);
    queue.EnqueueDispatch(workgroups);
    submitted := queue.Execute();
    ReplayAppend([SetKernel(kernel)], [Dispatch(workgroups)]);
    ReplaySingle(SetKernel(kernel));
    ReplaySingle(Dispatch(workgroups));
  }

  // ------------------------------------------------- what the backend demands

  /** The kernel most recently set by `commands`, if any. */
  function CurrentKernel(commands: seq<Command>): Option<Kernel> {
    if |commands| == 0 then None
    else if commands[|commands| - 1].SetKernel? then Some(commands[|commands| - 1].kernel)
    else CurrentKernel(commands[..|commands| - 1])
  }

  /** A kernel is current after `commands` exactly when one of them sets a kernel. */
  lemma {:induction false} CurrentKernelIffSet(commands: seq<Command>)
    ensures CurrentKernel(commands).Some? <==> exists j :: 0 <= j < |commands| && commands[j].SetKernel?
  {
    if commands != [] && !commands[|commands| - 1].SetKernel? {
      var init := commands[..|commands| - 1];
      CurrentKernelIffSet(init);
      if exists j :: 0 <= j < |commands| && commands[j].SetKernel? {
        var j :| 0 <= j < |commands| && commands[j].SetKernel?;
        assert init[j].SetKernel?;
      }
    }
  }

  /** Backend limits and features that decide whether a command sequence is accepted. */
  datatype Limits = Limits(pushConstantsFeature: bool, maxPushConstantSize: nat, maxComputeWorkgroupsPerDimension: nat)

  /** The backend's default: push constants disabled, at most 65535 workgroups per dimension. */
  const DEFAULT_LIMITS: Limits := Limits(false, 0, 65535)

  /** Every `Dispatch` and `SetPushConstants` comes after some `SetKernel`. */
  predicate KernelSetBeforeUse(commands: seq<Command>) {
    forall i :: 0 <= i < |commands| && (commands[i].Dispatch? || commands[i].SetPushConstants?) ==>
      CurrentKernel(commands[..i]).Some?
  }

  /** A dispatch or push-constant write is preceded by a kernel exactly when some earlier command sets one. */
  lemma {:induction false} KernelSetBeforeUseIff(commands: seq<Command>)
    ensures KernelSetBeforeUse(commands) <==>
      forall i :: 0 <= i < |commands| && (commands[i].Dispatch? || commands[i].SetPushConstants?) ==>
        exists j :: 0 <= j < i && commands[j].SetKernel?
  {
    forall i | 0 <= i < |commands|
      ensures CurrentKernel(commands[..i]).Some? <==> exists j :: 0 <= j < i && commands[j].SetKernel?
    {
      CurrentKernelIffSet(commands[..i]);
      if exists j :: 0 <= j < i && commands[j].SetKernel? {
        var j :| 0 <= j < i && commands[j].SetKernel?;
        assert commands[..i][j].SetKernel?;
      }
    }
  }

  /** Push constants start at a multiple of 4 and are a multiple of 4 bytes long. */
  predicate PushConstantsAligned(commands: seq<Command>) {
    forall i :: 0 <= i < |commands| && commands[i].SetPushConstants? ==>
      commands[i].offset % 4 == 0 && |commands[i].data| % 4 == 0
  }

  /** Push constants need the feature and must fit in the maximum push-constant size. */
  predicate PushConstantsWithinLimit(commands: seq<Command>, limits: Limits) {
    forall i :: 0 <= i < |commands| && commands[i].SetPushConstants? ==>
      limits.pushConstantsFeature && commands[i].offset + |commands[i].data| <= limits.maxPushConstantSize
  }

  /**
   * Push constants written while a kernel is current lie inside one of the
   * compute-stage push-constant ranges its pipeline layout declares.
   */
  predicate PushConstantsInRange(commands: seq<Command>) {
    forall i :: 0 <= i < |commands| && commands[i].SetPushConstants? && CurrentKernel(commands[..i]).Some? ==>
      exists p :: p in CurrentKernel(commands[..i]).value.pipeline.layout.pushConstantRanges &&
        p.stages == ShaderStages.Compute &&
        p.range.start <= commands[i].offset && commands[i].offset + |commands[i].data| <= p.range.end
  }

  /** No dispatch asks for more workgroups in a dimension than the limit. */
  predicate DispatchWithinLimit(commands: seq<Command>, limits: Limits) {
    forall i :: 0 <= i < |commands| && commands[i].Dispatch? ==>
      commands[i].workgroups.x <= limits.maxComputeWorkgroupsPerDimension &&
      commands[i].workgroups.y <= limits.maxComputeWorkgroupsPerDimension &&
      commands[i].workgroups.z <= limits.maxComputeWorkgroupsPerDimension
  }

  /**
   * A bind group set by index while a kernel is current has the layout the
   * kernel's pipeline expects at that index.
   */
  predicate BindGroupLayoutsMatch(commands: seq<Command>) {
    forall i :: 0 <= i < |commands| && commands[i].SetBindGroup? && CurrentKernel(commands[..i]).Some? ==>
      var layouts := CurrentKernel(commands[..i]).value.pipeline.layout.bindGroupLayouts;
      commands[i].index < |layouts| && layouts[commands[i].index] == commands[i].bindGroup.layout
  }

  /** Every bind group set directly was created with its own layout. */
  predicate BindGroupsValid(commands: seq<Command>) {
    forall i :: 0 <= i < |commands| && commands[i].SetBindGroup? ==> commands[i].bindGroup.Valid()
  }

  /** Every kernel set sets bind groups matching its pipeline's layouts. */
  predicate KernelsConsistent(commands: seq<Command>) {
    forall i :: 0 <= i < |commands| && commands[i].SetKernel? ==> commands[i].kernel.Consistent()
  }

  /** A command sequence the backend accepts when the queue executes it. */
  predicate Valid(commands: seq<Command>, limits: Limits) {
    KernelSetBeforeUse(commands) && PushConstantsAligned(commands) && PushConstantsWithinLimit(commands, limits) &&
    PushConstantsInRange(commands) && DispatchWithinLimit(commands, limits) && BindGroupLayoutsMatch(commands) &&
    BindGroupsValid(commands) && KernelsConsistent(commands)
  }

  /**
   * The further rule the documentation of `execute` states: push constants
   * are set at most once per `SetKernel`.
   */
  predicate PushConstantsSetOncePerKernel(commands: seq<Command>) {
    forall i, j :: 0 <= i < j < |commands| && commands[i].SetPushConstants? && commands[j].SetPushConstants? ==>
      exists k :: i < k < j && commands[k].SetKernel?
  }

  /**
   * The per-command view of `Valid` while `kernel` is current: each command
   * other than setting a kernel is acceptable on its own.
   */
  predicate AcceptedUnder(c: Command, kernel: Kernel, limits: Limits) {
    match c
    case SetKernel(_) => false
    case SetPushConstants(offset, data) =>
      offset % 4 == 0 && |data| % 4 == 0 &&
      limits.pushConstantsFeature && offset + |data| <= limits.maxPushConstantSize &&
      exists p :: p in kernel.pipeline.layout.pushConstantRanges &&
        p.stages == ShaderStages.Compute && p.range.start <= offset && offset + |data| <= p.range.end
    case SetBindGroup(index, group) =>
      group.Valid() && index < |kernel.pipeline.layout.bindGroupLayouts| &&
      kernel.pipeline.layout.bindGroupLayouts[index] == group.layout
    case Dispatch(workgroups) =>
      workgroups.x <= limits.maxComputeWorkgroupsPerDimension &&
      workgroups.y <= limits.maxComputeWorkgroupsPerDimension &&
      workgroups.z <= limits.maxComputeWorkgroupsPerDimension
  }

  /**
   * A queue that sets one kernel first and never another is accepted
   * exactly when the kernel is consistent and every later command is
   * acceptable while that kernel is current.
   */
  lemma {:induction false} SingleKernelQueueValid(kernel: Kernel, rest: seq<Command>, limits: Limits)
    requires forall j :: 0 <= j < |rest| ==> !rest[j].SetKernel?
    ensures Valid([SetKernel(kernel)] + rest, limits) <==>
      kernel.Consistent() && forall j :: 0 <= j < |rest| ==> AcceptedUnder(rest[j], kernel, limits)
  {
    if kernel.Consistent() && forall j :: 0 <= j < |rest| ==> AcceptedUnder(rest[j], kernel, limits) {
      SingleKernelQueueAccepted(kernel, rest, limits);
    }
    if Valid([SetKernel(kernel)] + rest, limits) {
      SingleKernelQueueAcceptedOnly(kernel, rest, limits);
    }
  }

  /** Helper: in such a queue, the kernel is current from the second command on. */
  lemma {:induction false} SingleKernelCurrent(kernel: Kernel, rest: seq<Command>)
    requires forall j :: 0 <= j < |rest| ==> !rest[j].SetKernel?
    ensures forall i :: 1 <= i <= |rest| ==> ([SetKernel(kernel)] + rest)[i] == rest[i - 1]
    ensures forall i :: 1 <= i <= |rest| + 1 ==> CurrentKernel(([SetKernel(kernel)] + rest)[..i]) == Some(kernel)
  {
    var commands := [SetKernel(kernel)] + rest;
    forall i | 1 <= i <= |commands|
      ensures CurrentKernel(commands[..i]) == Some(kernel)
    {
      CurrentKernelAfterFirst(commands, i);
    }
  }

  /** Helper: the "if" half of `SingleKernelQueueValid`. */
  lemma {:induction false} SingleKernelQueueAccepted(kernel: Kernel, rest: seq<Command>, limits: Limits)
    requires forall j :: 0 <= j < |rest| ==> !rest[j].SetKernel?
    requires kernel.Consistent() && forall j :: 0 <= j < |rest| ==> AcceptedUnder(rest[j], kernel, limits)
    ensures Valid([SetKernel(kernel)] + rest, limits)
  {
    var commands := [SetKernel(kernel)] + rest;
    SingleKernelCurrent(kernel, rest);
    forall i | 1 <= i < |commands|
      ensures AcceptedUnder(commands[i], kernel, limits)
    {
      assert commands[i] == rest[i - 1];
    }
    assert KernelSetBeforeUse(commands);
    assert PushConstantsAligned(commands);
    assert PushConstantsWithinLimit(commands, limits);
    assert PushConstantsInRange(commands);
    assert DispatchWithinLimit(commands, limits);
    assert BindGroupLayoutsMatch(commands);
    assert BindGroupsValid(commands);
  }

  /** Helper: the "only if" half of `SingleKernelQueueValid`. */
  lemma {:induction false} SingleKernelQueueAcceptedOnly(kernel: Kernel, rest: seq<Command>, limits: Limits)
    requires forall j :: 0 <= j < |rest| ==> !rest[j].SetKernel?
    requires Valid([SetKernel(kernel)] + rest, limits)
    ensures kernel.Consistent() && forall j :: 0 <= j < |rest| ==> AcceptedUnder(rest[j], kernel, limits)
  {
    var commands := [SetKernel(kernel)] + rest;
    SingleKernelCurrent(kernel, rest);
    assert commands[0].SetKernel?;
    forall j | 0 <= j < |rest|
      ensures AcceptedUnder(rest[j], kernel, limits)
    {
      var i := j + 1;
      assert commands[i] == rest[j];
      assert CurrentKernel(commands[..i]) == Some(kernel);
    }
  }

  /** Helper: when only the first command sets a kernel, that kernel stays current. */
  lemma {:induction false} CurrentKernelAfterFirst(commands: seq<Command>, i: nat)
    requires 1 <= i <= |commands| && commands[0].SetKernel?
    requires forall j :: 1 <= j < |commands| ==> !commands[j].SetKernel?
    ensures CurrentKernel(commands[..i]) == Some(commands[0].kernel)
  {
    if i == 1 {
      assert commands[..1] == [commands[0]];
    } else {
      assert commands[..i][..i - 1] == commands[..i - 1];
      CurrentKernelAfterFirst(commands, i - 1);
    }
  }

  // ------------------------------------------------------ the replayed pass

  /** The pipeline most recently set in a trace of pass calls, if any. */
  function CurrentPipeline(calls: seq<PassCall>): Option<ComputePipeline> {
    if |calls| == 0 then None
    else if calls[|calls| - 1].SetPipeline? then Some(calls[|calls| - 1].pipeline)
    else CurrentPipeline(calls[..|calls| - 1])
  }

  /** The pipeline set after `a + b` is the last one `b` sets, or else the last one `a` sets. */
  lemma {:induction false} CurrentPipelineAppend(a: seq<PassCall>, b: seq<PassCall>)
    ensures CurrentPipeline(a + b) == if CurrentPipeline(b).Some? then CurrentPipeline(b) else CurrentPipeline(a)
    decreases |b|
  {
    if |b| == 0 {
      assert a + b == a;
    } else {
      assert (a + b)[..|a + b| - 1] == a + b[..|b| - 1];
      CurrentPipelineAppend(a, b[..|b| - 1]);
    }
  }

  /** Setting a kernel leaves its pipeline as the pass's current pipeline. */
  lemma {:induction false} KernelCallsSetPipeline(kernel: Kernel)
    ensures CurrentPipeline(KernelCalls(kernel)) == Some(kernel.pipeline)
  {
    var calls := KernelCalls(kernel);
    var n := |kernel.bindGroups|;
    forall m | 1 <= m <= n + 1
      ensures CurrentPipeline(calls[..m]) == Some(kernel.pipeline)
    {
      BindGroupCallsKeepPipeline(calls, m);
    }
    assert calls[..n + 1] == calls;
  }

  /** Helper for `KernelCallsSetPipeline`: the bind-group calls after the pipeline do not change it. */
  lemma {:induction false} BindGroupCallsKeepPipeline(calls: seq<PassCall>, m: nat)
    requires 1 <= m <= |calls|
    requires calls[0].SetPipeline? && forall i :: 1 <= i < |calls| ==> calls[i].SetBindGroup?
    ensures CurrentPipeline(calls[..m]) == Some(calls[0].pipeline)
  {
    if m > 1 {
      assert calls[..m][..m - 1] == calls[..m - 1];
      BindGroupCallsKeepPipeline(calls, m - 1);
    } else {
      assert calls[..1][..0] == [];
    }
  }

  /**
   * The queue needs no "current kernel" state of its own: after replaying
   * any commands, the pass's current pipeline is the pipeline of the kernel
   * most recently set, and there is none exactly when no kernel was set.
   */
  lemma {:induction false} ReplayTracksKernel(commands: seq<Command>)
    ensures CurrentPipeline(Replay(commands)) ==
      if CurrentKernel(commands).Some? then Some(CurrentKernel(commands).value.pipeline) else None
  {
    if commands != [] {
      var init := commands[..|commands| - 1];
      var last := commands[|commands| - 1];
      ReplayTracksKernel(init);
      CurrentPipelineAppend(Replay(init), CommandCalls(last));
      if last.SetKernel? {
        KernelCallsSetPipeline(last.kernel);
      } else {
        assert CurrentPipeline(CommandCalls(last)) == None by {
          assert CommandCalls(last)[..0] == [];
        }
      }
    }
  }

  /**
   * In a sequence where a kernel is set before use, every dispatch and every
   * push-constant write is recorded while a pipeline is set, namely the
   * pipeline of the kernel most recently set.
   */
  lemma {:induction false} KernelSetBeforeUseMeansPipelineSet(commands: seq<Command>, i: nat)
    requires KernelSetBeforeUse(commands)
    requires i < |commands| && (commands[i].Dispatch? || commands[i].SetPushConstants?)
    ensures CurrentKernel(commands[..i]).Some?
    ensures CurrentPipeline(Replay(commands[..i])) == Some(CurrentKernel(commands[..i]).value.pipeline)
  {
    ReplayTracksKernel(commands[..i]);
  }

  /**
   * `Kernel::dispatch` is always accepted for a consistent kernel and a
   * workgroup count within the limit, and sets push constants at most once.
   */
  lemma DispatchKernelValid(kernel: Kernel, workgroups: Ranges.Range, limits: Limits)
    requires kernel.Consistent()
    requires workgroups.x <= limits.maxComputeWorkgroupsPerDimension
    requires workgroups.y <= limits.maxComputeWorkgroupsPerDimension
    requires workgroups.z <= limits.maxComputeWorkgroupsPerDimension
    ensures Valid([SetKernel(kernel), Dispatch(workgroups)], limits)
    ensures PushConstantsSetOncePerKernel([SetKernel(kernel), Dispatch(workgroups)])
  {
    var commands := [SetKernel(kernel), Dispatch(workgroups)];
    assert commands[..1] == [SetKernel(kernel)];
    assert CurrentKernel(commands[..1]).Some?;
  }
}
