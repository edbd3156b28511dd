/** Compute pipelines: the builder that collects bound resources, the
    registered pipeline with its cached bind group, its four dispatch entry
    points and its deregistration. */
module Compute {
  import opened Wrappers
  import opened Wgpu
  import opened Bindings
  import opened Pipeline
  import opened Registry

  /** The closure handed to a `*_callback` dispatch, known by a tag. */
  datatype Callback = Callback(tag: nat)

  /** The compute pass a dispatch encodes. */
  datatype ComputePass = ComputePass(program: ComputeProgram, bindGroup: BindGroup, workgroups: Workgroups)

  /** What a dispatch hands to the context's submission: the encoded pass,
      whether to submit it now or queue it, and the completion callback. */
  datatype Submission = Submission(pass: ComputePass, immediate: bool, callback: Option<Callback>)

  /** `Gpu::compute_pipeline` and `ComputePipelineBuilder`. */
  class ComputePipelineBuilder {
    const gpu: Gpu
    const program: ComputeProgram
    var entries: seq<BindableResource>

    /** `Gpu::compute_pipeline`: the module is compiled with entry point
        `main`, and no resource is bound yet. */
    constructor (gpu: Gpu, source: ShaderModule)
      ensures this.gpu == gpu
      ensures program == ComputeProgram(source, "main")
      ensures entries == []
    {
      this.gpu := gpu;
      program := ComputeProgram(source, "main");
      entries := [];
    }

    /** `bind_buffer`: the value's resource takes the next binding slot. */
    method BindBuffer(entry: Bindable)
      modifies this`entries
      ensures entries == old(entries) + [entry.resource]
    {
      entries := entries + [entry.resource];
    }

    /** `finish`: register the resource list under a fresh id as clean, then
        build the first bind group (which panics unless every bound buffer is
        registered). */
    method Finish() returns (p: ComputePipeline)
      requires gpu.Valid()
      requires AllRegistered(gpu.buffers, entries)
      modifies gpu
      ensures gpu.Valid()
      ensures fresh(p)
      ensures p.gpu == gpu && p.program == program && p.entries == entries
      ensures p.id == PipelineId(old(gpu.nextPipelineId)) && p.id !in old(gpu.pipelines)
      ensures gpu.pipelines == old(gpu.pipelines)[p.id := PipelineStatus(entries, false)]
      ensures gpu.buffers == old(gpu.buffers) && gpu.nextBufferId == old(gpu.nextBufferId)
      ensures p.bindGroup == CreateBindGroup(gpu.buffers, entries)
    {
      var id := gpu.NewPipelineId();
      gpu.pipelines := gpu.pipelines[id := PipelineStatus(entries, false)];
      var bindGroup := CreateBindGroup(gpu.buffers, entries);
      p := new ComputePipeline(gpu, id, program, entries, bindGroup);
    }
  }

  /** `ComputePipeline`: a registered pipeline and its cached bind group. */
  class ComputePipeline {
    const gpu: Gpu
    const id: PipelineId
    const program: ComputeProgram
    const entries: seq<BindableResource>
    var bindGroup: BindGroup

    constructor (gpu: Gpu, id: PipelineId, program: ComputeProgram, entries: seq<BindableResource>, bindGroup: BindGroup)
      ensures this.gpu == gpu && this.id == id && this.program == program
      ensures this.entries == entries && this.bindGroup == bindGroup
    {
      this.gpu := gpu;
      this.id := id;
      this.program := program;
      this.entries := entries;
      this.bindGroup := bindGroup;
    }

    /** `recreate_bind_group`: rebuild only when the registry flag is set.
        The registry, and so the flag, is left as it was. */
    method RecreateBindGroup()
      requires gpu.CanRefresh(id, entries)
      modifies this`bindGroup
      ensures bindGroup == Refreshed(gpu.pipelines[id], gpu.buffers, entries, old(bindGroup))
      ensures unchanged(gpu)
    {
      if gpu.pipelines[id].dirty {
        bindGroup := CreateBindGroup(gpu.buffers, entries);
      }
    }

    /** `dispatch_inner` and `dispatch_callback_inner`: refresh the bind
        group, then encode one pass over it. */
    method Submit(workgroups: Workgroups, immediate: bool, callback: Option<Callback>) returns (s: Submission)
      requires gpu.CanRefresh(id, entries)
      modifies this`bindGroup
      ensures bindGroup == Refreshed(gpu.pipelines[id], gpu.buffers, entries, old(bindGroup))
      ensures s == Submission(ComputePass(program, bindGroup, workgroups), immediate, callback)
      ensures unchanged(gpu)
    {
      RecreateBindGroup();
      s := Submission(ComputePass(program, bindGroup, workgroups), immediate, callback);
    }

    /** `dispatch`: submitted at once, no callback. */
    method Dispatch(workgroups: Workgroups) returns (s: Submission)
      requires gpu.CanRefresh(id, entries)
      modifies this`bindGroup
      ensures bindGroup == Refreshed(gpu.pipelines[id], gpu.buffers, entries, old(bindGroup))
      ensures s == Submission(ComputePass(program, bindGroup, workgroups), true, None)
      ensures unchanged(gpu)
    {
      s := Submit(workgroups, true, None);
    }

    /** `dispatch_callback`: submitted at once, `callback` runs on completion. */
    method DispatchCallback(workgroups: Workgroups, callback: Callback) returns (s: Submission)
      requires gpu.CanRefresh(id, entries)
      modifies this`bindGroup
      ensures bindGroup == Refreshed(gpu.pipelines[id], gpu.buffers, entries, old(bindGroup))
      ensures s == Submission(ComputePass(program, bindGroup, workgroups), true, Some(callback))
      ensures unchanged(gpu)
    {
      s := Submit(workgroups, true, Some(callback));
    }

    /** `queue_dispatch`: queued for the next flush, no callback. */
    method QueueDispatch(workgroups: Workgroups) returns (s: Submission)
      requires gpu.CanRefresh(id, entries)
      modifies this`bindGroup
      ensures bindGroup == Refreshed(gpu.pipelines[id], gpu.buffers, entries, old(bindGroup))
      ensures s == Submission(ComputePass(program, bindGroup, workgroups), false, None)
      ensures unchanged(gpu)
    {
      s := Submit(workgroups, false, None);
    }

    /** `queue_dispatch_callback`: queued, `callback` runs on completion. */
    method QueueDispatchCallback(workgroups: Workgroups, callback: Callback) returns (s: Submission)
      requires gpu.CanRefresh(id, entries)
      modifies this`bindGroup
      ensures bindGroup == Refreshed(gpu.pipelines[id], gpu.buffers, entries, old(bindGroup))
      ensures s == Submission(ComputePass(program, bindGroup, workgroups), false, Some(callback))
      ensures unchanged(gpu)
    {
      s := Submit(workgroups, false, Some(callback));
    }

    /** `Drop`: this pipeline's id leaves the registry; nothing else does. */
    method Drop()
      requires gpu.Valid()
      modifies gpu
      ensures gpu.Valid()
      ensures id !in gpu.pipelines
      ensures forall k :: k in old(gpu.pipelines) && k != id ==> k in gpu.pipelines && gpu.pipelines[k] == old(gpu.pipelines)[k]
      ensures gpu.pipelines.Keys == old(gpu.pipelines).Keys - {id}
      ensures gpu.buffers == old(gpu.buffers)
      ensures gpu.nextPipelineId == old(gpu.nextPipelineId) && gpu.nextBufferId == old(gpu.nextBufferId)
    {
      gpu.pipelines := gpu.pipelines - {id};
    }
  }
}
