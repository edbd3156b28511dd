/** Client code: a run through the whole protocol, checked against the
    contracts alone. */
module Scenarios {
  import opened Wrappers
  import opened Wgpu
  import opened Bindings
  import opened Pipeline
  import opened Registry
  import opened Uniform
  import Compute

  /** A buffer bound to a compute pipeline: an upload rewrites the memory
      the cached bind group already refers to, so the pipeline stays clean
      and its next dispatch binds the new bytes without a rebuild. Dropping
      the pipeline deregisters it and leaves the buffer usable by a newly
      built pipeline, which gets a different id. */
  method UploadDispatchDrop()
  {
    var init := Init(true, true);
    var gpu := init.value;
    var codec: Codec<seq<byte>> := bytes => if bytes == [] then None else Some(bytes);

    var created := CreateUniform(gpu, [1, 2, 3, 4], codec);
    var uniform := created.value;
    assert gpu.buffers.Keys == {uniform.buffer};

    var builder := new Compute.ComputePipelineBuilder(gpu, ShaderModule("compute.wgsl"));
    builder.BindBuffer(uniform.AsBindable());
    var pipeline := builder.Finish();
    assert gpu.pipelines[pipeline.id] == PipelineStatus([Buffer(uniform.buffer)], false);

    var failed := uniform.Upload([], codec);
    assert failed.Fail? && gpu.buffers[uniform.buffer].contents == [1, 2, 3, 4];

    var uploaded := uniform.Upload([9, 8], codec);
    assert uploaded == Pass;
    assert !gpu.pipelines[pipeline.id].dirty;

    var submission := pipeline.Dispatch(Workgroups(1, 1, 1));
    assert submission.immediate;
    var bound := submission.pass.bindGroup[0];
    assert bound.binding == 0 && bound.resource == gpu.buffers[uniform.buffer];
    assert bound.resource.contents == [9, 8, 3, 4];

    var first := pipeline.id;
    pipeline.Drop();
    assert first !in gpu.pipelines && uniform.buffer in gpu.buffers;

    var rebuilt := new Compute.ComputePipelineBuilder(gpu, ShaderModule("compute.wgsl"));
    rebuilt.BindBuffer(uniform.AsBindable());
    var second := rebuilt.Finish();
    assert second.id != first;
    assert second.bindGroup[0].resource == gpu.buffers[uniform.buffer];
  }

  /** Two compute pipelines over the same single buffer, both clean. */
  method BuildSharers(gpu: Gpu, entry: Bindable) returns (p1: Compute.ComputePipeline, p2: Compute.ComputePipeline)
    requires gpu.Valid() && gpu.pipelines == map[] && entry.resource.id in gpu.buffers
    modifies gpu
    ensures gpu.Valid() && gpu.buffers == old(gpu.buffers)
    ensures fresh(p1) && fresh(p2) && p1.gpu == gpu && p2.gpu == gpu && p1.id != p2.id
    ensures p1.entries == [entry.resource] && p2.entries == [entry.resource]
    ensures gpu.pipelines == map[p1.id := PipelineStatus([entry.resource], false),
                                 p2.id := PipelineStatus([entry.resource], false)]
    ensures p1.bindGroup == p2.bindGroup == [BindGroupEntry(0, gpu.buffers[entry.resource.id])]
  {
    var b1 := new Compute.ComputePipelineBuilder(gpu, ShaderModule("a.wgsl"));
    b1.BindBuffer(entry);
    p1 := b1.Finish();
    var b2 := new Compute.ComputePipelineBuilder(gpu, ShaderModule("b.wgsl"));
    b2.BindBuffer(entry);
    p2 := b2.Finish();
  }

  /** Two pipelines share one buffer, which is then replaced by a new device
      buffer under the same id (what a reallocating upload does) and marked
      dirty. The scan stops at the first sharer: that pipeline rebuilds and
      binds the new buffer, while the second stays clean and keeps binding
      the old one. */
  method SharedBufferReplaced()
  {
    var init := Init(true, true);
    var gpu := init.value;
    var codec: Codec<seq<byte>> := bytes => Some(bytes);
    var created := CreateUniform(gpu, [0, 0, 0, 0], codec);
    var r := created.value.ResourceId();
    var original := gpu.buffers[r.id];
    var p1, p2 := BuildSharers(gpu, created.value.AsBindable());

    var replacement := new GpuBuffer({CopyDst, Uniform}, [0, 0, 0, 0, 0, 0, 0, 0]);
    gpu.buffers := gpu.buffers[r.id := replacement];
    assert FindFirst(gpu.pipelines, [p1.id, p2.id], r) == Some(p1.id);
    gpu.MarkResourceDirty(r, [p1.id, p2.id]);
    assert gpu.pipelines[p1.id].dirty && !gpu.pipelines[p2.id].dirty;

    var s1 := p1.Dispatch(Workgroups(1, 1, 1));
    var s2 := p2.Dispatch(Workgroups(1, 1, 1));
    assert s1.pass.bindGroup[0].resource == replacement;
    assert s2.pass.bindGroup[0].resource == original != replacement;
  }
}
