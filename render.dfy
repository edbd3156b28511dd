/** Render pipelines: the builder that collects bound resources together with
    their layout entries, the registered pipeline with its cached bind group,
    its two draw calls (one of which lazily creates a full-screen quad), and
    its deregistration. */
module Render {
  import opened Wrappers
  import opened Wgpu
  import opened Bindings
  import opened Pipeline
  import opened Registry

  datatype Vec4 = Vec4(x: real, y: real, z: real, w: real)
  datatype Vec2 = Vec2(x: real, y: real)

  /** A vertex: clip-space position and texture coordinate. */
  datatype Vertex = Vertex(position: Vec4, uv: Vec2)

  /** `QUAD_INDEX`: the two triangles of the screen quad. */
  const QUAD_INDEX: seq<u32> := [0, 1, 2, 2, 3, 0]

  /** `QUAD_VERTEX`: the four corners of clip space and their texture
      coordinates. */
  const QUAD_VERTEX: seq<Vertex> := [
    Vertex(Vec4(-1.0, -1.0, 1.0, 1.0), Vec2(0.0, 0.0)),
    Vertex(Vec4(1.0, -1.0, 1.0, 1.0), Vec2(1.0, 0.0)),
    Vertex(Vec4(1.0, 1.0, 1.0, 1.0), Vec2(1.0, 1.0)),
    Vertex(Vec4(-1.0, 1.0, 1.0, 1.0), Vec2(0.0, 1.0))
  ]

  /** The index range `draw_screen_quad` draws. */
  const QUAD_DRAW: Range := Range(0, 6)

  /** The quad draw reads exactly the six indices there are, and each of them
      names one of the four vertices. */
  lemma QuadIndicesInBounds()
    ensures QUAD_DRAW.start as int == 0 && QUAD_DRAW.end as int == |QUAD_INDEX| == 6
    ensures |QUAD_VERTEX| == 4
    ensures forall i :: 0 <= i < |QUAD_INDEX| ==> QUAD_INDEX[i] as int < |QUAD_VERTEX|
  {
  }

  /** `IndexBuffer`, known by the indices it holds. */
  datatype IndexBuffer = IndexBuffer(indices: seq<u32>)

  /** `VertexBuffer<Vertex>`, known by the vertices it holds. */
  datatype VertexBuffer = VertexBuffer(vertices: seq<Vertex>)

  /** What a draw records into the render pass: pipeline, bind group 0, the
      index and vertex buffers, the index range, base vertex 0 and the single
      instance `0..1`. */
  datatype Draw = Draw(program: RenderProgram, bindGroup: BindGroup, index: IndexBuffer,
                       vertex: VertexBuffer, indices: Range, baseVertex: int, instances: Range)

  /** `Gpu::render_pipeline` and `RenderPipelineBuilder`. */
  class RenderPipelineBuilder {
    const gpu: Gpu
    const shader: ShaderModule
    var bindGroupLayout: seq<BindGroupLayoutEntry>
    var bindGroup: seq<BindableResource>

    /** One layout entry per bound resource, the `i`-th in slot `i` (as a
        `u32`), with no array count. */
    ghost predicate Valid()
      reads this
    {
      && |bindGroupLayout| == |bindGroup|
      && forall i :: 0 <= i < |bindGroupLayout| ==>
           bindGroupLayout[i].binding == AsU32(i) && bindGroupLayout[i].count == None
    }

    /** `Gpu::render_pipeline`: the module is compiled; nothing is bound. */
    constructor (gpu: Gpu, source: ShaderModule)
      ensures Valid()
      ensures this.gpu == gpu && shader == source
      ensures bindGroupLayout == [] && bindGroup == []
    {
      this.gpu := gpu;
      shader := source;
      bindGroupLayout := [];
      bindGroup := [];
    }

    /** `bind_buffer`: the value's resource takes the next slot, numbered by
        how many were bound before, and its layout entry records the binding
        type the same value reports and the stages it is visible to. */
    method BindBuffer(entry: Bindable, visibility: ShaderStages)
      requires Valid()
      modifies this`bindGroupLayout, this`bindGroup
      ensures Valid()
      ensures bindGroup == old(bindGroup) + [entry.resource]
      ensures bindGroupLayout == old(bindGroupLayout) + [BindGroupLayoutEntry(AsU32(|old(bindGroup)|), visibility, entry.bindingType, None)]
    {
      var binding := AsU32(|bindGroup|);
      bindGroup := bindGroup + [entry.resource];
      bindGroupLayout := bindGroupLayout + [BindGroupLayoutEntry(binding, visibility, entry.bindingType, None)];
    }

    /** `finish`: create the pipeline with entry points `vert` and `frag` over
        the collected layout, build its first bind group (which panics unless
        every bound buffer is registered), then register the resource list
        under a fresh id as clean. */
    method Finish() returns (p: RenderPipeline)
      requires Valid()
      requires gpu.Valid()
      requires AllRegistered(gpu.buffers, bindGroup)
      modifies gpu
      ensures gpu.Valid()
      ensures fresh(p)
      ensures p.gpu == gpu && p.entries == bindGroup
      ensures p.program == RenderProgram(shader, "vert", "frag", bindGroupLayout)
      ensures p.id == PipelineId(old(gpu.nextPipelineId)) && p.id !in old(gpu.pipelines)
      ensures gpu.pipelines == old(gpu.pipelines)[p.id := PipelineStatus(bindGroup, false)]
      ensures gpu.buffers == old(gpu.buffers) && gpu.nextBufferId == old(gpu.nextBufferId)
      ensures p.bindGroup == CreateBindGroup(gpu.buffers, bindGroup)
      ensures |p.program.layout| == |p.bindGroup|
      ensures forall i :: 0 <= i < |p.bindGroup| ==> p.program.layout[i].binding == p.bindGroup[i].binding
      ensures p.quad == None
    {
      var program := RenderProgram(shader, "vert", "frag", bindGroupLayout);
      var group := CreateBindGroup(gpu.buffers, bindGroup);
      var id := gpu.NewPipelineId();
      gpu.pipelines := gpu.pipelines[id := PipelineStatus(bindGroup, false)];
      p := new RenderPipeline(gpu, id, program, bindGroup, group);
    }
  }

  /** `RenderPipeline`: a registered pipeline, its cached bind group and the
      lazily created screen-quad buffers. */
  class RenderPipeline {
    const gpu: Gpu
    const id: PipelineId
    const program: RenderProgram
    const entries: seq<BindableResource>
    var bindGroup: BindGroup
    var quad: Option<(VertexBuffer, IndexBuffer)>

    constructor (gpu: Gpu, id: PipelineId, program: RenderProgram, entries: seq<BindableResource>, bindGroup: BindGroup)
      ensures this.gpu == gpu && this.id == id && this.program == program
      ensures this.entries == entries && this.bindGroup == bindGroup && quad == None
    {
      this.gpu := gpu;
      this.id := id;
      this.program := program;
      this.entries := entries;
      this.bindGroup := bindGroup;
      quad := None;
    }

    /** `recreate_bind_group`: rebuild only when the registry flag is set;
        the registry, and so the flag, is left as it was. */
    method RecreateBindGroup()
      requires gpu.CanRefresh(id, entries)
      modifies this`bindGroup
      ensures bindGroup == Refreshed(gpu.pipelines[id], gpu.buffers, entries, old(bindGroup))
      ensures unchanged(gpu)
    {
      if gpu.pipelines[id].dirty {
        bindGroup := CreateBindGroup(gpu.buffers, entries);
      }
    }

    /** `draw_indexed`: refresh the bind group, then draw `indices` from the
        given buffers. */
    method DrawIndexed(index: IndexBuffer, vertex: VertexBuffer, indices: Range) returns (d: Draw)
      requires gpu.CanRefresh(id, entries)
      modifies this`bindGroup
      ensures bindGroup == Refreshed(gpu.pipelines[id], gpu.buffers, entries, old(bindGroup))
      ensures d == Draw(program, bindGroup, index, vertex, indices, 0, Range(0, 1))
      ensures quad == old(quad) && unchanged(gpu)
    {
      RecreateBindGroup();
      d := Draw(program, bindGroup, index, vertex, indices, 0, Range(0, 1));
    }

    /** `draw_screen_quad`: refresh the bind group, create the quad buffers on
        the first call only (`get_or_insert_with`), and draw its six indices.
        The quad buffers are owned by the pipeline and kept outside the
        buffer registry, so the context is left as it was. */
    method DrawScreenQuad() returns (d: Draw)
      requires gpu.CanRefresh(id, entries)
      modifies this`bindGroup, this`quad
      ensures bindGroup == Refreshed(gpu.pipelines[id], gpu.buffers, entries, old(bindGroup))
      ensures quad == if old(quad).Some? then old(quad) else Some((VertexBuffer(QUAD_VERTEX), IndexBuffer(QUAD_INDEX)))
      ensures d == Draw(program, bindGroup, quad.value.1, quad.value.0, QUAD_DRAW, 0, Range(0, 1))
      ensures unchanged(gpu)
    {
      RecreateBindGroup();
      if quad.None? {
        quad := Some((VertexBuffer(QUAD_VERTEX), IndexBuffer(QUAD_INDEX)));
      }
      var (vertex, index) := quad.value;
      d := Draw(program, bindGroup, index, vertex, QUAD_DRAW, 0, Range(0, 1));
    }

    /** `Drop`: this pipeline's id leaves the registry; nothing else does. */
    method Drop()
      requires gpu.Valid()
      modifies gpu
      ensures gpu.Valid()
      ensures id !in gpu.pipelines
      ensures forall k :: k in old(gpu.pipelines) && k != id ==> k in gpu.pipelines && gpu.pipelines[k] == old(gpu.pipelines)[k]
      ensures gpu.pipelines.Keys == old(gpu.pipelines).Keys - {id}
      ensures gpu.buffers == old(gpu.buffers)
      ensures gpu.nextPipelineId == old(gpu.nextPipelineId) && gpu.nextBufferId == old(gpu.nextBufferId)
    {
      gpu.pipelines := gpu.pipelines - {id};
    }
  }
}
