# GPU resource registry and bind-group cache

This project models the bookkeeping layer of a small GPU compute/render helper
library (connorslade/compute, Rust, on top of wgpu). The library does not hand
GPU objects around directly. Instead:

- a context object (`Gpu`) keeps two registries behind locks: `pipelines`,
  mapping a pipeline id to its bound-resource list and a *dirty* flag, and
  `buffers`, mapping a buffer id to the device buffer;
- pipeline builders collect bound resources in call order, so slot `i` is
  the `i`-th bound resource;
- every pipeline caches a bind group built from the buffer registry and
  rebuilds it before a dispatch or draw only when its registry flag is set;
- a uniform buffer registers its device buffer under a fresh id, uploads by
  writing into that same buffer in place (no invalidation), and deregisters
  on drop.

The model follows the code as written. Two points matter:

- `mark_resource_dirty` sets the flag of only the first pipeline its scan
  finds.
- `recreate_bind_group` never clears the flag.

Modules:

- `Wrappers`: Option / Result / Outcome.
- `Wgpu`: the opaque device objects. `GpuBuffer` is a class, so a write
  through one reference is seen through the bind groups that hold the same
  buffer. Also here: bind-group entries, layout entries, `u32`, and
  `AsU32`, the `as u32` cast.
- `Bindings`: the id types, `BindableResource`, and `Bindable` (a resource
  together with the binding type it reports).
- `Pipeline`: the registry entry `PipelineStatus`, and `CreateBindGroup`.
  `src/pipeline/render.rs:191-211` is identical to the compute version
  apart from the type of the pipeline passed in, whose layout the model does
  not keep, so the model defines it once.
- `Registry`: `src/gpu.rs`.
- `Compute`, `Render`, `Uniform`: the other three core files.
- `Scenarios`: two client methods checked against the contracts alone,
  and one helper they use:
  - `BuildSharers`: builds two compute pipelines that bind the same
    resource, and states the registry and bind groups it leaves.
  - `UploadDispatchDrop`: an upload is visible through the cached bind
    group without a rebuild; dropping a pipeline leaves its buffer usable
    by a new pipeline, which gets a different id.
  - `SharedBufferReplaced`: two pipelines share a buffer that is replaced
    and marked. Only the first is rebuilt; the second keeps binding the old
    buffer. This is the hazard of first-match marking.

How the model is built:

- State that the source updates in place is a class: `Gpu`, the builders,
  the pipelines and the device buffer. The uniform wrapper has no mutable
  fields; it is a class only because it has an identity (the buffer id it
  owns) and a `Drop` that removes that id from the registry.
- `mark_resource_dirty` is a `while` loop. It is proved against the pure
  specification `FindFirst` / `MarkFirstDirty`, and properties of that
  specification are proved as lemmas.
- `HashMap::iter_mut` visits entries in an unspecified order. That order is
  a parameter, `order`: a duplicate-free enumeration of the keys.

Where the code departs from what one might expect, the model follows the code:

- The files come from different revisions. `compute.rs` reads a
  `PipelineStatus { resources, dirty }`, while `gpu.rs` and `render.rs` use
  a tuple. `uniform.rs` reaches the buffer map through `binding_manager`.
  All of these are modelled as the same two maps. `compute.rs` submits
  through `Gpu::dispach(proc, immediate)` and
  `Gpu::dispach_callback(proc, callback, immediate)` and mentions
  `Gpu::flush_dispatch_queue`, none of which appear in this `gpu.rs` (which
  has only `Gpu::dispatch`). The dispatch queue is therefore not modelled:
  queued against immediate submission survives only as the `immediate` flag
  of `Submission`.
- An idealised protocol would mark every pipeline that references the
  buffer and clear the flag on rebuild. The code does neither, and the
  model follows the code.

## Model

| member | source | states |
|---|---|---|
| Wgpu.AsU32 | src/pipeline/compute.rs:140 | `n as u32` keeps the value modulo 2^32, and is the identity below 2^32 |
| Wgpu.GpuBuffer.constructor | src/bindings/buffer/uniform.rs:56-60 | a created device buffer has exactly the requested usage and initial contents |
| Wgpu.WriteAtStart | src/bindings/buffer/uniform.rs:40 | writing `data` at offset 0 keeps the buffer length, puts `data` in the first bytes and leaves every later byte as it was |
| Pipeline.Enumerate | src/pipeline/compute.rs:136-145 | enumerating from position `start` gives one entry per resource; entry `i` has slot `start + i` (as u32) and the buffer registered under resource `i`'s id |
| Pipeline.CreateBindGroup | src/pipeline/compute.rs:127-147 | needs every bound id registered (`buffers[buffer]` panics otherwise); gives exactly one entry per resource, entry `i` in slot `i` binding the buffer currently registered under the `i`-th id |
| Pipeline.SlotIsPosition | src/pipeline/compute.rs:139-140 | with fewer than 2^32 resources, slot numbers equal positions |
| Pipeline.EnumerateLocal | src/pipeline/compute.rs:142 | enumeration reads only the buffers registered under the ids it names |
| Pipeline.CreateBindGroupLocal | src/pipeline/compute.rs:132-145 | two buffer registries that agree on the bound ids give the same bind group, so registering or removing other buffers does not change it |
| Pipeline.Refreshed | src/pipeline/compute.rs:58-62 | what `recreate_bind_group` leaves cached: the old bind group, untouched, when the flag is clear; a fresh positional bind group from the current registry when it is set |
| Registry.FindFirst | src/gpu.rs:90-93 | the scan's result binds the resource, and no pipeline visited before it does; `None` only when no visited pipeline binds it |
| Registry.FindFirstFinds | src/gpu.rs:93 | if some registered pipeline binds the resource and the scan visits it, the scan finds a pipeline, so `unwrap` does not panic |
| Registry.FindFirstIgnoresFlags | src/gpu.rs:92 | the scan depends only on keys and resource lists, never on dirty flags |
| Registry.MarkFirstDirty | src/gpu.rs:88-95 | after marking: same keys and resource lists; the first matching pipeline, which binds the resource, is dirty; every other entry is unchanged; the scan still finds the same pipeline |
| Registry.MarkChangesAtMostOne | src/gpu.rs:90-94 | any two registry entries that marking changed are the same entry: at most one flag changes |
| Registry.MarkAlreadyDirty | src/gpu.rs:94 | marking when the first matching pipeline is already dirty leaves the registry unchanged |
| Registry.MarkTwiceIsOnce | src/gpu.rs:88-95 | marking twice for the same resource is the same as marking once |
| Registry.SecondSharerStaysClean | src/gpu.rs:90-94 | an example: in one two-pipeline registry where both pipelines bind the same resource and are visited in id order, only the first becomes dirty |
| Registry.SharersNotBothMarked | src/gpu.rs:90-94 | for every scan order, any two distinct clean pipelines that bind the same resource are not both dirty after marking |
| Registry.Gpu.Empty | src/gpu.rs:59-60 | a new context has both registries empty |
| Registry.Init | src/gpu.rs:34-63 | a failed adapter or device request returns that error; on success the context is new, with both registries empty |
| Registry.Gpu.NewPipelineId | src/pipeline/compute.rs:108 | the allocated pipeline id is not registered; the registries are unchanged |
| Registry.Gpu.NewBufferId | src/bindings/buffer/uniform.rs:55 | the allocated buffer id is not registered; the registries are unchanged |
| Registry.Gpu.MarkResourceDirty | src/gpu.rs:88-95 | needs some registered pipeline binding the resource (the `unwrap`); the new pipeline map is `MarkFirstDirty` of the old one for the scan order; buffers and counters are unchanged |
| Compute.ComputePipelineBuilder.constructor | src/pipeline/compute.rs:152-172 | a new builder has entry point `main` and no bound resources |
| Compute.ComputePipelineBuilder.BindBuffer | src/pipeline/compute.rs:101-104 | the bound value's resource is appended after all earlier entries |
| Compute.ComputePipelineBuilder.Finish | src/pipeline/compute.rs:107-124 | registers a fresh id with the entries and `dirty = false`; nothing else in the registry changes; the pipeline keeps the same entries and the positional bind group |
| Compute.ComputePipeline.RecreateBindGroup | src/pipeline/compute.rs:58-62 | needs the id registered; rebuilds only when the flag is set, otherwise leaves the bind group as it was; never changes the registry, so the flag is not cleared |
| Compute.ComputePipeline.Submit | src/pipeline/compute.rs:64-96 | refreshes the bind group first, then encodes one pass over the refreshed group with the given mode and callback |
| Compute.ComputePipeline.Dispatch | src/pipeline/compute.rs:33-35 | refreshes first; submits immediately, with no callback |
| Compute.ComputePipeline.DispatchCallback | src/pipeline/compute.rs:37-43 | refreshes first; submits immediately, with the callback |
| Compute.ComputePipeline.QueueDispatch | src/pipeline/compute.rs:46-48 | refreshes first; queues the pass, with no callback |
| Compute.ComputePipeline.QueueDispatchCallback | src/pipeline/compute.rs:50-56 | refreshes first; queues the pass, with the callback |
| Compute.ComputePipeline.Drop | src/pipeline/compute.rs:175-179 | removes exactly this id from `pipelines`; every other entry and the buffer map are unchanged |
| Render.QuadIndicesInBounds | src/pipeline/render.rs:37-43 | the quad draw range `0..6` (line 113) covers exactly the 6 indices of `QUAD_INDEX`, and every index is below the 4 vertices of `QUAD_VERTEX` |
| Render.RenderPipelineBuilder.constructor | src/pipeline/render.rs:214-223 | a new builder has no bound resources and no layout entries |
| Render.RenderPipelineBuilder.BindBuffer | src/pipeline/render.rs:118-130 | appends the bound value's resource and a layout entry carrying that same value's binding type, in slot = number of earlier resources. Keeps the builder invariant: the two lists are equally long, and layout entry `i` is in slot `i` |
| Render.RenderPipelineBuilder.Finish | src/pipeline/render.rs:132-188 | creates the program (`vert`/`frag`, the collected layout) and the positional bind group; registers a fresh id with `(bind_group, false)`; the pipeline's entries equal what it registered; layout entry `i` and bind-group entry `i` have the same slot; the quad buffers start as `None` |
| Render.RenderPipeline.RecreateBindGroup | src/pipeline/render.rs:78-82 | rebuilds only when the flag is set, otherwise leaves the bind group as it was; never changes the registry |
| Render.RenderPipeline.DrawIndexed | src/pipeline/render.rs:84-98 | refreshes first; draws the given range from the given buffers with base vertex 0 and one instance |
| Render.RenderPipeline.DrawScreenQuad | src/pipeline/render.rs:100-114 | refreshes first; creates the quad buffers only if absent and reuses them unchanged afterwards; draws indices `0..6` from them; the context is unchanged, because the quad buffers are kept outside the buffer registry |
| Render.RenderPipeline.Drop | src/pipeline/render.rs:226-230 | removes exactly this id from `pipelines`; every other entry is unchanged |
| Uniform.UniformBuffer.ResourceId | src/bindings/buffer/uniform.rs:72-74 | always the buffer resource for this wrapper's id |
| Uniform.UniformBuffer.AsBindable | src/bindings/buffer/uniform.rs:71-83 | the value a builder binds carries this wrapper's resource id and its uniform binding type together |
| Uniform.UniformBuffer.BindingType | src/bindings/buffer/uniform.rs:76-82 | always a uniform binding with no dynamic offset and no minimum size |
| Uniform.UniformBuffer.Upload | src/bindings/buffer/uniform.rs:35-42 | fails exactly when serialisation fails, and then writes nothing; the id need only be registered when serialisation succeeds. Otherwise writes the bytes in place into the buffer already registered under this id. The registry is untouched: no entry is replaced, `pipelines` does not change, and nothing is marked dirty |
| Uniform.UniformBuffer.Drop | src/bindings/buffer/uniform.rs:85-88 | removes exactly this id from the buffer registry; everything else is unchanged |
| Uniform.CreateUniform | src/bindings/buffer/uniform.rs:47-68 | fails exactly when serialisation fails, before any id is allocated or buffer registered. Otherwise it registers a new buffer with usage `COPY_DST` and `UNIFORM` holding the bytes under a freshly allocated id; the returned wrapper holds that id, and nothing else changes |

## Left out

- Device and queue calls are opaque. A created pipeline, bind group or
  pass is represented by the values it was created from. This covers
  adapter/device requests (`pollster::block_on`), `poll`, `wait`, command
  encoding and submission (`Gpu::dispatch`), and the device-side
  `create_bind_group`, `create_*_pipeline` and `create_bind_group_layout`.
- The two outcomes of `Gpu::init`, adapter found and device created, are
  parameters of `Init`. `Gpu::info` and the `Drop` of `Gpu` (a `wait`) are
  not modelled, because they are device I/O.
- The typed-payload serialiser (encase) is a function parameter, `Codec`,
  that may fail. Its byte layout is not modelled.
- Uniform.UniformBuffer.Upload: requires that the serialised bytes fit in
  the buffer. Writing past the end is a device validation error, which the
  source does not check. Write alignment rules are not modelled.
- The id generator (`misc::ids`) is not part of this model. It is a
  per-context counter here, not a process-wide one. The model assumes fresh
  ids, which is exactly what `Gpu.Valid` maintains.
- `RwLock`, `Arc`, `Send` callbacks and concurrency are not modelled. All
  operations are sequential. Callbacks are opaque tags carried in the
  submission record.
- Vertex formats, `VERTEX_BUFFER_LAYOUT` and float precision are not
  modelled. The quad coordinates are exact reals, all in {-1, 0, 1}.
- `create_vertex` / `create_index` are not part of this model. The quad
  buffers are represented by the data they are created from. Their
  `unwrap` failure is not modelled.
- Render.RenderPipeline.DrawScreenQuad: the model keeps the two quad
  buffers outside the buffer registry, as values owned by the pipeline. On
  the first call the source creates them through `create_vertex` /
  `create_index`, which most likely register them under new buffer ids, and
  later looks them up with `.get()` (as `DrawIndexed` does for its
  buffers). That registration and those lookups are not modelled, so the
  contract keeps the whole context unchanged.
- Render.RenderPipeline.Drop: because the quad buffers are kept outside the
  buffer registry, the model does not capture that dropping a pipeline
  whose quad exists also drops the two buffers it owns in its `buffers`
  field, and with them their registry entries. The contract promises the
  buffer registry unchanged.
- Render and compute pipelines do not keep an object invariant tying their
  `entries` to the registry entry. Another pipeline's `Drop` cannot remove
  this id, because ids are fresh, but the model does not state this across
  objects.
- The windowing/UI module, the demo programs and storage buffers (resize,
  download) are not modelled. They are outside the core. The resize path
  appears only in the `SharedBufferReplaced` scenario, as a direct registry
  replacement followed by `MarkResourceDirty`.
