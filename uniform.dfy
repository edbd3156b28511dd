/** Uniform buffers: creation from a typed value, in-place upload, the
    `Bindable` view a pipeline builder reads, and deregistration. */
module Uniform {
  import opened Wrappers
  import opened Wgpu
  import opened Bindings
  import opened Registry

  /** The typed-payload serialiser (`StorageBuffer::write`): the bytes of a
      value, or `None` when it cannot lay the value out. */
  type Codec<-T> = T -> Option<seq<byte>>

  /** The error `?` propagates out of a failed serialisation. */
  datatype EncodeError = EncodeError

  /** `UniformBuffer<T>`: the context and the id of the registered buffer;
      `T` only fixes what may be uploaded. */
  class UniformBuffer<T> {
    const gpu: Gpu
    const buffer: BufferId

    constructor (gpu: Gpu, buffer: BufferId)
      ensures this.gpu == gpu && this.buffer == buffer
    {
      this.gpu := gpu;
      this.buffer := buffer;
    }

    /** `Bindable::resource_id`: the buffer's registry id, whatever it holds. */
    function ResourceId(): (r: BindableResource)
      ensures r.Buffer? && r.id == buffer
    {
      Buffer(buffer)
    }

    /** The `Bindable` view a builder reads: this buffer's resource id and
        its uniform binding type. */
    function AsBindable(): (b: Bindable)
      ensures b.resource == ResourceId() && b.bindingType == BindingType()
    {
      Bindable(ResourceId(), BindingType())
    }

    /** `Bindable::binding_type`: a uniform binding without dynamic offset or
        minimum size. */
    function BindingType(): (ty: BindingType)
      ensures ty.BufferBinding? && ty.ty == UniformBinding
      ensures !ty.hasDynamicOffset && ty.minBindingSize == None
    {
      BufferBinding(UniformBinding, false, None)
    }

    /** `upload`: serialise `data`; on failure return the error having
        written nothing; otherwise write the bytes at offset 0 into the
        buffer already registered under `self.buffer`. The registry itself
        (which buffer each id maps to, every pipeline and its flag) is not
        touched. Looking the buffer up, which happens only after a successful
        serialisation, panics when it is not registered. */
    method Upload(data: T, codec: Codec<T>) returns (r: Outcome<EncodeError>)
      requires codec(data).Some? ==> buffer in gpu.buffers
      requires codec(data).Some? ==> |codec(data).value| <= |gpu.buffers[buffer].contents|
      modifies if buffer in gpu.buffers then {gpu.buffers[buffer]} else {}
      ensures r.Fail? <==> codec(data).None?
      ensures codec(data).None? && buffer in gpu.buffers ==> unchanged(gpu.buffers[buffer])
      ensures codec(data).Some? ==>
                gpu.buffers[buffer].contents == WriteAtStart(old(gpu.buffers[buffer].contents), codec(data).value)
      ensures unchanged(gpu)
    {
      var bytes := codec(data);
      if bytes.None? {
        return Fail(EncodeError);
      }
      var target := gpu.buffers[buffer];
      target.contents := WriteAtStart(target.contents, bytes.value);
      r := Pass;
    }

    /** `Drop`: this buffer's id leaves the registry; nothing else changes. */
    method Drop()
      requires gpu.Valid()
      modifies gpu
      ensures gpu.Valid()
      ensures buffer !in gpu.buffers
      ensures forall k :: k in old(gpu.buffers) && k != buffer ==> k in gpu.buffers && gpu.buffers[k] == old(gpu.buffers)[k]
      ensures gpu.buffers.Keys == old(gpu.buffers).Keys - {buffer}
      ensures gpu.pipelines == old(gpu.pipelines)
      ensures gpu.nextPipelineId == old(gpu.nextPipelineId) && gpu.nextBufferId == old(gpu.nextBufferId)
    {
      gpu.buffers := gpu.buffers - {buffer};
    }
  }

  /** `Gpu::create_uniform`: serialise `data` first, and on failure return
      the error before an id is allocated or anything is registered;
      otherwise allocate a fresh id, create a `COPY_DST | UNIFORM` buffer
      holding the bytes and register it under that id. */
  method CreateUniform<T>(gpu: Gpu, data: T, codec: Codec<T>) returns (r: Result<UniformBuffer<T>, EncodeError>)
    requires gpu.Valid()
    modifies gpu
    ensures gpu.Valid()
    ensures r.Failure? <==> codec(data).None?
    ensures r.Failure? ==> unchanged(gpu)
    ensures r.Success? ==> fresh(r.value) && r.value.gpu == gpu
    ensures r.Success? ==> r.value.buffer == BufferId(old(gpu.nextBufferId)) && r.value.buffer !in old(gpu.buffers)
    ensures r.Success? ==> gpu.nextBufferId == old(gpu.nextBufferId) + 1
    ensures r.Success? ==>
              && r.value.buffer in gpu.buffers
              && fresh(gpu.buffers[r.value.buffer])
              && gpu.buffers[r.value.buffer].contents == codec(data).value
              && gpu.buffers[r.value.buffer].usage == {CopyDst, Uniform}
              && gpu.buffers == old(gpu.buffers)[r.value.buffer := gpu.buffers[r.value.buffer]]
    ensures gpu.pipelines == old(gpu.pipelines) && gpu.nextPipelineId == old(gpu.nextPipelineId)
  {
    var bytes := codec(data);
    if bytes.None? {
      return Failure(EncodeError);
    }
    var id := gpu.NewBufferId();
    var device := new GpuBuffer({CopyDst, Uniform}, bytes.value);
    gpu.buffers := gpu.buffers[id := device];
    var wrapper := new UniformBuffer(gpu, id);
    r := Success(wrapper);
  }
}
