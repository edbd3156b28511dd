/** The device-level objects of the GPU API that the registry hands around.
    They are opaque to the library: it allocates them, stores references to
    them and passes them back to the device, but never looks inside, except
    that a buffer's bytes are what `upload` overwrites. */
module Wgpu {
  import opened Wrappers

  newtype byte = x: int | 0 <= x < 0x100
  newtype u32 = x: int | 0 <= x < 0x1_0000_0000

  const U32_MODULUS: int := 0x1_0000_0000

  /** Rust's `n as u32` on a `usize`: the low 32 bits. */
  function AsU32(n: nat): (r: u32)
    ensures r as int == n % U32_MODULUS
    ensures n < U32_MODULUS ==> r as int == n
  {
    (n % U32_MODULUS) as u32
  }

  /** The usage flags a buffer is created with (`BufferUsages`). */
  datatype BufferUsage = CopyDst | Uniform

  /** A device buffer. The wrappers only ever hold references to it, so a
      write through one reference is seen through every other, including the
      ones cached in bind groups. */
  class GpuBuffer {
    const usage: set<BufferUsage>
    var contents: seq<byte>

    /** `Device::create_buffer_init`: a buffer initialised with `contents`. */
    constructor (usage: set<BufferUsage>, contents: seq<byte>)
      ensures this.usage == usage && this.contents == contents
    {
      this.usage := usage;
      this.contents := contents;
    }
  }

  /** What `Queue::write_buffer(buffer, 0, data)` leaves in a buffer holding
      `current`: `data` over the first bytes, the rest as it was. Writing
      past the end is a device validation error. */
  function WriteAtStart(current: seq<byte>, data: seq<byte>): (r: seq<byte>)
    requires |data| <= |current|
    ensures |r| == |current|
    ensures forall i :: 0 <= i < |data| ==> r[i] == data[i]
    ensures forall i :: |data| <= i < |current| ==> r[i] == current[i]
  {
    data + current[|data|..]
  }

  /** One entry of a realised bind group: a slot number and the buffer bound
      there (`BindGroupEntry` with `as_entire_binding`). */
  datatype BindGroupEntry = BindGroupEntry(binding: u32, resource: GpuBuffer)

  /** A realised bind group, as the list of entries it was created from. */
  type BindGroup = seq<BindGroupEntry>

  /** `wgpu::BufferBindingType`. */
  datatype BufferBindingType = UniformBinding | StorageBinding(readOnly: bool)

  /** `wgpu::BindingType::Buffer`. */
  datatype BindingType =
    BufferBinding(ty: BufferBindingType, hasDynamicOffset: bool, minBindingSize: Option<nat>)

  /** `wgpu::ShaderStages`, the stages a binding is visible to. */
  datatype ShaderStages = ShaderStages(vertex: bool, fragment: bool, compute: bool)

  /** `wgpu::BindGroupLayoutEntry`. */
  datatype BindGroupLayoutEntry =
    BindGroupLayoutEntry(binding: u32, visibility: ShaderStages, ty: BindingType, count: Option<nat>)

  /** A compiled shader module, known by its source text. */
  datatype ShaderModule = ShaderModule(source: string)

  /** `wgpu::ComputePipeline` as the descriptor it was created from. */
  datatype ComputeProgram = ComputeProgram(shader: ShaderModule, entryPoint: string)

  /** `wgpu::RenderPipeline` as the descriptor it was created from: the two
      entry points and the explicit bind group layout. */
  datatype RenderProgram =
    RenderProgram(shader: ShaderModule, vertexEntry: string, fragmentEntry: string,
                  layout: seq<BindGroupLayoutEntry>)

  /** `Vector3<u32>` of workgroup counts. */
  datatype Workgroups = Workgroups(x: u32, y: u32, z: u32)

  /** A half-open `Range<u32>`. */
  datatype Range = Range(start: u32, end: u32)
}
