/** Resource identities: the ids handed out for buffers and pipelines and the
    resource id a bindable value reports. */
module Bindings {
  import opened Wgpu

  /** `misc::ids::BufferId`: an opaque, comparable handle. */
  datatype BufferId = BufferId(n: nat)

  /** `misc::ids::PipelineId`. */
  datatype PipelineId = PipelineId(n: nat)

  /** `BindableResource` / `BindableResourceId`: what a pipeline records for
      each bound value. Buffers are the only kind. */
  datatype BindableResource = Buffer(id: BufferId)

  /** What a builder reads from a value implementing `Bindable`: its
      resource id and its binding type, both taken from the same value. */
  datatype Bindable = Bindable(resource: BindableResource, bindingType: BindingType)
}
