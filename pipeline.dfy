/** What compute and render pipelines share: the registry entry a pipeline
    owns, and the construction of its bind group from the buffer registry
    (`create_bind_group`, written out identically for both pipeline kinds). */
module Pipeline {
  import opened Wgpu
  import opened Bindings

  /** The registry's value for a pipeline: the resources it was built with,
      in binding order, and whether its cached bind group is stale. */
  datatype PipelineStatus = PipelineStatus(resources: seq<BindableResource>, dirty: bool)

  /** Every resource of `entries` has a buffer in the registry, so that
      `buffers[buffer]` does not panic for any of them. */
  predicate AllRegistered(buffers: map<BufferId, GpuBuffer>, entries: seq<BindableResource>)
  {
    forall i :: 0 <= i < |entries| ==> entries[i].id in buffers
  }

  /** The `enumerate().map(..)` of `create_bind_group`, started at position
      `start`. */
  function Enumerate(buffers: map<BufferId, GpuBuffer>, entries: seq<BindableResource>, start: nat): (group: BindGroup)
    requires AllRegistered(buffers, entries)
    ensures |group| == |entries|
    ensures forall i :: 0 <= i < |entries| ==>
              group[i] == BindGroupEntry(AsU32(start + i), buffers[entries[i].id])
    decreases |entries|
  {
    if entries == [] then []
    else
      assert AllRegistered(buffers, entries[1..]) by {
        forall i | 0 <= i < |entries[1..]| ensures entries[1..][i].id in buffers {
          assert entries[1..][i] == entries[i + 1];
        }
      }
      [BindGroupEntry(AsU32(start), buffers[entries[0].id])] + Enumerate(buffers, entries[1..], start + 1)
  }

  /** `create_bind_group`: one entry per resource, in order; entry `i` sits in
      slot `i` (as a `u32`) and binds the buffer currently registered under
      the `i`-th resource's id. */
  function CreateBindGroup(buffers: map<BufferId, GpuBuffer>, entries: seq<BindableResource>): (group: BindGroup)
    requires AllRegistered(buffers, entries)
    ensures |group| == |entries|
    ensures forall i :: 0 <= i < |entries| ==> group[i].binding == AsU32(i)
    ensures forall i :: 0 <= i < |entries| ==> group[i].resource == buffers[entries[i].id]
  {
    Enumerate(buffers, entries, 0)
  }

  /** Below 2^32 entries, slot numbers are exactly the positions. */
  lemma SlotIsPosition(buffers: map<BufferId, GpuBuffer>, entries: seq<BindableResource>, i: nat)
    requires AllRegistered(buffers, entries)
    requires i < |entries| < U32_MODULUS
    ensures CreateBindGroup(buffers, entries)[i].binding as int == i
  {
  }

  /** The bind group depends only on the buffers registered under the ids it
      names: registering or removing any other buffer does not change it. */
  lemma {:induction false} EnumerateLocal(b1: map<BufferId, GpuBuffer>, b2: map<BufferId, GpuBuffer>,
                                          entries: seq<BindableResource>, start: nat)
    requires AllRegistered(b1, entries)
    requires forall i :: 0 <= i < |entries| ==> entries[i].id in b2 && b2[entries[i].id] == b1[entries[i].id]
    ensures AllRegistered(b2, entries)
    ensures Enumerate(b1, entries, start) == Enumerate(b2, entries, start)
    decreases |entries|
  {
    if entries != [] {
      forall i | 0 <= i < |entries[1..]|
        ensures entries[1..][i].id in b2 && b2[entries[1..][i].id] == b1[entries[1..][i].id]
      {
        assert entries[1..][i] == entries[i + 1];
      }
      assert AllRegistered(b1, entries[1..]) by {
        forall i | 0 <= i < |entries[1..]| ensures entries[1..][i].id in b1 {
          assert entries[1..][i] == entries[i + 1];
        }
      }
      EnumerateLocal(b1, b2, entries[1..], start + 1);
    }
  }

  lemma CreateBindGroupLocal(b1: map<BufferId, GpuBuffer>, b2: map<BufferId, GpuBuffer>,
                             entries: seq<BindableResource>)
    requires AllRegistered(b1, entries)
    requires forall i :: 0 <= i < |entries| ==> entries[i].id in b2 && b2[entries[i].id] == b1[entries[i].id]
    ensures AllRegistered(b2, entries)
    ensures CreateBindGroup(b1, entries) == CreateBindGroup(b2, entries)
  {
    EnumerateLocal(b1, b2, entries, 0);
  }

  /** What `recreate_bind_group` leaves cached: a fresh bind group when the
      registry flag is set, the old one untouched otherwise. The flag itself
      is not cleared. */
  function Refreshed(status: PipelineStatus, buffers: map<BufferId, GpuBuffer>, entries: seq<BindableResource>,
                     cached: BindGroup): (group: BindGroup)
    requires status.dirty ==> AllRegistered(buffers, entries)
    ensures !status.dirty ==> group == cached
    ensures status.dirty ==> |group| == |entries|
    ensures status.dirty ==>
              forall i :: 0 <= i < |entries| ==> group[i] == BindGroupEntry(AsU32(i), buffers[entries[i].id])
  {
    if status.dirty then CreateBindGroup(buffers, entries) else cached
  }
}
