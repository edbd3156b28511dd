/** The GPU context (`Gpu` / `GpuInner`) restricted to its bookkeeping: the
    pipeline registry, the buffer registry, the id counters, and the
    dirty-marking scan of `mark_resource_dirty`. */
module Registry {
  import opened Wrappers
  import opened Wgpu
  import opened Bindings
  import opened Pipeline

  /** `find`'s predicate: the pipeline registered under `id` binds `r`. */
  predicate Matches(pipelines: map<PipelineId, PipelineStatus>, id: PipelineId, r: BindableResource)
  {
    id in pipelines && r in pipelines[id].resources
  }

  /** `order` is one enumeration of the map's keys, each exactly once: the
      (unspecified) order in which `HashMap::iter_mut` visits the entries. */
  ghost predicate IsIterationOrder(order: seq<PipelineId>, pipelines: map<PipelineId, PipelineStatus>)
  {
    && (forall id :: id in pipelines <==> id in order)
    && (forall i, j :: 0 <= i < j < |order| ==> order[i] != order[j])
  }

  /** `iter_mut().find(..)` over `order`: the first visited pipeline that
      binds `r`, if any. */
  function FindFirst(pipelines: map<PipelineId, PipelineStatus>, order: seq<PipelineId>, r: BindableResource): (found: Option<PipelineId>)
    ensures found.Some? ==> Matches(pipelines, found.value, r)
    ensures found.Some? ==> exists k :: 0 <= k < |order| && order[k] == found.value &&
                              forall j :: 0 <= j < k ==> !Matches(pipelines, order[j], r)
    ensures found.None? ==> forall j :: 0 <= j < |order| ==> !Matches(pipelines, order[j], r)
    decreases |order|
  {
    if order == [] then None
    else if Matches(pipelines, order[0], r) then Some(order[0])
    else
      var rest := FindFirst(pipelines, order[1..], r);
      assert rest.Some? ==> exists k :: 0 <= k < |order| && order[k] == rest.value &&
                              forall j :: 0 <= j < k ==> !Matches(pipelines, order[j], r) by {
        if rest.Some? {
          var k :| 0 <= k < |order[1..]| && order[1..][k] == rest.value &&
                   forall j :: 0 <= j < k ==> !Matches(pipelines, order[1..][j], r);
          assert order[k + 1] == rest.value;
          forall j | 0 <= j < k + 1 ensures !Matches(pipelines, order[j], r) {
            if j > 0 { assert order[j] == order[1..][j - 1]; }
          }
        }
      }
      assert rest.None? ==> forall j :: 0 <= j < |order| ==> !Matches(pipelines, order[j], r) by {
        if rest.None? {
          forall j | 0 <= j < |order| ensures !Matches(pipelines, order[j], r) {
            if j > 0 { assert order[j] == order[1..][j - 1]; }
          }
        }
      }
      rest
  }

  /** When the scan visits every key and some pipeline binds `r`, the scan
      finds one: the `unwrap` does not panic. */
  lemma FindFirstFinds(pipelines: map<PipelineId, PipelineStatus>, order: seq<PipelineId>,
                       r: BindableResource, id: PipelineId)
    requires Matches(pipelines, id, r)
    requires id in order
    ensures FindFirst(pipelines, order, r).Some?
  {
    var k :| 0 <= k < |order| && order[k] == id;
  }

  /** Two pipeline registries with the same keys and the same resource lists. */
  ghost predicate SameResources(p: map<PipelineId, PipelineStatus>, q: map<PipelineId, PipelineStatus>)
  {
    && p.Keys == q.Keys
    && forall id :: id in p ==> q[id].resources == p[id].resources
  }

  /** The scan looks only at resource lists, never at dirty flags. */
  lemma {:induction false} FindFirstIgnoresFlags(p: map<PipelineId, PipelineStatus>, q: map<PipelineId, PipelineStatus>,
                                                 order: seq<PipelineId>, r: BindableResource)
    requires SameResources(p, q)
    ensures FindFirst(p, order, r) == FindFirst(q, order, r)
    decreases |order|
  {
    if order != [] {
      assert Matches(p, order[0], r) == Matches(q, order[0], r);
      FindFirstIgnoresFlags(p, q, order[1..], r);
    }
  }

  /** The registry after `mark_resource_dirty`: the first pipeline of the
      scan that binds `r` has its flag set; every other entry, every key and
      every resource list is as before. */
  function MarkFirstDirty(pipelines: map<PipelineId, PipelineStatus>, order: seq<PipelineId>, r: BindableResource): (marked: map<PipelineId, PipelineStatus>)
    requires FindFirst(pipelines, order, r).Some?
    ensures SameResources(pipelines, marked)
    ensures marked[FindFirst(pipelines, order, r).value].dirty
    ensures forall id :: id in pipelines && id != FindFirst(pipelines, order, r).value ==> marked[id] == pipelines[id]
    ensures FindFirst(marked, order, r) == FindFirst(pipelines, order, r)
  {
    var id := FindFirst(pipelines, order, r).value;
    var marked := pipelines[id := pipelines[id].(dirty := true)];
    FindFirstIgnoresFlags(pipelines, marked, order, r);
    marked
  }

  /** Marking changes at most one registry entry. */
  lemma MarkChangesAtMostOne(pipelines: map<PipelineId, PipelineStatus>, order: seq<PipelineId>, r: BindableResource,
                             a: PipelineId, b: PipelineId)
    requires FindFirst(pipelines, order, r).Some?
    requires a in pipelines && b in pipelines
    requires MarkFirstDirty(pipelines, order, r)[a] != pipelines[a]
    requires MarkFirstDirty(pipelines, order, r)[b] != pipelines[b]
    ensures a == b
  {
  }

  /** Two distinct clean pipelines that both bind `r` are never both dirty
      after marking, whatever order the scan visits them in. */
  lemma SharersNotBothMarked(pipelines: map<PipelineId, PipelineStatus>, order: seq<PipelineId>, r: BindableResource,
                             a: PipelineId, b: PipelineId)
    requires IsIterationOrder(order, pipelines)
    requires a != b && Matches(pipelines, a, r) && Matches(pipelines, b, r)
    requires !pipelines[a].dirty && !pipelines[b].dirty
    ensures FindFirst(pipelines, order, r).Some?
    ensures var marked := MarkFirstDirty(pipelines, order, r);
            !(marked[a].dirty && marked[b].dirty)
  {
    FindFirstFinds(pipelines, order, r, a);
    var marked := MarkFirstDirty(pipelines, order, r);
    if marked[a].dirty && marked[b].dirty {
      MarkChangesAtMostOne(pipelines, order, r, a, b);
    }
  }

  /** Marking for a resource whose first binder is already dirty changes
      nothing. */
  lemma MarkAlreadyDirty(pipelines: map<PipelineId, PipelineStatus>, order: seq<PipelineId>, r: BindableResource)
    requires FindFirst(pipelines, order, r).Some?
    requires pipelines[FindFirst(pipelines, order, r).value].dirty
    ensures MarkFirstDirty(pipelines, order, r) == pipelines
  {
    var marked := MarkFirstDirty(pipelines, order, r);
    forall id | id in pipelines ensures marked[id] == pipelines[id] {
      if id == FindFirst(pipelines, order, r).value {
        assert marked[id].resources == pipelines[id].resources;
      }
    }
  }

  /** Marking twice for the same resource is marking once. */
  lemma MarkTwiceIsOnce(pipelines: map<PipelineId, PipelineStatus>, order: seq<PipelineId>, r: BindableResource)
    requires FindFirst(pipelines, order, r).Some?
    ensures MarkFirstDirty(MarkFirstDirty(pipelines, order, r), order, r) == MarkFirstDirty(pipelines, order, r)
  {
    MarkAlreadyDirty(MarkFirstDirty(pipelines, order, r), order, r);
  }

  /** Only the first sharer is marked: with two clean pipelines binding the
      same buffer, the one the scan visits second stays clean, so its cached
      bind group is not rebuilt. */
  lemma SecondSharerStaysClean(resources: seq<BindableResource>, r: BindableResource)
    requires r in resources
    ensures var pipelines := map[PipelineId(0) := PipelineStatus(resources, false),
                                 PipelineId(1) := PipelineStatus(resources, false)];
            var marked := MarkFirstDirty(pipelines, [PipelineId(0), PipelineId(1)], r);
            marked[PipelineId(0)].dirty && !marked[PipelineId(1)].dirty
  {
    var pipelines := map[PipelineId(0) := PipelineStatus(resources, false),
                         PipelineId(1) := PipelineStatus(resources, false)];
    assert FindFirst(pipelines, [PipelineId(0), PipelineId(1)], r) == Some(PipelineId(0));
  }

  /** `GpuInner`: the two registries behind their locks, plus the counters
      behind `PipelineId::new` and `BufferId::new`. */
  class Gpu {
    var pipelines: map<PipelineId, PipelineStatus>
    var buffers: map<BufferId, GpuBuffer>
    var nextPipelineId: nat
    var nextBufferId: nat

    /** Every registered id was allocated, so a newly allocated id is free. */
    ghost predicate Valid()
      reads this
    {
      && (forall id :: id in pipelines ==> id.n < nextPipelineId)
      && (forall id :: id in buffers ==> id.n < nextBufferId)
    }

    constructor Empty()
      ensures Valid()
      ensures pipelines == map[] && buffers == map[]
      ensures nextPipelineId == 0 && nextBufferId == 0
    {
      pipelines := map[];
      buffers := map[];
      nextPipelineId := 0;
      nextBufferId := 0;
    }

    /** `pipelines[&id]` does not panic, and if that pipeline is dirty every
        buffer in `entries` resolves, so its bind group can be rebuilt. */
    predicate CanRefresh(id: PipelineId, entries: seq<BindableResource>)
      reads this
    {
      id in pipelines && (pipelines[id].dirty ==> AllRegistered(buffers, entries))
    }

    /** `PipelineId::new()`: an id no registered pipeline has. */
    method NewPipelineId() returns (id: PipelineId)
      requires Valid()
      modifies this
      ensures Valid()
      ensures id == PipelineId(old(nextPipelineId)) && id !in pipelines
      ensures nextPipelineId == old(nextPipelineId) + 1 && nextBufferId == old(nextBufferId)
      ensures pipelines == old(pipelines) && buffers == old(buffers)
    {
      id := PipelineId(nextPipelineId);
      nextPipelineId := nextPipelineId + 1;
    }

    /** `BufferId::new()`: an id no registered buffer has. */
    method NewBufferId() returns (id: BufferId)
      requires Valid()
      modifies this
      ensures Valid()
      ensures id == BufferId(old(nextBufferId)) && id !in buffers
      ensures nextBufferId == old(nextBufferId) + 1 && nextPipelineId == old(nextPipelineId)
      ensures pipelines == old(pipelines) && buffers == old(buffers)
    {
      id := BufferId(nextBufferId);
      nextBufferId := nextBufferId + 1;
    }

    /** `mark_resource_dirty`: scan the pipelines in `order`, stop at the
        first that binds `resource` and set its flag. Panics (here: may not
        be called) when no pipeline binds `resource`. */
    method MarkResourceDirty(resource: BindableResource, order: seq<PipelineId>)
      requires Valid()
      requires IsIterationOrder(order, pipelines)
      requires exists id :: Matches(pipelines, id, resource)
      modifies this
      ensures Valid()
      ensures FindFirst(old(pipelines), order, resource).Some?
      ensures pipelines == MarkFirstDirty(old(pipelines), order, resource)
      ensures buffers == old(buffers)
      ensures nextPipelineId == old(nextPipelineId) && nextBufferId == old(nextBufferId)
    {
      ghost var binder :| Matches(pipelines, binder, resource);
      FindFirstFinds(pipelines, order, resource, binder);
      var i := 0;
      assert order[i..] == order;
      while i < |order| && !Matches(pipelines, order[i], resource)
        invariant 0 <= i <= |order|
        invariant FindFirst(pipelines, order[i..], resource) == FindFirst(pipelines, order, resource)
      {
        assert order[i..][1..] == order[i + 1..];
        i := i + 1;
      }
      var id := order[i];
      pipelines := pipelines[id := pipelines[id].(dirty := true)];
    }
  }

  /** Why `Gpu::init` can fail before any registry exists. */
  datatype InitError = AdapterUnavailable | DeviceRequestFailed

  /** `Gpu::init`: the adapter and device requests are outcomes of the
      platform, given here; on success both registries start empty. */
  method Init(adapterFound: bool, deviceCreated: bool) returns (r: Result<Gpu, InitError>)
    ensures !adapterFound ==> r == Failure(AdapterUnavailable)
    ensures adapterFound && !deviceCreated ==> r == Failure(DeviceRequestFailed)
    ensures adapterFound && deviceCreated ==> r.Success?
    ensures r.Success? ==> fresh(r.value) && r.value.Valid()
    ensures r.Success? ==> r.value.pipelines == map[] && r.value.buffers == map[]
  {
    if !adapterFound {
      return Failure(AdapterUnavailable);
    }
    if !deviceCreated {
      return Failure(DeviceRequestFailed);
    }
    var gpu := new Gpu.Empty();
    r := Success(gpu);
  }
}
