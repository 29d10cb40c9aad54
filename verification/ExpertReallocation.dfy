/**
 Moving experts between GPU and CPU memory. The GPU cache gives every layer the same number of
 resident slots; behind them lies the double buffer for streamed experts.
*/
module ExpertReallocation {
  import opened Basics
  import opened ExpertTracker

  datatype Refusal = NotFound | AlreadyOnGpu | CapacityFull | LayerFull | NoFreeSlot | NotOnGpu | InvalidSlot | Failed

  datatype Outcome = Moved | Refused(why: Refusal)

  /**
   Where the surroundings may fail: looking up or allocating memory, before the copy, right after it, or
   writing the index map once the new location is registered.
  */
  datatype Fault = NoFault | NoMemory | BeforeCopy | AfterCopy | WritingMapping

  datatype Action = MoveToGpu | MoveToCpu

  datatype Request = Request(action: Action, layer: int, expert: int, fault: Fault)

  // -------------------------------------------------------------------- what every state satisfies

  /** The weights the model was loaded with. */
  type Model<!V> = (int, int) -> V

  predicate Known(layers: seq<LayerMap>, l: int, e: int) {
    0 <= l < |layers| && 0 <= e < |layers[l]|
  }

  predicate OnGpu(layers: seq<LayerMap>, l: int, e: int) {
    Known(layers, l, e) && layers[l][e].location == GpuPersistent
  }

  /** A resident expert has a slot in the area of its layer. */
  ghost predicate SlotRight(perLayer: nat, layers: seq<LayerMap>, l: nat, e: nat)
    requires Known(layers, l, e)
  {
    Times(l, perLayer) <= layers[l][e].cacheSlot < Times(l + 1, perLayer)
  }

  ghost predicate SlotsRight(perLayer: nat, layers: seq<LayerMap>) {
    && (forall l, e {:trigger layers[l][e]} :: OnGpu(layers, l, e) ==> SlotRight(perLayer, layers, l, e))
    && (forall l, e, o {:trigger layers[l][e], layers[l][o]} :: OnGpu(layers, l, e) && OnGpu(layers, l, o) && e != o ==>
          layers[l][e].cacheSlot != layers[l][o].cacheSlot)
  }

  /** The index map names the slot of a resident expert, and no resident slot for any other. */
  ghost predicate InStep(perLayer: nat, layers: seq<LayerMap>, mapping: seq<seq<int>>, l: nat, e: nat)
    requires Known(layers, l, e)
  {
    && l < |mapping| && e < |mapping[l]|
    && if OnGpu(layers, l, e) then mapping[l][e] == layers[l][e].cacheSlot
       else !(0 <= mapping[l][e] < Times(|layers|, perLayer))
  }

  ghost predicate AllInStep(perLayer: nat, layers: seq<LayerMap>, mapping: seq<seq<int>>) {
    forall l, e :: Known(layers, l, e) ==> InStep(perLayer, layers, mapping, l, e)
  }

  /** A move in needs an expert that is not resident, and room in its layer. */
  predicate MayMoveIn(perLayer: nat, layers: seq<LayerMap>, l: int, e: int) {
    Known(layers, l, e) && !OnGpu(layers, l, e) && Count(layers[l]) < perLayer
  }

  /** The weights of an expert as memory holds them. */
  function Recover<V>(model: Model<V>, layers: seq<LayerMap>, cache: seq<V>, storage: map<(int, int), V>, l: int,
                      e: int): V
    requires Known(layers, l, e)
  {
    var s := layers[l][e].cacheSlot;
    if layers[l][e].location == GpuPersistent && 0 <= s < |cache| then cache[s]
    else if (l, e) in storage then storage[(l, e)]
    else model(l, e)
  }

  ghost predicate NothingLost<V>(model: Model<V>, layers: seq<LayerMap>, cache: seq<V>, storage: map<(int, int), V>) {
    forall l, e {:trigger layers[l][e]} :: Known(layers, l, e) ==>
      Recover(model, layers, cache, storage, l, e) == model(l, e)
  }

  ghost predicate WithinLimits(perLayer: nat, layers: seq<LayerMap>) {
    forall l :: 0 <= l < |layers| ==> Count(layers[l]) <= perLayer
  }

  /** Slots of different layers never meet. */
  lemma LayersApart(perLayer: nat, layers: seq<LayerMap>, l: nat, e: nat, m: nat, slot: int)
    requires Known(layers, l, e) && SlotRight(perLayer, layers, l, e) && l != m
    requires Times(m, perLayer) <= slot < Times(m + 1, perLayer)
    ensures layers[l][e].cacheSlot != slot
  {
    if l < m {
      TimesGrows(l + 1, m, perLayer);
    } else {
      TimesGrows(m + 1, l, perLayer);
    }
  }

  /** Changing the entry of one expert keeps the slots of all others right. */
  lemma SlotsAfterChange(perLayer: nat, layers: seq<LayerMap>, l: nat, e: nat, x: ExpertLocation)
    requires Known(layers, l, e) && SlotsRight(perLayer, layers)
    requires x.location == GpuPersistent ==>
               Times(l, perLayer) <= x.cacheSlot < Times(l + 1, perLayer) && SlotFree(layers[l], x.cacheSlot)
    ensures SlotsRight(perLayer, layers[l := layers[l][e := x]])
  {
    var layers1 := layers[l := layers[l][e := x]];
    forall k, o | OnGpu(layers1, k, o)
      ensures SlotRight(perLayer, layers1, k, o)
    {
      if (k, o) != (l, e) {
        assert layers1[k][o] == layers[k][o];
        assert SlotRight(perLayer, layers, k, o);
      }
    }
    forall k, o, p | OnGpu(layers1, k, o) && OnGpu(layers1, k, p) && o != p
      ensures layers1[k][o].cacheSlot != layers1[k][p].cacheSlot
    {
      assert (k, o) != (l, e) ==> layers1[k][o] == layers[k][o];
      assert (k, p) != (l, e) ==> layers1[k][p] == layers[k][p];
    }
  }

  /** An expert whose weights are where its new entry says keeps them, and so does every other expert. */
  lemma EntryKeeps<V>(model: Model<V>, perLayer: nat, layers: seq<LayerMap>, cache: seq<V>, storage: map<(int, int), V>,
                      l: nat, e: nat, x: ExpertLocation)
    requires Known(layers, l, e) && SlotsRight(perLayer, layers) && NothingLost(model, layers, cache, storage)
    requires if x.location == GpuPersistent then
               && Times(l, perLayer) <= x.cacheSlot < Times(l + 1, perLayer) && SlotFree(layers[l], x.cacheSlot)
               && 0 <= x.cacheSlot < |cache| && cache[x.cacheSlot] == model(l, e)
             else (l, e) in storage && storage[(l, e)] == model(l, e)
    ensures SlotsRight(perLayer, layers[l := layers[l][e := x]])
    ensures NothingLost(model, layers[l := layers[l][e := x]], cache, storage)
  {
    SlotsAfterChange(perLayer, layers, l, e, x);
    var layers1 := layers[l := layers[l][e := x]];
    forall k, o | Known(layers1, k, o)
      ensures Recover(model, layers1, cache, storage, k, o) == model(k, o)
    {
      assert Known(layers, k, o) && ((k, o) != (l, e) ==> layers1[k][o] == layers[k][o]);
      assert Recover(model, layers, cache, storage, k, o) == model(k, o);
    }
  }

  /** Experts other than the one that changed stay in step, or out of it. */
  lemma OthersKeepStep(perLayer: nat, layers: seq<LayerMap>, mapping: seq<seq<int>>, l: nat, e: nat, x: ExpertLocation,
                       idx: int, k: nat, o: nat)
    requires Known(layers, l, e) && Known(layers, k, o) && (k, o) != (l, e) && l < |mapping| && e < |mapping[l]|
    ensures InStep(perLayer, layers[l := layers[l][e := x]], mapping[l := mapping[l][e := idx]], k, o)
        <==> InStep(perLayer, layers, mapping, k, o)
  {
    assert layers[l := layers[l][e := x]][k][o] == layers[k][o];
  }

  /** Writing any cell that is no resident slot, or the storage of a resident expert, loses nothing. */
  lemma ScratchKeeps<V>(model: Model<V>, layers: seq<LayerMap>, cache: seq<V>, storage: map<(int, int), V>,
                        l: int, e: int, slot: nat, v: V)
    requires NothingLost(model, layers, cache, storage)
    ensures slot < |cache| && (forall k, o {:trigger layers[k][o]} :: OnGpu(layers, k, o) ==>
            layers[k][o].cacheSlot != slot) ==>
              NothingLost(model, layers, cache[slot := v], storage)
    ensures OnGpu(layers, l, e) && 0 <= layers[l][e].cacheSlot < |cache| ==>
              NothingLost(model, layers, cache, storage[(l, e) := v])
  {
    forall k, o | Known(layers, k, o)
      ensures Recover(model, layers, cache, storage, k, o) == model(k, o)
    {
    }
  }

  // ------------------------------------------------------------------------------------ the mover

  class ExpertMover<V(!new)> {
    const tracker: ExpertTracker
    const model: Model<V>
    const perLayer: nat     // resident slots per layer
    const garbage: V        // content of newly allocated CPU memory
    var cache: seq<V>
    var cpuStorage: map<(int, int), V>
    var mapping: seq<seq<int>>

    /** Every layer and expert has its entry in the index map, and the cache holds all resident areas. */
    ghost predicate Shaped()
      reads this, tracker
    {
      && |mapping| == |tracker.layers| && Times(|tracker.layers|, perLayer) <= |cache|
      && tracker.gpuCapacity == Times(|tracker.layers|, perLayer)
      && forall l :: 0 <= l < |mapping| ==> |mapping[l]| == |tracker.layers[l]|
    }

    /** Slots are exclusive, limits are kept and no weights are lost. */
    ghost predicate Valid()
      reads this, tracker
    {
      && Shaped() && WithinLimits(perLayer, tracker.layers)
      && SlotsRight(perLayer, tracker.layers)
      && NothingLost(model, tracker.layers, cache, cpuStorage)
    }

    /** The index map agrees with the tracker about every expert. */
    ghost predicate Agreed()
      reads this, tracker
    {
      AllInStep(perLayer, tracker.layers, mapping)
    }

    /** Every expert is in a slot of its layer or on the CPU. */
    ghost predicate Settled()
      reads this, tracker
    {
      AllHoused(perLayer, tracker.layers)
    }

    /** What lies behind the resident slots: the buffer for streamed experts. */
    function Streamed(): seq<V>
      requires Times(|mapping|, perLayer) <= |cache|
      reads this
    {
      cache[Times(|mapping|, perLayer)..]
    }

    /** The first experts of every layer are in their slots, with the weights of the model. */
    constructor (tracker: ExpertTracker, model: Model<V>, perLayer: nat, garbage: V, cache: seq<V>,
                 mapping: seq<seq<int>>)
      requires |mapping| == |tracker.layers| && Times(|mapping|, perLayer) <= |cache|
      requires forall l :: 0 <= l < |mapping| ==> perLayer <= |mapping[l]| == |tracker.layers[l]|
      requires forall l, e :: 0 <= l < |mapping| && 0 <= e < perLayer ==> mapping[l][e] == Times(l, perLayer) + e
      requires forall l, e :: 0 <= l < |mapping| && 0 <= e < perLayer ==>
                 Times(l, perLayer) + e < |cache| && cache[Times(l, perLayer) + e] == model(l, e)
      requires forall l, e :: 0 <= l < |mapping| && perLayer <= e < |mapping[l]| ==>
                 mapping[l][e] >= Times(|mapping|, perLayer)
      modifies tracker
      ensures Valid() && Agreed() && Settled()
      ensures this.tracker == tracker && this.model == model && this.perLayer == perLayer
    {
      this.tracker, this.model, this.perLayer, this.garbage := tracker, model, perLayer, garbage;
      this.cache, this.mapping, this.cpuStorage := cache, mapping, map[];
      new;
      tracker.InitResidents(perLayer);
      forall l | 0 <= l < |tracker.layers|
        ensures Count(tracker.layers[l]) <= perLayer
      {
        CountFirstResident(l, |tracker.layers[l]|, perLayer);
      }
      forall l, e | Known(tracker.layers, l, e)
        ensures OnGpu(tracker.layers, l, e) ==> e < perLayer && tracker.layers[l][e].cacheSlot == Times(l, perLayer) + e
        ensures Recover(model, tracker.layers, cache, cpuStorage, l, e) == model(l, e)
      {
        assert tracker.layers[l] == FirstResident(l, |tracker.layers[l]|, perLayer);
      }
      forall l, e | OnGpu(tracker.layers, l, e)
        ensures SlotRight(perLayer, tracker.layers, l, e)
      {
      }
      forall l, e | Known(tracker.layers, l, e)
        ensures Housed(perLayer, l, tracker.layers[l][e])
      {
        assert tracker.layers[l] == FirstResident(l, |tracker.layers[l]|, perLayer);
      }
      forall l, e | Known(tracker.layers, l, e)
        ensures InStep(perLayer, tracker.layers, mapping, l, e)
      {
        assert tracker.layers[l] == FirstResident(l, |tracker.layers[l]|, perLayer);
      }
    }

    /** The two limits, the global one first. */
    method CanMoveToGpu(l: int, e: int) returns (r: Outcome)
      requires Shaped()
      ensures r == (
        if !Known(tracker.layers, l, e) then Refused(NotFound)
        else if OnGpu(tracker.layers, l, e) then Refused(AlreadyOnGpu)
        else if Total(tracker.layers) >= tracker.gpuCapacity then Refused(CapacityFull)
        else if Count(tracker.layers[l]) >= perLayer then Refused(LayerFull)
        else Moved)
    {
      var loc := tracker.GetExpertLocation(l, e);
      if loc.None? {
        return Refused(NotFound);
      }
      if loc.value.location == GpuPersistent {
        return Refused(AlreadyOnGpu);
      }
      var total := 0;
      for k := 0 to |tracker.layers|
        invariant total == Total(tracker.layers[..k])
      {
        var n := CountResidents(tracker.layers[k]);
        assert tracker.layers[..k + 1][..k] == tracker.layers[..k];
        total := total + n;
      }
      assert tracker.layers[..|tracker.layers|] == tracker.layers;
      if total >= tracker.gpuCapacity {
        return Refused(CapacityFull);
      }
      var inLayer := CountResidents(tracker.layers[l]);
      if inLayer >= perLayer {
        return Refused(LayerFull);
      }
      return Moved;
    }

    static method CountResidents(m: LayerMap) returns (n: nat)
      ensures n == Count(m)
    {
      n := 0;
      for e := 0 to |m|
        invariant n == Count(m[..e])
      {
        assert m[..e + 1][..e] == m[..e];
        if m[e].location == GpuPersistent {
          n := n + 1;
        }
      }
      assert m[..|m|] == m;
    }

    static method IsSlotFree(m: LayerMap, slot: int) returns (free: bool)
      ensures free == SlotFree(m, slot)
    {
      for e := 0 to |m|
        invariant forall o :: 0 <= o < e ==> !(m[o].cacheSlot == slot && m[o].location == GpuPersistent)
      {
        if m[e].cacheSlot == slot && m[e].location == GpuPersistent {
          return false;
        }
      }
      return true;
    }

    /** The first free slot in the area of the layer; there is one whenever the layer is below its limit. */
    method FindFreeGpuSlot(l: nat) returns (r: Option<nat>)
      requires l < |tracker.layers|
      ensures r.Some? ==> Times(l, perLayer) <= r.value < Times(l + 1, perLayer) && SlotFree(tracker.layers[l], r.value)
      ensures r.Some? ==> forall s :: Times(l, perLayer) <= s < r.value ==> !SlotFree(tracker.layers[l], s)
      ensures r.None? ==> forall s :: Times(l, perLayer) <= s < Times(l + 1, perLayer) ==>
              !SlotFree(tracker.layers[l], s)
      ensures Count(tracker.layers[l]) < perLayer ==> r.Some?
    {
      if perLayer == 0 {
        return None;
      }
      var base := Times(l, perLayer);
      for i := 0 to perLayer
        invariant forall s :: base <= s < base + i ==> !SlotFree(tracker.layers[l], s)
      {
        var free := IsSlotFree(tracker.layers[l], base + i);
        if free {
          return Some(base + i);
        }
      }
      if Count(tracker.layers[l]) < perLayer {
        Pigeonhole(tracker.layers[l], base, perLayer);
      }
      return None;
    }

    /**
     Moves an expert into a free slot of its layer. A move that is reported as failed has no effect on tracker
     and index map, unless it failed at writing the index map: then the expert is registered as resident, but
     the index map does not name its slot.
    */
    method MoveExpertToGpu(l: int, e: int, fault: Fault) returns (r: Outcome)
      requires Valid()
      modifies this`cache, this`mapping, tracker`layers
      ensures Valid()
      ensures r == Moved <==> fault == NoFault && MayMoveIn(perLayer, old(tracker.layers), l, e)
      ensures if MayMoveIn(perLayer, old(tracker.layers), l, e) && (fault == NoFault || fault == WritingMapping)
              then && OnGpu(tracker.layers, l, e) && OnlyEntryChanged(old(tracker.layers), tracker.layers, l, e)
                   && InFirstFreeSlot(perLayer, old(tracker.layers), l, tracker.layers[l][e])
              else tracker.layers == old(tracker.layers)
      ensures old(Settled()) ==> Settled()
      ensures mapping == if r == Moved then old(mapping)[l := old(mapping)[l][e := tracker.layers[l][e].cacheSlot]]
                         else old(mapping)
      ensures r != Moved ==>
                ((tracker.layers == old(tracker.layers) && mapping == old(mapping))
                 <==> !(fault == WritingMapping && MayMoveIn(perLayer, old(tracker.layers), l, e)))
      ensures old(Agreed()) ==>
                (Agreed() <==> !(fault == WritingMapping && MayMoveIn(perLayer, old(tracker.layers), l, e)))
      ensures |cache| == old(|cache|) && Streamed() == old(Streamed())
    {
      r := CanMoveToGpu(l, e);
      RoomInLayerIsRoom(tracker.layers, perLayer);
      if r != Moved {
        return;
      }
      var slot := FindFreeGpuSlot(l);
      if slot.None? {
        return Refused(NoFreeSlot);
      }
      if fault == NoMemory || fault == BeforeCopy {
        return Refused(Failed);
      }
      CopyToSlot(l, e, slot.value);
      if fault == AfterCopy {
        return Refused(Failed);
      }
      ghost var layers0 := tracker.layers;
      Register(l, e, slot.value);
      if fault == WritingMapping {
        RegisteredOnly(l, e, layers0);
        return Refused(Failed);
      }
      mapping := mapping[l := mapping[l][e := slot.value]];
      MappedToo(l, e, layers0, old(mapping));
    }

    /** Copies the weights of an expert that is not resident into a free slot of its layer. */
    method CopyToSlot(l: nat, e: nat, slot: nat)
      requires Valid() && Known(tracker.layers, l, e) && !OnGpu(tracker.layers, l, e)
      requires Times(l, perLayer) <= slot < Times(l + 1, perLayer) && SlotFree(tracker.layers[l], slot)
      modifies this`cache
      ensures Valid() && |cache| == old(|cache|) && Streamed() == old(Streamed())
      ensures slot < |cache| && cache[slot] == model(l, e)
    {
      TimesGrows(l + 1, |tracker.layers|, perLayer);
      var source := if (l, e) in cpuStorage then cpuStorage[(l, e)] else model(l, e);
      assert source == Recover(model, tracker.layers, cache, cpuStorage, l, e) == model(l, e);
      FreeSlotIsNobodys(perLayer, tracker.layers, l, slot);
      ScratchKeeps(model, tracker.layers, cache, cpuStorage, l, e, slot, source);
      cache := cache[slot := source];
    }

    /** Registers an expert with the slot its weights were copied to. */
    method Register(l: nat, e: nat, slot: nat)
      requires Valid() && MayMoveIn(perLayer, tracker.layers, l, e)
      requires Times(l, perLayer) <= slot < Times(l + 1, perLayer) && SlotFree(tracker.layers[l], slot)
      requires slot < |cache| && cache[slot] == model(l, e)
      modifies tracker`layers
      ensures Valid() && OnGpu(tracker.layers, l, e) && OnlyEntryChanged(old(tracker.layers), tracker.layers, l, e)
      ensures tracker.layers[l][e] == ExpertLocation(GpuPersistent, Cached, 0, slot)
      ensures old(Settled()) ==> Settled()
    {
      ghost var layers0 := tracker.layers;
      var loc := ExpertLocation(GpuPersistent, Cached, 0, slot);
      tracker.UpdateExpertLocation(l, e, loc);
      EntryKeeps(model, perLayer, layers0, cache, cpuStorage, l, e, loc);
      CountUpdate(layers0[l], e, loc);
      if AllHoused(perLayer, layers0) {
        HousedAfterChange(perLayer, layers0, l, e, loc);
      }
    }

    /** With its new location registered but not its index, an expert that was in step is out of it. */
    lemma RegisteredOnly(l: nat, e: nat, layers0: seq<LayerMap>)
      requires Valid() && OnlyEntryChanged(layers0, tracker.layers, l, e)
      requires OnGpu(layers0, l, e) != OnGpu(tracker.layers, l, e) && SlotsRight(perLayer, layers0)
      ensures AllInStep(perLayer, layers0, mapping) ==> !Agreed()
    {
      if AllInStep(perLayer, layers0, mapping) {
        assert InStep(perLayer, layers0, mapping, l, e);
        TimesGrows(l + 1, |layers0|, perLayer);
        if OnGpu(layers0, l, e) {
          assert SlotRight(perLayer, layers0, l, e);
        } else {
          assert SlotRight(perLayer, tracker.layers, l, e);
        }
        assert !InStep(perLayer, tracker.layers, mapping, l, e);
      }
    }

    /** With both written, it is in step, and the others are if they were. */
    lemma MappedToo(l: nat, e: nat, layers0: seq<LayerMap>, mapping0: seq<seq<int>>)
      requires Valid() && OnlyEntryChanged(layers0, tracker.layers, l, e) && l < |mapping0| && e < |mapping0[l]|
      requires mapping == mapping0[l := mapping0[l][e := mapping[l][e]]]
               && InStep(perLayer, tracker.layers, mapping, l, e)
      ensures AllInStep(perLayer, layers0, mapping0) ==> Agreed()
    {
      if AllInStep(perLayer, layers0, mapping0) {
        forall k, o | Known(tracker.layers, k, o)
          ensures InStep(perLayer, tracker.layers, mapping, k, o)
        {
          if (k, o) != (l, e) {
            assert Known(layers0, k, o) && layers0[k][o] == tracker.layers[k][o];
            OthersKeepStep(perLayer, layers0, mapping0, l, e, tracker.layers[l][e], mapping[l][e], k, o);
          }
        }
      }
    }

    /**
     Stores the weights of a resident expert on the CPU and gives up its slot. A move that failed at writing
     the index map has given the slot up, but the index map goes on naming it.
    */
    method MoveExpertToCpu(l: int, e: int, fault: Fault) returns (r: Outcome)
      requires Valid()
      modifies this`cpuStorage, this`mapping, tracker`layers
      ensures Valid()
      ensures r == Moved <==> fault == NoFault && OnGpu(old(tracker.layers), l, e)
      ensures if OnGpu(old(tracker.layers), l, e) && (fault == NoFault || fault == WritingMapping)
              then && !OnGpu(tracker.layers, l, e) && OnlyEntryChanged(old(tracker.layers), tracker.layers, l, e)
                   && tracker.layers[l][e] == ExpertLocation(CpuMemory, Idle, -1, -1)
                   && (l, e) in cpuStorage && cpuStorage[(l, e)] == model(l, e)
              else tracker.layers == old(tracker.layers)
      ensures old(Settled()) ==> Settled()
      ensures mapping == if r == Moved then old(mapping)[l := old(mapping)[l][e := -1 - e]] else old(mapping)
      ensures r != Moved ==>
                ((tracker.layers == old(tracker.layers) && mapping == old(mapping))
                 <==> !(fault == WritingMapping && OnGpu(old(tracker.layers), l, e)))
      ensures old(Agreed()) ==> (Agreed() <==> !(fault == WritingMapping && OnGpu(old(tracker.layers), l, e)))
    {
      var found := tracker.GetExpertLocation(l, e);
      if found.None? {
        return Refused(NotFound);
      }
      if found.value.location != GpuPersistent {
        return Refused(NotOnGpu);
      }
      var slot := found.value.cacheSlot;
      SlotInCache(l, e);
      if slot < 0 {
        return Refused(InvalidSlot);
      }
      if fault == NoMemory {
        return Refused(Failed);
      }
      AllocateCpuStorage(l, e);
      if fault == BeforeCopy {
        return Refused(Failed);
      }
      CopyToStorage(l, e, slot);
      if fault == AfterCopy {
        return Refused(Failed);
      }
      ghost var layers0 := tracker.layers;
      Release(l, e);
      if fault == WritingMapping {
        RegisteredOnly(l, e, layers0);
        return Refused(Failed);
      }
      mapping := mapping[l := mapping[l][e := -1 - e]];
      MappedToo(l, e, layers0, old(mapping));
      return Moved;
    }

    /** The slot of a resident expert lies in the cache and holds its weights. */
    lemma SlotInCache(l: nat, e: nat)
      requires Valid() && OnGpu(tracker.layers, l, e)
      ensures 0 <= tracker.layers[l][e].cacheSlot < |cache| && cache[tracker.layers[l][e].cacheSlot] == model(l, e)
    {
      assert SlotRight(perLayer, tracker.layers, l, e);
      TimesGrows(l + 1, |tracker.layers|, perLayer);
      assert Recover(model, tracker.layers, cache, cpuStorage, l, e) == model(l, e);
    }

    /** New CPU memory holds nothing useful, but the expert is still on the GPU. */
    method AllocateCpuStorage(l: nat, e: nat)
      requires Valid() && OnGpu(tracker.layers, l, e)
      modifies this`cpuStorage
      ensures Valid() && (l, e) in cpuStorage
    {
      SlotInCache(l, e);
      if (l, e) !in cpuStorage {
        ScratchKeeps(model, tracker.layers, cache, cpuStorage, l, e, 0, garbage);
        cpuStorage := cpuStorage[(l, e) := garbage];
      }
    }

    /** Copies the weights of a resident expert out of its slot. */
    method CopyToStorage(l: nat, e: nat, slot: nat)
      requires Valid() && OnGpu(tracker.layers, l, e) && slot == tracker.layers[l][e].cacheSlot < |cache|
      modifies this`cpuStorage
      ensures Valid() && (l, e) in cpuStorage && cpuStorage[(l, e)] == model(l, e)
    {
      SlotInCache(l, e);
      ScratchKeeps(model, tracker.layers, cache, cpuStorage, l, e, slot, cache[slot]);
      cpuStorage := cpuStorage[(l, e) := cache[slot]];
    }

    /** Marks an expert whose weights are stored as being on the CPU. */
    method Release(l: nat, e: nat)
      requires Valid() && OnGpu(tracker.layers, l, e)
      requires (l, e) in cpuStorage && cpuStorage[(l, e)] == model(l, e)
      modifies tracker`layers
      ensures Valid() && !OnGpu(tracker.layers, l, e) && OnlyEntryChanged(old(tracker.layers), tracker.layers, l, e)
      ensures tracker.layers[l][e] == ExpertLocation(CpuMemory, Idle, -1, -1) && (old(Settled()) ==> Settled())
    {
      ghost var layers0 := tracker.layers;
      var loc := ExpertLocation(CpuMemory, Idle, -1, -1);
      tracker.UpdateExpertLocation(l, e, loc);
      EntryKeeps(model, perLayer, layers0, cache, cpuStorage, l, e, loc);
      CountUpdate(layers0[l], e, loc);
      if AllHoused(perLayer, layers0) {
        HousedAfterChange(perLayer, layers0, l, e, loc);
      }
    }

    /** Moving a resident expert out and back in succeeds, and leaves as many residents as before. */
    method MoveOutAndBack(l: int, e: int)
      requires Valid() && OnGpu(tracker.layers, l, e)
      modifies this, tracker`layers
      ensures Valid() && OnGpu(tracker.layers, l, e) && OnlyEntryChanged(old(tracker.layers), tracker.layers, l, e)
      ensures old(Agreed()) ==> Agreed()
    {
      ghost var layers0 := tracker.layers;
      var out := MoveExpertToCpu(l, e, NoFault);
      ghost var layers1 := tracker.layers;
      MayComeBack(perLayer, layers0, layers1, l, e);
      var back := MoveExpertToGpu(l, e, NoFault);
      ChangedTwice(layers0, layers1, tracker.layers, l, e);
    }

    /**
     After a move out that failed at writing the index map, the next expert of a full layer to move in gets the
     slot that was given up: the index map then names one slot for both, and it holds the weights of the other.
    */
    method SlotSharedAfterFault(l: int, e: int, f: int)
      requires Valid() && Agreed() && OnGpu(tracker.layers, l, e)
      requires Known(tracker.layers, l, f) && !OnGpu(tracker.layers, l, f) && Count(tracker.layers[l]) == perLayer
      modifies this, tracker`layers
      ensures Valid() && Known(tracker.layers, l, e) && !OnGpu(tracker.layers, l, e) && OnGpu(tracker.layers, l, f)
      ensures mapping[l][e] == mapping[l][f] == tracker.layers[l][f].cacheSlot
      ensures 0 <= mapping[l][e] < |cache| && cache[mapping[l][e]] == model(l, f)
    {
      ghost var layers0 := tracker.layers;
      assert InStep(perLayer, layers0, mapping, l, e);
      var out := MoveExpertToCpu(l, e, WritingMapping);
      ghost var layers1 := tracker.layers;
      CountUpdate(layers0[l], e, layers1[l][e]);
      assert layers1[l] == layers0[l][e := layers1[l][e]];
      var back := MoveExpertToGpu(l, f, NoFault);
      assert tracker.layers[l] == layers1[l][f := tracker.layers[l][f]];
      SlotInCache(l, f);
      OnlySlotLeft(perLayer, layers0, tracker.layers, l, e, f);
    }

    /** A whole run of requests, whatever fails on the way: who is resident follows from the requests alone. */
    method Process(requests: seq<Request>) returns (outcomes: seq<Outcome>)
      requires Valid()
      modifies this, tracker`layers
      ensures Valid() && Residents(tracker.layers) == AfterAll(old(Residents(tracker.layers)), perLayer, requests)
      ensures Decided(old(Residents(tracker.layers)), perLayer, requests, outcomes)
      ensures old(Agreed()) ==> InStepBut(Stale(old(Residents(tracker.layers)), perLayer, requests))
      ensures Streamed() == old(Streamed()) && (old(Settled()) ==> Settled())
    {
      outcomes := [];
      ghost var before, streamed := Residents(tracker.layers), Streamed();
      assert requests[..0] == [] && Stale(before, perLayer, []) == {};
      for n := 0 to |requests|
        invariant Valid() && Streamed() == streamed && (old(Settled()) ==> Settled())
        invariant Residents(tracker.layers) == AfterAll(before, perLayer, requests[..n])
        invariant Decided(before, perLayer, requests[..n], outcomes)
        invariant old(Agreed()) ==> InStepBut(Stale(before, perLayer, requests[..n]))
      {
        var r := Handle(requests[n], Stale(before, perLayer, requests[..n]));
        DecidedMore(before, perLayer, requests, n, outcomes, r);
        outcomes := outcomes + [r];
      }
      assert requests[..|requests|] == requests;
    }

    /** The index map agrees with the tracker about all but some experts. */
    ghost predicate InStepBut(stale: set<(int, int)>)
      reads this, tracker
    {
      forall l, e :: Known(tracker.layers, l, e) && (l, e) !in stale ==>
        InStep(perLayer, tracker.layers, mapping, l, e)
    }

    /** One request. */
    method Handle(q: Request, ghost stale: set<(int, int)>) returns (r: Outcome)
      requires Valid()
      modifies this`cache, this`mapping, this`cpuStorage, tracker`layers
      ensures Valid() && Streamed() == old(Streamed()) && (old(Settled()) ==> Settled())
      ensures r == Moved <==> Granted(old(Residents(tracker.layers)), perLayer, q)
      ensures Residents(tracker.layers) == AfterOne(old(Residents(tracker.layers)), perLayer, q)
      ensures old(InStepBut(stale)) ==> InStepBut(StaleAfterOne(old(Residents(tracker.layers)), perLayer, q, stale))
    {
      GrantedByCount(tracker.layers, perLayer, q);
      ghost var layers0, mapping0 := tracker.layers, mapping;
      if q.action == MoveToGpu {
        r := MoveExpertToGpu(q.layer, q.expert, q.fault);
      } else {
        r := MoveExpertToCpu(q.layer, q.expert, q.fault);
      }
      if TakesEffect(Residents(layers0), perLayer, q) {
        ResidentsAfterChange(layers0, tracker.layers, q.layer, q.expert);
        if old(InStepBut(stale)) {
          StepAfterMove(layers0, mapping0, q, r == Moved, stale);
        }
      }
    }

    /** Who is in step after a move that took effect. */
    lemma StepAfterMove(layers0: seq<LayerMap>, mapping0: seq<seq<int>>, q: Request, moved: bool,
                        stale: set<(int, int)>)
      requires Valid() && OnlyEntryChanged(layers0, tracker.layers, q.layer, q.expert) && |mapping0| == |layers0|
      requires |mapping0[q.layer]| == |layers0[q.layer]|
      requires mapping == if moved then mapping0[q.layer := mapping0[q.layer][q.expert := mapping[q.layer][q.expert]]]
                          else mapping0
      requires moved ==> InStep(perLayer, tracker.layers, mapping, q.layer, q.expert)
      requires forall l, e :: Known(layers0, l, e) && (l, e) !in stale ==>
                 InStep(perLayer, layers0, mapping0, l, e)
      ensures InStepBut(if moved then stale - {(q.layer, q.expert)} else stale + {(q.layer, q.expert)})
    {
      var l, e := q.layer, q.expert;
      forall k, o | Known(tracker.layers, k, o) && (k, o) !in stale && (k, o) != (l, e)
        ensures InStep(perLayer, tracker.layers, mapping, k, o)
      {
        assert Known(layers0, k, o) && layers0[k][o] == tracker.layers[k][o];
        OthersKeepStep(perLayer, layers0, mapping0, l, e, tracker.layers[l][e], mapping[l][e], k, o);
        assert mapping == mapping0[l := mapping0[l][e := mapping[l][e]]] by {
          assert mapping0[l] == mapping0[l][e := mapping0[l][e]];
        }
      }
    }
  }

  // ------------------------------------------------------------------------ runs, in terms of who is resident

  function ResidentsOf(m: LayerMap): (r: seq<bool>)
    ensures |r| == |m|
  {
    seq(|m|, e requires 0 <= e < |m| => m[e].location == GpuPersistent)
  }

  function Residents(layers: seq<LayerMap>): (r: seq<seq<bool>>)
    ensures |r| == |layers|
  {
    seq(|layers|, l requires 0 <= l < |layers| => ResidentsOf(layers[l]))
  }

  function Trues(b: seq<bool>): nat {
    if b == [] then 0 else Trues(b[..|b| - 1]) + if b[|b| - 1] then 1 else 0
  }

  /** A move in needs room in the layer, a move out a resident expert, and nothing may fail before it is registered. */
  predicate TakesEffect(residents: seq<seq<bool>>, perLayer: nat, q: Request) {
    && (q.fault == NoFault || q.fault == WritingMapping)
    && 0 <= q.layer < |residents| && 0 <= q.expert < |residents[q.layer]|
    && match q.action
       case MoveToGpu => !residents[q.layer][q.expert] && Trues(residents[q.layer]) < perLayer
       case MoveToCpu => residents[q.layer][q.expert]
  }

  /** The move is also reported as a success. */
  predicate Granted(residents: seq<seq<bool>>, perLayer: nat, q: Request) {
    q.fault == NoFault && TakesEffect(residents, perLayer, q)
  }

  function AfterOne(residents: seq<seq<bool>>, perLayer: nat, q: Request): seq<seq<bool>> {
    if TakesEffect(residents, perLayer, q) then
      residents[q.layer := residents[q.layer][q.expert := q.action == MoveToGpu]]
    else residents
  }

  /** The experts whose last move failed at writing the index map. */
  function StaleAfterOne(residents: seq<seq<bool>>, perLayer: nat, q: Request,
                         stale: set<(int, int)>): set<(int, int)> {
    if Granted(residents, perLayer, q) then stale - {(q.layer, q.expert)}
    else if TakesEffect(residents, perLayer, q) then stale + {(q.layer, q.expert)}
    else stale
  }

  function Stale(residents: seq<seq<bool>>, perLayer: nat, requests: seq<Request>): set<(int, int)> {
    if requests == [] then {}
    else
      var n := |requests| - 1;
      StaleAfterOne(AfterAll(residents, perLayer, requests[..n]), perLayer, requests[n],
                    Stale(residents, perLayer, requests[..n]))
  }

  /** Without such a failure none is stale. */
  lemma {:induction false} NoneStale(residents: seq<seq<bool>>, perLayer: nat, requests: seq<Request>)
    requires forall n :: 0 <= n < |requests| ==> requests[n].fault != WritingMapping
    ensures Stale(residents, perLayer, requests) == {}
  {
    if requests != [] {
      NoneStale(residents, perLayer, requests[..|requests| - 1]);
    }
  }

  function AfterAll(residents: seq<seq<bool>>, perLayer: nat, requests: seq<Request>): seq<seq<bool>> {
    if requests == [] then residents
    else AfterOne(AfterAll(residents, perLayer, requests[..|requests| - 1]), perLayer, requests[|requests| - 1])
  }

  /** Each request succeeded exactly if it was granted in the state it met. */
  predicate Decided(residents: seq<seq<bool>>, perLayer: nat, requests: seq<Request>, outcomes: seq<Outcome>) {
    |outcomes| == |requests| &&
    (requests == [] ||
     var n := |requests| - 1;
     Decided(residents, perLayer, requests[..n], outcomes[..n])
     && (outcomes[n] == Moved <==> Granted(AfterAll(residents, perLayer, requests[..n]), perLayer, requests[n])))
  }

  lemma DecidedMore(residents: seq<seq<bool>>, perLayer: nat, requests: seq<Request>, n: nat, outcomes: seq<Outcome>,
                    r: Outcome)
    requires n < |requests| && Decided(residents, perLayer, requests[..n], outcomes)
    requires r == Moved <==> Granted(AfterAll(residents, perLayer, requests[..n]), perLayer, requests[n])
    ensures Decided(residents, perLayer, requests[..n + 1], outcomes + [r])
    ensures AfterAll(residents, perLayer, requests[..n + 1])
         == AfterOne(AfterAll(residents, perLayer, requests[..n]), perLayer, requests[n])
    ensures Stale(residents, perLayer, requests[..n + 1])
         == StaleAfterOne(AfterAll(residents, perLayer, requests[..n]), perLayer, requests[n],
                          Stale(residents, perLayer, requests[..n]))
  {
    assert requests[..n + 1][..n] == requests[..n];
    assert (outcomes + [r])[..n] == outcomes;
  }

  lemma {:induction false} TruesCount(m: LayerMap)
    ensures Trues(ResidentsOf(m)) == Count(m)
  {
    if m != [] {
      assert ResidentsOf(m)[..|m| - 1] == ResidentsOf(m[..|m| - 1]);
      TruesCount(m[..|m| - 1]);
    }
  }

  lemma GrantedByCount(layers: seq<LayerMap>, perLayer: nat, q: Request)
    ensures TakesEffect(Residents(layers), perLayer, q) <==>
            && (q.fault == NoFault || q.fault == WritingMapping)
            && (q.action == MoveToGpu ==> MayMoveIn(perLayer, layers, q.layer, q.expert))
            && (q.action == MoveToCpu ==> OnGpu(layers, q.layer, q.expert))
  {
    if 0 <= q.layer < |layers| {
      TruesCount(layers[q.layer]);
    }
  }

  lemma ResidentsAfterChange(before: seq<LayerMap>, after: seq<LayerMap>, l: nat, e: nat)
    requires OnlyEntryChanged(before, after, l, e)
    ensures Residents(after) == Residents(before)[l := Residents(before)[l][e := after[l][e].location == GpuPersistent]]
  {
    assert after[l] == before[l][e := after[l][e]];
    assert Residents(after)[l] == Residents(before)[l][e := after[l][e].location == GpuPersistent];
  }

  lemma MayComeBack(perLayer: nat, before: seq<LayerMap>, after: seq<LayerMap>, l: nat, e: nat)
    requires OnGpu(before, l, e) && !OnGpu(after, l, e) && OnlyEntryChanged(before, after, l, e)
    requires Count(before[l]) <= perLayer
    ensures MayMoveIn(perLayer, after, l, e)
  {
    CountUpdate(before[l], e, after[l][e]);
    assert after[l] == before[l][e := after[l][e]];
  }

  lemma ChangedTwice(layers0: seq<LayerMap>, layers1: seq<LayerMap>, layers2: seq<LayerMap>, l: nat, e: nat)
    requires OnlyEntryChanged(layers0, layers1, l, e) && OnlyEntryChanged(layers1, layers2, l, e)
    ensures OnlyEntryChanged(layers0, layers2, l, e)
  {
    assert layers1[l] == layers0[l][e := layers1[l][e]];
    assert layers2[l] == layers0[l][e := layers2[l][e]];
  }

  /** The entry of an expert that moved in: resident, cached on device 0, in the first free slot of its layer. */
  ghost predicate InFirstFreeSlot(perLayer: nat, before: seq<LayerMap>, l: nat, x: ExpertLocation)
    requires l < |before|
  {
    && x == ExpertLocation(GpuPersistent, Cached, 0, x.cacheSlot)
    && Times(l, perLayer) <= x.cacheSlot < Times(l + 1, perLayer) && SlotFree(before[l], x.cacheSlot)
    && forall s :: Times(l, perLayer) <= s < x.cacheSlot ==> !SlotFree(before[l], s)
  }

  /** Nothing but the entry of one expert differs. */
  ghost predicate OnlyEntryChanged(before: seq<LayerMap>, after: seq<LayerMap>, l: int, e: int) {
    Known(before, l, e) && |after| == |before| && |after[l]| == |before[l]|
      && after == before[l := before[l][e := after[l][e]]]
  }

  /** A free slot of a layer belongs to no expert at all. */
  lemma FreeSlotIsNobodys(perLayer: nat, layers: seq<LayerMap>, l: nat, slot: int)
    requires l < |layers| && SlotsRight(perLayer, layers) && SlotFree(layers[l], slot)
    requires Times(l, perLayer) <= slot < Times(l + 1, perLayer)
    ensures forall k, o {:trigger layers[k][o]} :: OnGpu(layers, k, o) ==> layers[k][o].cacheSlot != slot
  {
    forall k, o | OnGpu(layers, k, o)
      ensures layers[k][o].cacheSlot != slot
    {
      if k != l {
        assert SlotRight(perLayer, layers, k, o);
        LayersApart(perLayer, layers, k, o, l, slot);
      }
    }
  }

  /** In a full layer, an expert that moves in where another one moved out gets its slot. */
  lemma OnlySlotLeft(perLayer: nat, before: seq<LayerMap>, after: seq<LayerMap>, l: nat, e: nat, f: nat)
    requires SlotsRight(perLayer, before) && SlotsRight(perLayer, after) && l < |before| && l < |after|
    requires OnGpu(before, l, e) && !OnGpu(before, l, f) && OnGpu(after, l, f) && Count(before[l]) == perLayer
    requires |after[l]| == |before[l]| && forall o :: 0 <= o < |before[l]| && o != e && o != f ==>
             after[l][o] == before[l][o]
    ensures after[l][f].cacheSlot == before[l][e].cacheSlot
  {
    var m, s := before[l], after[l][f].cacheSlot;
    assert SlotRight(perLayer, after, l, f);
    forall o | 0 <= o < |m| && m[o].location == GpuPersistent
      ensures Times(l, perLayer) <= m[o].cacheSlot < Times(l, perLayer) + perLayer
    {
      assert OnGpu(before, l, o) && before[l][o] == m[o];
      assert SlotRight(perLayer, before, l, o);
    }
    forall o, p | 0 <= o < p < |m| && m[o].location == m[p].location == GpuPersistent
      ensures m[o].cacheSlot != m[p].cacheSlot
    {
      assert OnGpu(before, l, o) && OnGpu(before, l, p) && before[l][o] == m[o] && before[l][p] == m[p];
    }
    forall o | 0 <= o < |m| && o != e && m[o].location == GpuPersistent
      ensures m[o].cacheSlot != s
    {
      assert before[l][o] == m[o] && after[l][o] == m[o];
    }
    FullLayer(m, Times(l, perLayer), perLayer, s);
  }
}
