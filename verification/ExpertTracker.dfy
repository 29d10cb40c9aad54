/** Where every expert is, and what follows from counting. */
module ExpertTracker {
  import opened Basics

  datatype MemoryLocation = GpuPersistent | GpuCache | CpuMemory | CpuPinned | NotLoaded

  datatype ExpertStatus = Active | Cached | Loading | Idle | NotAvailable

  datatype ExpertLocation = ExpertLocation(location: MemoryLocation, status: ExpertStatus, deviceId: int,
    cacheSlot: int)

  type LayerMap = seq<ExpertLocation>

  /** Number of experts of a layer that are resident on the GPU. */
  function Count(m: LayerMap): (r: nat)
    ensures r <= |m|
  {
    if m == [] then 0 else Count(m[..|m| - 1]) + if m[|m| - 1].location == GpuPersistent then 1 else 0
  }

  function Total(layers: seq<LayerMap>): nat {
    if layers == [] then 0 else Total(layers[..|layers| - 1]) + Count(layers[|layers| - 1])
  }

  /** The slots the resident experts of a layer are registered with. */
  function UsedSlots(m: LayerMap): (r: set<int>)
    ensures forall e :: 0 <= e < |m| && m[e].location == GpuPersistent ==> m[e].cacheSlot in r
    ensures |r| <= Count(m)
  {
    if m == [] then {}
    else
      var n := |m| - 1;
      UsedSlots(m[..n]) + if m[n].location == GpuPersistent then {m[n].cacheSlot} else {}
  }

  predicate SlotFree(m: LayerMap, slot: int) {
    forall e :: 0 <= e < |m| ==> !(m[e].cacheSlot == slot && m[e].location == GpuPersistent)
  }

  /** Fewer residents than slots leave a slot free. */
  lemma Pigeonhole(m: LayerMap, base: int, n: nat)
    requires Count(m) < n
    ensures exists s :: base <= s < base + n && SlotFree(m, s)
  {
    if forall s :: base <= s < base + n ==> s in UsedSlots(m) {
      Covered(base, n, UsedSlots(m));
      assert false;
    }
    var s :| base <= s < base + n && s !in UsedSlots(m);
    assert SlotFree(m, s);
  }

  /** A set with `n` different numbers in it has at least `n` elements. */
  lemma {:induction false} Covered(base: int, n: nat, b: set<int>)
    requires forall s :: base <= s < base + n ==> s in b
    ensures n <= |b|
  {
    if n > 0 {
      Covered(base, n - 1, b - {base + n - 1});
    }
  }

  /** The resident experts of a layer have slots of their own. */
  ghost predicate OwnSlots(m: LayerMap) {
    forall e, o :: 0 <= e < o < |m| && m[e].location == m[o].location == GpuPersistent ==>
      m[e].cacheSlot != m[o].cacheSlot
  }

  lemma {:induction false} UsedIsOwned(m: LayerMap, s: int)
    requires s in UsedSlots(m)
    ensures exists e :: 0 <= e < |m| && m[e].cacheSlot == s && m[e].location == GpuPersistent
  {
    var n := |m| - 1;
    if s in UsedSlots(m[..n]) {
      UsedIsOwned(m[..n], s);
      var e :| 0 <= e < n && m[..n][e].cacheSlot == s && m[..n][e].location == GpuPersistent;
      assert m[e] == m[..n][e];
    } else {
      assert m[n].cacheSlot == s && m[n].location == GpuPersistent;
    }
  }

  lemma {:induction false} UsedCount(m: LayerMap)
    requires OwnSlots(m)
    ensures |UsedSlots(m)| == Count(m)
  {
    if m != [] {
      var n := |m| - 1;
      assert forall e :: 0 <= e < n ==> m[..n][e] == m[e];
      UsedCount(m[..n]);
      if m[n].location == GpuPersistent && m[n].cacheSlot in UsedSlots(m[..n]) {
        UsedIsOwned(m[..n], m[n].cacheSlot);
        assert false;
      }
    }
  }

  /** With as many residents as slots, every slot has an owner. */
  lemma FullLayer(m: LayerMap, base: int, n: nat, s: int)
    requires OwnSlots(m) && Count(m) == n && base <= s < base + n
    requires forall e :: 0 <= e < |m| && m[e].location == GpuPersistent ==> base <= m[e].cacheSlot < base + n
    ensures exists e :: 0 <= e < |m| && m[e].cacheSlot == s && m[e].location == GpuPersistent
  {
    UsedCount(m);
    forall u | u in UsedSlots(m)
      ensures base <= u < base + n
    {
      UsedIsOwned(m, u);
    }
    if s !in UsedSlots(m) {
      WithinRange(base, n, UsedSlots(m) + {s});
      assert false;
    }
    UsedIsOwned(m, s);
  }

  lemma {:induction false} CountUpdate(m: LayerMap, e: nat, x: ExpertLocation)
    requires e < |m|
    ensures Count(m[e := x]) == Count(m) - (if m[e].location == GpuPersistent then 1 else 0)
                                         + (if x.location == GpuPersistent then 1 else 0)
  {
    var n := |m| - 1;
    if e < n {
      assert m[e := x][..n] == m[..n][e := x];
      CountUpdate(m[..n], e, x);
    } else {
      assert m[e := x][..n] == m[..n];
    }
  }

  /** While no layer holds more than `cap`, a layer below `cap` means free capacity over all layers. */
  lemma {:induction false} RoomInLayerIsRoom(layers: seq<LayerMap>, cap: nat)
    requires forall i :: 0 <= i < |layers| ==> Count(layers[i]) <= cap
    ensures Total(layers) <= Times(|layers|, cap)
    ensures (exists i :: 0 <= i < |layers| && Count(layers[i]) < cap) ==> Total(layers) < Times(|layers|, cap)
  {
    if layers != [] {
      RoomInLayerIsRoom(layers[..|layers| - 1], cap);
    }
  }

  /** A layer with its first `perLayer` experts in its slots, in order. */
  function FirstResident(l: nat, experts: nat, perLayer: nat): (r: LayerMap)
    ensures |r| == experts
  {
    seq(experts, e requires 0 <= e < experts =>
      if e < perLayer then ExpertLocation(GpuPersistent, Cached, 0, Times(l, perLayer) + e)
      else ExpertLocation(CpuMemory, Idle, -1, -1))
  }

  lemma {:induction false} CountFirstResident(l: nat, experts: nat, perLayer: nat)
    ensures Count(FirstResident(l, experts, perLayer)) == if experts < perLayer then experts else perLayer
  {
    if experts > 0 {
      assert FirstResident(l, experts, perLayer)[..experts - 1] == FirstResident(l, experts - 1, perLayer);
      CountFirstResident(l, experts - 1, perLayer);
    }
  }

  /** An expert of layer `l` is in a slot of its layer, or on the CPU without device and slot. */
  ghost predicate Housed(perLayer: nat, l: nat, x: ExpertLocation) {
    match x.location
    case GpuPersistent =>
      x.status == Cached && x.deviceId == 0 && Times(l, perLayer) <= x.cacheSlot < Times(l + 1, perLayer)
    case CpuMemory => x.status == Idle && x.deviceId == -1 && x.cacheSlot == -1
    case _ => false
  }

  ghost predicate AllHoused(perLayer: nat, layers: seq<LayerMap>) {
    forall l, e {:trigger layers[l][e]} :: 0 <= l < |layers| && 0 <= e < |layers[l]| ==>
      Housed(perLayer, l, layers[l][e])
  }

  lemma HousedAfterChange(perLayer: nat, layers: seq<LayerMap>, l: nat, e: nat, x: ExpertLocation)
    requires l < |layers| && e < |layers[l]| && AllHoused(perLayer, layers) && Housed(perLayer, l, x)
    ensures AllHoused(perLayer, layers[l := layers[l][e := x]])
  {
  }

  /** The experts of a layer at a location, in order. */
  function ExpertsBy(m: LayerMap, location: MemoryLocation): (r: seq<nat>)
    ensures forall e: nat :: e in r <==> e < |m| && m[e].location == location
  {
    if m == [] then []
    else
      var n := |m| - 1;
      ExpertsBy(m[..n], location) + if m[n].location == location then [n] else []
  }

  /** What the summary of a layer calls loaded. */
  function LoadedExperts(m: LayerMap): int {
    |m| - |ExpertsBy(m, NotLoaded)|
  }

  /** Loaded are the experts at the four other locations; every expert is at exactly one. */
  lemma {:induction false} LoadedIsElsewhere(m: LayerMap)
    ensures LoadedExperts(m) == |ExpertsBy(m, GpuPersistent)| + |ExpertsBy(m, GpuCache)| + |ExpertsBy(m, CpuMemory)|
                                + |ExpertsBy(m, CpuPinned)|
  {
    if m != [] {
      LoadedIsElsewhere(m[..|m| - 1]);
    }
  }

  lemma {:induction false} NoneBy(m: LayerMap, location: MemoryLocation)
    requires forall e :: 0 <= e < |m| ==> m[e].location != location
    ensures ExpertsBy(m, location) == []
  {
    if m != [] {
      NoneBy(m[..|m| - 1], location);
    }
  }

  lemma {:induction false} ResidentsAre(m: LayerMap)
    ensures |ExpertsBy(m, GpuPersistent)| == Count(m)
  {
    if m != [] {
      ResidentsAre(m[..|m| - 1]);
    }
  }

  /** While all are housed, the summary counts every expert as loaded, each at exactly one of the two places. */
  lemma SummaryOfHoused(perLayer: nat, l: nat, m: LayerMap)
    requires forall e :: 0 <= e < |m| ==> Housed(perLayer, l, m[e])
    ensures LoadedExperts(m) == |m|
    ensures |ExpertsBy(m, GpuPersistent)| + |ExpertsBy(m, CpuMemory)| == |m|
    ensures |ExpertsBy(m, GpuPersistent)| == Count(m)
  {
    LoadedIsElsewhere(m);
    NoneBy(m, NotLoaded);
    NoneBy(m, GpuCache);
    NoneBy(m, CpuPinned);
    ResidentsAre(m);
  }

  class ExpertTracker {
    var layers: seq<LayerMap>
    var gpuCapacity: nat

    constructor (numLayers: nat, numExperts: nat)
      ensures layers == seq(numLayers, _ => seq(numExperts, _ => ExpertLocation(NotLoaded, NotAvailable, -1, -1)))
      ensures gpuCapacity == 0
    {
      layers := seq(numLayers, _ => seq(numExperts, _ => ExpertLocation(NotLoaded, NotAvailable, -1, -1)));
      gpuCapacity := 0;
    }

    predicate Known(layer: int, expert: int)
      reads this
    {
      0 <= layer < |layers| && 0 <= expert < |layers[layer]|
    }

    /** Unknown experts are ignored. */
    method UpdateExpertLocation(layer: int, expert: int, loc: ExpertLocation)
      modifies `layers
      ensures layers == if old(Known(layer, expert)) then old(layers)[layer := old(layers)[layer][expert := loc]]
              else old(layers)
    {
      if Known(layer, expert) {
        layers := layers[layer := layers[layer][expert := loc]];
      }
    }

    /** At start the first experts of every layer are resident, each in a slot of its own. */
    method InitResidents(perLayer: nat)
      requires forall l :: 0 <= l < |layers| ==> perLayer <= |layers[l]|
      modifies this
      ensures |layers| == |old(layers)| && gpuCapacity == Times(|layers|, perLayer)
      ensures forall l {:trigger layers[l]} :: 0 <= l < |layers| ==>
              layers[l] == FirstResident(l, |old(layers[l])|, perLayer)
    {
      gpuCapacity := Times(|layers|, perLayer);
      for l := 0 to |layers|
        invariant |layers| == |old(layers)| && gpuCapacity == Times(|layers|, perLayer)
        invariant forall k {:trigger layers[k]} :: 0 <= k < |layers| ==>
                    layers[k] == if k < l then FirstResident(k, |old(layers[k])|, perLayer) else old(layers)[k]
      {
        for e := 0 to |layers[l]|
          invariant |layers| == |old(layers)| && gpuCapacity == Times(|layers|, perLayer)
          invariant forall k {:trigger layers[k]} :: 0 <= k < |layers| && k != l ==>
                      layers[k] == if k < l then FirstResident(k, |old(layers[k])|, perLayer) else old(layers)[k]
          invariant |layers[l]| == |old(layers[l])|
          invariant forall o {:trigger layers[l][o]} :: 0 <= o < e ==>
                    layers[l][o] == FirstResident(l, |layers[l]|, perLayer)[o]
        {
          if e < perLayer {
            UpdateExpertLocation(l, e, ExpertLocation(GpuPersistent, Cached, 0, Times(l, perLayer) + e));
          } else {
            UpdateExpertLocation(l, e, ExpertLocation(CpuMemory, Idle, -1, -1));
          }
        }
      }
    }

    function GetExpertLocation(layer: int, expert: int): (r: Option<ExpertLocation>)
      reads this
    {
      if Known(layer, expert) then Some(layers[layer][expert]) else None
    }
  }
}
