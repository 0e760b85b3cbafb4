/** The D3D12 backend's shader-constant upload path. Every shader stage owns
    one persistently mapped upload heap cut into slots whose stride is the
    stage's constant block rounded up to 256 bytes. When a stage's constants
    change they are copied into the NEXT slot and the stage's root
    constant-buffer views are pointed at that slot; once per frame any slot
    index past the rollover threshold starts again from slot 0. */
module ShaderConstantsManager {
  import opened Common

  /** Shader stages, numbered as the four heaps are indexed. */
  const GeometryStage: nat := 0
  const PixelStage: nat := 1
  const VertexStage: nat := 2
  const TessellationStage: nat := 3
  const StageCount: nat := 4

  /** Slots per upload heap, and the index past which the per-frame check rewinds. */
  const SlotCount: nat := 50000
  const RolloverThreshold: nat := 10000

  /** Root-signature parameters that take a constant-buffer view. */
  datatype RootParameter =
    | GsCbv | HsCbv0 | DsCbv0 | PsCbvOne | HsCbv2 | DsCbv2 | VsCbv | PsCbvTwo | HsCbv1 | DsCbv1

  /** What the manager asks of the device and of the current command list, in order. */
  datatype Event =
    | CreateUploadHeap(stage: nat, byteSize: nat)
    | DestroyAfterCurrentCommandList(stage: nat)
    | CopyConstants(stage: nat, offset: nat, byteSize: nat)
    | SetRootConstantBufferView(parameter: RootParameter, address: nat)

  // ---------------------------------------------------------------------------
  // Slot geometry
  // ---------------------------------------------------------------------------

  /** Stride of one slot: the stage's constant block rounded up to 256 bytes. */
  function PaddedSize(raw: nat): (p: nat)
    ensures p % 256 == 0
    ensures raw <= p < raw + 256
  {
    AlignUp256(raw)
  }

  /** Byte size of a stage's upload heap: one padded slot per slot index. */
  function HeapSize(raw: nat): nat
  {
    PaddedSize(raw) * SlotCount
  }

  /** Byte offset of slot `index` inside its heap. */
  function SlotOffset(raw: nat, index: nat): nat
  {
    PaddedSize(raw) * index
  }

  lemma MulMonotone(a: nat, b: nat, c: nat)
    requires b <= c
    ensures a * b <= a * c
  {
    assert a * c == a * b + a * (c - b);
  }

  /** A copy of `raw` bytes into slot `index` stays inside the heap exactly
      when the index is below the slot count (for a non-empty block). */
  lemma CopyWithinHeap(raw: nat, index: nat)
    requires raw > 0
    ensures SlotOffset(raw, index) + raw <= HeapSize(raw) <==> index < SlotCount
  {
    var p := PaddedSize(raw);
    if index < SlotCount {
      MulMonotone(p, index + 1, SlotCount);
      assert p * (index + 1) == p * index + p;
    } else {
      MulMonotone(p, SlotCount, index);
    }
  }

  /** The per-frame rewind of one slot index. */
  function Rewound(index: nat): (r: nat)
    ensures r <= RolloverThreshold
    ensures r != index <==> index > RolloverThreshold
    ensures r == index || r == 0
  {
    if index > RolloverThreshold then 0 else index
  }

  /** After the per-frame rewind a stage can take SlotCount - RolloverThreshold - 1
      more uploads before a copy would leave its heap. */
  lemma HeadroomAfterRewind(raw: nat, index: nat, uploads: nat)
    requires raw > 0
    requires uploads < SlotCount - RolloverThreshold
    ensures SlotOffset(raw, Rewound(index) + uploads) + raw <= HeapSize(raw)
  {
    CopyWithinHeap(raw, Rewound(index) + uploads);
  }

  // ---------------------------------------------------------------------------
  // Root constant-buffer views bound per stage
  // ---------------------------------------------------------------------------

  function GeometryParameters(): seq<RootParameter>
  {
    [GsCbv]
  }

  /** Hull and domain shaders share the tessellation constants. */
  function HullDomainParameters(): seq<RootParameter>
  {
    [HsCbv0, DsCbv0]
  }

  /** Pixel constants are also read by the hull and domain shaders when
      tessellation is on. */
  function PixelParameters(tessellation: bool): (ps: seq<RootParameter>)
    ensures |ps| == if tessellation then 3 else 1
    ensures ps[0] == PsCbvOne
    ensures HsCbv2 in ps <==> tessellation
    ensures DsCbv2 in ps <==> tessellation
  {
    [PsCbvOne] + (if tessellation then [HsCbv2, DsCbv2] else [])
  }

  /** Vertex constants are also read by the pixel shader under per-pixel
      lighting, and by the hull and domain shaders under tessellation. */
  function VertexParameters(pixelLighting: bool, tessellation: bool): (ps: seq<RootParameter>)
    ensures |ps| == 1 + (if pixelLighting then 1 else 0) + (if tessellation then 2 else 0)
    ensures ps[0] == VsCbv
    ensures PsCbvTwo in ps <==> pixelLighting
    ensures HsCbv1 in ps <==> tessellation
    ensures DsCbv1 in ps <==> tessellation
  {
    [VsCbv] + (if pixelLighting then [PsCbvTwo] else []) + (if tessellation then [HsCbv1, DsCbv1] else [])
  }

  /** One view per parameter, all at the same GPU address. */
  function {:induction false} Binds(ps: seq<RootParameter>, address: nat): (es: seq<Event>)
    ensures |es| == |ps|
    ensures forall k :: 0 <= k < |ps| ==> es[k] == SetRootConstantBufferView(ps[k], address)
  {
    if ps == [] then [] else [SetRootConstantBufferView(ps[0], address)] + Binds(ps[1..], address)
  }

  /** The copy a LoadAndSet call records: dirty constants go to the slot
      after the current one. */
  function UploadEvents(stage: nat, raw: nat, index: nat, constantsDirty: bool): seq<Event>
  {
    if constantsDirty then [CopyConstants(stage, SlotOffset(raw, index + 1), raw)] else []
  }

  /** The views a LoadAndSet call binds: all of them, at the slot in use after
      the copy, when either the constants or the views were dirty. */
  function BindEvents(raw: nat, base: nat, index: nat, constantsDirty: bool, viewsDirty: bool,
                      ps: seq<RootParameter>): seq<Event>
  {
    var next := if constantsDirty then index + 1 else index;
    if constantsDirty || viewsDirty then Binds(ps, base + SlotOffset(raw, next)) else []
  }

  /** Everything one LoadAndSet call records for a stage whose slot index is
      `index`, given whether its constants and its views are dirty. */
  function StageEvents(stage: nat, raw: nat, base: nat, index: nat,
                       constantsDirty: bool, viewsDirty: bool,
                       ps: seq<RootParameter>): seq<Event>
  {
    UploadEvents(stage, raw, index, constantsDirty)
    + BindEvents(raw, base, index, constantsDirty, viewsDirty, ps)
  }

  /** Dirty constants go to the slot after the current one, never to slot 0,
      at a 256-byte-aligned offset, and every view is then bound to exactly
      the slot just written. */
  lemma DirtyConstantsUseNextSlot(stage: nat, raw: nat, base: nat, index: nat,
                                  viewsDirty: bool, ps: seq<RootParameter>)
    ensures var es := StageEvents(stage, raw, base, index, true, viewsDirty, ps);
      var off := SlotOffset(raw, index + 1);
      |es| == 1 + |ps| &&
      es[0] == CopyConstants(stage, off, raw) &&
      off >= PaddedSize(raw) && off % 256 == 0 &&
      forall k :: 1 <= k < |es| ==> es[k] == SetRootConstantBufferView(ps[k - 1], base + off)
  {
    var p := PaddedSize(raw);
    MulMonotone(p, 1, index + 1);
    var q := p / 256;
    assert p == 256 * q;
    assert p * (index + 1) == 256 * (q * (index + 1));
  }

  /** Clean constants with up-to-date views record nothing. */
  lemma CleanStageIsQuiet(stage: nat, raw: nat, base: nat, index: nat, ps: seq<RootParameter>)
    ensures StageEvents(stage, raw, base, index, false, false, ps) == []
  {
  }

  /** Clean constants with stale views rebind the current slot and copy nothing. */
  lemma StaleViewsRebindCurrentSlot(stage: nat, raw: nat, base: nat, index: nat, ps: seq<RootParameter>)
    ensures var es := StageEvents(stage, raw, base, index, false, true, ps);
      |es| == |ps| &&
      forall k :: 0 <= k < |es| ==> es[k] == SetRootConstantBufferView(ps[k], base + SlotOffset(raw, index))
  {
    assert StageEvents(stage, raw, base, index, false, true, ps) == Binds(ps, base + SlotOffset(raw, index));
  }

  /** Heap creations recorded by Init for the first n stages. */
  function Creations(sizes: seq<nat>, n: nat): (es: seq<Event>)
    requires n <= |sizes|
    ensures |es| == n
    ensures forall i :: 0 <= i < n ==> es[i] == CreateUploadHeap(i, HeapSize(sizes[i]))
  {
    if n == 0 then [] else Creations(sizes, n - 1) + [CreateUploadHeap(n - 1, HeapSize(sizes[n - 1]))]
  }

  /** Deferred destructions recorded by Shutdown for the first n stages. */
  function Destructions(n: nat): (es: seq<Event>)
    ensures |es| == n
    ensures forall i :: 0 <= i < n ==> es[i] == DestroyAfterCurrentCommandList(i)
  {
    if n == 0 then [] else Destructions(n - 1) + [DestroyAfterCurrentCommandList(n - 1)]
  }

  // ---------------------------------------------------------------------------
  // The manager's state: the module-level arrays of the source
  // ---------------------------------------------------------------------------

  class ConstantUploadHeaps {
    /** Byte size of each stage's constant block. */
    const rawSizes: seq<nat>
    /** The committed upload resource of each stage, by its byte size. */
    var heaps: array<Option<nat>>
    /** Whether each stage has a CPU mapping of its heap. */
    var mapped: array<bool>
    /** GPU virtual address of each heap. */
    var gpuBase: array<nat>
    /** Current slot of each stage. */
    var slotIndex: array<nat>
    /** The dirty state of the geometry, pixel, vertex and tessellation
        constant managers, by stage. */
    var constantsDirty: array<bool>
    /** The command-list manager's dirty flags for each stage's views. */
    var viewsDirty: array<bool>
    var trace: seq<Event>

    ghost predicate Shape()
      reads this`heaps, this`mapped, this`gpuBase, this`slotIndex, this`constantsDirty, this`viewsDirty
    {
      |rawSizes| == StageCount &&
      heaps.Length == StageCount && mapped.Length == StageCount &&
      gpuBase.Length == StageCount && slotIndex.Length == StageCount &&
      constantsDirty.Length == StageCount && viewsDirty.Length == StageCount &&
      gpuBase != slotIndex &&
      mapped != constantsDirty && mapped != viewsDirty && constantsDirty != viewsDirty
    }

    /** A stage is mapped exactly when its heap exists, and a heap has the
        stage's full size. */
    ghost predicate HeapsConsistent()
      requires Shape()
      reads this`heaps, this`mapped, this`gpuBase, this`slotIndex, this`constantsDirty, this`viewsDirty, heaps, mapped
    {
      forall i :: 0 <= i < StageCount ==>
        (mapped[i] <==> heaps[i].Some?) &&
        (heaps[i].Some? ==> heaps[i].value == HeapSize(rawSizes[i]))
    }

    ghost predicate Valid()
      reads this`heaps, this`mapped, this`gpuBase, this`slotIndex, this`constantsDirty, this`viewsDirty, heaps, mapped
    {
      Shape() && HeapsConsistent()
    }

    /** The zero-initialised module state before Init. */
    constructor(sizes: seq<nat>)
      requires |sizes| == StageCount
      ensures Valid() && rawSizes == sizes && trace == []
      ensures fresh(heaps) && fresh(mapped) && fresh(gpuBase) && fresh(slotIndex)
      ensures fresh(constantsDirty) && fresh(viewsDirty)
      ensures forall i :: 0 <= i < StageCount ==>
        heaps[i] == None && !mapped[i] && gpuBase[i] == 0 && slotIndex[i] == 0 &&
        !constantsDirty[i] && !viewsDirty[i]
    {
      rawSizes := sizes;
      heaps := new Option<nat>[StageCount](_ => None);
      mapped := new bool[StageCount](_ => false);
      gpuBase := new nat[StageCount](_ => 0);
      slotIndex := new nat[StageCount](_ => 0);
      constantsDirty := new bool[StageCount](_ => false);
      viewsDirty := new bool[StageCount](_ => false);
      trace := [];
    }

    /** Creates and maps every stage's heap at the addresses the device hands out. */
    method Init(addresses: seq<nat>)
      requires Valid() && |addresses| == StageCount
      modifies heaps, mapped, gpuBase, slotIndex, this`trace
      ensures Valid()
      ensures forall i :: 0 <= i < StageCount ==>
        slotIndex[i] == 0 && heaps[i] == Some(HeapSize(rawSizes[i])) && mapped[i] &&
        gpuBase[i] == addresses[i]
      ensures trace == old(trace) + Creations(rawSizes, StageCount)
    {
      for i := 0 to StageCount
        invariant forall j :: 0 <= j < i ==>
          slotIndex[j] == 0 && heaps[j] == Some(HeapSize(rawSizes[j])) && mapped[j] &&
          gpuBase[j] == addresses[j]
        invariant forall j :: i <= j < StageCount ==>
          heaps[j] == old(heaps[j]) && mapped[j] == old(mapped[j])
        invariant trace == old(trace) + Creations(rawSizes, i)
      {
        CreateHeap(i, addresses[i]);
      }
    }

    /** One iteration of Init: stage i gets a fresh, mapped heap and slot 0. */
    method CreateHeap(i: nat, address: nat)
      requires Shape() && i < StageCount
      modifies heaps, mapped, gpuBase, slotIndex, this`trace
      ensures slotIndex[i] == 0 && heaps[i] == Some(HeapSize(rawSizes[i])) && mapped[i] && gpuBase[i] == address
      ensures trace == old(trace) + [CreateUploadHeap(i, HeapSize(rawSizes[i]))]
      ensures forall j :: 0 <= j < StageCount && j != i ==>
        slotIndex[j] == old(slotIndex[j]) && heaps[j] == old(heaps[j]) && mapped[j] == old(mapped[j]) &&
        gpuBase[j] == old(gpuBase[j])
    {
      slotIndex[i] := 0;
      var size := HeapSize(rawSizes[i]);
      trace := trace + [CreateUploadHeap(i, size)];
      heaps[i] := Some(size);
      mapped[i] := true;
      gpuBase[i] := address;
    }

    /** Hands every heap to the command-list manager for deferred destruction
        and forgets it, its mapping and its slot index. */
    method Shutdown()
      requires Valid()
      modifies heaps, mapped, slotIndex, this`trace
      ensures Valid()
      ensures forall i :: 0 <= i < StageCount ==>
        slotIndex[i] == 0 && heaps[i] == None && !mapped[i]
      ensures trace == old(trace) + Destructions(StageCount)
    {
      for i := 0 to StageCount
        invariant forall j :: 0 <= j < i ==> slotIndex[j] == 0 && heaps[j] == None && !mapped[j]
        invariant forall j :: i <= j < StageCount ==>
          heaps[j] == old(heaps[j]) && mapped[j] == old(mapped[j])
        invariant trace == old(trace) + Destructions(i)
      {
        ReleaseHeap(i);
      }
    }

    /** One iteration of Shutdown: stage i's heap is released and forgotten. */
    method ReleaseHeap(i: nat)
      requires Shape() && i < StageCount
      modifies heaps, mapped, slotIndex, this`trace
      ensures slotIndex[i] == 0 && heaps[i] == None && !mapped[i]
      ensures trace == old(trace) + [DestroyAfterCurrentCommandList(i)]
      ensures forall j :: 0 <= j < StageCount && j != i ==>
        slotIndex[j] == old(slotIndex[j]) && heaps[j] == old(heaps[j]) && mapped[j] == old(mapped[j])
    {
      trace := trace + [DestroyAfterCurrentCommandList(i)];
      heaps[i] := None;
      slotIndex[i] := 0;
      mapped[i] := false;
    }

    /** The copy half of a LoadAndSet call: dirty constants go to the next
        slot, the constants become clean and the stage's views stale. */
    method UploadConstants(stage: nat)
      requires Shape() && stage < StageCount && (constantsDirty[stage] ==> mapped[stage])
      modifies slotIndex, constantsDirty, viewsDirty, this`trace
      ensures trace == old(trace) + UploadEvents(stage, rawSizes[stage], old(slotIndex[stage]), old(constantsDirty[stage]))
      ensures slotIndex[stage] == old(slotIndex[stage]) + (if old(constantsDirty[stage]) then 1 else 0)
      ensures !constantsDirty[stage]
      ensures viewsDirty[stage] == (old(viewsDirty[stage]) || old(constantsDirty[stage]))
      ensures forall i :: 0 <= i < StageCount && i != stage ==>
        slotIndex[i] == old(slotIndex[i]) && constantsDirty[i] == old(constantsDirty[i]) &&
        viewsDirty[i] == old(viewsDirty[i])
    {
      if constantsDirty[stage] {
        slotIndex[stage] := slotIndex[stage] + 1;
        trace := trace + [CopyConstants(stage, SlotOffset(rawSizes[stage], slotIndex[stage]), rawSizes[stage])];
        constantsDirty[stage] := false;
        viewsDirty[stage] := true;
      }
    }

    /** The bind half: stale views are pointed at the current slot. */
    method RebindViews(stage: nat, ps: seq<RootParameter>)
      requires Shape() && stage < StageCount
      modifies viewsDirty, this`trace
      ensures trace == old(trace) +
        (if old(viewsDirty[stage]) then Binds(ps, gpuBase[stage] + SlotOffset(rawSizes[stage], slotIndex[stage])) else [])
      ensures !viewsDirty[stage]
      ensures forall i :: 0 <= i < StageCount && i != stage ==> viewsDirty[i] == old(viewsDirty[i])
    {
      if viewsDirty[stage] {
        trace := trace + Binds(ps, gpuBase[stage] + SlotOffset(rawSizes[stage], slotIndex[stage]));
        viewsDirty[stage] := false;
      }
    }

    /** The shared body of the four LoadAndSet methods.  Dirty constants need
        a mapped stage: between Shutdown and the next Init the copy would go
        through a null pointer. */
    method LoadAndSet(stage: nat, ps: seq<RootParameter>)
      requires Shape() && stage < StageCount && (constantsDirty[stage] ==> mapped[stage])
      modifies slotIndex, constantsDirty, viewsDirty, this`trace
      ensures trace == old(trace) + StageEvents(stage, rawSizes[stage], gpuBase[stage],
        old(slotIndex[stage]), old(constantsDirty[stage]), old(viewsDirty[stage]), ps)
      ensures slotIndex[stage] == old(slotIndex[stage]) + (if old(constantsDirty[stage]) then 1 else 0)
      ensures !constantsDirty[stage] && !viewsDirty[stage]
      ensures forall i :: 0 <= i < StageCount && i != stage ==>
        slotIndex[i] == old(slotIndex[i]) && constantsDirty[i] == old(constantsDirty[i]) &&
        viewsDirty[i] == old(viewsDirty[i])
    {
      ghost var t0, index0, dirty0 := trace, slotIndex[stage], constantsDirty[stage];
      ghost var u := UploadEvents(stage, rawSizes[stage], index0, dirty0);
      ghost var b := BindEvents(rawSizes[stage], gpuBase[stage], index0, dirty0, viewsDirty[stage], ps);
      UploadConstants(stage);
      assert trace == t0 + u;
      assert slotIndex[stage] == (if dirty0 then index0 + 1 else index0);
      RebindViews(stage, ps);
      assert trace == t0 + u + b;
      AppendAssoc(t0, u, b);
    }

    method LoadAndSetGeometryShaderConstants()
      requires Valid() && (constantsDirty[GeometryStage] ==> mapped[GeometryStage])
      modifies slotIndex, constantsDirty, viewsDirty, this`trace
      ensures Valid()
      ensures trace == old(trace) + StageEvents(GeometryStage, rawSizes[GeometryStage], gpuBase[GeometryStage],
        old(slotIndex[GeometryStage]), old(constantsDirty[GeometryStage]), old(viewsDirty[GeometryStage]), GeometryParameters())
      ensures slotIndex[GeometryStage] == old(slotIndex[GeometryStage]) + (if old(constantsDirty[GeometryStage]) then 1 else 0)
      ensures !constantsDirty[GeometryStage] && !viewsDirty[GeometryStage]
      ensures forall i :: 0 <= i < StageCount && i != GeometryStage ==>
        slotIndex[i] == old(slotIndex[i]) && constantsDirty[i] == old(constantsDirty[i]) &&
        viewsDirty[i] == old(viewsDirty[i])
    {
      LoadAndSet(GeometryStage, GeometryParameters());
    }

    /** Does nothing at all unless tessellation is enabled. */
    method LoadAndSetHullDomainShaderConstants(tessellation: bool)
      requires Valid() && (tessellation && constantsDirty[TessellationStage] ==> mapped[TessellationStage])
      modifies slotIndex, constantsDirty, viewsDirty, this`trace
      ensures Valid()
      ensures tessellation ==> trace == old(trace) + StageEvents(TessellationStage, rawSizes[TessellationStage], gpuBase[TessellationStage],
        old(slotIndex[TessellationStage]), old(constantsDirty[TessellationStage]), old(viewsDirty[TessellationStage]), HullDomainParameters())
      ensures tessellation ==> slotIndex[TessellationStage] == old(slotIndex[TessellationStage]) + (if old(constantsDirty[TessellationStage]) then 1 else 0)
      ensures tessellation ==> !constantsDirty[TessellationStage] && !viewsDirty[TessellationStage]
      ensures tessellation ==> forall i :: 0 <= i < StageCount && i != TessellationStage ==>
        slotIndex[i] == old(slotIndex[i]) && constantsDirty[i] == old(constantsDirty[i]) &&
        viewsDirty[i] == old(viewsDirty[i])
      ensures !tessellation ==>
        trace == old(trace) && unchanged(slotIndex, constantsDirty, viewsDirty)
    {
      if !tessellation {
        return;
      }
      LoadAndSet(TessellationStage, HullDomainParameters());
    }

    method LoadAndSetPixelShaderConstants(tessellation: bool)
      requires Valid() && (constantsDirty[PixelStage] ==> mapped[PixelStage])
      modifies slotIndex, constantsDirty, viewsDirty, this`trace
      ensures Valid()
      ensures trace == old(trace) + StageEvents(PixelStage, rawSizes[PixelStage], gpuBase[PixelStage],
        old(slotIndex[PixelStage]), old(constantsDirty[PixelStage]), old(viewsDirty[PixelStage]), PixelParameters(tessellation))
      ensures slotIndex[PixelStage] == old(slotIndex[PixelStage]) + (if old(constantsDirty[PixelStage]) then 1 else 0)
      ensures !constantsDirty[PixelStage] && !viewsDirty[PixelStage]
      ensures forall i :: 0 <= i < StageCount && i != PixelStage ==>
        slotIndex[i] == old(slotIndex[i]) && constantsDirty[i] == old(constantsDirty[i]) &&
        viewsDirty[i] == old(viewsDirty[i])
    {
      LoadAndSet(PixelStage, PixelParameters(tessellation));
    }

    method LoadAndSetVertexShaderConstants(pixelLighting: bool, tessellation: bool)
      requires Valid() && (constantsDirty[VertexStage] ==> mapped[VertexStage])
      modifies slotIndex, constantsDirty, viewsDirty, this`trace
      ensures Valid()
      ensures trace == old(trace) + StageEvents(VertexStage, rawSizes[VertexStage], gpuBase[VertexStage],
        old(slotIndex[VertexStage]), old(constantsDirty[VertexStage]), old(viewsDirty[VertexStage]), VertexParameters(pixelLighting, tessellation))
      ensures slotIndex[VertexStage] == old(slotIndex[VertexStage]) + (if old(constantsDirty[VertexStage]) then 1 else 0)
      ensures !constantsDirty[VertexStage] && !viewsDirty[VertexStage]
      ensures forall i :: 0 <= i < StageCount && i != VertexStage ==>
        slotIndex[i] == old(slotIndex[i]) && constantsDirty[i] == old(constantsDirty[i]) &&
        viewsDirty[i] == old(viewsDirty[i])
    {
      LoadAndSet(VertexStage, VertexParameters(pixelLighting, tessellation));
    }

    /** Sends every stage whose slot index passed the rollover threshold back
        to slot 0, each stage on its own. */
    method CheckToResetIndexPositionInUploadHeaps()
      requires Valid()
      modifies slotIndex
      ensures Valid()
      ensures forall i :: 0 <= i < StageCount ==> slotIndex[i] == Rewound(old(slotIndex[i]))
      ensures forall i :: 0 <= i < StageCount ==> slotIndex[i] <= RolloverThreshold
    {
      for i := 0 to StageCount
        invariant forall j :: 0 <= j < i ==> slotIndex[j] == Rewound(old(slotIndex[j]))
        invariant forall j :: i <= j < StageCount ==> slotIndex[j] == old(slotIndex[j])
      {
        if slotIndex[i] > RolloverThreshold {
          slotIndex[i] := 0;
        }
      }
    }
  }
}
