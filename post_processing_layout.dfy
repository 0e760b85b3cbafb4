/** The option constant buffer of the DX11 post-processing pass
    (Source/Core/VideoBackends/DX11/PostProcessing.cpp): how the user options
    are laid out in 16-byte rows, and what the per-frame upload copies where. */
module PostProcessingLayout {
  import opened Common

  datatype OptionType = OptionBool | OptionInteger | OptionFloat

  /** The bit pattern of a 32-bit float; the model never interprets it. */
  type Float32 = bv32

  /** One user option of the effect configuration. */
  datatype ConfigurationOption = ConfigurationOption(
    name: string,
    kind: OptionType,
    boolValue: bool,
    integerValues: seq<int>,
    floatValues: seq<Float32>,
    dirty: bool)

  /** One 4-byte lane of the option constant buffer. */
  datatype Lane = IntLane(i: int) | FloatLane(bits: Float32)

  /** Bytes an option occupies: one int for a bool, four bytes per lane otherwise. */
  function NeededSize(o: ConfigurationOption): (n: nat)
    ensures n % 4 == 0
  {
    match o.kind
    case OptionBool => 4
    case OptionInteger => 4 * |o.integerValues|
    case OptionFloat => 4 * |o.floatValues|
  }

  /** The lanes the upload copies for an option; a bool is stored as the int 0 or 1. */
  function OptionLanes(o: ConfigurationOption): (l: seq<Lane>)
    ensures |l| * 4 == NeededSize(o)
  {
    match o.kind
    case OptionBool => [IntLane(if o.boolValue then 1 else 0)]
    case OptionInteger => seq(|o.integerValues|, k requires 0 <= k < |o.integerValues| => IntLane(o.integerValues[k]))
    case OptionFloat => seq(|o.floatValues|, k requires 0 <= k < |o.floatValues| => FloatLane(o.floatValues[k]))
  }

  function Sizes(opts: seq<ConfigurationOption>): (s: seq<nat>)
    ensures |s| == |opts|
    ensures forall i :: 0 <= i < |opts| ==> s[i] == NeededSize(opts[i])
  {
    seq(|opts|, i requires 0 <= i < |opts| => NeededSize(opts[i]))
  }

  /** Every option with its dirty bit cleared. */
  function ClearDirty(opts: seq<ConfigurationOption>): (r: seq<ConfigurationOption>)
    ensures |r| == |opts|
    ensures forall i :: 0 <= i < |opts| ==> r[i] == opts[i].(dirty := false)
  {
    seq(|opts|, i requires 0 <= i < |opts| => opts[i].(dirty := false))
  }

  /** Clearing the dirty bits leaves the layout alone. */
  lemma ClearDirtyKeepsSizes(opts: seq<ConfigurationOption>)
    ensures Sizes(ClearDirty(opts)) == Sizes(opts)
  {
  }

  /** Bytes left before the next 16-byte boundary. */
  function Remaining(cursor: nat): nat
  {
    AlignUp16(cursor) - cursor
  }

  /** The cursor after the padding step for a value of `needed` bytes:
      it moves to the boundary only when the value does not fit before it. */
  function PadFor(cursor: nat, needed: nat): (r: nat)
    ensures cursor <= r <= AlignUp16(cursor)
  {
    if Remaining(cursor) < needed then cursor + Remaining(cursor) else cursor
  }

  /** The running byte cursor of the layout: entry i is the cursor before
      value i, and each value moves it by its padding and its own size. */
  function Cursors(sizes: seq<nat>): (c: seq<nat>)
    ensures |c| == |sizes| + 1 && c[0] == 0
    decreases |sizes|
  {
    if |sizes| == 0 then [0]
    else
      var prev := Cursors(sizes[..|sizes| - 1]);
      prev + [PadFor(prev[|sizes| - 1], sizes[|sizes| - 1]) + sizes[|sizes| - 1]]
  }

  /** Value i moves the cursor by its padding and its own size. */
  lemma {:induction false} CursorsStep(sizes: seq<nat>, i: nat)
    requires i < |sizes|
    ensures Cursors(sizes)[i + 1] == PadFor(Cursors(sizes)[i], sizes[i]) + sizes[i]
    decreases |sizes|
  {
    if i < |sizes| - 1 {
      var init := sizes[..|sizes| - 1];
      CursorsStep(init, i);
      assert init[i] == sizes[i];
    }
  }

  /** The bytes the values take, padding included, before rounding. */
  function LayoutEnd(sizes: seq<nat>): nat
  {
    Cursors(sizes)[|sizes|]
  }

  /** Where the declaration order places value i in the constant buffer. */
  function SlotOffset(sizes: seq<nat>, i: nat): nat
    requires i < |sizes|
  {
    PadFor(Cursors(sizes)[i], sizes[i])
  }

  /** Where the upload loop as written copies value i: the cursor before padding. */
  function WriteCursor(sizes: seq<nat>, i: nat): nat
    requires i < |sizes|
  {
    Cursors(sizes)[i]
  }

  /** The padding step is exactly what keeps a value of 1..16 bytes inside one
      16-byte row: the padded cursor does not straddle, and every earlier
      offset from the cursor on would. */
  lemma PadForIsFirstNonStraddling(cursor: nat, needed: nat)
    requires 1 <= needed <= 16
    ensures PadFor(cursor, needed) / 16 == (PadFor(cursor, needed) + needed - 1) / 16
    ensures forall o :: cursor <= o < PadFor(cursor, needed) ==> o / 16 != (o + needed - 1) / 16
  {
    var q := cursor / 16;
    if cursor % 16 == 0 {
      assert AlignUp16(cursor) == cursor;
    } else {
      assert AlignUp16(cursor) == 16 * q + 16;
      forall o | cursor <= o < PadFor(cursor, needed)
        ensures o / 16 != (o + needed - 1) / 16
      {
        assert o / 16 == q;
        assert o + needed - 1 >= 16 * q + 16;
      }
    }
  }

  /** No option of at most 16 bytes crosses a 16-byte boundary in the layout. */
  lemma NoStraddle(sizes: seq<nat>, i: nat)
    requires i < |sizes| && 1 <= sizes[i] <= 16
    ensures SlotOffset(sizes, i) / 16 == (SlotOffset(sizes, i) + sizes[i] - 1) / 16
  {
    PadForIsFirstNonStraddling(Cursors(sizes)[i], sizes[i]);
  }

  /** The cursor only grows. */
  lemma {:induction false} CursorsMonotone(sizes: seq<nat>, i: nat, j: nat)
    requires i <= j <= |sizes|
    ensures Cursors(sizes)[i] <= Cursors(sizes)[j]
    decreases j - i
  {
    if i < j {
      CursorsMonotone(sizes, i, j - 1);
      CursorsStep(sizes, j - 1);
    }
  }

  lemma PadForLaneAligned(cursor: nat, needed: nat)
    requires cursor % 4 == 0
    ensures PadFor(cursor, needed) % 4 == 0
  {
    var r := AlignUp16(cursor);
    assert r % 4 == 0 by {
      assert r == 16 * (r / 16);
    }
  }

  /** With sizes that are multiples of four every cursor is a lane boundary. */
  lemma {:induction false} CursorsLaneAligned(sizes: seq<nat>, i: nat)
    requires forall j :: 0 <= j < |sizes| ==> sizes[j] % 4 == 0
    requires i <= |sizes|
    ensures Cursors(sizes)[i] % 4 == 0
  {
    if i > 0 {
      var c := Cursors(sizes);
      CursorsLaneAligned(sizes, i - 1);
      CursorsStep(sizes, i - 1);
      PadForLaneAligned(c[i - 1], sizes[i - 1]);
      SumLaneAligned(PadFor(c[i - 1], sizes[i - 1]), sizes[i - 1]);
    }
  }

  lemma SumLaneAligned(a: nat, b: nat)
    requires a % 4 == 0 && b % 4 == 0
    ensures (a + b) % 4 == 0
  {
    assert a + b == 4 * (a / 4 + b / 4);
  }

  /** The declared slot of value i starts at or after the cursor before it,
      ends at the cursor after it, and lies inside the rounded buffer. */
  lemma SlotInsideBuffer(sizes: seq<nat>, i: nat)
    requires i < |sizes|
    ensures WriteCursor(sizes, i) <= SlotOffset(sizes, i)
    ensures SlotOffset(sizes, i) + sizes[i] == Cursors(sizes)[i + 1]
    ensures SlotOffset(sizes, i) + sizes[i] <= LayoutEnd(sizes) <= AlignUp16(LayoutEnd(sizes))
  {
    CursorsStep(sizes, i);
    CursorsMonotone(sizes, i + 1, |sizes|);
  }

  /** A value of non-zero size means a non-zero buffer. */
  lemma NonEmptyValueNonEmptyLayout(sizes: seq<nat>, i: nat)
    requires i < |sizes| && sizes[i] > 0
    ensures LayoutEnd(sizes) >= SlotOffset(sizes, i) + sizes[i] > 0
  {
    SlotInsideBuffer(sizes, i);
  }

  /** The upload as written copies value i where the shader reads it exactly
      when no padding was inserted in front of it: the cursor sits on a row
      boundary or the value fits in what is left of the row. */
  lemma WriteCursorIsSlotIff(sizes: seq<nat>, i: nat)
    requires i < |sizes|
    ensures WriteCursor(sizes, i) == SlotOffset(sizes, i)
        <==> (Cursors(sizes)[i] % 16 == 0 || sizes[i] <= Remaining(Cursors(sizes)[i]))
  {
    PadForStaysIff(Cursors(sizes)[i], sizes[i]);
  }

  lemma PadForStaysIff(cursor: nat, needed: nat)
    ensures PadFor(cursor, needed) == cursor <==> (cursor % 16 == 0 || needed <= Remaining(cursor))
  {
    if cursor % 16 == 0 {
      assert AlignUp16(cursor) == cursor;
    } else {
      assert AlignUp16(cursor) != cursor;
    }
  }

  /** A float3 followed by a float2: the shader reads the float2 at byte 16,
      the upload as written copies it to byte 12. */
  lemma UploadMisplacesPaddedValue(sizes: seq<nat>)
    requires |sizes| == 2 && sizes[0] == 12 && sizes[1] == 8
    ensures Cursors(sizes) == [0, 12, 24]
    ensures SlotOffset(sizes, 0) == 0 && WriteCursor(sizes, 0) == 0
    ensures SlotOffset(sizes, 1) == 16
    ensures WriteCursor(sizes, 1) == 12
  {
    var c := Cursors(sizes);
    assert AlignUp16(0) == 0;
    CursorsStep(sizes, 0);
    assert c[1] == 12;
    assert AlignUp16(12) == 16;
    CursorsStep(sizes, 1);
    assert c[2] == 24;
  }

  // ---------------------------------------------------------------------------
  // The option upload as a function of the buffer contents
  // ---------------------------------------------------------------------------

  /** Byte offset at which the upload copies value i: after the padding step
      (as the declarations place it) or before it (as the upload is written). */
  function UploadAt(sizes: seq<nat>, i: nat, afterPadding: bool): nat
    requires i < |sizes|
  {
    if afterPadding then SlotOffset(sizes, i) else WriteCursor(sizes, i)
  }

  /** Each copy starts on a lane, after everything laid out before it, and its
      lanes fit in a buffer of the rounded layout size. */
  lemma UploadStepFits(sizes: seq<nat>, i: nat, afterPadding: bool, laneCount: nat)
    requires i < |sizes| && forall j :: 0 <= j < |sizes| ==> sizes[j] % 4 == 0
    requires AlignUp16(LayoutEnd(sizes)) <= 4 * laneCount
    ensures UploadAt(sizes, i, afterPadding) % 4 == 0
    ensures Cursors(sizes)[i] <= UploadAt(sizes, i, afterPadding)
    ensures UploadAt(sizes, i, afterPadding) + sizes[i] <= Cursors(sizes)[i + 1]
    ensures UploadAt(sizes, i, afterPadding) / 4 + sizes[i] / 4 <= laneCount
  {
    SlotInsideBuffer(sizes, i);
    CursorsLaneAligned(sizes, i);
    PadForLaneAligned(Cursors(sizes)[i], sizes[i]);
    LaneBound(UploadAt(sizes, i, afterPadding), sizes[i], AlignUp16(LayoutEnd(sizes)), laneCount);
  }

  lemma LaneBound(at: nat, size: nat, total: nat, laneCount: nat)
    requires at % 4 == 0 && size % 4 == 0 && at + size <= total <= 4 * laneCount
    ensures at / 4 + size / 4 <= laneCount
  {
  }

  /** One step of the upload loop's cursor arithmetic: where option i's lanes
      go and what the cursor becomes. */
  lemma UploadCursorStep(opts: seq<ConfigurationOption>, i: nat, cursor: nat, padding: nat, afterPadding: bool)
    requires i < |opts| && cursor == Cursors(Sizes(opts))[i]
    requires var needed := |OptionLanes(opts[i])| * 4;
             padding == if AlignUp16(cursor) - cursor < needed then AlignUp16(cursor) - cursor else 0
    ensures (if afterPadding then cursor + padding else cursor) == UploadAt(Sizes(opts), i, afterPadding)
    ensures (if afterPadding then cursor + padding else cursor) / 4 == LaneOffsets(opts, afterPadding)[i]
    ensures cursor + padding + |OptionLanes(opts[i])| * 4 == Cursors(Sizes(opts))[i + 1]
  {
    CursorsStep(Sizes(opts), i);
  }

  /** buf with the lanes written from index base on. */
  function Overwrite(buf: seq<Lane>, base: nat, lanes: seq<Lane>): (r: seq<Lane>)
    requires base + |lanes| <= |buf|
    ensures |r| == |buf|
    ensures forall q :: 0 <= q < |buf| ==> r[q] == if base <= q < base + |lanes| then lanes[q - base] else buf[q]
  {
    buf[..base] + lanes + buf[base + |lanes|..]
  }

  lemma OverwriteNothing(buf: seq<Lane>, base: nat, lanes: seq<Lane>)
    requires base <= |buf| && lanes == []
    ensures Overwrite(buf, base, lanes) == buf
  {
    assert buf[..base] + buf[base..] == buf;
  }

  /** buf with vals[j] written from lane offs[j] on, for j = 0 .. n-1 in this order. */
  function Scatter(buf: seq<Lane>, offs: seq<nat>, vals: seq<seq<Lane>>, n: nat): (r: seq<Lane>)
    requires n <= |offs| == |vals|
    requires forall j :: 0 <= j < |offs| ==> offs[j] + |vals[j]| <= |buf|
    ensures |r| == |buf|
    decreases n
  {
    if n == 0 then buf else Overwrite(Scatter(buf, offs, vals, n - 1), offs[n - 1], vals[n - 1])
  }

  /** The copies are in bounds and each one ends before every later one starts. */
  predicate InOrder(offs: seq<nat>, vals: seq<seq<Lane>>, laneCount: nat)
  {
    && |offs| == |vals|
    && (forall j :: 0 <= j < |offs| ==> offs[j] + |vals[j]| <= laneCount)
    && (forall j, m :: 0 <= j < m < |offs| ==> offs[j] + |vals[j]| <= offs[m])
  }

  /** With copies in order, each copy survives all later ones. */
  lemma {:induction false} ScatterPlaces(buf: seq<Lane>, offs: seq<nat>, vals: seq<seq<Lane>>, n: nat, j: nat)
    requires InOrder(offs, vals, |buf|) && j < n <= |offs|
    ensures forall k :: 0 <= k < |vals[j]| ==> Scatter(buf, offs, vals, n)[offs[j] + k] == vals[j][k]
    decreases n
  {
    var r := Scatter(buf, offs, vals, n);
    if j < n - 1 {
      var prev := Scatter(buf, offs, vals, n - 1);
      ScatterPlaces(buf, offs, vals, n - 1, j);
      assert r == Overwrite(prev, offs[n - 1], vals[n - 1]);
      assert offs[j] + |vals[j]| <= offs[n - 1];
      forall k | 0 <= k < |vals[j]|
        ensures r[offs[j] + k] == vals[j][k]
      {
        assert r[offs[j] + k] == prev[offs[j] + k];
      }
    }
  }

  /** A lane no copy reaches keeps its value. */
  lemma {:induction false} ScatterKeepsBeyond(buf: seq<Lane>, offs: seq<nat>, vals: seq<seq<Lane>>, n: nat, q: nat)
    requires InOrder(offs, vals, |buf|) && n <= |offs| && q < |buf|
    requires forall j :: 0 <= j < n ==> offs[j] + |vals[j]| <= q
    ensures Scatter(buf, offs, vals, n)[q] == buf[q]
    decreases n
  {
    if n > 0 {
      ScatterKeepsBeyond(buf, offs, vals, n - 1, q);
    }
  }

  /** The lane at which each option's copy starts. */
  function LaneOffsets(opts: seq<ConfigurationOption>, afterPadding: bool): (r: seq<nat>)
    ensures |r| == |opts|
    ensures forall i :: 0 <= i < |opts| ==> r[i] == UploadAt(Sizes(opts), i, afterPadding) / 4
  {
    seq(|opts|, i requires 0 <= i < |opts| => UploadAt(Sizes(opts), i, afterPadding) / 4)
  }

  function LaneValues(opts: seq<ConfigurationOption>): (r: seq<seq<Lane>>)
    ensures |r| == |opts|
    ensures forall i :: 0 <= i < |opts| ==> r[i] == OptionLanes(opts[i])
  {
    seq(|opts|, i requires 0 <= i < |opts| => OptionLanes(opts[i]))
  }

  /** Both uploads copy in order inside a buffer of the rounded layout size. */
  lemma LayoutInOrder(opts: seq<ConfigurationOption>, afterPadding: bool, laneCount: nat)
    requires AlignUp16(LayoutEnd(Sizes(opts))) <= 4 * laneCount
    ensures InOrder(LaneOffsets(opts, afterPadding), LaneValues(opts), laneCount)
  {
    var s := Sizes(opts);
    var offs := LaneOffsets(opts, afterPadding);
    var vals := LaneValues(opts);
    forall j | 0 <= j < |opts|
      ensures offs[j] + |vals[j]| <= laneCount
    {
      UploadStepFits(s, j, afterPadding, laneCount);
    }
    forall j, m | 0 <= j < m < |opts|
      ensures offs[j] + |vals[j]| <= offs[m]
    {
      UploadStepFits(s, j, afterPadding, laneCount);
      UploadStepFits(s, m, afterPadding, laneCount);
      CursorsMonotone(s, j + 1, m);
      LaneOrder(UploadAt(s, j, afterPadding), s[j], UploadAt(s, m, afterPadding));
    }
  }

  lemma LaneOrder(a: nat, size: nat, b: nat)
    requires a % 4 == 0 && size % 4 == 0 && b % 4 == 0 && a + size <= b
    ensures a / 4 + size / 4 <= b / 4
  {
  }

  /** The buffer after the upload has copied every option into buf. */
  function UploadImage(buf: seq<Lane>, opts: seq<ConfigurationOption>, afterPadding: bool): (r: seq<Lane>)
    requires AlignUp16(LayoutEnd(Sizes(opts))) <= 4 * |buf|
    ensures |r| == |buf|
  {
    LayoutInOrder(opts, afterPadding, |buf|);
    Scatter(buf, LaneOffsets(opts, afterPadding), LaneValues(opts), |opts|)
  }

  /** Option j's lanes end up where the upload put them. */
  lemma UploadImagePlaces(buf: seq<Lane>, opts: seq<ConfigurationOption>, afterPadding: bool, j: nat)
    requires AlignUp16(LayoutEnd(Sizes(opts))) <= 4 * |buf| && j < |opts|
    ensures var at := UploadAt(Sizes(opts), j, afterPadding) / 4;
            var lanes := OptionLanes(opts[j]);
            && at + |lanes| <= |buf|
            && forall k :: 0 <= k < |lanes| ==> UploadImage(buf, opts, afterPadding)[at + k] == lanes[k]
  {
    LayoutInOrder(opts, afterPadding, |buf|);
    ScatterPlaces(buf, LaneOffsets(opts, afterPadding), LaneValues(opts), |opts|, j);
  }

  /** Lanes from the end of the layout on keep their previous contents. */
  lemma UploadImageKeepsTail(buf: seq<Lane>, opts: seq<ConfigurationOption>, afterPadding: bool, q: nat)
    requires AlignUp16(LayoutEnd(Sizes(opts))) <= 4 * |buf|
    requires LayoutEnd(Sizes(opts)) / 4 <= q < |buf|
    ensures UploadImage(buf, opts, afterPadding)[q] == buf[q]
  {
    var s := Sizes(opts);
    var offs := LaneOffsets(opts, afterPadding);
    var vals := LaneValues(opts);
    LayoutInOrder(opts, afterPadding, |buf|);
    CursorsLaneAligned(s, |s|);
    forall j | 0 <= j < |opts|
      ensures offs[j] + |vals[j]| <= q
    {
      UploadStepFits(s, j, afterPadding, |buf|);
      CursorsMonotone(s, j + 1, |s|);
      LaneOrder(UploadAt(s, j, afterPadding), s[j], LayoutEnd(s));
    }
    ScatterKeepsBeyond(buf, offs, vals, |opts|, q);
  }

  /** When no value needed padding in front of it, the upload as written and
      the corrected one produce the same buffer. */
  lemma UploadVariantsAgreeWithoutPadding(buf: seq<Lane>, opts: seq<ConfigurationOption>)
    requires AlignUp16(LayoutEnd(Sizes(opts))) <= 4 * |buf|
    requires forall i :: 0 <= i < |opts| ==> WriteCursor(Sizes(opts), i) == SlotOffset(Sizes(opts), i)
    ensures UploadImage(buf, opts, false) == UploadImage(buf, opts, true)
  {
    assert LaneOffsets(opts, false) == LaneOffsets(opts, true);
  }

  /** A float3 option followed by a float2 option. */
  function Float3ThenFloat2(a: Float32, b: Float32, c: Float32, d: Float32, e: Float32): seq<ConfigurationOption>
  {
    [ConfigurationOption("v", OptionFloat, false, [], [a, b, c], true),
     ConfigurationOption("w", OptionFloat, false, [], [d, e], true)]
  }

  /** The same two options in lanes: 0 and 3 as written, 0 and 4 after padding. */
  lemma TwelveThenEightOffsets(opts: seq<ConfigurationOption>)
    requires Sizes(opts) == [12, 8]
    ensures LaneOffsets(opts, false) == [0, 3]
    ensures LaneOffsets(opts, true) == [0, 4]
  {
    var sizes := Sizes(opts);
    UploadMisplacesPaddedValue(sizes);
    var written := LaneOffsets(opts, false);
    assert written[0] == UploadAt(sizes, 0, false) / 4;
    assert written[1] == UploadAt(sizes, 1, false) / 4;
    var padded := LaneOffsets(opts, true);
    assert padded[0] == UploadAt(sizes, 0, true) / 4;
    assert padded[1] == UploadAt(sizes, 1, true) / 4;
  }

  lemma Float3ThenFloat2Lanes(a: Float32, b: Float32, c: Float32, d: Float32, e: Float32)
    ensures LaneValues(Float3ThenFloat2(a, b, c, d, e))
            == [[FloatLane(a), FloatLane(b), FloatLane(c)], [FloatLane(d), FloatLane(e)]]
  {
    var lanes := LaneValues(Float3ThenFloat2(a, b, c, d, e));
    assert lanes[0] == [FloatLane(a), FloatLane(b), FloatLane(c)];
    assert lanes[1] == [FloatLane(d), FloatLane(e)];
  }

  lemma Float3ThenFloat2Layout(a: Float32, b: Float32, c: Float32, d: Float32, e: Float32)
    ensures var opts := Float3ThenFloat2(a, b, c, d, e);
            && Sizes(opts) == [12, 8]
            && LayoutEnd(Sizes(opts)) == 24 && AlignUp16(24) == 32
            && LaneOffsets(opts, false) == [0, 3]
            && LaneOffsets(opts, true) == [0, 4]
            && LaneValues(opts) == [[FloatLane(a), FloatLane(b), FloatLane(c)], [FloatLane(d), FloatLane(e)]]
  {
    var opts := Float3ThenFloat2(a, b, c, d, e);
    assert |opts[0].floatValues| == 3 && |opts[1].floatValues| == 2;
    assert Sizes(opts) == [12, 8];
    UploadMisplacesPaddedValue(Sizes(opts));
    TwelveThenEightOffsets(Float3ThenFloat2(a, b, c, d, e));
    Float3ThenFloat2Lanes(a, b, c, d, e);
  }

  /** The shader reads the float2 of Float3ThenFloat2 from lanes 4 and 5.  The
      upload as written puts its second component in lane 4 and leaves lane 5
      as the discarded mapping `buf` held it; the corrected upload puts both
      components there. */
  lemma UploadAsWrittenMisplacesFloat2(a: Float32, b: Float32, c: Float32, d: Float32, e: Float32, buf: seq<Lane>)
    requires |buf| == 8
    ensures var opts := Float3ThenFloat2(a, b, c, d, e);
            && AlignUp16(LayoutEnd(Sizes(opts))) == 4 * |buf|
            && UploadImage(buf, opts, false)[4] == FloatLane(e)
            && UploadImage(buf, opts, false)[5] == buf[5]
            && UploadImage(buf, opts, true)[4] == FloatLane(d)
            && UploadImage(buf, opts, true)[5] == FloatLane(e)
  {
    var opts := Float3ThenFloat2(a, b, c, d, e);
    Float3ThenFloat2Layout(a, b, c, d, e);
    var offs := LaneOffsets(opts, false);
    var vals := LaneValues(opts);
    LayoutInOrder(opts, false, |buf|);
    LayoutInOrder(opts, true, |buf|);
    ScatterPlaces(buf, offs, vals, 2, 1);
    ScatterPlaces(buf, LaneOffsets(opts, true), vals, 2, 1);
    ScatterKeepsBeyond(buf, offs, vals, 2, 5);
  }

  /** Byte size of paramsStruct: u32, int, two floats and two float[4], no padding. */
  const ParamsStructSize: nat := 4 + 4 + 4 + 4 + 16 + 16

  /** The frame-parameter buffer size `(sizeof(paramsStruct) + 15) & ~15`. */
  function ParamsBufferSize(): (r: nat)
    ensures r % 16 == 0 && ParamsStructSize <= r < ParamsStructSize + 16
  {
    AlignUp16(ParamsStructSize)
  }
}
