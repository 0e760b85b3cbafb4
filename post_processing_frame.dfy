/** What one frame of the post-processing chain does at the device, as a trace
    of abstract calls: the intermediate targets, and per stage the output
    binding, the viewport, the shader, the dependency inputs and the draw. */
module PostProcessingFrame {
  import opened Common
  import opened PostProcessingShader

  datatype Rect = Rect(left: int, top: int, right: int, bottom: int)
  {
    function Width(): int { right - left }
    function Height(): int { bottom - top }
  }

  /** An intermediate render target; ids tell apart the textures created over time. */
  datatype Texture = Texture(id: nat, width: int, height: int)

  datatype View = SourceView | SourceDepthView | StageView(target: Texture)
  datatype RenderTarget = SavedOutput | StageTarget(target: Texture)
  datatype Viewport = Viewport(x: real, y: real, width: real, height: real)
  datatype PixelShader = PixelShader(source: PixelShaderSource, entryPoint: Option<string>)

  /** The quad's texture coordinates, compared as opaque values. */
  datatype QuadUV = QuadUV(u0: real, u1: real, v0: real, v1: real)

  datatype Event =
    | ReleaseTarget(released: Texture)
    | CreateTarget(created: Texture)
    | CreateConstantBuffer(byteSize: nat)
    | AppendQuad(uv: QuadUV)
    | BindViews(startSlot: nat, views: seq<Option<View>>)
    | SetRenderTarget(target: RenderTarget)
    | SetViewport(viewport: Viewport)
    | SetPixelShader(shader: Option<PixelShader>)
    | Draw(vertexCount: nat, firstVertex: int)

  /** `(u32)(dim * scale)`: the product truncated toward zero. */
  function Scaled(dim: int, scale: real): (r: int)
    ensures var p := (dim as real) * scale;
            (p >= 0.0 ==> r as real <= p < r as real + 1.0) && (p < 0.0 ==> r as real - 1.0 < p <= r as real)
  {
    var p := (dim as real) * scale;
    if p < 0.0 then -((-p).Floor) else p.Floor
  }

  function TargetWidth(s: Stage, srcWidth: int, dstWidth: int): int
  {
    Scaled(if s.useSourceResolution then srcWidth else dstWidth, s.outputScale)
  }

  function TargetHeight(s: Stage, srcHeight: int, dstHeight: int): int
  {
    Scaled(if s.useSourceResolution then srcHeight else dstHeight, s.outputScale)
  }

  /** The targets a reallocation creates: one per non-terminal stage, with fresh ids. */
  function NewTargets(stages: seq<Stage>, firstId: nat, src: Rect, dst: Rect): (ts: seq<Texture>)
    requires |stages| >= 1
    ensures |ts| == |stages| - 1
  {
    seq(|stages| - 1, i requires 0 <= i < |stages| - 1 =>
      Texture(firstId + i, TargetWidth(stages[i], src.Width(), dst.Width()),
                           TargetHeight(stages[i], src.Height(), dst.Height())))
  }

  function Releases(ts: seq<Texture>): (es: seq<Event>)
    ensures |es| == |ts|
  {
    seq(|ts|, i requires 0 <= i < |ts| => ReleaseTarget(ts[i]))
  }

  function Creates(ts: seq<Texture>): (es: seq<Event>)
    ensures |es| == |ts|
  {
    seq(|ts|, i requires 0 <= i < |ts| => CreateTarget(ts[i]))
  }

  lemma ReleasesPrefix(ts: seq<Texture>, i: nat)
    requires i < |ts|
    ensures Releases(ts[..i + 1]) == Releases(ts[..i]) + [ReleaseTarget(ts[i])]
  {
    assert Releases(ts[..i + 1])[i] == ReleaseTarget(ts[i]);
  }

  lemma CreatesLast(ts: seq<Texture>, t: Texture)
    ensures Creates(ts + [t]) == Creates(ts) + [CreateTarget(t)]
  {
    assert Creates(ts + [t])[|ts|] == CreateTarget(t);
  }

  /** Everything the stage loop reads. */
  datatype FrameContext = FrameContext(
    stages: seq<Stage>,
    targets: seq<Texture>,
    shaders: seq<Option<PixelShader>>,
    srcWidth: int, srcHeight: int, dstWidth: int, dstHeight: int,
    dst: Rect,
    outputBound: bool,
    firstVertex: int)

  predicate ContextValid(c: FrameContext)
  {
    && WellFormedStages(c.stages)
    && |c.shaders| == |c.stages|
    && (|c.stages| > 1 ==> |c.targets| == |c.stages| - 1)
  }

  function FinalStage(c: FrameContext): nat
    requires |c.stages| >= 1
  {
    |c.stages| - 1
  }

  /** Stage i reads the outputs of its dependencies only when it is not the
      first stage and there is more than one stage. */
  predicate ReadsInputs(c: FrameContext, i: nat)
    requires |c.stages| >= 1
  {
    i > 0 && FinalStage(c) > 0
  }

  function DestinationViewport(dst: Rect): Viewport
  {
    Viewport(dst.left as real, dst.top as real, dst.Width() as real, dst.Height() as real)
  }

  /** The viewport of a non-terminal stage: its unrounded scaled size at the origin. */
  function StageViewport(c: FrameContext, i: nat): Viewport
    requires i < |c.stages|
  {
    var s := c.stages[i];
    Viewport(0.0, 0.0,
             (if s.useSourceResolution then c.srcWidth else c.dstWidth) as real * s.outputScale,
             (if s.useSourceResolution then c.srcHeight else c.dstHeight) as real * s.outputScale)
  }

  /** Binding the output: the terminal stage draws into the saved output target
      over the destination rectangle; the others into their own target. */
  function OutputEvents(c: FrameContext, i: nat): seq<Event>
    requires ContextValid(c) && i < |c.stages|
  {
    if i == FinalStage(c) then
      (if FinalStage(c) > 0 && c.outputBound then [SetRenderTarget(SavedOutput)] else [])
      + [SetViewport(DestinationViewport(c.dst))]
    else
      [SetRenderTarget(StageTarget(c.targets[i])), SetViewport(StageViewport(c, i))]
  }

  function InputViews(c: FrameContext, i: nat): (vs: seq<Option<View>>)
    requires ContextValid(c) && 0 < i < |c.stages| && FinalStage(c) > 0
    ensures |vs| == |c.stages[i].inputs|
  {
    var ins := c.stages[i].inputs;
    seq(|ins|, k requires 0 <= k < |ins| => Some(StageView(c.targets[ins[k]])))
  }

  function NoViews(n: nat): (vs: seq<Option<View>>)
    ensures |vs| == n && forall k :: 0 <= k < n ==> vs[k] == None
  {
    seq(n, k => None)
  }

  /** The input texture slots of the stage shaders start here (t11). */
  const InputSlot: nat := 11
  /** The source colour and depth textures sit in t9 and t10. */
  const SourceSlot: nat := 9

  /** The device calls of stage i. */
  function StageEvents(c: FrameContext, i: nat): seq<Event>
    requires ContextValid(c) && i < |c.stages|
  {
    OutputEvents(c, i)
    + [SetPixelShader(c.shaders[i])]
    + (if ReadsInputs(c, i) then [BindViews(InputSlot, InputViews(c, i))] else [])
    + [Draw(4, c.firstVertex)]
    + (if ReadsInputs(c, i) then [BindViews(InputSlot, NoViews(|c.stages[i].inputs|))] else [])
  }

  /** The device calls of stages 0 .. n-1, in index order. */
  function StageLoopEvents(c: FrameContext, n: nat): seq<Event>
    requires ContextValid(c) && n <= |c.stages|
  {
    if n == 0 then [] else StageLoopEvents(c, n - 1) + StageEvents(c, n - 1)
  }

  /** Stages run in index order: the calls of the first m stages are a prefix
      of the calls of the first n, and stage m's calls follow them directly. */
  lemma {:induction false} StagesRunInOrder(c: FrameContext, m: nat, n: nat)
    requires ContextValid(c) && m < n <= |c.stages|
    ensures var pre := StageLoopEvents(c, m);
            var es := StageLoopEvents(c, n);
            var cur := StageEvents(c, m);
            |pre| + |cur| <= |es| && es[..|pre|] == pre && es[|pre|..|pre| + |cur|] == cur
    decreases n - m
  {
    var pre := StageLoopEvents(c, m);
    var cur := StageEvents(c, m);
    if n == m + 1 {
      assert StageLoopEvents(c, n) == pre + cur;
      TakeOfAppend(pre, cur, |pre|);
      assert (pre + cur)[|pre|..|pre| + |cur|] == cur;
    } else {
      StagesRunInOrder(c, m, n - 1);
      var mid := StageLoopEvents(c, n - 1);
      assert StageLoopEvents(c, n) == mid + StageEvents(c, n - 1);
      TakeOfAppend(mid, StageEvents(c, n - 1), |pre|);
      SliceOfAppend(mid, StageEvents(c, n - 1), |pre|, |pre| + |cur|);
    }
  }

  lemma TakeOfAppend<T>(a: seq<T>, b: seq<T>, j: nat)
    requires j <= |a|
    ensures (a + b)[..j] == a[..j]
  {
  }

  lemma SliceOfAppend<T>(a: seq<T>, b: seq<T>, i: nat, j: nat)
    requires i <= j <= |a|
    ensures (a + b)[i..j] == a[i..j]
  {
  }

  /** The terminal stage's calls do not depend on its own resolution policy or
      scale: it always draws over the destination rectangle. */
  lemma TerminalStageIgnoresPolicy(c: FrameContext, useSource: bool, scale: real)
    requires ContextValid(c) && scale >= 0.0
    ensures var f := FinalStage(c);
            var s := c.stages[f];
            var c' := c.(stages := c.stages[f := s.(useSourceResolution := useSource, outputScale := scale)]);
            ContextValid(c') && StageEvents(c', f) == StageEvents(c, f)
  {
  }

  /** Each stage issues exactly one draw, of four vertices from the quad's
      offset.  Dependency inputs are bound just before it and the same slots are
      cleared just after it; a stage that reads no inputs binds nothing. */
  lemma InputsBoundAroundDraw(c: FrameContext, i: nat)
    requires ContextValid(c) && i < |c.stages|
    ensures var es := StageEvents(c, i);
            var n := |OutputEvents(c, i)| + 1;
            var d := if ReadsInputs(c, i) then n + 1 else n;
            && d < |es| && es[d] == Draw(4, c.firstVertex)
            && (forall k :: 0 <= k < |es| && k != d ==> !es[k].Draw?)
            && if ReadsInputs(c, i) then
                 |es| == n + 3
                 && es[n] == BindViews(InputSlot, InputViews(c, i))
                 && es[n + 2] == BindViews(InputSlot, NoViews(|InputViews(c, i)|))
               else
                 |es| == n + 1
                 && forall k :: 0 <= k < |es| ==> !es[k].BindViews?
  {
    var out := OutputEvents(c, i);
    assert forall k :: 0 <= k < |out| ==> out[k].SetRenderTarget? || out[k].SetViewport?;
  }
}
