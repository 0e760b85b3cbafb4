/** The DX11 post-processing object (Source/Core/VideoBackends/DX11/PostProcessing.cpp):
    it rebuilds the stage shaders when the selected effect changes, lays out
    and uploads the user options, and runs the stages of a frame. */
module PostProcessing {
  import opened Common
  import opened PostProcessingLayout
  import opened PostProcessingShader
  import opened PostProcessingFrame

  /** The user's post-processing shader selection (the `sPostProcessingShader`
      setting of the edited and of the active video configuration). */
  class ShaderSelection {
    var postProcessingShader: string

    constructor (name: string)
      ensures postProcessingShader == name
    {
      postProcessingShader := name;
    }
  }

  /** Whether a compile of the given source with the given entry point
      (None: the compiler's default) succeeds. */
  type Compiler = (PixelShaderSource, Option<string>) -> bool

  /** The outcome of building the stage shaders: the sample count recorded,
      one shader per stage, and the two selected effect names. */
  datatype Built = Built(samples: int, shaders: seq<Option<PixelShader>>, configName: string, activeName: string)

  /** The options and the option buffer after a frame's upload, from the dirty
      flag dirty0 and the options opts0: when there was something to upload,
      the options are clean and the buffer holds the corrected upload over the
      discarded mapping; otherwise flag and options are untouched. */
  ghost predicate Uploaded(dirty0: bool, opts0: seq<ConfigurationOption>, discarded: seq<Lane>,
                           dirty: bool, opts: seq<ConfigurationOption>, contents: seq<Lane>)
  {
    if dirty0 && |opts0| > 0 then
      && !dirty && opts == ClearDirty(opts0)
      && AlignUp16(LayoutEnd(Sizes(opts0))) <= 4 * |discarded|
      && contents == UploadImage(discarded, opts0, true)
    else
      dirty == dirty0 && opts == opts0
  }

  class PostProcessor {
    /** The loaded effect configuration: its stages, its options and its name. */
    const stages: StageList
    var options: seq<ConfigurationOption>
    var configDirty: bool
    const shaderName: string

    var initialized: bool
    var prevSamples: int
    var prevDstWidth: int
    var prevDstHeight: int
    var prevSrcWidth: int
    var prevSrcHeight: int
    /** One intermediate target per non-terminal stage, once allocated. */
    var stageOutput: seq<Texture>
    /** One compiled shader per stage; None where compilation failed or was reset. */
    var pshader: seq<Option<PixelShader>>
    /** The option constant buffer, as 4-byte lanes. */
    var optionBuffer: array?<Lane>
    var vertexBufferObserver: bool
    var prevUV: QuadUV
    var vertexBufferOffset: int
    var nextTextureId: nat
    var trace: seq<Event>

    ghost predicate OptionBufferFits()
      reads this`optionBuffer, this`options
    {
      && (optionBuffer != null <==> |options| > 0 && LayoutEnd(Sizes(options)) > 0)
      && (optionBuffer != null ==> optionBuffer.Length * 4 == AlignUp16(LayoutEnd(Sizes(options))))
    }

    ghost predicate Valid()
      reads this`initialized, this`pshader, this`optionBuffer, this`options
    {
      initialized ==> |pshader| == |stages| && OptionBufferFits()
    }

    /** What the frame loop needs of a valid, initialized processor (the
        stages are well formed by their type): one shader slot per stage. */
    ghost predicate FrameReady()
      reads this`pshader
    {
      |pshader| == |stages|
    }

    ghost function Context(dst: Rect, outputBound: bool): FrameContext
      reads this`stageOutput, this`pshader, this`prevSrcWidth, this`prevSrcHeight,
            this`prevDstWidth, this`prevDstHeight, this`vertexBufferOffset
    {
      FrameContext(stages, stageOutput, pshader, prevSrcWidth, prevSrcHeight,
                   prevDstWidth, prevDstHeight, dst, outputBound, vertexBufferOffset)
    }

    /** With `outputs` as the intermediate targets, they must be rebuilt for this frame. */
    ghost predicate TargetsStale(outputs: seq<Texture>, src: Rect, dst: Rect)
      reads this`prevDstWidth, this`prevDstHeight, this`prevSrcWidth, this`prevSrcHeight
    {
      |stages| > 1 &&
        (prevDstWidth != dst.Width() || prevDstHeight != dst.Height()
         || prevSrcWidth != src.Width() || prevSrcHeight != src.Height()
         || |outputs| != |stages| - 1)
    }

    /** The built shaders match the selected effect and the sample count, so
        ApplyShader has nothing to do. */
    ghost predicate UpToDate(samples: int, active: ShaderSelection)
      reads this`initialized, this`prevSamples, active`postProcessingShader
    {
      initialized && shaderName == active.postProcessingShader && prevSamples == samples
    }

    /** The ring buffer wrapped or the texture coordinates changed since the
        quad was last appended. */
    ghost predicate QuadStale(uv: QuadUV)
      reads this`vertexBufferObserver, this`prevUV
    {
      vertexBufferObserver || prevUV != uv
    }

    /** The device call UpdateVertexQuad makes from the current state. */
    ghost function QuadEvents(uv: QuadUV): seq<Event>
      reads this`vertexBufferObserver, this`prevUV
    {
      if QuadStale(uv) then [AppendQuad(uv)] else []
    }

    constructor (stages: StageList, options: seq<ConfigurationOption>, configDirty: bool,
                 shaderName: string, initialUV: QuadUV)
      ensures Valid() && !initialized
      ensures this.stages == stages && this.options == options
      ensures this.configDirty == configDirty && this.shaderName == shaderName
      ensures prevSamples == 0 && prevDstWidth == 0 && prevDstHeight == 0
      ensures prevSrcWidth == 0 && prevSrcHeight == 0
      ensures stageOutput == [] && pshader == [] && optionBuffer == null
      ensures vertexBufferObserver
      ensures trace == [CreateConstantBuffer(ParamsBufferSize())]
    {
      this.stages := stages;
      this.options := options;
      this.configDirty := configDirty;
      this.shaderName := shaderName;
      initialized := false;
      prevSamples := 0;
      prevDstWidth, prevDstHeight, prevSrcWidth, prevSrcHeight := 0, 0, 0, 0;
      stageOutput := [];
      pshader := [];
      optionBuffer := null;
      vertexBufferObserver := true;
      prevUV := initialUV;
      vertexBufferOffset := 0;
      nextTextureId := 0;
      trace := [CreateConstantBuffer(ParamsBufferSize())];
    }

    /** Splices the entry points of all stages into the effect source and sizes
        the shader list to the stage count. */
    method InitStages(code: string) returns (result: string)
      modifies this`pshader
      ensures result == SpliceAll(code, stages, HlslEntry)
      ensures |pshader| == |stages|
      ensures forall i :: 0 <= i < |stages| ==>
                pshader[i] == if i < |old(pshader)| then old(pshader)[i] else None
    {
      ResizeShaders(|stages|);
      result := SpliceEntryPoints(code, stages, HlslEntry);
    }

    /** The splice loop of InitStages over the running text, with `insert`
        placed after each entry point's name. */
    static method SpliceEntryPoints(code: string, stages: seq<Stage>, insert: string) returns (result: string)
      ensures result == SpliceAll(code, stages, insert)
    {
      result := code;
      var k := 0;
      while k < |stages|
        invariant 0 <= k <= |stages|
        invariant SpliceAll(result, stages[k..], insert) == SpliceAll(code, stages, insert)
      {
        ghost var rest := stages[k..];
        assert rest[0] == stages[k] && rest[1..] == stages[k + 1..];
        var spliced := SpliceEntryPoint(result, stages[k].entryPoint, insert);
        if spliced.None? {
          SpliceAllStop(result, rest, insert);
          result := "";
          break;
        }
        SpliceAllStep(result, rest, insert, spliced.value);
        result := spliced.value;
        k := k + 1;
      }
    }

    /** One iteration of the splice loop: find `void <entry>`, then the first
        `{` after it, and replace what lies between with `insert`. */
    static method SpliceEntryPoint(code: string, entry: string, insert: string) returns (r: Option<string>)
      ensures r == SpliceEntry(code, entry, insert)
    {
      var pattern := EntryPattern(entry);
      var entryPointStart := Find(code, pattern, 0);
      if entryPointStart.None? {
        SpliceEntryNoEntry(code, entry, insert);
        return None;
      }
      var entryPointEnd := Find(code, "{", entryPointStart.value);
      if entryPointEnd.None? {
        SpliceEntryNoBrace(code, entry, insert, entryPointStart.value);
        return None;
      }
      SpliceEntryFound(code, entry, insert, entryPointStart.value, entryPointEnd.value);
      r := Some(code[..entryPointStart.value + |pattern|] + insert + code[entryPointEnd.value + 1..]);
    }

    /** `m_pshader.resize(n)`: keeps the first n shaders and adds empty ones. */
    method ResizeShaders(n: nat)
      modifies this`pshader
      ensures |pshader| == n
      ensures forall i :: 0 <= i < n ==> pshader[i] == if i < |old(pshader)| then old(pshader)[i] else None
    {
      if |pshader| >= n {
        pshader := pshader[..n];
      } else {
        pshader := pshader + seq(n - |pshader|, _ => None);
      }
    }

    /** Lays out the option declarations, allocates the option buffer and
        assembles the stage shader source. */
    method LoadShaderOptions(code: string) returns (src: PixelShaderSource)
      modifies this`optionBuffer, this`trace
      ensures src == PixelShaderSource(HeaderFor(prevSamples), OptionBlock(options), code)
      ensures OptionBufferFits()
      ensures optionBuffer != null ==> fresh(optionBuffer)
      ensures trace == old(trace)
                + (if optionBuffer != null then [CreateConstantBuffer(AlignUp16(LayoutEnd(Sizes(options))))] else [])
    {
      optionBuffer := null;
      var hlslOptions := "";
      if |options| > 0 {
        var bufferSize;
        hlslOptions, bufferSize := DeclareOptionBlock(options, OptionBufferOpen, OptionBufferClose);
        if bufferSize > 0 {
          bufferSize := AlignUp16(bufferSize);
          WholeLanes(bufferSize);
          optionBuffer := new Lane[bufferSize / 4];
          trace := trace + [CreateConstantBuffer(bufferSize)];
        }
      }
      var header := if prevSamples == 1 then PlainHeader else MsaaHeader(prevSamples);
      src := PixelShaderSource(header, hlslOptions, code);
    }

    /** The option block of LoadShaderOptions: the declarations between `open`
        and `close`, dropped again when the options take no bytes. */
    static method DeclareOptionBlock(opts: seq<ConfigurationOption>, open: string, close: string)
      returns (block: string, bufferSize: nat)
      requires |opts| > 0
      ensures block == OptionBlockWith(opts, open, close)
      ensures bufferSize == LayoutEnd(Sizes(opts))
    {
      block, bufferSize := DeclareOptions(opts, open);
      block := block + close;
      if bufferSize == 0 {
        block := "";
      }
    }

    /** The layout loop of LoadShaderOptions: appends one declaration per
        option to `text` and advances the byte cursor past the padding and the
        value, as the upload does. */
    static method DeclareOptions(opts: seq<ConfigurationOption>, text0: string) returns (text: string, bufferSize: nat)
      ensures text == text0 + Declarations(opts)
      ensures bufferSize == LayoutEnd(Sizes(opts))
    {
      text := text0;
      bufferSize := 0;
      var i := 0;
      while i < |opts|
        invariant 0 <= i <= |opts|
        invariant text == text0 + Declarations(opts[..i])
        invariant bufferSize == Cursors(Sizes(opts))[i]
      {
        DeclarationsPrefix(opts, i);
        AppendAssoc(text0, Declarations(opts[..i]), Declaration(opts[i]));
        var declaration, neededSize := DeclareOption(opts[i]);
        text := text + declaration;
        assert Cursors(Sizes(opts))[i + 1] == PadFor(bufferSize, neededSize) + neededSize by {
          CursorsStep(Sizes(opts), i);
        }
        var remaining := AlignUp16(bufferSize) - bufferSize;
        if remaining < neededSize {
          bufferSize := bufferSize + remaining;
        }
        bufferSize := bufferSize + neededSize;
        i := i + 1;
      }
      assert opts[..i] == opts;
    }

    /** The declaration line of one option and the bytes it takes. */
    static method DeclareOption(o: ConfigurationOption) returns (declaration: string, neededSize: nat)
      ensures declaration == Declaration(o) && neededSize == NeededSize(o)
    {
      if o.kind == OptionBool {
        declaration := "int     option_" + o.name + ";\n";
        neededSize := 4;
      } else if o.kind == OptionInteger {
        var count := |o.integerValues|;
        if count < 2 {
          declaration := "int     option_" + o.name + ";\n";
        } else {
          declaration := "int" + Decimal(count) + "   option_" + o.name + ";\n";
        }
        neededSize := 4 * count;
      } else {
        var count := |o.floatValues|;
        if count < 2 {
          declaration := "float   option_" + o.name + ";\n";
        } else {
          declaration := "float" + Decimal(count) + " option_" + o.name + ";\n";
        }
        neededSize := 4 * count;
      }
    }

    /** Releases every intermediate target and empties the list. */
    method ReleaseStageOutputs()
      modifies this`stageOutput, this`trace
      ensures stageOutput == []
      ensures trace == old(trace) + Releases(old(stageOutput))
    {
      var i := 0;
      while i < |stageOutput|
        invariant 0 <= i <= |stageOutput|
        invariant trace == old(trace) + Releases(stageOutput[..i])
        modifies this`trace
      {
        ReleasesPrefix(stageOutput, i);
        AppendAssoc(old(trace), Releases(stageOutput[..i]), [ReleaseTarget(stageOutput[i])]);
        trace := trace + [ReleaseTarget(stageOutput[i])];
        i := i + 1;
      }
      assert stageOutput[..i] == stageOutput;
      stageOutput := [];
    }

    /** Drops every compiled shader, keeping the list's length. */
    method ResetShaders()
      modifies this`pshader
      ensures |pshader| == |old(pshader)|
      ensures forall i :: 0 <= i < |pshader| ==> pshader[i] == None
    {
      var i := 0;
      while i < |pshader|
        invariant 0 <= i <= |pshader| == |old(pshader)|
        invariant forall j :: 0 <= j < i ==> pshader[j] == None
      {
        pshader := pshader[i := None];
        i := i + 1;
      }
    }

    /** The source every stage is compiled from, for the options opts. */
    ghost function StageSource(opts: seq<ConfigurationOption>, samples: int, baseCode: string): PixelShaderSource
    {
      PixelShaderSource(HeaderFor(samples), OptionBlock(opts), SpliceAll(baseCode, stages, HlslEntry))
    }

    /** Every stage's entry point compiles from src. */
    ghost predicate AllCompile(src: PixelShaderSource, compiler: Compiler)
    {
      forall i :: 0 <= i < |stages| ==> compiler(src, Some(stages[i].entryPoint))
    }

    ghost function OptionBufferEvents(): seq<Event>
      reads this`options
    {
      if |options| > 0 && LayoutEnd(Sizes(options)) > 0
      then [CreateConstantBuffer(AlignUp16(LayoutEnd(Sizes(options))))] else []
    }

    /** The device calls of a rebuild that releases `outputs`: the releases and
        the option buffer, and the option buffer once more when the fallback runs. */
    ghost function RebuildEvents(samples: int, baseCode: string, compiler: Compiler, outputs: seq<Texture>): seq<Event>
      reads this`options
    {
      Releases(outputs) + OptionBufferEvents()
      + (if AllCompile(StageSource(options, samples, baseCode), compiler) then [] else OptionBufferEvents())
    }

    /** The device calls ApplyShader makes from the current state. */
    ghost function ApplyEvents(samples: int, baseCode: string, compiler: Compiler, active: ShaderSelection): seq<Event>
      reads this`initialized, this`prevSamples, this`options, this`stageOutput, active`postProcessingShader
    {
      if UpToDate(samples, active) then [] else RebuildEvents(samples, baseCode, compiler, stageOutput)
    }

    /** Rebuilds the stage shaders when the selected effect or the sample count
        changed or nothing was built yet; otherwise changes nothing. */
    method ApplyShader(samples: int, baseCode: string, compiler: Compiler,
                       config: ShaderSelection, active: ShaderSelection)
      requires Valid()
      modifies this`prevSamples, this`stageOutput, this`pshader, this`optionBuffer, this`trace,
               this`initialized, config`postProcessingShader, active`postProcessingShader
      ensures Valid() && initialized
      ensures trace == old(trace) + old(ApplyEvents(samples, baseCode, compiler, active))
      ensures Applied(old(UpToDate(samples, active)), options, samples, baseCode, compiler,
                      old(BuiltState(config, active)), BuiltState(config, active))
      ensures stageOutput == if old(UpToDate(samples, active)) then old(stageOutput) else []
      ensures old(UpToDate(samples, active)) ==> optionBuffer == old(optionBuffer)
      ensures !old(UpToDate(samples, active)) && optionBuffer != null ==> fresh(optionBuffer)
    {
      if initialized && shaderName == active.postProcessingShader && prevSamples == samples {
        return;
      }
      Rebuild(samples, baseCode, compiler, config, active);
    }

    /** The build outcome held in the current state. */
    ghost function BuiltState(config: ShaderSelection, active: ShaderSelection): Built
      reads this`prevSamples, this`pshader, config`postProcessingShader, active`postProcessingShader
    {
      Built(prevSamples, pshader, config.postProcessingShader, active.postProcessingShader)
    }

    /** The outcome b of a rebuild from baseCode with the options opts at the
        given sample count, the names having been configName0 and activeName0:
        every stage compiled and the names kept, or else the fallback ran and
        cleared them. */
    ghost predicate Rebuilt(opts: seq<ConfigurationOption>, samples: int, baseCode: string, compiler: Compiler,
                            configName0: string, activeName0: string, b: Built)
    {
      var src := StageSource(opts, samples, baseCode);
      && b.samples == samples
      && |b.shaders| == |stages|
      && (AllCompile(src, compiler) ==>
            && (forall i :: 0 <= i < |stages| ==> b.shaders[i] == Some(PixelShader(src, Some(stages[i].entryPoint))))
            && b.configName == configName0
            && b.activeName == activeName0)
      && (!AllCompile(src, compiler) ==>
            && b.shaders[0] == (if compiler(src, None) then Some(PixelShader(src, None)) else None)
            && (forall i :: 1 <= i < |stages| ==> b.shaders[i] == None)
            && b.configName == ""
            && b.activeName == "")
    }

    /** The outcome after ApplyShader from the outcome b0: unchanged when it was
        up to date, rebuilt from the options opts otherwise. */
    ghost predicate Applied(upToDate: bool, opts: seq<ConfigurationOption>, samples: int, baseCode: string,
                            compiler: Compiler, b0: Built, b: Built)
    {
      if upToDate then b == b0
      else Rebuilt(opts, samples, baseCode, compiler, b0.configName, b0.activeName, b)
    }

    /** The rebuild path of ApplyShader. */
    method Rebuild(samples: int, baseCode: string, compiler: Compiler,
                   config: ShaderSelection, active: ShaderSelection)
      modifies this`prevSamples, this`stageOutput, this`pshader, this`optionBuffer, this`trace,
               this`initialized, config`postProcessingShader, active`postProcessingShader
      ensures Valid() && initialized && stageOutput == []
      ensures trace == old(trace) + RebuildEvents(samples, baseCode, compiler, old(stageOutput))
      ensures Rebuilt(options, samples, baseCode, compiler, old(config.postProcessingShader),
                      old(active.postProcessingShader), BuiltState(config, active))
      ensures optionBuffer != null ==> fresh(optionBuffer)
    {
      BuildStages(samples, baseCode, compiler);
      if !initialized {
        FallBack(baseCode, compiler, config, active);
        AppendAssoc(old(trace), Releases(old(stageOutput)) + OptionBufferEvents(), OptionBufferEvents());
      } else {
        AppendAssoc(old(trace), Releases(old(stageOutput)) + OptionBufferEvents(), []);
      }
    }

    /** The rebuild up to the compile loop: record the sample count, release the
        targets, drop the shaders, splice the entry points, declare the options
        and compile every stage. */
    method BuildStages(samples: int, baseCode: string, compiler: Compiler)
      modifies this`prevSamples, this`stageOutput, this`pshader, this`optionBuffer, this`trace, this`initialized
      ensures prevSamples == samples && stageOutput == [] && |pshader| == |stages| && OptionBufferFits()
      ensures optionBuffer != null ==> fresh(optionBuffer)
      ensures trace == old(trace) + (Releases(old(stageOutput)) + OptionBufferEvents())
      ensures initialized <==> AllCompile(StageSource(options, samples, baseCode), compiler)
      ensures initialized ==> forall i :: 0 <= i < |stages| ==>
                pshader[i] == Some(PixelShader(StageSource(options, samples, baseCode), Some(stages[i].entryPoint)))
    {
      prevSamples := samples;
      ReleaseStageOutputs();
      ResetShaders();
      var code := InitStages(baseCode);
      var src := LoadShaderOptions(code);
      AppendAssoc(old(trace), Releases(old(stageOutput)), OptionBufferEvents());
      initialized := true;
      CompileStages(src, compiler);
    }

    /** The compile loop of ApplyShader: stops at the first stage that fails
        to compile, clearing `initialized`. */
    method CompileStages(src: PixelShaderSource, compiler: Compiler)
      requires |pshader| == |stages| && initialized
      modifies this`pshader, this`initialized
      ensures |pshader| == |stages|
      ensures initialized <==> AllCompile(src, compiler)
      ensures initialized ==> forall i :: 0 <= i < |stages| ==> pshader[i] == Some(PixelShader(src, Some(stages[i].entryPoint)))
    {
      var i := 0;
      while i < |stages|
        invariant 0 <= i <= |stages| == |pshader|
        invariant initialized
        invariant forall j :: 0 <= j < i ==> compiler(src, Some(stages[j].entryPoint))
        invariant forall j :: 0 <= j < i ==> pshader[j] == Some(PixelShader(src, Some(stages[j].entryPoint)))
      {
        if compiler(src, Some(stages[i].entryPoint)) {
          pshader := pshader[i := Some(PixelShader(src, Some(stages[i].entryPoint)))];
        } else {
          pshader := pshader[i := None];
          initialized := false;
          return;
        }
        i := i + 1;
      }
    }

    /** The fallback after a failed compile: clear both selected names, drop
        the shaders, keep one, and rebuild it from the same source with the
        compiler's default entry point. */
    method FallBack(baseCode: string, compiler: Compiler, config: ShaderSelection, active: ShaderSelection)
      requires |stages| >= 1 && |pshader| == |stages|
      modifies this`pshader, this`optionBuffer, this`trace, this`initialized,
               config`postProcessingShader, active`postProcessingShader
      ensures initialized && |pshader| == |stages| && OptionBufferFits()
      ensures optionBuffer != null ==> fresh(optionBuffer)
      ensures trace == old(trace) + OptionBufferEvents()
      ensures config.postProcessingShader == "" && active.postProcessingShader == ""
      ensures var src := StageSource(options, prevSamples, baseCode);
              pshader[0] == if compiler(src, None) then Some(PixelShader(src, None)) else None
      ensures forall i :: 1 <= i < |stages| ==> pshader[i] == None
    {
      config.postProcessingShader := "";
      active.postProcessingShader := "";
      ResetShaders();
      pshader := pshader[..1];
      var fallbackCode := InitStages(baseCode);
      var fallbackSrc := LoadShaderOptions(fallbackCode);
      pshader := pshader[0 := if compiler(fallbackSrc, None) then Some(PixelShader(fallbackSrc, None)) else None];
      initialized := true;
    }

    /** The option buffer's lanes; empty while no buffer exists. */
    ghost function BufferContents(): seq<Lane>
      reads this`optionBuffer, optionBuffer
    {
      if optionBuffer == null then [] else optionBuffer[..]
    }

    /** The option upload as the source writes it: each value is copied at the
        cursor BEFORE the padding step moves the cursor.  The buffer is mapped
        with D3D11_MAP_WRITE_DISCARD, so the lanes the loop does not write hold
        whatever the driver handed back, `discarded`. */
    method UploadOptionsAsWritten(discarded: seq<Lane>)
      requires Valid() && initialized
      requires |discarded| * 4 == AlignUp16(LayoutEnd(Sizes(options)))
      requires configDirty && |options| > 0 ==> LayoutEnd(Sizes(options)) > 0
      modifies this`options, this`configDirty, optionBuffer
      ensures Valid() && optionBuffer == old(optionBuffer)
      ensures !(old(configDirty) && |old(options)| > 0) ==>
                options == old(options) && configDirty == old(configDirty) && BufferContents() == old(BufferContents())
      ensures old(configDirty) && |old(options)| > 0 ==>
                && !configDirty && options == ClearDirty(old(options))
                && BufferContents() == UploadImage(discarded, old(options), false)
    {
      if configDirty && |options| > 0 {
        UploadLoop(false, discarded);
      }
    }

    /** The option upload with each value copied at its declared slot, after
        the padding step, into the discarded mapping; the frame uses this one. */
    method UploadOptions(discarded: seq<Lane>)
      requires Valid() && initialized
      requires |discarded| * 4 == AlignUp16(LayoutEnd(Sizes(options)))
      requires configDirty && |options| > 0 ==> LayoutEnd(Sizes(options)) > 0
      modifies this`options, this`configDirty, optionBuffer
      ensures Valid() && optionBuffer == old(optionBuffer)
      ensures !(old(configDirty) && |old(options)| > 0) ==>
                options == old(options) && configDirty == old(configDirty) && BufferContents() == old(BufferContents())
      ensures Uploaded(old(configDirty), old(options), discarded, configDirty, options, BufferContents())
    {
      if configDirty && |options| > 0 {
        UploadLoop(true, discarded);
      }
    }

    /** The upload shared by both variants: map the buffer, discarding its
        contents, then copy; `afterPadding` chooses where a value goes. */
    method UploadLoop(afterPadding: bool, discarded: seq<Lane>)
      requires OptionBufferFits() && |options| > 0 && optionBuffer != null
      requires |discarded| == optionBuffer.Length
      modifies this`options, this`configDirty, optionBuffer
      ensures OptionBufferFits() && optionBuffer == old(optionBuffer)
      ensures !configDirty && options == ClearDirty(old(options))
      ensures BufferContents() == UploadImage(discarded, old(options), afterPadding)
    {
      MapDiscard(optionBuffer, discarded);
      UploadInto(optionBuffer, options, afterPadding);
      ClearDirtyKeepsSizes(options);
      options := ClearDirty(options);
      configDirty := false;
    }

    /** `Map` with D3D11_MAP_WRITE_DISCARD: the buffer's earlier contents are
        gone and the mapping holds `discarded`. */
    static method MapDiscard(buf: array<Lane>, discarded: seq<Lane>)
      requires |discarded| == buf.Length
      modifies buf
      ensures buf[..] == discarded
    {
      forall k | 0 <= k < buf.Length {
        buf[k] := discarded[k];
      }
    }

    /** The upload loop over the mapped buffer: a running byte cursor, padded
        before a value that would straddle a 16-byte row. */
    static method UploadInto(buf: array<Lane>, opts: seq<ConfigurationOption>, afterPadding: bool)
      requires AlignUp16(LayoutEnd(Sizes(opts))) <= 4 * buf.Length
      modifies buf
      ensures buf[..] == UploadImage(old(buf[..]), opts, afterPadding)
    {
      ghost var init := buf[..];
      ghost var offs := LaneOffsets(opts, afterPadding);
      ghost var vals := LaneValues(opts);
      LayoutInOrder(opts, afterPadding, buf.Length);
      var bufferSize: nat := 0;
      var i := 0;
      while i < |opts|
        invariant 0 <= i <= |opts|
        invariant bufferSize == Cursors(Sizes(opts))[i]
        invariant buf[..] == Scatter(init, offs, vals, i)
      {
        bufferSize := UploadStep(buf, opts, afterPadding, i, bufferSize);
        i := i + 1;
      }
    }

    /** One iteration of the upload loop: copy the value at the cursor chosen
        by `afterPadding`, then advance the cursor past the padding and the value. */
    static method UploadStep(buf: array<Lane>, opts: seq<ConfigurationOption>, afterPadding: bool,
                             i: nat, bufferSize: nat) returns (next: nat)
      requires i < |opts| && bufferSize == Cursors(Sizes(opts))[i]
      requires AlignUp16(LayoutEnd(Sizes(opts))) <= 4 * buf.Length
      modifies buf
      ensures next == Cursors(Sizes(opts))[i + 1]
      ensures && LaneOffsets(opts, afterPadding)[i] + |LaneValues(opts)[i]| <= buf.Length
              && buf[..] == Overwrite(old(buf[..]), LaneOffsets(opts, afterPadding)[i], LaneValues(opts)[i])
    {
      var lanes := OptionLanes(opts[i]);
      var neededSize := |lanes| * 4;
      var remaining := AlignUp16(bufferSize) - bufferSize;
      var padding := if remaining < neededSize then remaining else 0;
      var at := if afterPadding then bufferSize + padding else bufferSize;
      UploadCursorStep(opts, i, bufferSize, padding, afterPadding);
      UploadStepFits(Sizes(opts), i, afterPadding, buf.Length);
      WriteLanes(buf, at / 4, lanes);
      next := bufferSize + padding + neededSize;
    }

    /** Copies lanes into buf from lane base on (the memcpy of one value). */
    static method WriteLanes(buf: array<Lane>, base: nat, lanes: seq<Lane>)
      requires base + |lanes| <= buf.Length
      modifies buf
      ensures buf[..] == Overwrite(old(buf[..]), base, lanes)
    {
      forall k | 0 <= k < |lanes| {
        buf[base + k] := lanes[k];
      }
      forall q | 0 <= q < buf.Length
        ensures buf[q] == Overwrite(old(buf[..]), base, lanes)[q]
      {
        if base <= q < base + |lanes| {
          assert buf[base + (q - base)] == lanes[q - base];
        }
      }
    }

    /** Re-appends the full-screen quad only when the ring buffer wrapped or the
        texture coordinates changed since the last append. */
    method UpdateVertexQuad(uv: QuadUV, appendOffset: int) returns (appended: bool)
      modifies this`vertexBufferObserver, this`prevUV, this`vertexBufferOffset, this`trace
      ensures appended <==> old(vertexBufferObserver) || old(prevUV) != uv
      ensures prevUV == uv && !vertexBufferObserver
      ensures vertexBufferOffset == if appended then appendOffset else old(vertexBufferOffset)
      ensures trace == old(trace) + (if appended then [AppendQuad(uv)] else [])
    {
      appended := vertexBufferObserver || prevUV.u0 != uv.u0 || prevUV.u1 != uv.u1
                  || prevUV.v0 != uv.v0 || prevUV.v1 != uv.v1;
      if appended {
        vertexBufferOffset := appendOffset;
        trace := trace + [AppendQuad(uv)];
        vertexBufferObserver := false;
        prevUV := uv;
      }
    }

    /** Keeps one intermediate target per non-terminal stage, rebuilding all of
        them when a tracked size or the stage count changed. */
    method EnsureStageTargets(src: Rect, dst: Rect)
      modifies this`prevDstWidth, this`prevDstHeight, this`prevSrcWidth, this`prevSrcHeight,
               this`stageOutput, this`nextTextureId, this`trace
      ensures !old(TargetsStale(stageOutput, src, dst)) ==>
                && stageOutput == old(stageOutput) && trace == old(trace) && nextTextureId == old(nextTextureId)
                && prevDstWidth == old(prevDstWidth) && prevDstHeight == old(prevDstHeight)
                && prevSrcWidth == old(prevSrcWidth) && prevSrcHeight == old(prevSrcHeight)
      ensures old(TargetsStale(stageOutput, src, dst)) ==>
                && prevDstWidth == dst.Width() && prevDstHeight == dst.Height()
                && prevSrcWidth == src.Width() && prevSrcHeight == src.Height()
                && stageOutput == NewTargets(stages, old(nextTextureId), src, dst)
                && nextTextureId == old(nextTextureId) + |stages| - 1
                && trace == old(trace) + Releases(old(stageOutput)) + Creates(stageOutput)
      ensures trace == old(trace) + old(TargetEvents(stageOutput, src, dst))
      ensures |stages| > 1 ==>
                && |stageOutput| == |stages| - 1
                && prevDstWidth == dst.Width() && prevDstHeight == dst.Height()
                && prevSrcWidth == src.Width() && prevSrcHeight == src.Height()
    {
      var finalstage := |stages| - 1;
      if finalstage > 0 {
        if prevDstWidth != dst.Width() || prevDstHeight != dst.Height()
           || prevSrcWidth != src.Width() || prevSrcHeight != src.Height()
           || |stageOutput| != finalstage
        {
          prevDstWidth := dst.Width();
          prevDstHeight := dst.Height();
          prevSrcWidth := src.Width();
          prevSrcHeight := src.Height();
          ReleaseStageOutputs();
          var created := CreateStageTargets(src, dst);
          AppendAssoc(old(trace), Releases(old(stageOutput)), Creates(created));
          stageOutput := created;
        }
      }
    }

    /** Creates one target per non-terminal stage at the tracked sizes, each
        with a fresh id. */
    method CreateStageTargets(src: Rect, dst: Rect) returns (created: seq<Texture>)
      requires prevDstWidth == dst.Width() && prevDstHeight == dst.Height()
      requires prevSrcWidth == src.Width() && prevSrcHeight == src.Height()
      modifies this`trace, this`nextTextureId
      ensures created == NewTargets(stages, old(nextTextureId), src, dst)
      ensures nextTextureId == old(nextTextureId) + |stages| - 1
      ensures trace == old(trace) + Creates(created)
    {
      created := [];
      var i := 0;
      while i < |stages| - 1
        invariant 0 <= i <= |stages| - 1
        invariant nextTextureId == old(nextTextureId) + i
        invariant created == NewTargets(stages, old(nextTextureId), src, dst)[..i]
        invariant trace == old(trace) + Creates(created)
      {
        var s := stages[i];
        var stageWidth := if s.useSourceResolution then prevSrcWidth else prevDstWidth;
        var stageHeight := if s.useSourceResolution then prevSrcHeight else prevDstHeight;
        var t := Texture(nextTextureId, Scaled(stageWidth, s.outputScale), Scaled(stageHeight, s.outputScale));
        assert NewTargets(stages, old(nextTextureId), src, dst)[..i + 1] == created + [t];
        CreatesLast(created, t);
        AppendAssoc(old(trace), Creates(created), [CreateTarget(t)]);
        created := created + [t];
        trace := trace + [CreateTarget(t)];
        nextTextureId := nextTextureId + 1;
        i := i + 1;
      }
      assert created == NewTargets(stages, old(nextTextureId), src, dst);
    }

    /** Runs every stage in index order: output binding, viewport, shader,
        dependency inputs around the four-vertex draw. */
    method RunStages(views: array<Option<View>>, dst: Rect, outputBound: bool)
      requires FrameReady() && views.Length == 6
      requires |stages| > 1 ==> |stageOutput| == |stages| - 1
      requires forall k :: 2 <= k < 6 ==> views[k] == None
      modifies this`trace, views
      ensures ContextValid(Context(dst, outputBound))
      ensures trace == old(trace) + StageLoopEvents(Context(dst, outputBound), |stages|)
      ensures views[..] == old(views[..])
    {
      ghost var c := Context(dst, outputBound);
      var i := 0;
      while i < |stages|
        invariant 0 <= i <= |stages|
        invariant trace == old(trace) + StageLoopEvents(c, i)
        invariant views[..] == old(views[..])
      {
        AppendAssoc(old(trace), StageLoopEvents(c, i), StageEvents(c, i));
        RunStage(views, dst, outputBound, i);
        i := i + 1;
      }
    }

    /** One iteration of the stage loop. */
    method RunStage(views: array<Option<View>>, dst: Rect, outputBound: bool, i: nat)
      requires FrameReady() && i < |stages| && views.Length == 6
      requires |stages| > 1 ==> |stageOutput| == |stages| - 1
      requires forall k :: 2 <= k < 6 ==> views[k] == None
      modifies this`trace, views
      ensures ContextValid(Context(dst, outputBound))
      ensures trace == old(trace) + StageEvents(Context(dst, outputBound), i)
      ensures views[..] == old(views[..])
    {
      ghost var c := Context(dst, outputBound);
      var finalstage := |stages| - 1;
      var es := BindOutput(dst, outputBound, i);
      es := es + [SetPixelShader(pshader[i])];
      var prevStageOutputRequired := i > 0 && finalstage > 0;
      var inputs := stages[i].inputs;
      if prevStageOutputRequired {
        BindInputs(views, i);
        assert views[2..2 + |inputs|] == InputViews(c, i);
        es := es + [BindViews(InputSlot, views[2..2 + |inputs|])];
      }
      es := es + [Draw(4, vertexBufferOffset)];
      if prevStageOutputRequired {
        UnbindInputs(views, |inputs|);
        assert views[2..2 + |inputs|] == NoViews(|inputs|);
        es := es + [BindViews(InputSlot, views[2..2 + |inputs|])];
        assert views[..] == old(views[..]);
      }
      trace := trace + es;
    }

    /** The output target and viewport of stage i. */
    method BindOutput(dst: Rect, outputBound: bool, i: nat) returns (out: seq<Event>)
      requires |pshader| == |stages| && i < |stages|
      requires |stages| > 1 ==> |stageOutput| == |stages| - 1
      ensures ContextValid(Context(dst, outputBound))
      ensures out == OutputEvents(Context(dst, outputBound), i)
    {
      var finalstage := |stages| - 1;
      if i == finalstage {
        out := if finalstage > 0 && outputBound then [SetRenderTarget(SavedOutput)] else [];
        out := out + [SetViewport(Viewport(dst.left as real, dst.top as real, dst.Width() as real, dst.Height() as real))];
        assert out == OutputEvents(Context(dst, outputBound), i);
      } else {
        var s := stages[i];
        var stageWidth := (if s.useSourceResolution then prevSrcWidth else prevDstWidth) as real * s.outputScale;
        var stageHeight := (if s.useSourceResolution then prevSrcHeight else prevDstHeight) as real * s.outputScale;
        out := [SetRenderTarget(StageTarget(stageOutput[i])), SetViewport(Viewport(0.0, 0.0, stageWidth, stageHeight))];
        assert StageViewport(Context(dst, outputBound), i) == Viewport(0.0, 0.0, stageWidth, stageHeight);
      }
    }

    /** Puts the outputs of stage i's dependencies into views[2 ..]. */
    method BindInputs(views: array<Option<View>>, i: nat)
      requires 0 < i < |stages| && |stageOutput| == |stages| - 1
      requires views.Length == 6
      modifies views
      ensures forall k :: 0 <= k < |stages[i].inputs| ==> views[2 + k] == Some(StageView(stageOutput[stages[i].inputs[k]]))
      ensures forall q :: 0 <= q < 6 && !(2 <= q < 2 + |stages[i].inputs|) ==> views[q] == old(views[q])
    {
      var inputs := stages[i].inputs;
      var k := 0;
      while k < |inputs|
        invariant 0 <= k <= |inputs|
        invariant forall j :: 0 <= j < k ==> views[2 + j] == Some(StageView(stageOutput[inputs[j]]))
        invariant forall q :: 0 <= q < 6 && !(2 <= q < 2 + k) ==> views[q] == old(views[q])
      {
        views[2 + k] := Some(StageView(stageOutput[inputs[k]]));
        k := k + 1;
      }
    }

    /** Clears views[2 .. 2 + n) again after the draw. */
    static method UnbindInputs(views: array<Option<View>>, n: nat)
      requires views.Length == 6 && n <= 4
      modifies views
      ensures forall q :: 2 <= q < 2 + n ==> views[q] == None
      ensures forall q :: 0 <= q < 6 && !(2 <= q < 2 + n) ==> views[q] == old(views[q])
    {
      var k := 0;
      while k < n
        invariant 0 <= k <= n
        invariant forall q :: 2 <= q < 2 + k ==> views[q] == None
        invariant forall q :: 0 <= q < 6 && !(2 <= q < 2 + k) ==> views[q] == old(views[q])
      {
        views[2 + k] := None;
        k := k + 1;
      }
    }

    /** The views bound at the source slots before the stages run: the colour
        view, and the depth view when the source has one. */
    static function SourceViews(hasDepth: bool): (v: seq<Option<View>>)
      ensures |v| == 2 && v[0] == Some(SourceView)
      ensures v[1].Some? <==> hasDepth
    {
      [Some(SourceView), if hasDepth then Some(SourceDepthView) else None]
    }

    /** The device calls EnsureStageTargets makes from the current state with
        `outputs` as the intermediate targets. */
    ghost function TargetEvents(outputs: seq<Texture>, src: Rect, dst: Rect): seq<Event>
      reads this`prevDstWidth, this`prevDstHeight, this`prevSrcWidth, this`prevSrcHeight, this`nextTextureId
    {
      if TargetsStale(outputs, src, dst) then Releases(outputs) + Creates(NewTargets(stages, nextTextureId, src, dst))
      else []
    }

    /** The first half of a frame: rebuild the shaders if needed, upload the
        dirty options into the discarded mapping, refresh the quad. */
    method PrepareFrame(uv: QuadUV, appendOffset: int, samples: int, baseCode: string, compiler: Compiler,
                        config: ShaderSelection, active: ShaderSelection, discarded: seq<Lane>)
      requires Valid()
      requires |discarded| * 4 == AlignUp16(LayoutEnd(Sizes(options)))
      requires configDirty && |options| > 0 ==> LayoutEnd(Sizes(options)) > 0
      modifies this`prevSamples, this`stageOutput, this`pshader, this`optionBuffer, this`trace,
               this`initialized, config`postProcessingShader, active`postProcessingShader,
               this`options, this`configDirty, optionBuffer,
               this`vertexBufferObserver, this`prevUV, this`vertexBufferOffset
      ensures Valid() && initialized
      ensures trace == old(trace) + old(ApplyEvents(samples, baseCode, compiler, active)) + old(QuadEvents(uv))
      ensures Applied(old(UpToDate(samples, active)), old(options), samples, baseCode, compiler,
                      old(BuiltState(config, active)), BuiltState(config, active))
      ensures stageOutput == if old(UpToDate(samples, active)) then old(stageOutput) else []
      ensures Uploaded(old(configDirty), old(options), discarded, configDirty, options, BufferContents())
      ensures old(UpToDate(samples, active)) && !(old(configDirty) && |old(options)| > 0) ==>
                BufferContents() == old(BufferContents())
      ensures prevUV == uv && !vertexBufferObserver
      ensures vertexBufferOffset == if old(QuadStale(uv)) then appendOffset else old(vertexBufferOffset)
    {
      ApplyAndUpload(samples, baseCode, compiler, config, active, discarded);
      var _ := UpdateVertexQuad(uv, appendOffset);
    }

    /** ApplyShader followed by the option upload. */
    method ApplyAndUpload(samples: int, baseCode: string, compiler: Compiler,
                          config: ShaderSelection, active: ShaderSelection, discarded: seq<Lane>)
      requires Valid()
      requires |discarded| * 4 == AlignUp16(LayoutEnd(Sizes(options)))
      requires configDirty && |options| > 0 ==> LayoutEnd(Sizes(options)) > 0
      modifies this`prevSamples, this`stageOutput, this`pshader, this`optionBuffer, this`trace,
               this`initialized, config`postProcessingShader, active`postProcessingShader,
               this`options, this`configDirty, optionBuffer
      ensures Valid() && initialized
      ensures trace == old(trace) + old(ApplyEvents(samples, baseCode, compiler, active))
      ensures Applied(old(UpToDate(samples, active)), old(options), samples, baseCode, compiler,
                      old(BuiltState(config, active)), BuiltState(config, active))
      ensures stageOutput == if old(UpToDate(samples, active)) then old(stageOutput) else []
      ensures Uploaded(old(configDirty), old(options), discarded, configDirty, options, BufferContents())
      ensures old(UpToDate(samples, active)) && !(old(configDirty) && |old(options)| > 0) ==>
                BufferContents() == old(BufferContents())
    {
      ApplyShader(samples, baseCode, compiler, config, active);
      UploadOptions(discarded);
    }

    /** The six-entry view table with the source views in its first two slots. */
    static method BindSource(hasDepth: bool) returns (views: array<Option<View>>)
      ensures fresh(views) && views.Length == 6
      ensures views[..2] == SourceViews(hasDepth)
      ensures forall k :: 2 <= k < 6 ==> views[k] == None
    {
      views := new Option<View>[6](_ => None);
      views[0] := Some(SourceView);
      if hasDepth {
        views[1] := Some(SourceDepthView);
      }
      assert views[..2] == SourceViews(hasDepth);
    }

    /** Clears the two source slots of the view table. */
    static method UnbindSource(views: array<Option<View>>)
      requires views.Length == 6
      modifies views
      ensures views[..2] == [None, None]
      ensures forall k :: 2 <= k < 6 ==> views[k] == old(views[k])
    {
      views[0] := None;
      views[1] := None;
      assert views[..2] == [None, None];
    }

    /** Runs the stages over the bound source, then unbinds the source. */
    method RunThenUnbind(views: array<Option<View>>, dst: Rect, outputBound: bool)
      requires FrameReady() && views.Length == 6
      requires |stages| > 1 ==> |stageOutput| == |stages| - 1
      requires forall k :: 2 <= k < 6 ==> views[k] == None
      modifies this`trace, views
      ensures ContextValid(Context(dst, outputBound))
      ensures trace == old(trace) + (StageLoopEvents(Context(dst, outputBound), |stages|)
                                     + [BindViews(SourceSlot, [None, None])])
    {
      RunStages(views, dst, outputBound);
      UnbindSource(views);
      AppendAssoc(old(trace), StageLoopEvents(Context(dst, outputBound), |stages|), [BindViews(SourceSlot, [None, None])]);
      trace := trace + [BindViews(SourceSlot, views[..2])];
    }

    /** The second half of a frame: bind the source, keep the intermediate
        targets, run every stage, unbind the source. */
    method DrawStages(src: Rect, dst: Rect, hasDepth: bool, outputBound: bool)
      requires FrameReady()
      modifies this`prevDstWidth, this`prevDstHeight, this`prevSrcWidth, this`prevSrcHeight,
               this`stageOutput, this`nextTextureId, this`trace
      ensures Valid() == old(Valid())
      ensures |stages| > 1 ==>
                && |stageOutput| == |stages| - 1
                && prevDstWidth == dst.Width() && prevDstHeight == dst.Height()
                && prevSrcWidth == src.Width() && prevSrcHeight == src.Height()
      ensures ContextValid(Context(dst, outputBound))
      ensures trace == old(trace) + [BindViews(SourceSlot, SourceViews(hasDepth))] + old(TargetEvents(stageOutput, src, dst))
                       + (StageLoopEvents(Context(dst, outputBound), |stages|) + [BindViews(SourceSlot, [None, None])])
    {
      var views := BindSource(hasDepth);
      trace := trace + [BindViews(SourceSlot, views[..2])];
      EnsureStageTargets(src, dst);
      RunThenUnbind(views, dst, outputBound);
    }

    /** One frame of post-processing from the source texture into dst: the
        first half of the frame, then the source bind, the intermediate targets
        as the rebuild left them, every stage in index order and the source
        unbind. */
    method BlitFromTexture(src: Rect, dst: Rect, hasDepth: bool, uv: QuadUV, appendOffset: int,
                           outputBound: bool, samples: int, baseCode: string, compiler: Compiler,
                           config: ShaderSelection, active: ShaderSelection, discarded: seq<Lane>)
      requires Valid()
      requires |discarded| * 4 == AlignUp16(LayoutEnd(Sizes(options)))
      requires configDirty && |options| > 0 ==> LayoutEnd(Sizes(options)) > 0
      modifies this`prevSamples, this`stageOutput, this`pshader, this`optionBuffer, this`trace,
               this`initialized, config`postProcessingShader, active`postProcessingShader,
               this`options, this`configDirty, optionBuffer,
               this`vertexBufferObserver, this`prevUV, this`vertexBufferOffset,
               this`prevDstWidth, this`prevDstHeight, this`prevSrcWidth, this`prevSrcHeight, this`nextTextureId
      ensures Valid() && initialized
      ensures ContextValid(Context(dst, outputBound))
      ensures trace == old(trace) + old(ApplyEvents(samples, baseCode, compiler, active)) + old(QuadEvents(uv))
                       + [BindViews(SourceSlot, SourceViews(hasDepth))]
                       + old(TargetEvents(if UpToDate(samples, active) then stageOutput else [], src, dst))
                       + (StageLoopEvents(Context(dst, outputBound), |stages|) + [BindViews(SourceSlot, [None, None])])
      ensures vertexBufferOffset == if old(QuadStale(uv)) then appendOffset else old(vertexBufferOffset)
      ensures |stages| > 1 ==>
                && |stageOutput| == |stages| - 1
                && prevDstWidth == dst.Width() && prevDstHeight == dst.Height()
                && prevSrcWidth == src.Width() && prevSrcHeight == src.Height()
    {
      ghost var targets := TargetEvents(if UpToDate(samples, active) then stageOutput else [], src, dst);
      PrepareFrame(uv, appendOffset, samples, baseCode, compiler, config, active, discarded);
      assert TargetEvents(stageOutput, src, dst) == targets;
      DrawStages(src, dst, hasDepth, outputBound);
    }
  }
}
