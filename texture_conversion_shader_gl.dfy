/** The OpenGL texture-encoder shader generator. For a texture copy format it
    sprintf's a GLSL fragment shader into one static 16384-byte text buffer:
    a swizzler prologue that turns the fragment position into the EFB sample
    position, then a per-format sequence of sample fetches and packing lines,
    then the closing brace. A static flag makes the intensity constant appear
    once per shader, and a canary in the last buffer byte reports overflow. */
module TextureConversionShaderGL {
  import opened Common

  /** Copy formats the generator knows, plus any other code. */
  datatype CopyFormat =
    | TfI4 | TfI8 | TfIA4 | TfIA8 | TfRgb565 | TfRgb5a3 | TfRgba8
    | CtfR4 | CtfRa4 | CtfRa8 | CtfA8 | CtfR8 | CtfG8 | CtfB8 | CtfRg8 | CtfGb8
    | TfZ8 | TfZ16 | TfZ24x8 | CtfZ4 | CtfZ8M | CtfZ8L | CtfZ16L
    | OtherFormat(code: nat)

  /** Block layout of a format: block width and height in texels, encoded
      samples per texel, their base-2 logarithms, and the EFB size. */
  datatype Geometry = Geometry(blockWidth: int, blockHeight: int, samples: int,
                               log2BlockWidth: int, log2BlockHeight: int, log2Samples: int,
                               efbWidth: int, efbHeight: int)

  /** The block layout the decoder helpers give for a format. */
  function GeometryOf(layout: CopyFormat -> Geometry, format: CopyFormat): Geometry
  {
    layout(format)
  }

  /** C's `~x` on a two's-complement int. */
  function BitNot(x: int): int
  {
    -x - 1
  }

  // ---------------------------------------------------------------------------
  // Emitted lines: one value per WRITE call, naming the fixed text or holding
  // the arguments it formats
  // ---------------------------------------------------------------------------

  /** One WRITE call. The lines the properties below look at are constructors
      of their own; every other line is a Statement. */
  datatype Line =
    | Plain(statement: Statement)
    | FirstCacheLine(mask: int)
    | DoubleVirtualPosition
    | SampleColor(comp: string, dest: string, xoffset: int)
    | IntensityConstant
    | EncoderEnd
    | SelectCacheLine
    | IfSecondCacheLine

  /** A line with fixed text, or one that only formats its arguments. */
  datatype Statement =
    | UniformPosition
    | DefineSampler
    | BindSampler
    | DeclareOutput
    | MainSignature
    | OpenMain
    | YBlockPosition(mask: int)
    | YOffsetInBlock(mask: int)
    | XVirtualPosition(shift: int)
    | XBlockPosition(shift: int, mask: int)
    | XOffsetInBlock(mask: int)
    | YOffset(shift: int, mask: int)
    | SampleUvX
    | SampleUvY
    | Uv0FromSampleUv
    | Uv0ToTexelCentre
    | Uv0Scale
    | Uv0ToSourceRect
    | Normalize(width: int, height: int)
    | FlipUv0
    | SampleOffset(width: int)
    | ColorToIntensity(src: string, dest: string)
    | ToBitDepth(depth: int, src: string, dest: string)
    | Declare(ty: string, name: string)
    | Copy(dest: string, src: string)
    | AddIntensityOffset(dest: string, swizzle: string)
    | CombineNibbles
    | GatherPair(upper: string, lower: string)
    | SplitGreenUpper
    | SplitGreenLower
    | MergeGreenUpper
    | MergeGreenLower
    | NormalizeOutput
    | IfOpaque
    | SplitGreen5Upper
    | SplitGreen5Lower
    | MergeOpaqueHigh(channel: string)
    | MergeOpaqueLow(channel: string)
    | Else
    | AddNibble(channel: string)
    | EndIf
    | NarrowDepthDeclaration
    | DepthFraction(channel: string, multiplier: string)
    | ScaleDepth(suffix: string)
    | SplitHigh(suffix: string)
    | DropHigh(suffix: string)
    | SplitMiddle(suffix: string)
    | DropMiddle(suffix: string)
    | SplitLow(suffix: string)
    | ByteToChannel(channel: string, byte: string)
    | SelectByte(channel: string, byte: string)
    | ElseFirstCacheLine
    | SelectOne(channel: string)
    | EndSelect

  /** The text sprintf produces for a line. */
  function Render(l: Line): string
  {
    match l
    case Plain(t) => StatementText(t)
    case FirstCacheLine(m) => "  bool first = 0 == (x_virtual_position & " + Decimal(m) + ");\n"
    case DoubleVirtualPosition => "  x_virtual_position = x_virtual_position << 1;\n"
    case SampleColor(c, d, x) =>
      "  " + d + " = texture(samp0, uv0 + float2(" + Decimal(x) + ", 0) * sample_offset)." + c + ";\n"
    case IntensityConstant => "  float4 IntensityConst = float4(0.257f,0.504f,0.098f,0.0625f);\n"
    case EncoderEnd => "}\n"
    case SelectCacheLine => "  ocol0 = first ? color0 : color1;\n"
    case IfSecondCacheLine => "  if (!first) {\n"
  }

  /** The text of a statement line. */
  function StatementText(t: Statement): string
  {
    match t
    case UniformPosition => "uniform int4 position;\n"
    case DefineSampler => "#define samp0 samp9\n"
    case BindSampler => "SAMPLER_BINDING(9) uniform sampler2D samp0;\n"
    case DeclareOutput => "  out vec4 ocol0;\n"
    case MainSignature => "void main()\n"
    case OpenMain => "{\n  int2 sampleUv;\n  int2 uv1 = int2(gl_FragCoord.xy);\n"
    case YBlockPosition(m) => "  int y_block_position = uv1.y & " + Decimal(m) + ";\n"
    case YOffsetInBlock(m) => "  int y_offset_in_block = uv1.y & " + Decimal(m) + ";\n"
    case XVirtualPosition(s) =>
      "  int x_virtual_position = (uv1.x << " + Decimal(s) + ") + y_offset_in_block * position.z;\n"
    case XBlockPosition(s, m) =>
      "  int x_block_position = (x_virtual_position >> " + Decimal(s) + ") & " + Decimal(m) + ";\n"
    case XOffsetInBlock(m) => "  int x_offset_in_block = x_virtual_position & " + Decimal(m) + ";\n"
    case YOffset(s, m) =>
      "  int y_offset = (x_virtual_position >> " + Decimal(s) + ") & " + Decimal(m) + ";\n"
    case SampleUvX => "  sampleUv.x = x_offset_in_block + x_block_position;\n"
    case SampleUvY => "  sampleUv.y = y_block_position + y_offset;\n"
    case Uv0FromSampleUv => "  float2 uv0 = float2(sampleUv);\n"
    case Uv0ToTexelCentre => "  uv0 += float2(0.5, 0.5);\n"
    case Uv0Scale => "  uv0 *= float(position.w);\n"
    case Uv0ToSourceRect => "  uv0 += float2(position.xy);\n"
    case Normalize(w, h) => "  uv0 /= float2(" + Decimal(w) + ", " + Decimal(h) + ");\n"
    case FlipUv0 => "  uv0.y = 1.0-uv0.y;\n"
    case SampleOffset(w) => "  float sample_offset = float(position.w) / float(" + Decimal(w) + ");\n"
    case ColorToIntensity(s, d) => "  " + d + " = dot(IntensityConst.rgb, " + s + ".rgb);\n"
    case ToBitDepth(n, s, d) => "  " + d + " = floor(" + s + " * 255.0 / exp2(8.0 - " + Decimal(n) + ".0));\n"
    case Declare(t, n) => "  " + t + " " + n + ";\n"
    case Copy(d, s) => "  " + d + " = " + s + ";\n"
    case AddIntensityOffset(d, w) => "  " + d + " += IntensityConst." + w + ";\n"
    case CombineNibbles => "  ocol0 = (color0 * 16.0 + color1) / 255.0;\n"
    case GatherPair(u, c) => "  float2 tex" + u + "s = float2(texSample0." + c + ", texSample1." + c + ");\n"
    case SplitGreenUpper => "  float2 gUpper = floor(gInt / 8.0);\n"
    case SplitGreenLower => "  float2 gLower = gInt - gUpper * 8.0;\n"
    case MergeGreenUpper => "  ocol0.br = ocol0.br * 8.0 + gUpper;\n"
    case MergeGreenLower => "  ocol0.ga = ocol0.ga + gLower * 32.0;\n"
    case NormalizeOutput => "  ocol0 = ocol0 / 255.0;\n"
    case IfOpaque => "if(texSample.a > 0.878f) {\n"
    case SplitGreen5Upper => "  gUpper = floor(color0 / 8.0);\n"
    case SplitGreen5Lower => "  gLower = color0 - gUpper * 8.0;\n"
    case MergeOpaqueHigh(c) => "  ocol0." + c + " = ocol0." + c + " * 4.0 + gUpper + 128.0;\n"
    case MergeOpaqueLow(c) => "  ocol0." + c + " = ocol0." + c + " + gLower * 32.0;\n"
    case Else => "} else {\n"
    case AddNibble(c) => "ocol0." + c + " = ocol0." + c + " + color0 * 16.0;\n"
    case EndIf => "}\n"
    case NarrowDepthDeclaration => " float depth;\n"
    case DepthFraction(c, m) => "ocol0." + c + " = frac(depth * " + m + ");\n"
    case ScaleDepth(i) => "  depth" + i + " *= 16777215.0;\n"
    case SplitHigh(i) => "  expanded" + i + ".r = floor(depth" + i + " / (256.0 * 256.0));\n"
    case DropHigh(i) => "  depth" + i + " -= expanded" + i + ".r * 256.0 * 256.0;\n"
    case SplitMiddle(i) => "  expanded" + i + ".g = floor(depth" + i + " / 256.0);\n"
    case DropMiddle(i) => "  depth" + i + " -= expanded" + i + ".g * 256.0;\n"
    case SplitLow(i) => "  expanded" + i + ".b = depth" + i + ";\n"
    case ByteToChannel(c, b) => "  ocol0." + c + " = expanded." + b + " / 255.0;\n"
    case SelectByte(c, b) => "     ocol0." + c + " = expanded" + b + " / 255.0;\n"
    case ElseFirstCacheLine => "  } else {\n"
    case SelectOne(c) => "     ocol0." + c + " = 1.0;\n"
    case EndSelect => "  }\n"
  }

  /** The lines written so far, oldest first. */
  type Lines = seq<Line>

  /** The buffer text the lines amount to. */
  function Output(ls: Lines): string
  {
    if |ls| == 0 then "" else Output(ls[..|ls| - 1]) + Render(ls[|ls| - 1])
  }

  // ---------------------------------------------------------------------------
  // What each writer appends
  // ---------------------------------------------------------------------------

  // Each function below takes the lines written so far and returns them
  // followed by what one writer (or one repeated part of it) appends, in the
  // order it writes them: a display for a run of WRITEs, one singleton per
  // helper call.

  /** WriteSwizzler: the shader header and the texel-to-sample position math. */
  function SwizzlerLines(acc: Lines, g: Geometry): Lines
  {
    CacheLineSplit(acc + SwizzlerHead(g), g) + SwizzlerTail(g)
  }

  /** The uniform, the sampler binding and the opening of main. */
  function Prologue(): Lines
  {
    [Plain(UniformPosition), Plain(DefineSampler), Plain(BindSampler), Plain(DeclareOutput), Plain(MainSignature),
     Plain(OpenMain)]
  }

  /** The prologue, then the block position and the virtual x position. */
  function SwizzlerHead(g: Geometry): Lines
  {
    Prologue() +
    [Plain(YBlockPosition(BitNot(g.blockHeight - 1))), Plain(YOffsetInBlock(g.blockHeight - 1)),
     Plain(XVirtualPosition(g.log2Samples)), Plain(XBlockPosition(g.log2BlockHeight, BitNot(g.blockWidth - 1)))]
  }

  /** One-sample (32-bit) layouts span two cache lines: note which one, and
      double the virtual position. */
  function CacheLineSplit(acc: Lines, g: Geometry): Lines
  {
    if g.samples == 1 then acc + [FirstCacheLine(8 * g.samples), DoubleVirtualPosition] else acc
  }

  /** The offsets within the block, and the normalised sample coordinates. */
  function SwizzlerTail(g: Geometry): Lines
  {
    [Plain(XOffsetInBlock(g.blockWidth - 1)), Plain(YOffset(g.log2BlockWidth, g.blockHeight - 1)),
     Plain(SampleUvX), Plain(SampleUvY), Plain(Uv0FromSampleUv), Plain(Uv0ToTexelCentre), Plain(Uv0Scale),
     Plain(Uv0ToSourceRect), Plain(Normalize(g.efbWidth, g.efbHeight)), Plain(FlipUv0), Plain(SampleOffset(g.efbWidth))]
  }

  /** WriteColorToIntensity: the constant only if not yet declared, then the dot product. */
  function WithIntensity(acc: Lines, src: string, dest: string, declared: bool): Lines
  {
    (if declared then acc else acc + [IntensityConstant]) + [Plain(ColorToIntensity(src, dest))]
  }

  /** An rgb sample fetch followed by its intensity. */
  function SampleIntensity(acc: Lines, xoffset: int, dest: string, declared: bool): Lines
  {
    WithIntensity(acc + [SampleColor("rgb", "texSample", xoffset)], "texSample", dest, declared)
  }

  /** The lines close the shader: the last one is the closing brace. */
  predicate EndsShader(ls: Lines)
  {
    |ls| > 0 && ls[|ls| - 1] == EncoderEnd
  }

  /** The two nibble colours quantised to 4 bits, packed, and the end. */
  function PackNibbles(acc: Lines): Lines
  {
    acc + [Plain(ToBitDepth(4, "color0", "color0"))] + [Plain(ToBitDepth(4, "color1", "color1"))]
    + [Plain(CombineNibbles)] + [EncoderEnd]
  }

  function I8Body(acc: Lines): Lines
  {
    var s0 := SampleIntensity(acc + [Plain(Declare("float3", "texSample"))], 0, "ocol0.b", false);
    var s1 := SampleIntensity(SampleIntensity(s0, 1, "ocol0.g", true), 2, "ocol0.r", true);
    SampleIntensity(s1, 3, "ocol0.a", true) + [Plain(AddIntensityOffset("ocol0.rgba", "aaaa"))] + [EncoderEnd]
  }

  function I4Body(acc: Lines): Lines
  {
    var s0 := acc + [Plain(Declare("float3", "texSample")), Plain(Declare("float4", "color0")), Plain(Declare("float4", "color1"))];
    var s1 := SampleIntensity(SampleIntensity(s0, 0, "color0.b", false), 1, "color1.b", true);
    var s2 := SampleIntensity(SampleIntensity(s1, 2, "color0.g", true), 3, "color1.g", true);
    var s3 := SampleIntensity(SampleIntensity(s2, 4, "color0.r", true), 5, "color1.r", true);
    var s4 := SampleIntensity(SampleIntensity(s3, 6, "color0.a", true), 7, "color1.a", true);
    PackNibbles(s4 + [Plain(AddIntensityOffset("color0.rgba", "aaaa")), Plain(AddIntensityOffset("color1.rgba", "aaaa"))])
  }

  /** One rgba sample: its alpha copied to one destination, its intensity to another. */
  function AlphaIntensity(acc: Lines, xoffset: int, alphaDest: string, intensityDest: string, declared: bool): Lines
  {
    var s := acc + [SampleColor("rgba", "texSample", xoffset)] + [Plain(Copy(alphaDest, "texSample.a"))];
    WithIntensity(s, "texSample", intensityDest, declared)
  }

  function IA8Body(acc: Lines): Lines
  {
    var s0 := acc + [Plain(Declare("float4", "texSample"))];
    var s1 := AlphaIntensity(AlphaIntensity(s0, 0, "ocol0.b", "ocol0.g", false), 1, "ocol0.r", "ocol0.a", true);
    s1 + [Plain(AddIntensityOffset("ocol0.ga", "aa"))] + [EncoderEnd]
  }

  function IA4Body(acc: Lines): Lines
  {
    var s0 := acc + [Plain(Declare("float4", "texSample")), Plain(Declare("float4", "color0")), Plain(Declare("float4", "color1"))];
    var s1 := AlphaIntensity(AlphaIntensity(s0, 0, "color0.b", "color1.b", false), 1, "color0.g", "color1.g", true);
    var s2 := AlphaIntensity(AlphaIntensity(s1, 2, "color0.r", "color1.r", true), 3, "color0.a", "color1.a", true);
    PackNibbles(s2 + [Plain(AddIntensityOffset("color1.rgba", "aaaa"))])
  }

  function Rgb565Body(acc: Lines): Lines
  {
    var s0 := acc + [SampleColor("rgb", "float3 texSample0", 0)] + [SampleColor("rgb", "float3 texSample1", 1)];
    var s1 := s0 + [Plain(GatherPair("R", "r")), Plain(GatherPair("G", "g")), Plain(GatherPair("B", "b"))];
    var s2 := s1 + [Plain(ToBitDepth(6, "texGs", "float2 gInt"))] + [Plain(SplitGreenUpper), Plain(SplitGreenLower)];
    var s3 := s2 + [Plain(ToBitDepth(5, "texRs", "ocol0.br"))] + [Plain(MergeGreenUpper)];
    s3 + [Plain(ToBitDepth(5, "texBs", "ocol0.ga"))] + [Plain(MergeGreenLower), Plain(NormalizeOutput)] + [EncoderEnd]
  }

  /** One RGB5A3 texel into two output channels: RGB555 when its alpha is
      above 224/255, otherwise RGB4A3. */
  function Rgb5a3Texel(acc: Lines, xoffset: int, hi: string, lo: string): Lines
  {
    var s0 := acc + [SampleColor("rgba", "texSample", xoffset)] + [Plain(IfOpaque)];
    var s1 := s0 + [Plain(ToBitDepth(5, "texSample.g", "color0"))] + [Plain(SplitGreen5Upper), Plain(SplitGreen5Lower)];
    var s2 := s1 + [Plain(ToBitDepth(5, "texSample.r", "ocol0." + hi))] + [Plain(MergeOpaqueHigh(hi))];
    var s3 := s2 + [Plain(ToBitDepth(5, "texSample.b", "ocol0." + lo))] + [Plain(MergeOpaqueLow(lo)), Plain(Else)];
    var s4 := s3 + [Plain(ToBitDepth(4, "texSample.r", "ocol0." + hi))] + [Plain(ToBitDepth(4, "texSample.b", "ocol0." + lo))];
    var s5 := s4 + [Plain(ToBitDepth(3, "texSample.a", "color0"))] + [Plain(AddNibble(hi))];
    s5 + [Plain(ToBitDepth(4, "texSample.g", "color0"))] + [Plain(AddNibble(lo)), Plain(EndIf)]
  }

  function Rgb5a3Body(acc: Lines): Lines
  {
    var s0 := acc + [Plain(Declare("float4", "texSample")), Plain(Declare("float", "color0")), Plain(Declare("float", "gUpper")),
                     Plain(Declare("float", "gLower"))];
    Rgb5a3Texel(Rgb5a3Texel(s0, 0, "b", "g"), 1, "r", "a") + [Plain(NormalizeOutput)] + [EncoderEnd]
  }

  /** One RGBA8 texel: alpha and red into color0, green and blue into color1. */
  function Rgba8Texel(acc: Lines, xoffset: int, hi: string, lo: string): Lines
  {
    acc + [SampleColor("rgba", "texSample", xoffset)]
    + [Plain(Copy("color0." + hi, "texSample.a")), Plain(Copy("color0." + lo, "texSample.r")),
       Plain(Copy("color1." + hi, "texSample.g")), Plain(Copy("color1." + lo, "texSample.b"))]
  }

  function Rgba8Body(acc: Lines): Lines
  {
    var s0 := acc + [Plain(Declare("float4", "texSample")), Plain(Declare("float4", "color0")), Plain(Declare("float4", "color1"))];
    Rgba8Texel(Rgba8Texel(s0, 0, "b", "g"), 1, "r", "a") + [SelectCacheLine] + [EncoderEnd]
  }

  /** The eight C4 fetches: texel i into color0 or color1 (alternating), channels b, g, r, a by pairs. */
  function C4Samples(acc: Lines, comp: string): Lines
  {
    acc + [SampleColor(comp, "color0.b", 0)] + [SampleColor(comp, "color1.b", 1)]
    + [SampleColor(comp, "color0.g", 2)] + [SampleColor(comp, "color1.g", 3)]
    + [SampleColor(comp, "color0.r", 4)] + [SampleColor(comp, "color1.r", 5)]
    + [SampleColor(comp, "color0.a", 6)] + [SampleColor(comp, "color1.a", 7)]
  }

  function C4Body(acc: Lines, comp: string): Lines
  {
    PackNibbles(C4Samples(acc + [Plain(Declare("float4", "color0")), Plain(Declare("float4", "color1"))], comp))
  }

  function C8Body(acc: Lines, comp: string): Lines
  {
    acc + [SampleColor(comp, "ocol0.b", 0)] + [SampleColor(comp, "ocol0.g", 1)]
    + [SampleColor(comp, "ocol0.r", 2)] + [SampleColor(comp, "ocol0.a", 3)] + [EncoderEnd]
  }

  /** One CC4 texel: its two components go to color0 and color1. */
  function CC4Texel(acc: Lines, comp: string, xoffset: int, channel: string): Lines
  {
    acc + [SampleColor(comp, "texSample", xoffset)]
    + [Plain(Copy("color0." + channel, "texSample.x")), Plain(Copy("color1." + channel, "texSample.y"))]
  }

  function CC4Body(acc: Lines, comp: string): Lines
  {
    var s0 := acc + [Plain(Declare("float2", "texSample")), Plain(Declare("float4", "color0")), Plain(Declare("float4", "color1"))];
    var s1 := CC4Texel(CC4Texel(s0, comp, 0, "b"), comp, 1, "g");
    PackNibbles(CC4Texel(CC4Texel(s1, comp, 2, "r"), comp, 3, "a"))
  }

  function CC8Body(acc: Lines, comp: string): Lines
  {
    acc + [SampleColor(comp, "ocol0.bg", 0)] + [SampleColor(comp, "ocol0.ra", 1)] + [EncoderEnd]
  }

  /** One Z8 texel: the fractional depth scaled by the multiplier. */
  function Z8Texel(acc: Lines, multiplier: string, xoffset: int, channel: string): Lines
  {
    acc + [SampleColor("b", "depth", xoffset)] + [Plain(DepthFraction(channel, multiplier))]
  }

  function Z8Body(acc: Lines, multiplier: string): Lines
  {
    var s0 := Z8Texel(Z8Texel(acc + [Plain(NarrowDepthDeclaration)], multiplier, 0, "b"), multiplier, 1, "g");
    Z8Texel(Z8Texel(s0, multiplier, 2, "r"), multiplier, 3, "a") + [EncoderEnd]
  }

  /** The 16-bit depth writers' declarations. */
  function DeclareDepth(acc: Lines): Lines
  {
    acc + [Plain(Declare("float", "depth")), Plain(Declare("float3", "expanded"))]
  }

  /** A depth sample scaled to 24 bits, split into its high and middle bytes. */
  function Depth16Split(acc: Lines, xoffset: int): Lines
  {
    acc + [SampleColor("b", "depth", xoffset)]
    + [Plain(ScaleDepth("")), Plain(SplitHigh("")), Plain(DropHigh("")), Plain(SplitMiddle(""))]
  }

  /** Z16, byte-reversed: middle then high byte per texel. */
  function Z16Body(acc: Lines): Lines
  {
    var s0 := Depth16Split(DeclareDepth(acc), 0) + [Plain(ByteToChannel("b", "g")), Plain(ByteToChannel("g", "r"))];
    Depth16Split(s0, 1) + [Plain(ByteToChannel("r", "g")), Plain(ByteToChannel("a", "r"))] + [EncoderEnd]
  }

  /** Depth16Split followed by the low byte. */
  function Depth24Split(acc: Lines, xoffset: int): Lines
  {
    Depth16Split(acc, xoffset) + [Plain(DropMiddle("")), Plain(SplitLow(""))]
  }

  /** Z16L, byte-reversed: low then middle byte per texel. */
  function Z16LBody(acc: Lines): Lines
  {
    var s0 := Depth24Split(DeclareDepth(acc), 0) + [Plain(ByteToChannel("b", "b")), Plain(ByteToChannel("g", "g"))];
    Depth24Split(s0, 1) + [Plain(ByteToChannel("r", "b")), Plain(ByteToChannel("a", "g"))] + [EncoderEnd]
  }

  /** One pass of the Z24 unpacking loop, for depth sample i. */
  function Unpack24(i: nat): Lines
  {
    var d := Decimal(i);
    [Plain(ScaleDepth(d)), Plain(SplitHigh(d)), Plain(DropHigh(d)), Plain(SplitMiddle(d)), Plain(DropMiddle(d)),
     Plain(SplitLow(d))]
  }

  /** The first n passes of the Z24 unpacking loop. */
  function Unpacked24(acc: Lines, n: nat): Lines
  {
    if n == 0 then acc else Unpacked24(acc, n - 1) + Unpack24(n - 1)
  }

  /** The Z24 declarations and its two sample fetches. */
  function Z24Head(acc: Lines): Lines
  {
    acc + [Plain(Declare("float", "depth0")), Plain(Declare("float", "depth1")), Plain(Declare("float3", "expanded0")),
           Plain(Declare("float3", "expanded1"))]
    + [SampleColor("b", "depth0", 0)] + [SampleColor("b", "depth1", 1)]
  }

  /** The Z24 selection: middle and low bytes on the second cache line, the
      high bytes (and ones) on the first. */
  function Z24Tail(acc: Lines): Lines
  {
    acc + [IfSecondCacheLine, Plain(SelectByte("b", "0.g")), Plain(SelectByte("g", "0.b")), Plain(SelectByte("r", "1.g")),
           Plain(SelectByte("a", "1.b")),
           Plain(ElseFirstCacheLine), Plain(SelectOne("b")), Plain(SelectByte("g", "0.r")), Plain(SelectOne("r")),
           Plain(SelectByte("a", "1.r")), Plain(EndSelect)]
    + [EncoderEnd]
  }

  function Z24Body(acc: Lines): Lines
  {
    Z24Tail(Unpacked24(Z24Head(acc), 2))
  }

  /** The lines the switch of GenerateEncodingShader appends: nothing for an
      unknown format. The known formats fall in three groups, one function each. */
  function FormatLines(acc: Lines, format: CopyFormat, layout: CopyFormat -> Geometry): Lines
  {
    if IsTextureFormat(format) then TextureLines(acc, format, layout)
    else if IsColourCopyFormat(format) then ColourCopyLines(acc, format, layout)
    else if IsDepthFormat(format) then DepthLines(acc, format, layout)
    else acc
  }

  // The switch's cases, in three groups so that each is proved on its own.

  /** The colour texture formats. */
  predicate IsTextureFormat(format: CopyFormat)
  {
    format.TfI4? || format.TfI8? || format.TfIA4? || format.TfIA8? || format.TfRgb565? || format.TfRgb5a3? || format.TfRgba8?
  }

  /** The colour copy-only formats (one or two channels). */
  predicate IsColourCopyFormat(format: CopyFormat)
  {
    format.CtfR4? || format.CtfRa4? || format.CtfRa8? || format.CtfA8? || format.CtfR8? || format.CtfG8? || format.CtfB8? || format.CtfRg8? || format.CtfGb8?
  }

  /** The depth texture and depth copy formats. */
  predicate IsDepthFormat(format: CopyFormat)
  {
    format.TfZ8? || format.TfZ16? || format.TfZ24x8? || format.CtfZ4? || format.CtfZ8M? || format.CtfZ8L? || format.CtfZ16L?
  }

  /** The cases of the switch for the texture formats. */
  function TextureLines(acc: Lines, format: CopyFormat, layout: CopyFormat -> Geometry): Lines
    requires IsTextureFormat(format)
  {
    match format
    case TfI4 => I4Body(SwizzlerLines(acc, GeometryOf(layout, TfI4)))
    case TfI8 => I8Body(SwizzlerLines(acc, GeometryOf(layout, TfI8)))
    case TfIA4 => IA4Body(SwizzlerLines(acc, GeometryOf(layout, TfIA4)))
    case TfIA8 => IA8Body(SwizzlerLines(acc, GeometryOf(layout, TfIA8)))
    case TfRgb565 => Rgb565Body(SwizzlerLines(acc, GeometryOf(layout, TfRgb565)))
    case TfRgb5a3 => Rgb5a3Body(SwizzlerLines(acc, GeometryOf(layout, TfRgb5a3)))
    case TfRgba8 => Rgba8Body(SwizzlerLines(acc, GeometryOf(layout, TfRgba8)))
  }

  /** The cases of the switch for the colour copy formats. */
  function ColourCopyLines(acc: Lines, format: CopyFormat, layout: CopyFormat -> Geometry): Lines
    requires IsColourCopyFormat(format)
  {
    match format
    case CtfR4 => C4Body(SwizzlerLines(acc, GeometryOf(layout, CtfR4)), "r")
    case CtfRa4 => CC4Body(SwizzlerLines(acc, GeometryOf(layout, CtfRa4)), "ar")
    case CtfRa8 => CC8Body(SwizzlerLines(acc, GeometryOf(layout, CtfRa8)), "ar")
    case CtfA8 => C8Body(SwizzlerLines(acc, GeometryOf(layout, CtfR8)), "a")
    case CtfR8 => C8Body(SwizzlerLines(acc, GeometryOf(layout, CtfR8)), "r")
    case CtfG8 => C8Body(SwizzlerLines(acc, GeometryOf(layout, CtfR8)), "g")
    case CtfB8 => C8Body(SwizzlerLines(acc, GeometryOf(layout, CtfR8)), "b")
    case CtfRg8 => CC8Body(SwizzlerLines(acc, GeometryOf(layout, CtfRa8)), "rg")
    case CtfGb8 => CC8Body(SwizzlerLines(acc, GeometryOf(layout, CtfRa8)), "gb")
  }

  /** The cases of the switch for the depth formats. */
  function DepthLines(acc: Lines, format: CopyFormat, layout: CopyFormat -> Geometry): Lines
    requires IsDepthFormat(format)
  {
    match format
    case TfZ8 => C8Body(SwizzlerLines(acc, GeometryOf(layout, CtfR8)), "b")
    case TfZ16 => Z16Body(SwizzlerLines(acc, GeometryOf(layout, TfZ16)))
    case TfZ24x8 => Z24Body(SwizzlerLines(acc, GeometryOf(layout, TfZ24x8)))
    case CtfZ4 => C4Body(SwizzlerLines(acc, GeometryOf(layout, CtfR4)), "b")
    case CtfZ8M => Z8Body(SwizzlerLines(acc, GeometryOf(layout, CtfZ8M)), "256.0")
    case CtfZ8L => Z8Body(SwizzlerLines(acc, GeometryOf(layout, CtfZ8M)), "65536.0")
    case CtfZ16L => Z16LBody(SwizzlerLines(acc, GeometryOf(layout, CtfZ16L)))
  }

  /** What GenerateEncodingShader writes for a format. */
  function ShaderLines(format: CopyFormat, layout: CopyFormat -> Geometry): Lines
  {
    FormatLines([], format, layout)
  }

  // ---------------------------------------------------------------------------
  // The generator
  // ---------------------------------------------------------------------------

  /** Size of the static text buffer. */
  const TextSize: nat := 16384

  /** The byte planted in the buffer's last position. */
  const Canary: char := 0x7C as char

  /** Appending the next element of ls extends the appended prefix of ls by one. */
  lemma ExtendPrefix<T>(a: seq<T>, ls: seq<T>, k: nat)
    requires k < |ls|
    ensures (a + ls[..k]) + [ls[k]] == a + ls[..k + 1]
  {
    assert ls[..k + 1] == ls[..k] + [ls[k]];
  }

  /** The two PanicAlerts the generator can raise. */
  datatype Alert = UnknownFormat(code: nat) | CanaryEaten

  /** The canary check fires for this text: its NUL terminator lands on the
      last byte, or the text itself runs over it with another character. */
  predicate CanaryEatenBy(s: string)
  {
    |s| == TextSize - 1 || (|s| >= TextSize && s[TextSize - 1] != Canary)
  }

  /** The generator's static state: the text buffer, the intensity flag and
      the write position the writers share by reference. */
  class ShaderText {
    var text: array<char>
    var p: nat
    var intensityConstantAdded: bool
    /** The text written since the last generation began. */
    ghost var written: string
    /** The lines that text is made of. */
    ghost var lines: Lines
    /** What the last buffer byte held when that generation began. */
    ghost var lastByte: char

    /** The buffer holds the written text up to p (as far as it reaches),
        a terminating NUL after it once anything was written, and its last
        byte is untouched while the text stays short of it. */
    ghost predicate Valid()
      reads this, text
    {
      && text.Length == TextSize
      && written == Output(lines)
      && p == |written|
      && (forall i :: 0 <= i < p && i < TextSize ==> text[i] == written[i])
      && (|lines| > 0 && p < TextSize ==> text[p] == 0 as char)
      && (p < TextSize - 1 ==> text[TextSize - 1] == lastByte)
    }

    constructor ()
      ensures Valid() && fresh(text)
      ensures p == 0 && lines == [] && !intensityConstantAdded
    {
      text := new char[TextSize](_ => 0 as char);
      p := 0;
      intensityConstantAdded := false;
      written := "";
      lines := [];
      lastByte := 0 as char;
    }

    /** sprintf of already formatted text at p: the characters and a NUL,
        each dropped if it would fall beyond the buffer; p advances by the
        length of the text. */
    method Put(s: string)
      requires text.Length == TextSize && p == |written|
      requires forall i :: 0 <= i < p && i < TextSize ==> text[i] == written[i]
      modifies this`p, this`written, text
      ensures p == old(p) + |s| && written == old(written) + s
      ensures forall i :: 0 <= i < p && i < TextSize ==> text[i] == written[i]
      ensures p < TextSize ==> text[p] == 0 as char
      ensures p < TextSize - 1 ==> text[TextSize - 1] == old(text[TextSize - 1])
    {
      var k := 0;
      while k < |s|
        invariant 0 <= k <= |s|
        invariant p == old(p) && written == old(written)
        invariant forall i :: 0 <= i < TextSize && !(p <= i < p + k) ==> text[i] == old(text[i])
        invariant forall i :: p <= i < p + k && i < TextSize ==> text[i] == s[i - p]
      {
        if p + k < TextSize {
          text[p + k] := s[k];
        }
        k := k + 1;
      }
      if p + |s| < TextSize {
        text[p + |s|] := 0 as char;
      }
      written := written + s;
      p := p + |s|;
      forall i | 0 <= i < p && i < TextSize
        ensures text[i] == written[i]
      {
        if i < old(p) {
          assert text[i] == old(text[i]);
        }
      }
    }

    /** One WRITE of a line. */
    method Emit(l: Line)
      requires Valid()
      modifies this`p, this`written, this`lines, text
      ensures Valid()
      ensures lines == old(lines) + [l]
    {
      Put(Render(l));
      lines := lines + [l];
      assert lines[..|lines| - 1] == old(lines);
    }

    /** A run of consecutive WRITEs of fixed lines, in order. */
    method EmitAll(ls: Lines)
      requires Valid()
      modifies this`p, this`written, this`lines, text
      ensures Valid()
      ensures lines == old(lines) + ls
    {
      var k := 0;
      while k < |ls|
        invariant 0 <= k <= |ls|
        invariant Valid()
        invariant lines == old(lines) + ls[..k]
      {
        Emit(ls[k]);
        ExtendPrefix(old(lines), ls, k);
        k := k + 1;
      }
      assert ls[..k] == ls;
    }

    method WriteSampleColor(comp: string, dest: string, xoffset: int)
      requires Valid()
      modifies this`p, this`written, this`lines, text
      ensures Valid()
      ensures lines == old(lines) + [SampleColor(comp, dest, xoffset)]
    {
      Emit(SampleColor(comp, dest, xoffset));
    }

    method WriteColorToIntensity(src: string, dest: string)
      requires Valid()
      modifies this`p, this`written, this`lines, this`intensityConstantAdded, text
      ensures Valid() && intensityConstantAdded
      ensures lines == WithIntensity(old(lines), src, dest, old(intensityConstantAdded))
    {
      if !intensityConstantAdded {
        Emit(IntensityConstant);
        intensityConstantAdded := true;
      }
      Emit(Plain(ColorToIntensity(src, dest)));
    }

    method WriteToBitDepth(depth: int, src: string, dest: string)
      requires Valid()
      modifies this`p, this`written, this`lines, text
      ensures Valid()
      ensures lines == old(lines) + [Plain(ToBitDepth(depth, src, dest))]
    {
      Emit(Plain(ToBitDepth(depth, src, dest)));
    }

    method WriteEncoderEnd()
      requires Valid()
      modifies this`p, this`written, this`lines, this`intensityConstantAdded, text
      ensures Valid() && !intensityConstantAdded
      ensures lines == old(lines) + [EncoderEnd] && EndsShader(lines)
    {
      Emit(EncoderEnd);
      intensityConstantAdded := false;
    }

    /** WriteSwizzler: the header and position math for a format's block
        layout, which the layout parameter supplies. */
    method WriteSwizzler(format: CopyFormat, layout: CopyFormat -> Geometry)
      requires Valid()
      modifies this`p, this`written, this`lines, text
      ensures Valid()
      ensures lines == SwizzlerLines(old(lines), GeometryOf(layout, format))
    {
      var g := GeometryOf(layout, format);
      EmitAll(SwizzlerHead(g));
      if g.samples == 1 {
        EmitAll([FirstCacheLine(8 * g.samples), DoubleVirtualPosition]);
      }
      EmitAll(SwizzlerTail(g));
    }

    /** The shared tail of the 4-bit writers: both colours quantised, packed, and the end. */
    method WritePackNibbles()
      requires Valid()
      modifies this`p, this`written, this`lines, this`intensityConstantAdded, text
      ensures Valid() && !intensityConstantAdded
      ensures lines == PackNibbles(old(lines)) && EndsShader(lines)
    {
      WriteToBitDepth(4, "color0", "color0");
      WriteToBitDepth(4, "color1", "color1");
      EmitAll([Plain(CombineNibbles)]);
      WriteEncoderEnd();
    }

    /** An rgb fetch of texel xoffset into texSample and its intensity into dest. */
    method WriteSampleIntensity(xoffset: int, dest: string)
      requires Valid()
      modifies this`p, this`written, this`lines, this`intensityConstantAdded, text
      ensures Valid() && intensityConstantAdded
      ensures lines == SampleIntensity(old(lines), xoffset, dest, old(intensityConstantAdded))
    {
      WriteSampleColor("rgb", "texSample", xoffset);
      WriteColorToIntensity("texSample", dest);
    }

    method WriteAlphaIntensity(xoffset: int, alphaDest: string, intensityDest: string)
      requires Valid()
      modifies this`p, this`written, this`lines, this`intensityConstantAdded, text
      ensures Valid() && intensityConstantAdded
      ensures lines == AlphaIntensity(old(lines), xoffset, alphaDest, intensityDest, old(intensityConstantAdded))
    {
      WriteSampleColor("rgba", "texSample", xoffset);
      EmitAll([Plain(Copy(alphaDest, "texSample.a"))]);
      WriteColorToIntensity("texSample", intensityDest);
    }

    method WriteRgba8Texel(xoffset: int, hi: string, lo: string)
      requires Valid()
      modifies this`p, this`written, this`lines, text
      ensures Valid()
      ensures lines == Rgba8Texel(old(lines), xoffset, hi, lo)
    {
      WriteSampleColor("rgba", "texSample", xoffset);
      EmitAll([Plain(Copy("color0." + hi, "texSample.a")), Plain(Copy("color0." + lo, "texSample.r")),
               Plain(Copy("color1." + hi, "texSample.g")), Plain(Copy("color1." + lo, "texSample.b"))]);
    }

    method WriteCC4Texel(comp: string, xoffset: int, channel: string)
      requires Valid()
      modifies this`p, this`written, this`lines, text
      ensures Valid()
      ensures lines == CC4Texel(old(lines), comp, xoffset, channel)
    {
      WriteSampleColor(comp, "texSample", xoffset);
      EmitAll([Plain(Copy("color0." + channel, "texSample.x")), Plain(Copy("color1." + channel, "texSample.y"))]);
    }

    /** The RGB5A3 writer's code for one texel, which it repeats for texels 0 and 1. */
    method WriteRgb5a3Texel(xoffset: int, hi: string, lo: string)
      requires Valid()
      modifies this`p, this`written, this`lines, text
      ensures Valid()
      ensures lines == Rgb5a3Texel(old(lines), xoffset, hi, lo)
    {
      WriteSampleColor("rgba", "texSample", xoffset);
      EmitAll([Plain(IfOpaque)]);
      WriteToBitDepth(5, "texSample.g", "color0");
      EmitAll([Plain(SplitGreen5Upper), Plain(SplitGreen5Lower)]);
      WriteToBitDepth(5, "texSample.r", "ocol0." + hi);
      EmitAll([Plain(MergeOpaqueHigh(hi))]);
      WriteToBitDepth(5, "texSample.b", "ocol0." + lo);
      EmitAll([Plain(MergeOpaqueLow(lo)), Plain(Else)]);
      WriteToBitDepth(4, "texSample.r", "ocol0." + hi);
      WriteToBitDepth(4, "texSample.b", "ocol0." + lo);
      WriteToBitDepth(3, "texSample.a", "color0");
      EmitAll([Plain(AddNibble(hi))]);
      WriteToBitDepth(4, "texSample.g", "color0");
      EmitAll([Plain(AddNibble(lo)), Plain(EndIf)]);
    }

    method WriteI8Encoder(layout: CopyFormat -> Geometry)
      requires Valid() && !intensityConstantAdded
      modifies this`p, this`written, this`lines, this`intensityConstantAdded, text
      ensures Valid() && !intensityConstantAdded
      ensures lines == I8Body(SwizzlerLines(old(lines), GeometryOf(layout, TfI8))) && EndsShader(lines)
    {
      WriteSwizzler(TfI8, layout);
      EmitAll([Plain(Declare("float3", "texSample"))]);
      ghost var s := lines;
      WriteSampleIntensity(0, "ocol0.b");
      WriteSampleIntensity(1, "ocol0.g");
      assert lines == SampleIntensity(SampleIntensity(s, 0, "ocol0.b", false), 1, "ocol0.g", true);
      WriteSampleIntensity(2, "ocol0.r");
      WriteSampleIntensity(3, "ocol0.a");
      EmitAll([Plain(AddIntensityOffset("ocol0.rgba", "aaaa"))]);
      WriteEncoderEnd();
    }

    method WriteI4Encoder(layout: CopyFormat -> Geometry)
      requires Valid() && !intensityConstantAdded
      modifies this`p, this`written, this`lines, this`intensityConstantAdded, text
      ensures Valid() && !intensityConstantAdded
      ensures lines == I4Body(SwizzlerLines(old(lines), GeometryOf(layout, TfI4))) && EndsShader(lines)
    {
      WriteSwizzler(TfI4, layout);
      EmitAll([Plain(Declare("float3", "texSample")), Plain(Declare("float4", "color0")), Plain(Declare("float4", "color1"))]);
      ghost var s := lines;
      WriteSampleIntensity(0, "color0.b");
      WriteSampleIntensity(1, "color1.b");
      assert lines == SampleIntensity(SampleIntensity(s, 0, "color0.b", false), 1, "color1.b", true);
      s := lines;
      WriteSampleIntensity(2, "color0.g");
      WriteSampleIntensity(3, "color1.g");
      assert lines == SampleIntensity(SampleIntensity(s, 2, "color0.g", true), 3, "color1.g", true);
      s := lines;
      WriteSampleIntensity(4, "color0.r");
      WriteSampleIntensity(5, "color1.r");
      assert lines == SampleIntensity(SampleIntensity(s, 4, "color0.r", true), 5, "color1.r", true);
      s := lines;
      WriteSampleIntensity(6, "color0.a");
      WriteSampleIntensity(7, "color1.a");
      assert lines == SampleIntensity(SampleIntensity(s, 6, "color0.a", true), 7, "color1.a", true);
      EmitAll([Plain(AddIntensityOffset("color0.rgba", "aaaa")), Plain(AddIntensityOffset("color1.rgba", "aaaa"))]);
      WritePackNibbles();
    }

    method WriteIA8Encoder(layout: CopyFormat -> Geometry)
      requires Valid() && !intensityConstantAdded
      modifies this`p, this`written, this`lines, this`intensityConstantAdded, text
      ensures Valid() && !intensityConstantAdded
      ensures lines == IA8Body(SwizzlerLines(old(lines), GeometryOf(layout, TfIA8))) && EndsShader(lines)
    {
      WriteSwizzler(TfIA8, layout);
      EmitAll([Plain(Declare("float4", "texSample"))]);
      WriteAlphaIntensity(0, "ocol0.b", "ocol0.g");
      WriteAlphaIntensity(1, "ocol0.r", "ocol0.a");
      EmitAll([Plain(AddIntensityOffset("ocol0.ga", "aa"))]);
      WriteEncoderEnd();
    }

    method WriteIA4Encoder(layout: CopyFormat -> Geometry)
      requires Valid() && !intensityConstantAdded
      modifies this`p, this`written, this`lines, this`intensityConstantAdded, text
      ensures Valid() && !intensityConstantAdded
      ensures lines == IA4Body(SwizzlerLines(old(lines), GeometryOf(layout, TfIA4))) && EndsShader(lines)
    {
      WriteSwizzler(TfIA4, layout);
      EmitAll([Plain(Declare("float4", "texSample")), Plain(Declare("float4", "color0")), Plain(Declare("float4", "color1"))]);
      ghost var s := lines;
      WriteAlphaIntensity(0, "color0.b", "color1.b");
      WriteAlphaIntensity(1, "color0.g", "color1.g");
      assert lines == AlphaIntensity(AlphaIntensity(s, 0, "color0.b", "color1.b", false), 1, "color0.g", "color1.g", true);
      s := lines;
      WriteAlphaIntensity(2, "color0.r", "color1.r");
      WriteAlphaIntensity(3, "color0.a", "color1.a");
      assert lines == AlphaIntensity(AlphaIntensity(s, 2, "color0.r", "color1.r", true), 3, "color0.a", "color1.a", true);
      EmitAll([Plain(AddIntensityOffset("color1.rgba", "aaaa"))]);
      WritePackNibbles();
    }

    method WriteRgb565Encoder(layout: CopyFormat -> Geometry)
      requires Valid() && !intensityConstantAdded
      modifies this`p, this`written, this`lines, this`intensityConstantAdded, text
      ensures Valid() && !intensityConstantAdded
      ensures lines == Rgb565Body(SwizzlerLines(old(lines), GeometryOf(layout, TfRgb565))) && EndsShader(lines)
    {
      WriteSwizzler(TfRgb565, layout);
      WriteSampleColor("rgb", "float3 texSample0", 0);
      WriteSampleColor("rgb", "float3 texSample1", 1);
      EmitAll([Plain(GatherPair("R", "r")), Plain(GatherPair("G", "g")), Plain(GatherPair("B", "b"))]);
      WriteToBitDepth(6, "texGs", "float2 gInt");
      EmitAll([Plain(SplitGreenUpper), Plain(SplitGreenLower)]);
      WriteToBitDepth(5, "texRs", "ocol0.br");
      EmitAll([Plain(MergeGreenUpper)]);
      WriteToBitDepth(5, "texBs", "ocol0.ga");
      EmitAll([Plain(MergeGreenLower), Plain(NormalizeOutput)]);
      WriteEncoderEnd();
    }

    method WriteRgb5a3Encoder(layout: CopyFormat -> Geometry)
      requires Valid() && !intensityConstantAdded
      modifies this`p, this`written, this`lines, this`intensityConstantAdded, text
      ensures Valid() && !intensityConstantAdded
      ensures lines == Rgb5a3Body(SwizzlerLines(old(lines), GeometryOf(layout, TfRgb5a3))) && EndsShader(lines)
    {
      WriteSwizzler(TfRgb5a3, layout);
      EmitAll([Plain(Declare("float4", "texSample")), Plain(Declare("float", "color0")), Plain(Declare("float", "gUpper")),
               Plain(Declare("float", "gLower"))]);
      WriteRgb5a3Texel(0, "b", "g");
      WriteRgb5a3Texel(1, "r", "a");
      EmitAll([Plain(NormalizeOutput)]);
      WriteEncoderEnd();
    }

    method WriteRgba8Encoder(layout: CopyFormat -> Geometry)
      requires Valid() && !intensityConstantAdded
      modifies this`p, this`written, this`lines, this`intensityConstantAdded, text
      ensures Valid() && !intensityConstantAdded
      ensures lines == Rgba8Body(SwizzlerLines(old(lines), GeometryOf(layout, TfRgba8))) && EndsShader(lines)
    {
      WriteSwizzler(TfRgba8, layout);
      EmitAll([Plain(Declare("float4", "texSample")), Plain(Declare("float4", "color0")), Plain(Declare("float4", "color1"))]);
      WriteRgba8Texel(0, "b", "g");
      WriteRgba8Texel(1, "r", "a");
      EmitAll([SelectCacheLine]);
      WriteEncoderEnd();
    }

    method WriteC4Encoder(comp: string, layout: CopyFormat -> Geometry)
      requires Valid() && !intensityConstantAdded
      modifies this`p, this`written, this`lines, this`intensityConstantAdded, text
      ensures Valid() && !intensityConstantAdded
      ensures lines == C4Body(SwizzlerLines(old(lines), GeometryOf(layout, CtfR4)), comp) && EndsShader(lines)
    {
      WriteSwizzler(CtfR4, layout);
      EmitAll([Plain(Declare("float4", "color0")), Plain(Declare("float4", "color1"))]);
      WriteSampleColor(comp, "color0.b", 0);
      WriteSampleColor(comp, "color1.b", 1);
      WriteSampleColor(comp, "color0.g", 2);
      WriteSampleColor(comp, "color1.g", 3);
      WriteSampleColor(comp, "color0.r", 4);
      WriteSampleColor(comp, "color1.r", 5);
      WriteSampleColor(comp, "color0.a", 6);
      WriteSampleColor(comp, "color1.a", 7);
      WritePackNibbles();
    }

    method WriteC8Encoder(comp: string, layout: CopyFormat -> Geometry)
      requires Valid() && !intensityConstantAdded
      modifies this`p, this`written, this`lines, this`intensityConstantAdded, text
      ensures Valid() && !intensityConstantAdded
      ensures lines == C8Body(SwizzlerLines(old(lines), GeometryOf(layout, CtfR8)), comp) && EndsShader(lines)
    {
      WriteSwizzler(CtfR8, layout);
      WriteSampleColor(comp, "ocol0.b", 0);
      WriteSampleColor(comp, "ocol0.g", 1);
      WriteSampleColor(comp, "ocol0.r", 2);
      WriteSampleColor(comp, "ocol0.a", 3);
      WriteEncoderEnd();
    }

    method WriteCC4Encoder(comp: string, layout: CopyFormat -> Geometry)
      requires Valid() && !intensityConstantAdded
      modifies this`p, this`written, this`lines, this`intensityConstantAdded, text
      ensures Valid() && !intensityConstantAdded
      ensures lines == CC4Body(SwizzlerLines(old(lines), GeometryOf(layout, CtfRa4)), comp) && EndsShader(lines)
    {
      WriteSwizzler(CtfRa4, layout);
      EmitAll([Plain(Declare("float2", "texSample")), Plain(Declare("float4", "color0")), Plain(Declare("float4", "color1"))]);
      WriteCC4Texel(comp, 0, "b");
      WriteCC4Texel(comp, 1, "g");
      WriteCC4Texel(comp, 2, "r");
      WriteCC4Texel(comp, 3, "a");
      WritePackNibbles();
    }

    method WriteCC8Encoder(comp: string, layout: CopyFormat -> Geometry)
      requires Valid() && !intensityConstantAdded
      modifies this`p, this`written, this`lines, this`intensityConstantAdded, text
      ensures Valid() && !intensityConstantAdded
      ensures lines == CC8Body(SwizzlerLines(old(lines), GeometryOf(layout, CtfRa8)), comp) && EndsShader(lines)
    {
      WriteSwizzler(CtfRa8, layout);
      WriteSampleColor(comp, "ocol0.bg", 0);
      WriteSampleColor(comp, "ocol0.ra", 1);
      WriteEncoderEnd();
    }

    method WriteZ8Encoder(multiplier: string, layout: CopyFormat -> Geometry)
      requires Valid() && !intensityConstantAdded
      modifies this`p, this`written, this`lines, this`intensityConstantAdded, text
      ensures Valid() && !intensityConstantAdded
      ensures lines == Z8Body(SwizzlerLines(old(lines), GeometryOf(layout, CtfZ8M)), multiplier) && EndsShader(lines)
    {
      WriteSwizzler(CtfZ8M, layout);
      EmitAll([Plain(NarrowDepthDeclaration)]);
      WriteSampleColor("b", "depth", 0);
      EmitAll([Plain(DepthFraction("b", multiplier))]);
      WriteSampleColor("b", "depth", 1);
      EmitAll([Plain(DepthFraction("g", multiplier))]);
      WriteSampleColor("b", "depth", 2);
      EmitAll([Plain(DepthFraction("r", multiplier))]);
      WriteSampleColor("b", "depth", 3);
      EmitAll([Plain(DepthFraction("a", multiplier))]);
      WriteEncoderEnd();
    }

    method WriteZ16Encoder(layout: CopyFormat -> Geometry)
      requires Valid() && !intensityConstantAdded
      modifies this`p, this`written, this`lines, this`intensityConstantAdded, text
      ensures Valid() && !intensityConstantAdded
      ensures lines == Z16Body(SwizzlerLines(old(lines), GeometryOf(layout, TfZ16))) && EndsShader(lines)
    {
      WriteSwizzler(TfZ16, layout);
      EmitAll([Plain(Declare("float", "depth")), Plain(Declare("float3", "expanded"))]);
      WriteSampleColor("b", "depth", 0);
      EmitAll([Plain(ScaleDepth("")), Plain(SplitHigh("")), Plain(DropHigh("")), Plain(SplitMiddle(""))]);
      EmitAll([Plain(ByteToChannel("b", "g")), Plain(ByteToChannel("g", "r"))]);
      WriteSampleColor("b", "depth", 1);
      EmitAll([Plain(ScaleDepth("")), Plain(SplitHigh("")), Plain(DropHigh("")), Plain(SplitMiddle(""))]);
      EmitAll([Plain(ByteToChannel("r", "g")), Plain(ByteToChannel("a", "r"))]);
      WriteEncoderEnd();
    }

    method WriteZ16LEncoder(layout: CopyFormat -> Geometry)
      requires Valid() && !intensityConstantAdded
      modifies this`p, this`written, this`lines, this`intensityConstantAdded, text
      ensures Valid() && !intensityConstantAdded
      ensures lines == Z16LBody(SwizzlerLines(old(lines), GeometryOf(layout, CtfZ16L))) && EndsShader(lines)
    {
      WriteSwizzler(CtfZ16L, layout);
      EmitAll([Plain(Declare("float", "depth")), Plain(Declare("float3", "expanded"))]);
      WriteSampleColor("b", "depth", 0);
      EmitAll([Plain(ScaleDepth("")), Plain(SplitHigh("")), Plain(DropHigh("")), Plain(SplitMiddle(""))]);
      EmitAll([Plain(DropMiddle("")), Plain(SplitLow(""))]);
      EmitAll([Plain(ByteToChannel("b", "b")), Plain(ByteToChannel("g", "g"))]);
      WriteSampleColor("b", "depth", 1);
      EmitAll([Plain(ScaleDepth("")), Plain(SplitHigh("")), Plain(DropHigh("")), Plain(SplitMiddle(""))]);
      EmitAll([Plain(DropMiddle("")), Plain(SplitLow(""))]);
      EmitAll([Plain(ByteToChannel("r", "b")), Plain(ByteToChannel("a", "g"))]);
      WriteEncoderEnd();
    }

    /** The loop of the Z24 writer: both samples split into their three bytes. */
    method WriteUnpack24()
      requires Valid()
      modifies this`p, this`written, this`lines, text
      ensures Valid() && intensityConstantAdded == old(intensityConstantAdded)
      ensures lines == Unpacked24(old(lines), 2)
    {
      ghost var head := lines;
      for i := 0 to 2
        invariant Valid() && intensityConstantAdded == old(intensityConstantAdded)
        invariant lines == Unpacked24(head, i)
      {
        EmitAll(Unpack24(i));
      }
    }

    method WriteZ24Encoder(layout: CopyFormat -> Geometry)
      requires Valid() && !intensityConstantAdded
      modifies this`p, this`written, this`lines, this`intensityConstantAdded, text
      ensures Valid() && !intensityConstantAdded
      ensures lines == Z24Body(SwizzlerLines(old(lines), GeometryOf(layout, TfZ24x8))) && EndsShader(lines)
    {
      WriteSwizzler(TfZ24x8, layout);
      ghost var swizzled := lines;
      EmitAll([Plain(Declare("float", "depth0")), Plain(Declare("float", "depth1")), Plain(Declare("float3", "expanded0")),
               Plain(Declare("float3", "expanded1"))]);
      WriteSampleColor("b", "depth0", 0);
      WriteSampleColor("b", "depth1", 1);
      assert lines == Z24Head(swizzled);
      WriteUnpack24();
      EmitAll([IfSecondCacheLine, Plain(SelectByte("b", "0.g")), Plain(SelectByte("g", "0.b")), Plain(SelectByte("r", "1.g")),
               Plain(SelectByte("a", "1.b")),
               Plain(ElseFirstCacheLine), Plain(SelectOne("b")), Plain(SelectByte("g", "0.r")), Plain(SelectOne("r")),
               Plain(SelectByte("a", "1.r")), Plain(EndSelect)]);
      WriteEncoderEnd();
    }

    /** With the canary planted, comparing the last byte with it finds exactly the
        texts that overran it. */
    lemma CanaryCheck()
      requires Valid() && lastByte == Canary
      ensures text[TextSize - 1] != Canary <==> CanaryEatenBy(written)
    {
      if p == TextSize - 1 {
        assert lines != [];
      } else if p >= TextSize {
        assert text[TextSize - 1] == written[TextSize - 1];
      }
    }

    /** The cases of the switch for the texture formats. */
    method WriteTextureShader(format: CopyFormat, layout: CopyFormat -> Geometry)
      requires Valid() && !intensityConstantAdded && IsTextureFormat(format)
      modifies this`p, this`written, this`lines, this`intensityConstantAdded, text
      ensures Valid() && !intensityConstantAdded
      ensures lines == TextureLines(old(lines), format, layout) && EndsShader(lines)
    {
      match format
      case TfI4 => WriteI4Encoder(layout);
      case TfI8 => WriteI8Encoder(layout);
      case TfIA4 => WriteIA4Encoder(layout);
      case TfIA8 => WriteIA8Encoder(layout);
      case TfRgb565 => WriteRgb565Encoder(layout);
      case TfRgb5a3 => WriteRgb5a3Encoder(layout);
      case TfRgba8 => WriteRgba8Encoder(layout);
    }

    /** The cases of the switch for the colour copy formats. */
    method WriteColourCopyShader(format: CopyFormat, layout: CopyFormat -> Geometry)
      requires Valid() && !intensityConstantAdded && IsColourCopyFormat(format)
      modifies this`p, this`written, this`lines, this`intensityConstantAdded, text
      ensures Valid() && !intensityConstantAdded
      ensures lines == ColourCopyLines(old(lines), format, layout) && EndsShader(lines)
    {
      match format
      case CtfR4 => WriteC4Encoder("r", layout);
      case CtfRa4 => WriteCC4Encoder("ar", layout);
      case CtfRa8 => WriteCC8Encoder("ar", layout);
      case CtfA8 => WriteC8Encoder("a", layout);
      case CtfR8 => WriteC8Encoder("r", layout);
      case CtfG8 => WriteC8Encoder("g", layout);
      case CtfB8 => WriteC8Encoder("b", layout);
      case CtfRg8 => WriteCC8Encoder("rg", layout);
      case CtfGb8 => WriteCC8Encoder("gb", layout);
    }

    /** The cases of the switch for the depth formats. */
    method WriteDepthShader(format: CopyFormat, layout: CopyFormat -> Geometry)
      requires Valid() && !intensityConstantAdded && IsDepthFormat(format)
      modifies this`p, this`written, this`lines, this`intensityConstantAdded, text
      ensures Valid() && !intensityConstantAdded
      ensures lines == DepthLines(old(lines), format, layout) && EndsShader(lines)
    {
      match format
      case TfZ8 => WriteC8Encoder("b", layout);
      case TfZ16 => WriteZ16Encoder(layout);
      case TfZ24x8 => WriteZ24Encoder(layout);
      case CtfZ4 => WriteC4Encoder("b", layout);
      case CtfZ8M => WriteZ8Encoder("256.0", layout);
      case CtfZ8L => WriteZ8Encoder("65536.0", layout);
      case CtfZ16L => WriteZ16LEncoder(layout);
    }

    /** The switch of GenerateEncodingShader: the writer for the format, or nothing. */
    method WriteShader(format: CopyFormat, layout: CopyFormat -> Geometry)
      requires Valid() && !intensityConstantAdded
      modifies this`p, this`written, this`lines, this`intensityConstantAdded, text
      ensures Valid() && !intensityConstantAdded
      ensures lines == FormatLines(old(lines), format, layout)
      ensures !format.OtherFormat? ==> EndsShader(lines)
      ensures format.OtherFormat? ==> p == old(p) && text[..] == old(text[..])
    {
      if IsTextureFormat(format) {
        WriteTextureShader(format, layout);
      } else if IsColourCopyFormat(format) {
        WriteColourCopyShader(format, layout);
      } else if IsDepthFormat(format) {
        WriteDepthShader(format, layout);
      }
    }

    /** A finished shader that fits is in the buffer, followed by the terminator. */
    lemma Terminated()
      requires Valid() && EndsShader(lines) && p < TextSize
      ensures text[..p] == written && text[p] == 0 as char
    {
    }

    /** The start of GenerateEncodingShader: the canary in the buffer's last
        byte and the cursor back at the buffer's start. */
    method Restart()
      requires Valid() && !intensityConstantAdded
      modifies this`p, this`written, this`lines, this`lastByte, text
      ensures Valid() && !intensityConstantAdded
      ensures p == 0 && lines == [] && lastByte == Canary
      ensures forall i :: 0 <= i < TextSize - 1 ==> text[i] == old(text[i])
    {
      text[TextSize - 1] := Canary;
      lastByte := Canary;
      p := 0;
      written := "";
      lines := [];
    }

    /** Generates the shader for a copy format into the buffer, which it
        returns. An unknown format writes nothing, so the buffer keeps the
        previous shader; the alerts are the PanicAlerts raised, in order. */
    method GenerateEncodingShader(format: CopyFormat, layout: CopyFormat -> Geometry) returns (alerts: seq<Alert>)
      requires Valid() && !intensityConstantAdded
      modifies this`p, this`written, this`lines, this`intensityConstantAdded, this`lastByte, text
      ensures Valid() && !intensityConstantAdded
      ensures lines == ShaderLines(format, layout)
      ensures alerts == (if format.OtherFormat? then [UnknownFormat(format.code)] else [])
                        + (if CanaryEatenBy(written) then [CanaryEaten] else [])
      ensures !format.OtherFormat? && |written| < TextSize ==> text[..|written|] == written && text[|written|] == 0 as char
      ensures format.OtherFormat? ==> forall i :: 0 <= i < TextSize - 1 ==> text[i] == old(text[i])
    {
      Restart();
      WriteTerminatedShader(format, layout);
      alerts := Finish(format);
    }

    /** The switch, from an empty buffer: a known format's shader ends the
        text and is followed by its terminator. */
    method WriteTerminatedShader(format: CopyFormat, layout: CopyFormat -> Geometry)
      requires Valid() && !intensityConstantAdded && p == 0 && lines == []
      modifies this`p, this`written, this`lines, this`intensityConstantAdded, text
      ensures Valid() && !intensityConstantAdded && lastByte == old(lastByte)
      ensures lines == FormatLines([], format, layout)
      ensures !format.OtherFormat? && p < TextSize ==> text[..p] == written && text[p] == 0 as char
      ensures format.OtherFormat? ==> text[..] == old(text[..])
    {
      WriteShader(format, layout);
      if !format.OtherFormat? && p < TextSize {
        Terminated();
      }
    }

    /** The end of GenerateEncodingShader: the default case's alert for an
        unknown format, then the alert for a canary the text overwrote. */
    method Finish(format: CopyFormat) returns (alerts: seq<Alert>)
      requires Valid() && lastByte == Canary
      ensures alerts == (if format.OtherFormat? then [UnknownFormat(format.code)] else [])
                        + (if CanaryEatenBy(written) then [CanaryEaten] else [])
    {
      CanaryCheck();
      alerts := if format.OtherFormat? then [UnknownFormat(format.code)] else [];
      if text[TextSize - 1] != Canary {
        alerts := alerts + [CanaryEaten];
      }
    }
  }
}
