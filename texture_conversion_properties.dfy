/** What the encoding shaders promise, proved about the line sequences the
    writers append: every shader opens with the swizzler prologue and closes
    with the brace, the intensity constant is declared once in exactly the
    intensity encoders, the fetches come in x-offset order, and the
    swizzler's masks split a coordinate. */
module TextureConversionProperties {
  import opened Common
  import opened TextureConversionShaderGL

  // ---------------------------------------------------------------------------
  // Framing: the prologue first, the closing brace last
  // ---------------------------------------------------------------------------

  /** The swizzler keeps what was written and starts with the prologue. */
  lemma SwizzlerFrames(acc: Lines, g: Geometry)
    ensures acc + Prologue() <= SwizzlerLines(acc, g)
  {
    var head := acc + SwizzlerHead(g);
    assert acc + Prologue() <= head;
    assert head <= CacheLineSplit(head, g);
  }

  /** Each encoder body keeps what was written and ends the shader. */
  lemma I8Frames(acc: Lines)
    ensures acc <= I8Body(acc) && EndsShader(I8Body(acc))
  {
  }

  lemma I4Frames(acc: Lines)
    ensures acc <= I4Body(acc) && EndsShader(I4Body(acc))
  {
  }

  lemma IA8Frames(acc: Lines)
    ensures acc <= IA8Body(acc) && EndsShader(IA8Body(acc))
  {
  }

  lemma IA4Frames(acc: Lines)
    ensures acc <= IA4Body(acc) && EndsShader(IA4Body(acc))
  {
  }

  lemma Rgb565Frames(acc: Lines)
    ensures acc <= Rgb565Body(acc) && EndsShader(Rgb565Body(acc))
  {
  }

  lemma Rgb5a3Frames(acc: Lines)
    ensures acc <= Rgb5a3Body(acc) && EndsShader(Rgb5a3Body(acc))
  {
  }

  lemma Rgba8Frames(acc: Lines)
    ensures acc <= Rgba8Body(acc) && EndsShader(Rgba8Body(acc))
  {
  }

  lemma C4Frames(acc: Lines, comp: string)
    ensures acc <= C4Body(acc, comp) && EndsShader(C4Body(acc, comp))
  {
  }

  lemma C8Frames(acc: Lines, comp: string)
    ensures acc <= C8Body(acc, comp) && EndsShader(C8Body(acc, comp))
  {
  }

  lemma CC4Frames(acc: Lines, comp: string)
    ensures acc <= CC4Body(acc, comp) && EndsShader(CC4Body(acc, comp))
  {
  }

  lemma CC8Frames(acc: Lines, comp: string)
    ensures acc <= CC8Body(acc, comp) && EndsShader(CC8Body(acc, comp))
  {
  }

  lemma Z8Frames(acc: Lines, multiplier: string)
    ensures acc <= Z8Body(acc, multiplier) && EndsShader(Z8Body(acc, multiplier))
  {
  }

  lemma Z16Frames(acc: Lines)
    ensures acc <= Z16Body(acc) && EndsShader(Z16Body(acc))
  {
  }

  lemma Z16LFrames(acc: Lines)
    ensures acc <= Z16LBody(acc) && EndsShader(Z16LBody(acc))
  {
  }

  /** The Z24 unpacking loop only appends. */
  lemma {:induction false} UnpackedExtends(acc: Lines, n: nat)
    ensures acc <= Unpacked24(acc, n)
  {
    if n > 0 {
      UnpackedExtends(acc, n - 1);
    }
  }

  lemma Z24Frames(acc: Lines)
    ensures acc <= Z24Body(acc) && EndsShader(Z24Body(acc))
  {
    UnpackedExtends(Z24Head(acc), 2);
  }

  /** Each group of the switch keeps what was written, follows it with the
      prologue and ends the shader. */
  lemma TextureFrames(acc: Lines, format: CopyFormat, layout: CopyFormat -> Geometry)
    requires IsTextureFormat(format)
    ensures acc + Prologue() <= TextureLines(acc, format, layout) && EndsShader(TextureLines(acc, format, layout))
  {
    match format
    case TfI4 =>
      SwizzlerFrames(acc, GeometryOf(layout, TfI4));
      I4Frames(SwizzlerLines(acc, GeometryOf(layout, TfI4)));
    case TfI8 =>
      SwizzlerFrames(acc, GeometryOf(layout, TfI8));
      I8Frames(SwizzlerLines(acc, GeometryOf(layout, TfI8)));
    case TfIA4 =>
      SwizzlerFrames(acc, GeometryOf(layout, TfIA4));
      IA4Frames(SwizzlerLines(acc, GeometryOf(layout, TfIA4)));
    case TfIA8 =>
      SwizzlerFrames(acc, GeometryOf(layout, TfIA8));
      IA8Frames(SwizzlerLines(acc, GeometryOf(layout, TfIA8)));
    case TfRgb565 =>
      SwizzlerFrames(acc, GeometryOf(layout, TfRgb565));
      Rgb565Frames(SwizzlerLines(acc, GeometryOf(layout, TfRgb565)));
    case TfRgb5a3 =>
      SwizzlerFrames(acc, GeometryOf(layout, TfRgb5a3));
      Rgb5a3Frames(SwizzlerLines(acc, GeometryOf(layout, TfRgb5a3)));
    case TfRgba8 =>
      SwizzlerFrames(acc, GeometryOf(layout, TfRgba8));
      Rgba8Frames(SwizzlerLines(acc, GeometryOf(layout, TfRgba8)));
  }

  lemma ColourCopyFrames(acc: Lines, format: CopyFormat, layout: CopyFormat -> Geometry)
    requires IsColourCopyFormat(format)
    ensures acc + Prologue() <= ColourCopyLines(acc, format, layout) && EndsShader(ColourCopyLines(acc, format, layout))
  {
    match format
    case CtfR4 =>
      SwizzlerFrames(acc, GeometryOf(layout, CtfR4));
      C4Frames(SwizzlerLines(acc, GeometryOf(layout, CtfR4)), "r");
    case CtfRa4 =>
      SwizzlerFrames(acc, GeometryOf(layout, CtfRa4));
      CC4Frames(SwizzlerLines(acc, GeometryOf(layout, CtfRa4)), "ar");
    case CtfRa8 =>
      SwizzlerFrames(acc, GeometryOf(layout, CtfRa8));
      CC8Frames(SwizzlerLines(acc, GeometryOf(layout, CtfRa8)), "ar");
    case CtfA8 =>
      SwizzlerFrames(acc, GeometryOf(layout, CtfR8));
      C8Frames(SwizzlerLines(acc, GeometryOf(layout, CtfR8)), "a");
    case CtfR8 =>
      SwizzlerFrames(acc, GeometryOf(layout, CtfR8));
      C8Frames(SwizzlerLines(acc, GeometryOf(layout, CtfR8)), "r");
    case CtfG8 =>
      SwizzlerFrames(acc, GeometryOf(layout, CtfR8));
      C8Frames(SwizzlerLines(acc, GeometryOf(layout, CtfR8)), "g");
    case CtfB8 =>
      SwizzlerFrames(acc, GeometryOf(layout, CtfR8));
      C8Frames(SwizzlerLines(acc, GeometryOf(layout, CtfR8)), "b");
    case CtfRg8 =>
      SwizzlerFrames(acc, GeometryOf(layout, CtfRa8));
      CC8Frames(SwizzlerLines(acc, GeometryOf(layout, CtfRa8)), "rg");
    case CtfGb8 =>
      SwizzlerFrames(acc, GeometryOf(layout, CtfRa8));
      CC8Frames(SwizzlerLines(acc, GeometryOf(layout, CtfRa8)), "gb");
  }

  lemma DepthFrames(acc: Lines, format: CopyFormat, layout: CopyFormat -> Geometry)
    requires IsDepthFormat(format)
    ensures acc + Prologue() <= DepthLines(acc, format, layout) && EndsShader(DepthLines(acc, format, layout))
  {
    match format
    case TfZ8 =>
      SwizzlerFrames(acc, GeometryOf(layout, CtfR8));
      C8Frames(SwizzlerLines(acc, GeometryOf(layout, CtfR8)), "b");
    case TfZ16 =>
      SwizzlerFrames(acc, GeometryOf(layout, TfZ16));
      Z16Frames(SwizzlerLines(acc, GeometryOf(layout, TfZ16)));
    case TfZ24x8 =>
      SwizzlerFrames(acc, GeometryOf(layout, TfZ24x8));
      Z24Frames(SwizzlerLines(acc, GeometryOf(layout, TfZ24x8)));
    case CtfZ4 =>
      SwizzlerFrames(acc, GeometryOf(layout, CtfR4));
      C4Frames(SwizzlerLines(acc, GeometryOf(layout, CtfR4)), "b");
    case CtfZ8M =>
      SwizzlerFrames(acc, GeometryOf(layout, CtfZ8M));
      Z8Frames(SwizzlerLines(acc, GeometryOf(layout, CtfZ8M)), "256.0");
    case CtfZ8L =>
      SwizzlerFrames(acc, GeometryOf(layout, CtfZ8M));
      Z8Frames(SwizzlerLines(acc, GeometryOf(layout, CtfZ8M)), "65536.0");
    case CtfZ16L =>
      SwizzlerFrames(acc, GeometryOf(layout, CtfZ16L));
      Z16LFrames(SwizzlerLines(acc, GeometryOf(layout, CtfZ16L)));
  }

  /** Every shader of a known format opens with the swizzler prologue and
      closes with the brace. */
  lemma ShaderFramed(format: CopyFormat, layout: CopyFormat -> Geometry)
    requires !format.OtherFormat?
    ensures Prologue() <= ShaderLines(format, layout) && EndsShader(ShaderLines(format, layout))
  {
    assert [] + Prologue() == Prologue();
    if IsTextureFormat(format) {
      TextureFrames([], format, layout);
      assert ShaderLines(format, layout) == TextureLines([], format, layout);
    } else if IsColourCopyFormat(format) {
      ColourCopyFrames([], format, layout);
      assert ShaderLines(format, layout) == ColourCopyLines([], format, layout);
    } else {
      assert IsDepthFormat(format);
      DepthFrames([], format, layout);
      assert ShaderLines(format, layout) == DepthLines([], format, layout);
    }
  }

  // ---------------------------------------------------------------------------
  // The intensity constant: declared once, by the intensity encoders only
  // ---------------------------------------------------------------------------

  /** How many lines declare the intensity constant. */
  function Declarations(ls: Lines): nat
  {
    if |ls| == 0 then 0
    else Declarations(ls[..|ls| - 1]) + (if ls[|ls| - 1] == IntensityConstant then 1 else 0)
  }

  /** Counting over a concatenation adds the counts of the parts. */
  lemma {:induction false} DeclarationsAppend(a: Lines, b: Lines)
    ensures Declarations(a + b) == Declarations(a) + Declarations(b)
    decreases |b|
  {
    if |b| == 0 {
      assert a + b == a;
    } else {
      var front := b[..|b| - 1];
      assert (a + b)[..|a + b| - 1] == a + front;
      DeclarationsAppend(a, front);
    }
  }

  /** Lines with no declaration in them count nothing. */
  lemma {:induction false} NoDeclarations(ls: Lines)
    requires IntensityConstant !in ls
    ensures Declarations(ls) == 0
    decreases |ls|
  {
    if |ls| > 0 {
      assert ls[..|ls| - 1] <= ls;
      NoDeclarations(ls[..|ls| - 1]);
    }
  }

  /** Appending lines without the constant adds no declaration. */
  lemma Keep(a: Lines, b: Lines)
    requires IntensityConstant !in b
    ensures Declarations(a + b) == Declarations(a)
  {
    DeclarationsAppend(a, b);
    NoDeclarations(b);
  }

  lemma SwizzlerDeclaresNothing(acc: Lines, g: Geometry)
    ensures Declarations(SwizzlerLines(acc, g)) == Declarations(acc)
  {
    var head := acc + SwizzlerHead(g);
    Keep(acc, SwizzlerHead(g));
    if g.samples == 1 {
      Keep(head, [FirstCacheLine(8 * g.samples), DoubleVirtualPosition]);
    }
    Keep(CacheLineSplit(head, g), SwizzlerTail(g));
  }

  /** WriteColorToIntensity declares the constant iff the flag was clear. */
  lemma WithIntensityDeclares(acc: Lines, src: string, dest: string, declared: bool)
    ensures Declarations(WithIntensity(acc, src, dest, declared)) == Declarations(acc) + (if declared then 0 else 1)
  {
    var s := if declared then acc else acc + [IntensityConstant];
    assert Declarations(s) == Declarations(acc) + (if declared then 0 else 1) by {
      if !declared {
        assert s[..|s| - 1] == acc;
      }
    }
    Keep(s, [Plain(ColorToIntensity(src, dest))]);
  }

  lemma SampleIntensityDeclares(acc: Lines, xoffset: int, dest: string, declared: bool)
    ensures Declarations(SampleIntensity(acc, xoffset, dest, declared)) == Declarations(acc) + (if declared then 0 else 1)
  {
    Keep(acc, [SampleColor("rgb", "texSample", xoffset)]);
    WithIntensityDeclares(acc + [SampleColor("rgb", "texSample", xoffset)], "texSample", dest, declared);
  }

  lemma AlphaIntensityDeclares(acc: Lines, xoffset: int, alphaDest: string, intensityDest: string, declared: bool)
    ensures Declarations(AlphaIntensity(acc, xoffset, alphaDest, intensityDest, declared))
            == Declarations(acc) + (if declared then 0 else 1)
  {
    var s := acc + [SampleColor("rgba", "texSample", xoffset)];
    Keep(acc, [SampleColor("rgba", "texSample", xoffset)]);
    Keep(s, [Plain(Copy(alphaDest, "texSample.a"))]);
    WithIntensityDeclares(s + [Plain(Copy(alphaDest, "texSample.a"))], "texSample", intensityDest, declared);
  }

  lemma PackNibblesDeclaresNothing(acc: Lines)
    ensures Declarations(PackNibbles(acc)) == Declarations(acc)
  {
    var s0 := acc + [Plain(ToBitDepth(4, "color0", "color0"))];
    var s1 := s0 + [Plain(ToBitDepth(4, "color1", "color1"))];
    Keep(acc, [Plain(ToBitDepth(4, "color0", "color0"))]);
    Keep(s0, [Plain(ToBitDepth(4, "color1", "color1"))]);
    Keep(s1, [Plain(CombineNibbles)]);
    Keep(s1 + [Plain(CombineNibbles)], [EncoderEnd]);
  }

  /** The intensity encoders declare the constant once. */
  lemma I8Declares(acc: Lines)
    ensures Declarations(I8Body(acc)) == Declarations(acc) + 1
  {
    var s := acc + [Plain(Declare("float3", "texSample"))];
    Keep(acc, [Plain(Declare("float3", "texSample"))]);
    SampleIntensityDeclares(s, 0, "ocol0.b", false);
    var s0 := SampleIntensity(s, 0, "ocol0.b", false);
    SampleIntensityDeclares(s0, 1, "ocol0.g", true);
    var t := SampleIntensity(s0, 1, "ocol0.g", true);
    SampleIntensityDeclares(t, 2, "ocol0.r", true);
    var s1 := SampleIntensity(t, 2, "ocol0.r", true);
    SampleIntensityDeclares(s1, 3, "ocol0.a", true);
    var u := SampleIntensity(s1, 3, "ocol0.a", true);
    Keep(u, [Plain(AddIntensityOffset("ocol0.rgba", "aaaa"))]);
    Keep(u + [Plain(AddIntensityOffset("ocol0.rgba", "aaaa"))], [EncoderEnd]);
  }

  /** Four intensity samples declare the constant once if the flag was clear, else never. */
  lemma FourSamplesDeclare(s: Lines, x: int, d0: string, d1: string, d2: string, d3: string, declared: bool)
    ensures Declarations(FourSamples(s, x, d0, d1, d2, d3, declared)) == Declarations(s) + (if declared then 0 else 1)
  {
    SampleIntensityDeclares(s, x, d0, declared);
    var a0 := SampleIntensity(s, x, d0, declared);
    SampleIntensityDeclares(a0, x + 1, d1, true);
    var a1 := SampleIntensity(a0, x + 1, d1, true);
    SampleIntensityDeclares(a1, x + 2, d2, true);
    var a2 := SampleIntensity(a1, x + 2, d2, true);
    SampleIntensityDeclares(a2, x + 3, d3, true);
  }

  lemma I4Declares(acc: Lines)
    ensures Declarations(I4Body(acc)) == Declarations(acc) + 1
  {
    I4Shape(acc);
    var s := acc + [Plain(Declare("float3", "texSample")), Plain(Declare("float4", "color0")), Plain(Declare("float4", "color1"))];
    Keep(acc, [Plain(Declare("float3", "texSample")), Plain(Declare("float4", "color0")), Plain(Declare("float4", "color1"))]);
    FourSamplesDeclare(s, 0, "color0.b", "color1.b", "color0.g", "color1.g", false);
    var a3 := FourSamples(s, 0, "color0.b", "color1.b", "color0.g", "color1.g", false);
    FourSamplesDeclare(a3, 4, "color0.r", "color1.r", "color0.a", "color1.a", true);
    var offsets := [Plain(AddIntensityOffset("color0.rgba", "aaaa")), Plain(AddIntensityOffset("color1.rgba", "aaaa"))];
    Keep(I4Samples(acc), offsets);
    PackNibblesDeclaresNothing(I4Samples(acc) + offsets);
  }

  lemma IA8Declares(acc: Lines)
    ensures Declarations(IA8Body(acc)) == Declarations(acc) + 1
  {
    var s := acc + [Plain(Declare("float4", "texSample"))];
    Keep(acc, [Plain(Declare("float4", "texSample"))]);
    AlphaIntensityDeclares(s, 0, "ocol0.b", "ocol0.g", false);
    var a0 := AlphaIntensity(s, 0, "ocol0.b", "ocol0.g", false);
    AlphaIntensityDeclares(a0, 1, "ocol0.r", "ocol0.a", true);
    var a1 := AlphaIntensity(a0, 1, "ocol0.r", "ocol0.a", true);
    Keep(a1, [Plain(AddIntensityOffset("ocol0.ga", "aa"))]);
    Keep(a1 + [Plain(AddIntensityOffset("ocol0.ga", "aa"))], [EncoderEnd]);
  }

  lemma IA4Declares(acc: Lines)
    ensures Declarations(IA4Body(acc)) == Declarations(acc) + 1
  {
    var s := acc + [Plain(Declare("float4", "texSample")), Plain(Declare("float4", "color0")), Plain(Declare("float4", "color1"))];
    Keep(acc, [Plain(Declare("float4", "texSample")), Plain(Declare("float4", "color0")), Plain(Declare("float4", "color1"))]);
    AlphaIntensityDeclares(s, 0, "color0.b", "color1.b", false);
    var a0 := AlphaIntensity(s, 0, "color0.b", "color1.b", false);
    AlphaIntensityDeclares(a0, 1, "color0.g", "color1.g", true);
    var a1 := AlphaIntensity(a0, 1, "color0.g", "color1.g", true);
    AlphaIntensityDeclares(a1, 2, "color0.r", "color1.r", true);
    var a2 := AlphaIntensity(a1, 2, "color0.r", "color1.r", true);
    AlphaIntensityDeclares(a2, 3, "color0.a", "color1.a", true);
    var a3 := AlphaIntensity(a2, 3, "color0.a", "color1.a", true);
    Keep(a3, [Plain(AddIntensityOffset("color1.rgba", "aaaa"))]);
    PackNibblesDeclaresNothing(a3 + [Plain(AddIntensityOffset("color1.rgba", "aaaa"))]);
  }

  /** Appending two runs of lines without the constant adds no declaration. */
  lemma Keep2(a: Lines, b: Lines, c: Lines)
    requires IntensityConstant !in b && IntensityConstant !in c
    ensures Declarations(a + b + c) == Declarations(a)
  {
    Keep(a, b);
    Keep(a + b, c);
  }

  // The other encoders never write the constant.

  lemma Rgb565Declares(acc: Lines)
    ensures Declarations(Rgb565Body(acc)) == Declarations(acc)
  {
    var s0 := acc + [SampleColor("rgb", "float3 texSample0", 0)] + [SampleColor("rgb", "float3 texSample1", 1)];
    Keep2(acc, [SampleColor("rgb", "float3 texSample0", 0)], [SampleColor("rgb", "float3 texSample1", 1)]);
    var s1 := s0 + [Plain(GatherPair("R", "r")), Plain(GatherPair("G", "g")), Plain(GatherPair("B", "b"))];
    Keep(s0, [Plain(GatherPair("R", "r")), Plain(GatherPair("G", "g")), Plain(GatherPair("B", "b"))]);
    var s2 := s1 + [Plain(ToBitDepth(6, "texGs", "float2 gInt"))] + [Plain(SplitGreenUpper), Plain(SplitGreenLower)];
    Keep2(s1, [Plain(ToBitDepth(6, "texGs", "float2 gInt"))], [Plain(SplitGreenUpper), Plain(SplitGreenLower)]);
    var s3 := s2 + [Plain(ToBitDepth(5, "texRs", "ocol0.br"))] + [Plain(MergeGreenUpper)];
    Keep2(s2, [Plain(ToBitDepth(5, "texRs", "ocol0.br"))], [Plain(MergeGreenUpper)]);
    var s4 := s3 + [Plain(ToBitDepth(5, "texBs", "ocol0.ga"))] + [Plain(MergeGreenLower), Plain(NormalizeOutput)];
    Keep2(s3, [Plain(ToBitDepth(5, "texBs", "ocol0.ga"))], [Plain(MergeGreenLower), Plain(NormalizeOutput)]);
    Keep(s4, [EncoderEnd]);
  }

  lemma Rgb5a3TexelDeclaresNothing(acc: Lines, xoffset: int, hi: string, lo: string)
    ensures Declarations(Rgb5a3Texel(acc, xoffset, hi, lo)) == Declarations(acc)
  {
    var s0 := acc + [SampleColor("rgba", "texSample", xoffset)] + [Plain(IfOpaque)];
    Keep2(acc, [SampleColor("rgba", "texSample", xoffset)], [Plain(IfOpaque)]);
    var s1 := s0 + [Plain(ToBitDepth(5, "texSample.g", "color0"))] + [Plain(SplitGreen5Upper), Plain(SplitGreen5Lower)];
    Keep2(s0, [Plain(ToBitDepth(5, "texSample.g", "color0"))], [Plain(SplitGreen5Upper), Plain(SplitGreen5Lower)]);
    var s2 := s1 + [Plain(ToBitDepth(5, "texSample.r", "ocol0." + hi))] + [Plain(MergeOpaqueHigh(hi))];
    Keep2(s1, [Plain(ToBitDepth(5, "texSample.r", "ocol0." + hi))], [Plain(MergeOpaqueHigh(hi))]);
    var s3 := s2 + [Plain(ToBitDepth(5, "texSample.b", "ocol0." + lo))] + [Plain(MergeOpaqueLow(lo)), Plain(Else)];
    Keep2(s2, [Plain(ToBitDepth(5, "texSample.b", "ocol0." + lo))], [Plain(MergeOpaqueLow(lo)), Plain(Else)]);
    var s4 := s3 + [Plain(ToBitDepth(4, "texSample.r", "ocol0." + hi))] + [Plain(ToBitDepth(4, "texSample.b", "ocol0." + lo))];
    Keep2(s3, [Plain(ToBitDepth(4, "texSample.r", "ocol0." + hi))], [Plain(ToBitDepth(4, "texSample.b", "ocol0." + lo))]);
    var s5 := s4 + [Plain(ToBitDepth(3, "texSample.a", "color0"))] + [Plain(AddNibble(hi))];
    Keep2(s4, [Plain(ToBitDepth(3, "texSample.a", "color0"))], [Plain(AddNibble(hi))]);
    Keep2(s5, [Plain(ToBitDepth(4, "texSample.g", "color0"))], [Plain(AddNibble(lo)), Plain(EndIf)]);
  }

  lemma Rgb5a3Declares(acc: Lines)
    ensures Declarations(Rgb5a3Body(acc)) == Declarations(acc)
  {
    var decls := [Plain(Declare("float4", "texSample")), Plain(Declare("float", "color0")), Plain(Declare("float", "gUpper")),
                  Plain(Declare("float", "gLower"))];
    Keep(acc, decls);
    Rgb5a3TexelDeclaresNothing(acc + decls, 0, "b", "g");
    var t := Rgb5a3Texel(acc + decls, 0, "b", "g");
    Rgb5a3TexelDeclaresNothing(t, 1, "r", "a");
    Keep2(Rgb5a3Texel(t, 1, "r", "a"), [Plain(NormalizeOutput)], [EncoderEnd]);
  }

  lemma Rgba8TexelDeclaresNothing(acc: Lines, xoffset: int, hi: string, lo: string)
    ensures Declarations(Rgba8Texel(acc, xoffset, hi, lo)) == Declarations(acc)
  {
    Keep2(acc, [SampleColor("rgba", "texSample", xoffset)],
          [Plain(Copy("color0." + hi, "texSample.a")), Plain(Copy("color0." + lo, "texSample.r")),
           Plain(Copy("color1." + hi, "texSample.g")), Plain(Copy("color1." + lo, "texSample.b"))]);
  }

  lemma Rgba8Declares(acc: Lines)
    ensures Declarations(Rgba8Body(acc)) == Declarations(acc)
  {
    var decls := [Plain(Declare("float4", "texSample")), Plain(Declare("float4", "color0")), Plain(Declare("float4", "color1"))];
    Keep(acc, decls);
    Rgba8TexelDeclaresNothing(acc + decls, 0, "b", "g");
    var t := Rgba8Texel(acc + decls, 0, "b", "g");
    Rgba8TexelDeclaresNothing(t, 1, "r", "a");
    Keep2(Rgba8Texel(t, 1, "r", "a"), [SelectCacheLine], [EncoderEnd]);
  }

  lemma C4SamplesDeclareNothing(acc: Lines, comp: string)
    ensures Declarations(C4Samples(acc, comp)) == Declarations(acc)
  {
    var s0 := acc + [SampleColor(comp, "color0.b", 0)] + [SampleColor(comp, "color1.b", 1)];
    Keep2(acc, [SampleColor(comp, "color0.b", 0)], [SampleColor(comp, "color1.b", 1)]);
    var s1 := s0 + [SampleColor(comp, "color0.g", 2)] + [SampleColor(comp, "color1.g", 3)];
    Keep2(s0, [SampleColor(comp, "color0.g", 2)], [SampleColor(comp, "color1.g", 3)]);
    var s2 := s1 + [SampleColor(comp, "color0.r", 4)] + [SampleColor(comp, "color1.r", 5)];
    Keep2(s1, [SampleColor(comp, "color0.r", 4)], [SampleColor(comp, "color1.r", 5)]);
    Keep2(s2, [SampleColor(comp, "color0.a", 6)], [SampleColor(comp, "color1.a", 7)]);
  }

  lemma C4Declares(acc: Lines, comp: string)
    ensures Declarations(C4Body(acc, comp)) == Declarations(acc)
  {
    var decls := [Plain(Declare("float4", "color0")), Plain(Declare("float4", "color1"))];
    Keep(acc, decls);
    C4SamplesDeclareNothing(acc + decls, comp);
    PackNibblesDeclaresNothing(C4Samples(acc + decls, comp));
  }

  lemma C8Declares(acc: Lines, comp: string)
    ensures Declarations(C8Body(acc, comp)) == Declarations(acc)
  {
    var s0 := acc + [SampleColor(comp, "ocol0.b", 0)] + [SampleColor(comp, "ocol0.g", 1)];
    Keep2(acc, [SampleColor(comp, "ocol0.b", 0)], [SampleColor(comp, "ocol0.g", 1)]);
    var s1 := s0 + [SampleColor(comp, "ocol0.r", 2)] + [SampleColor(comp, "ocol0.a", 3)];
    Keep2(s0, [SampleColor(comp, "ocol0.r", 2)], [SampleColor(comp, "ocol0.a", 3)]);
    Keep(s1, [EncoderEnd]);
  }

  lemma CC4TexelDeclaresNothing(acc: Lines, comp: string, xoffset: int, channel: string)
    ensures Declarations(CC4Texel(acc, comp, xoffset, channel)) == Declarations(acc)
  {
    Keep2(acc, [SampleColor(comp, "texSample", xoffset)],
          [Plain(Copy("color0." + channel, "texSample.x")), Plain(Copy("color1." + channel, "texSample.y"))]);
  }

  lemma CC4Declares(acc: Lines, comp: string)
    ensures Declarations(CC4Body(acc, comp)) == Declarations(acc)
  {
    var s0 := acc + [Plain(Declare("float2", "texSample")), Plain(Declare("float4", "color0")), Plain(Declare("float4", "color1"))];
    Keep(acc, [Plain(Declare("float2", "texSample")), Plain(Declare("float4", "color0")), Plain(Declare("float4", "color1"))]);
    CC4TexelDeclaresNothing(s0, comp, 0, "b");
    var t0 := CC4Texel(s0, comp, 0, "b");
    CC4TexelDeclaresNothing(t0, comp, 1, "g");
    var t1 := CC4Texel(t0, comp, 1, "g");
    CC4TexelDeclaresNothing(t1, comp, 2, "r");
    var t2 := CC4Texel(t1, comp, 2, "r");
    CC4TexelDeclaresNothing(t2, comp, 3, "a");
    PackNibblesDeclaresNothing(CC4Texel(t2, comp, 3, "a"));
  }

  lemma CC8Declares(acc: Lines, comp: string)
    ensures Declarations(CC8Body(acc, comp)) == Declarations(acc)
  {
    Keep2(acc, [SampleColor(comp, "ocol0.bg", 0)], [SampleColor(comp, "ocol0.ra", 1)]);
    Keep(acc + [SampleColor(comp, "ocol0.bg", 0)] + [SampleColor(comp, "ocol0.ra", 1)], [EncoderEnd]);
  }

  lemma Z8TexelDeclaresNothing(acc: Lines, multiplier: string, xoffset: int, channel: string)
    ensures Declarations(Z8Texel(acc, multiplier, xoffset, channel)) == Declarations(acc)
  {
    Keep2(acc, [SampleColor("b", "depth", xoffset)], [Plain(DepthFraction(channel, multiplier))]);
  }

  lemma Z8Declares(acc: Lines, multiplier: string)
    ensures Declarations(Z8Body(acc, multiplier)) == Declarations(acc)
  {
    var s := acc + [Plain(NarrowDepthDeclaration)];
    Keep(acc, [Plain(NarrowDepthDeclaration)]);
    Z8TexelDeclaresNothing(s, multiplier, 0, "b");
    var t0 := Z8Texel(s, multiplier, 0, "b");
    Z8TexelDeclaresNothing(t0, multiplier, 1, "g");
    var t1 := Z8Texel(t0, multiplier, 1, "g");
    Z8TexelDeclaresNothing(t1, multiplier, 2, "r");
    var t2 := Z8Texel(t1, multiplier, 2, "r");
    Z8TexelDeclaresNothing(t2, multiplier, 3, "a");
    Keep(Z8Texel(t2, multiplier, 3, "a"), [EncoderEnd]);
  }

  lemma Depth16SplitDeclaresNothing(acc: Lines, xoffset: int)
    ensures Declarations(Depth16Split(acc, xoffset)) == Declarations(acc)
  {
    Keep2(acc, [SampleColor("b", "depth", xoffset)],
          [Plain(ScaleDepth("")), Plain(SplitHigh("")), Plain(DropHigh("")), Plain(SplitMiddle(""))]);
  }

  lemma Z16Declares(acc: Lines)
    ensures Declarations(Z16Body(acc)) == Declarations(acc)
  {
    Keep(acc, [Plain(Declare("float", "depth")), Plain(Declare("float3", "expanded"))]);
    Depth16SplitDeclaresNothing(DeclareDepth(acc), 0);
    var s0 := Depth16Split(DeclareDepth(acc), 0);
    Keep(s0, [Plain(ByteToChannel("b", "g")), Plain(ByteToChannel("g", "r"))]);
    var s1 := s0 + [Plain(ByteToChannel("b", "g")), Plain(ByteToChannel("g", "r"))];
    Depth16SplitDeclaresNothing(s1, 1);
    Keep2(Depth16Split(s1, 1), [Plain(ByteToChannel("r", "g")), Plain(ByteToChannel("a", "r"))], [EncoderEnd]);
  }

  lemma Depth24SplitDeclaresNothing(acc: Lines, xoffset: int)
    ensures Declarations(Depth24Split(acc, xoffset)) == Declarations(acc)
  {
    Depth16SplitDeclaresNothing(acc, xoffset);
    Keep(Depth16Split(acc, xoffset), [Plain(DropMiddle("")), Plain(SplitLow(""))]);
  }

  lemma Z16LDeclares(acc: Lines)
    ensures Declarations(Z16LBody(acc)) == Declarations(acc)
  {
    Keep(acc, [Plain(Declare("float", "depth")), Plain(Declare("float3", "expanded"))]);
    Depth24SplitDeclaresNothing(DeclareDepth(acc), 0);
    var s0 := Depth24Split(DeclareDepth(acc), 0);
    Keep(s0, [Plain(ByteToChannel("b", "b")), Plain(ByteToChannel("g", "g"))]);
    var s1 := s0 + [Plain(ByteToChannel("b", "b")), Plain(ByteToChannel("g", "g"))];
    Depth24SplitDeclaresNothing(s1, 1);
    Keep2(Depth24Split(s1, 1), [Plain(ByteToChannel("r", "b")), Plain(ByteToChannel("a", "g"))], [EncoderEnd]);
  }

  lemma {:induction false} UnpackedDeclaresNothing(acc: Lines, n: nat)
    ensures Declarations(Unpacked24(acc, n)) == Declarations(acc)
  {
    if n > 0 {
      UnpackedDeclaresNothing(acc, n - 1);
      Keep(Unpacked24(acc, n - 1), Unpack24(n - 1));
    }
  }

  lemma Z24Declares(acc: Lines)
    ensures Declarations(Z24Body(acc)) == Declarations(acc)
  {
    var decls := [Plain(Declare("float", "depth0")), Plain(Declare("float", "depth1")), Plain(Declare("float3", "expanded0")),
                  Plain(Declare("float3", "expanded1"))];
    Keep2(acc, decls, [SampleColor("b", "depth0", 0)]);
    Keep(acc + decls + [SampleColor("b", "depth0", 0)], [SampleColor("b", "depth1", 1)]);
    UnpackedDeclaresNothing(Z24Head(acc), 2);
    var u := Unpacked24(Z24Head(acc), 2);
    Keep2(u, [IfSecondCacheLine, Plain(SelectByte("b", "0.g")), Plain(SelectByte("g", "0.b")), Plain(SelectByte("r", "1.g")),
              Plain(SelectByte("a", "1.b")),
              Plain(ElseFirstCacheLine), Plain(SelectOne("b")), Plain(SelectByte("g", "0.r")), Plain(SelectOne("r")),
              Plain(SelectByte("a", "1.r")), Plain(EndSelect)], [EncoderEnd]);
  }

  /** The formats whose encoders compute intensities. */
  predicate UsesIntensity(format: CopyFormat)
  {
    format.TfI4? || format.TfI8? || format.TfIA4? || format.TfIA8?
  }

  lemma TextureDeclares(acc: Lines, format: CopyFormat, layout: CopyFormat -> Geometry)
    requires IsTextureFormat(format)
    ensures Declarations(TextureLines(acc, format, layout)) == Declarations(acc) + (if UsesIntensity(format) then 1 else 0)
  {
    match format
    case TfI4 =>
      SwizzlerDeclaresNothing(acc, GeometryOf(layout, TfI4));
      I4Declares(SwizzlerLines(acc, GeometryOf(layout, TfI4)));
    case TfI8 =>
      SwizzlerDeclaresNothing(acc, GeometryOf(layout, TfI8));
      I8Declares(SwizzlerLines(acc, GeometryOf(layout, TfI8)));
    case TfIA4 =>
      SwizzlerDeclaresNothing(acc, GeometryOf(layout, TfIA4));
      IA4Declares(SwizzlerLines(acc, GeometryOf(layout, TfIA4)));
    case TfIA8 =>
      SwizzlerDeclaresNothing(acc, GeometryOf(layout, TfIA8));
      IA8Declares(SwizzlerLines(acc, GeometryOf(layout, TfIA8)));
    case TfRgb565 =>
      SwizzlerDeclaresNothing(acc, GeometryOf(layout, TfRgb565));
      Rgb565Declares(SwizzlerLines(acc, GeometryOf(layout, TfRgb565)));
    case TfRgb5a3 =>
      SwizzlerDeclaresNothing(acc, GeometryOf(layout, TfRgb5a3));
      Rgb5a3Declares(SwizzlerLines(acc, GeometryOf(layout, TfRgb5a3)));
    case TfRgba8 =>
      SwizzlerDeclaresNothing(acc, GeometryOf(layout, TfRgba8));
      Rgba8Declares(SwizzlerLines(acc, GeometryOf(layout, TfRgba8)));
  }

  lemma ColourCopyDeclares(acc: Lines, format: CopyFormat, layout: CopyFormat -> Geometry)
    requires IsColourCopyFormat(format)
    ensures Declarations(ColourCopyLines(acc, format, layout)) == Declarations(acc)
  {
    match format
    case CtfR4 =>
      SwizzlerDeclaresNothing(acc, GeometryOf(layout, CtfR4));
      C4Declares(SwizzlerLines(acc, GeometryOf(layout, CtfR4)), "r");
    case CtfRa4 =>
      SwizzlerDeclaresNothing(acc, GeometryOf(layout, CtfRa4));
      CC4Declares(SwizzlerLines(acc, GeometryOf(layout, CtfRa4)), "ar");
    case CtfRa8 =>
      SwizzlerDeclaresNothing(acc, GeometryOf(layout, CtfRa8));
      CC8Declares(SwizzlerLines(acc, GeometryOf(layout, CtfRa8)), "ar");
    case CtfA8 =>
      SwizzlerDeclaresNothing(acc, GeometryOf(layout, CtfR8));
      C8Declares(SwizzlerLines(acc, GeometryOf(layout, CtfR8)), "a");
    case CtfR8 =>
      SwizzlerDeclaresNothing(acc, GeometryOf(layout, CtfR8));
      C8Declares(SwizzlerLines(acc, GeometryOf(layout, CtfR8)), "r");
    case CtfG8 =>
      SwizzlerDeclaresNothing(acc, GeometryOf(layout, CtfR8));
      C8Declares(SwizzlerLines(acc, GeometryOf(layout, CtfR8)), "g");
    case CtfB8 =>
      SwizzlerDeclaresNothing(acc, GeometryOf(layout, CtfR8));
      C8Declares(SwizzlerLines(acc, GeometryOf(layout, CtfR8)), "b");
    case CtfRg8 =>
      SwizzlerDeclaresNothing(acc, GeometryOf(layout, CtfRa8));
      CC8Declares(SwizzlerLines(acc, GeometryOf(layout, CtfRa8)), "rg");
    case CtfGb8 =>
      SwizzlerDeclaresNothing(acc, GeometryOf(layout, CtfRa8));
      CC8Declares(SwizzlerLines(acc, GeometryOf(layout, CtfRa8)), "gb");
  }

  lemma DepthDeclares(acc: Lines, format: CopyFormat, layout: CopyFormat -> Geometry)
    requires IsDepthFormat(format)
    ensures Declarations(DepthLines(acc, format, layout)) == Declarations(acc)
  {
    match format
    case TfZ8 =>
      SwizzlerDeclaresNothing(acc, GeometryOf(layout, CtfR8));
      C8Declares(SwizzlerLines(acc, GeometryOf(layout, CtfR8)), "b");
    case TfZ16 =>
      SwizzlerDeclaresNothing(acc, GeometryOf(layout, TfZ16));
      Z16Declares(SwizzlerLines(acc, GeometryOf(layout, TfZ16)));
    case TfZ24x8 =>
      SwizzlerDeclaresNothing(acc, GeometryOf(layout, TfZ24x8));
      Z24Declares(SwizzlerLines(acc, GeometryOf(layout, TfZ24x8)));
    case CtfZ4 =>
      SwizzlerDeclaresNothing(acc, GeometryOf(layout, CtfR4));
      C4Declares(SwizzlerLines(acc, GeometryOf(layout, CtfR4)), "b");
    case CtfZ8M =>
      SwizzlerDeclaresNothing(acc, GeometryOf(layout, CtfZ8M));
      Z8Declares(SwizzlerLines(acc, GeometryOf(layout, CtfZ8M)), "256.0");
    case CtfZ8L =>
      SwizzlerDeclaresNothing(acc, GeometryOf(layout, CtfZ8M));
      Z8Declares(SwizzlerLines(acc, GeometryOf(layout, CtfZ8M)), "65536.0");
    case CtfZ16L =>
      SwizzlerDeclaresNothing(acc, GeometryOf(layout, CtfZ16L));
      Z16LDeclares(SwizzlerLines(acc, GeometryOf(layout, CtfZ16L)));
  }

  /** A generated shader declares the intensity constant exactly once if its
      encoder computes intensities, and never otherwise. */
  lemma IntensityDeclaredOnce(format: CopyFormat, layout: CopyFormat -> Geometry)
    requires !format.OtherFormat?
    ensures Declarations(ShaderLines(format, layout)) == if UsesIntensity(format) then 1 else 0
  {
    if IsTextureFormat(format) {
      TextureDeclares([], format, layout);
    } else if IsColourCopyFormat(format) {
      ColourCopyDeclares([], format, layout);
    } else {
      DepthDeclares([], format, layout);
    }
  }

  // ---------------------------------------------------------------------------
  // Sample order: one fetch line per texel, in x-offset order
  // ---------------------------------------------------------------------------

  /** The x-offsets of the sample fetches, in emission order. */
  function Fetches(ls: Lines): seq<int>
  {
    if |ls| == 0 then []
    else Fetches(ls[..|ls| - 1]) + (if ls[|ls| - 1].SampleColor? then [ls[|ls| - 1].xoffset] else [])
  }

  /** No line of ls fetches a sample. */
  predicate NoFetch(ls: Lines)
  {
    forall i :: 0 <= i < |ls| ==> !ls[i].SampleColor?
  }

  /** The fetches of a concatenation are those of the parts, in order. */
  lemma {:induction false} FetchesAppend(a: Lines, b: Lines)
    ensures Fetches(a + b) == Fetches(a) + Fetches(b)
    decreases |b|
  {
    if |b| == 0 {
      assert a + b == a;
    } else {
      var front := b[..|b| - 1];
      assert (a + b)[..|a + b| - 1] == a + front;
      FetchesAppend(a, front);
    }
  }

  lemma {:induction false} NoFetches(ls: Lines)
    requires NoFetch(ls)
    ensures Fetches(ls) == []
    decreases |ls|
  {
    if |ls| > 0 {
      NoFetches(ls[..|ls| - 1]);
    }
  }

  /** Appending lines that fetch nothing adds no fetch. */
  lemma Skip(a: Lines, b: Lines)
    requires NoFetch(b)
    ensures Fetches(a + b) == Fetches(a)
  {
    FetchesAppend(a, b);
    NoFetches(b);
  }

  /** Appending one fetch adds its x-offset. */
  lemma Fetch(a: Lines, comp: string, dest: string, xoffset: int)
    ensures Fetches(a + [SampleColor(comp, dest, xoffset)]) == Fetches(a) + [xoffset]
  {
    assert (a + [SampleColor(comp, dest, xoffset)])[..|a|] == a;
  }

  lemma SwizzlerFetchesNothing(acc: Lines, g: Geometry)
    ensures Fetches(SwizzlerLines(acc, g)) == Fetches(acc)
  {
    var head := acc + SwizzlerHead(g);
    Skip(acc, SwizzlerHead(g));
    if g.samples == 1 {
      Skip(head, [FirstCacheLine(8 * g.samples), DoubleVirtualPosition]);
    }
    Skip(CacheLineSplit(head, g), SwizzlerTail(g));
  }

  lemma SampleIntensityFetches(acc: Lines, xoffset: int, dest: string, declared: bool)
    ensures Fetches(SampleIntensity(acc, xoffset, dest, declared)) == Fetches(acc) + [xoffset]
  {
    var s := acc + [SampleColor("rgb", "texSample", xoffset)];
    Fetch(acc, "rgb", "texSample", xoffset);
    if !declared {
      Skip(s, [IntensityConstant]);
    }
    Skip(if declared then s else s + [IntensityConstant], [Plain(ColorToIntensity("texSample", dest))]);
  }

  lemma PackNibblesFetchesNothing(acc: Lines)
    ensures Fetches(PackNibbles(acc)) == Fetches(acc)
  {
    var s0 := acc + [Plain(ToBitDepth(4, "color0", "color0"))];
    var s1 := s0 + [Plain(ToBitDepth(4, "color1", "color1"))];
    Skip(acc, [Plain(ToBitDepth(4, "color0", "color0"))]);
    Skip(s0, [Plain(ToBitDepth(4, "color1", "color1"))]);
    Skip(s1, [Plain(CombineNibbles)]);
    Skip(s1 + [Plain(CombineNibbles)], [EncoderEnd]);
  }

  /** I8 fetches texels 0 to 3 in order. */
  lemma I8Fetches(acc: Lines)
    ensures Fetches(I8Body(acc)) == Fetches(acc) + [0, 1, 2, 3]
  {
    var s := acc + [Plain(Declare("float3", "texSample"))];
    Skip(acc, [Plain(Declare("float3", "texSample"))]);
    SampleIntensityFetches(s, 0, "ocol0.b", false);
    var s0 := SampleIntensity(s, 0, "ocol0.b", false);
    SampleIntensityFetches(s0, 1, "ocol0.g", true);
    var t := SampleIntensity(s0, 1, "ocol0.g", true);
    SampleIntensityFetches(t, 2, "ocol0.r", true);
    var s1 := SampleIntensity(t, 2, "ocol0.r", true);
    SampleIntensityFetches(s1, 3, "ocol0.a", true);
    var u := SampleIntensity(s1, 3, "ocol0.a", true);
    Skip(u, [Plain(AddIntensityOffset("ocol0.rgba", "aaaa"))]);
    Skip(u + [Plain(AddIntensityOffset("ocol0.rgba", "aaaa"))], [EncoderEnd]);
  }

  /** Four intensity samples fetch texels x to x + 3 in order. */
  lemma FourSamplesFetch(s: Lines, x: int, d0: string, d1: string, d2: string, d3: string, declared: bool)
    ensures Fetches(FourSamples(s, x, d0, d1, d2, d3, declared)) == Fetches(s) + [x, x + 1, x + 2, x + 3]
  {
    SampleIntensityFetches(s, x, d0, declared);
    var a0 := SampleIntensity(s, x, d0, declared);
    SampleIntensityFetches(a0, x + 1, d1, true);
    var a1 := SampleIntensity(a0, x + 1, d1, true);
    assert Fetches(a1) == Fetches(s) + [x, x + 1];
    SampleIntensityFetches(a1, x + 2, d2, true);
    var a2 := SampleIntensity(a1, x + 2, d2, true);
    SampleIntensityFetches(a2, x + 3, d3, true);
  }

  /** Four intensity samples of texels x to x + 3 into the four destinations. */
  function FourSamples(s: Lines, x: int, d0: string, d1: string, d2: string, d3: string, declared: bool): Lines
  {
    SampleIntensity(SampleIntensity(SampleIntensity(SampleIntensity(s, x, d0, declared), x + 1, d1, true), x + 2, d2, true),
                    x + 3, d3, true)
  }

  /** The eight intensity samples of I4, four at a time. */
  function I4Samples(acc: Lines): Lines
  {
    var s := acc + [Plain(Declare("float3", "texSample")), Plain(Declare("float4", "color0")), Plain(Declare("float4", "color1"))];
    FourSamples(FourSamples(s, 0, "color0.b", "color1.b", "color0.g", "color1.g", false),
                4, "color0.r", "color1.r", "color0.a", "color1.a", true)
  }

  lemma I4Shape(acc: Lines)
    ensures I4Body(acc) == PackNibbles(I4Samples(acc) + [Plain(AddIntensityOffset("color0.rgba", "aaaa")), Plain(AddIntensityOffset("color1.rgba", "aaaa"))])
  {
  }

  lemma I4SamplesFetch(acc: Lines)
    ensures Fetches(I4Samples(acc)) == Fetches(acc) + [0, 1, 2, 3, 4, 5, 6, 7]
  {
    var decls := [Plain(Declare("float3", "texSample")), Plain(Declare("float4", "color0")), Plain(Declare("float4", "color1"))];
    var s := acc + decls;
    var a3 := FourSamples(s, 0, "color0.b", "color1.b", "color0.g", "color1.g", false);
    var r := FourSamples(a3, 4, "color0.r", "color1.r", "color0.a", "color1.a", true);
    assert Fetches(s) == Fetches(acc) by { Skip(acc, decls); }
    assert Fetches(a3) == Fetches(s) + [0, 1, 2, 3] by { FourSamplesFetch(s, 0, "color0.b", "color1.b", "color0.g", "color1.g", false); }
    assert Fetches(r) == Fetches(a3) + [4, 5, 6, 7] by { FourSamplesFetch(a3, 4, "color0.r", "color1.r", "color0.a", "color1.a", true); }
    Halves(Fetches(acc), Fetches(s), Fetches(a3), Fetches(r));
  }

  lemma Halves(f: seq<int>, f0: seq<int>, f1: seq<int>, f2: seq<int>)
    requires f0 == f && f1 == f0 + [0, 1, 2, 3] && f2 == f1 + [4, 5, 6, 7]
    ensures f2 == f + [0, 1, 2, 3, 4, 5, 6, 7]
  {
  }

  /** I4 fetches texels 0 to 7 in order. */
  lemma I4Fetches(acc: Lines)
    ensures Fetches(I4Body(acc)) == Fetches(acc) + [0, 1, 2, 3, 4, 5, 6, 7]
  {
    I4Shape(acc);
    I4SamplesFetch(acc);
    var offsets := [Plain(AddIntensityOffset("color0.rgba", "aaaa")), Plain(AddIntensityOffset("color1.rgba", "aaaa"))];
    Skip(I4Samples(acc), offsets);
    PackNibblesFetchesNothing(I4Samples(acc) + offsets);
  }

  /** C4 fetches texels 0 to 7 in order. */
  lemma C4Fetches(acc: Lines, comp: string)
    ensures Fetches(C4Body(acc, comp)) == Fetches(acc) + [0, 1, 2, 3, 4, 5, 6, 7]
  {
    var s := acc + [Plain(Declare("float4", "color0")), Plain(Declare("float4", "color1"))];
    Skip(acc, [Plain(Declare("float4", "color0")), Plain(Declare("float4", "color1"))]);
    Fetch(s, comp, "color0.b", 0);
    var a0 := s + [SampleColor(comp, "color0.b", 0)];
    Fetch(a0, comp, "color1.b", 1);
    var a1 := a0 + [SampleColor(comp, "color1.b", 1)];
    Fetch(a1, comp, "color0.g", 2);
    var a2 := a1 + [SampleColor(comp, "color0.g", 2)];
    Fetch(a2, comp, "color1.g", 3);
    var a3 := a2 + [SampleColor(comp, "color1.g", 3)];
    assert Fetches(a3) == Fetches(acc) + [0, 1, 2, 3];
    Fetch(a3, comp, "color0.r", 4);
    var a4 := a3 + [SampleColor(comp, "color0.r", 4)];
    Fetch(a4, comp, "color1.r", 5);
    var a5 := a4 + [SampleColor(comp, "color1.r", 5)];
    Fetch(a5, comp, "color0.a", 6);
    var a6 := a5 + [SampleColor(comp, "color0.a", 6)];
    Fetch(a6, comp, "color1.a", 7);
    PackNibblesFetchesNothing(C4Samples(s, comp));
  }

  /** The 8-bit intensity shader fetches texels 0 to 3 in order. */
  lemma I8SampleOrder(layout: CopyFormat -> Geometry)
    ensures Fetches(ShaderLines(TfI8, layout)) == [0, 1, 2, 3]
  {
    SwizzlerFetchesNothing([], GeometryOf(layout, TfI8));
    I8Fetches(SwizzlerLines([], GeometryOf(layout, TfI8)));
  }

  /** The 4-bit intensity shader fetches texels 0 to 7 in order. */
  lemma I4SampleOrder(layout: CopyFormat -> Geometry)
    ensures Fetches(ShaderLines(TfI4, layout)) == [0, 1, 2, 3, 4, 5, 6, 7]
  {
    SwizzlerFetchesNothing([], GeometryOf(layout, TfI4));
    I4Fetches(SwizzlerLines([], GeometryOf(layout, TfI4)));
  }

  /** The 4-bit red and 4-bit depth copies fetch texels 0 to 7 in order. */
  lemma C4SampleOrder(layout: CopyFormat -> Geometry)
    ensures Fetches(ShaderLines(CtfR4, layout)) == [0, 1, 2, 3, 4, 5, 6, 7]
    ensures Fetches(ShaderLines(CtfZ4, layout)) == [0, 1, 2, 3, 4, 5, 6, 7]
  {
    SwizzlerFetchesNothing([], GeometryOf(layout, CtfR4));
    C4Fetches(SwizzlerLines([], GeometryOf(layout, CtfR4)), "r");
    C4Fetches(SwizzlerLines([], GeometryOf(layout, CtfR4)), "b");
  }

  // ---------------------------------------------------------------------------
  // The block masks (WriteSwizzler): ~(blkH - 1) and blkH - 1 are bit
  // complements in a 32-bit int, so together they split uv1.y into the block
  // position and the offset within the block; likewise for the x masks
  // ---------------------------------------------------------------------------

  function Pow2(n: nat): (p: nat)
    ensures p >= 1
  {
    if n == 0 then 1 else 2 * Pow2(n - 1)
  }

  /** The bit pattern of an int in the low n bits, two's complement. */
  function Word(x: int, n: nat): (w: nat)
    ensures w < Pow2(n)
  {
    x % Pow2(n)
  }

  /** The low n bits of a & b, one bit at a time. */
  function And(a: nat, b: nat, n: nat): nat
  {
    if n == 0 then 0 else 2 * And(a / 2, b / 2, n - 1) + (a % 2) * (b % 2)
  }

  /** Every bit of m flipped, within n bits. */
  function Complement(m: nat, n: nat): (c: nat)
    requires m < Pow2(n)
    ensures c < Pow2(n)
  {
    Pow2(n) - 1 - m
  }

  lemma RemainderUnique(y: int, d: int, t: int, r: int)
    requires d > 0 && y == d * t + r && 0 <= r < d
    ensures y % d == r
  {
    var k := t - y / d;
    assert d * k == y % d - r;
    if k >= 1 {
      assert d * k == d + d * (k - 1);
    } else if k <= -1 {
      assert d * k == -d + d * (k + 1);
    }
  }

  /** The low n bits of y are its low bit below the low n - 1 bits of y / 2. */
  lemma LowBits(y: nat, n: nat)
    requires n > 0
    ensures y % Pow2(n) == 2 * ((y / 2) % Pow2(n - 1)) + y % 2
  {
    var d := Pow2(n - 1);
    var q := y / 2;
    var t := q / d;
    var s := q % d;
    assert y == 2 * q + y % 2;
    assert q == d * t + s;
    assert y == Pow2(n) * t + (2 * s + y % 2);
    RemainderUnique(y, Pow2(n), t, 2 * s + y % 2);
  }

  lemma ComplementHalves(m: nat, n: nat)
    requires n > 0 && m < Pow2(n)
    ensures m / 2 < Pow2(n - 1)
    ensures Complement(m, n) / 2 == Complement(m / 2, n - 1)
    ensures Complement(m, n) % 2 == 1 - m % 2
  {
    assert Complement(m, n) == 2 * (Pow2(n - 1) - 1 - m / 2) + (1 - m % 2);
  }

  /** A mask and its complement share no bit, and between them keep every
      bit of y. */
  lemma {:induction false} SplitBits(y: nat, m: nat, n: nat)
    requires m < Pow2(n)
    ensures And(y, Complement(m, n), n) + And(y, m, n) == y % Pow2(n)
    ensures And(Complement(m, n), m, n) == 0
  {
    if n > 0 {
      ComplementHalves(m, n);
      SplitBits(y / 2, m / 2, n - 1);
      LowBits(y, n);
    }
  }

  /** C's ~m, seen as n bits, is the bitwise complement of m. */
  lemma BitNotComplements(m: nat, n: nat)
    requires m < Pow2(n)
    ensures Word(BitNot(m), n) == Complement(m, n)
  {
    RemainderUnique(BitNot(m), Pow2(n), -1, Pow2(n) - 1 - m);
  }

  /** ~m and m, as n-bit masks, are complements: they share no bit and
      together keep every bit of an n-bit v. */
  lemma MaskPair(m: nat, v: nat, n: nat)
    requires m < Pow2(n) && v < Pow2(n)
    ensures Word(BitNot(m), n) == Complement(m, n)
    ensures And(Word(BitNot(m), n), m, n) == 0
    ensures And(v, Word(BitNot(m), n), n) + And(v, m, n) == v
  {
    BitNotComplements(m, n);
    SplitBits(v, m, n);
    RemainderUnique(v, Pow2(n), 0, v);
  }

  /** Where the swizzler writes its four masks. */
  lemma SwizzlerMasks(g: Geometry)
    ensures SwizzlerHead(g)[6] == Plain(YBlockPosition(BitNot(g.blockHeight - 1)))
    ensures SwizzlerHead(g)[7] == Plain(YOffsetInBlock(g.blockHeight - 1))
    ensures SwizzlerHead(g)[9] == Plain(XBlockPosition(g.log2BlockHeight, BitNot(g.blockWidth - 1)))
    ensures SwizzlerTail(g)[0] == Plain(XOffsetInBlock(g.blockWidth - 1))
  {
  }

  /** In n-bit ints (32 in GLSL) the y masks are complements:
      y_block_position and y_offset_in_block share no bit and add up to
      uv1.y. */
  lemma RowMasksSplit(g: Geometry, y: nat, n: nat)
    requires 1 <= g.blockHeight <= Pow2(n) && y < Pow2(n)
    ensures var hi := Word(SwizzlerHead(g)[6].statement.mask, n);
            var lo := SwizzlerHead(g)[7].statement.mask;
            lo < Pow2(n) && hi == Complement(lo, n) && And(hi, lo, n) == 0 &&
            And(y, hi, n) + And(y, lo, n) == y
  {
    SwizzlerMasks(g);
    MaskPair(g.blockHeight - 1, y, n);
  }

  /** In n-bit ints the x masks are complements: x_block_position keeps the
      bits of a position that x_offset_in_block drops. */
  lemma ColumnMasksComplement(g: Geometry, n: nat)
    requires 1 <= g.blockWidth <= Pow2(n)
    ensures var hi := Word(SwizzlerHead(g)[9].statement.mask, n);
            var lo := SwizzlerTail(g)[0].statement.mask;
            lo < Pow2(n) && hi == Complement(lo, n) && And(hi, lo, n) == 0
  {
    SwizzlerMasks(g);
    MaskPair(g.blockWidth - 1, 0, n);
  }

  // ---------------------------------------------------------------------------
  // One-sample layouts (WriteSwizzler)
  // ---------------------------------------------------------------------------

  /** Only 32-bit layouts, which take one sample per texel, note the cache
      line and double the virtual position, and the mask they test is 8. */
  lemma CacheLineSplitOnlyForOneSample(g: Geometry)
    ensures DoubleVirtualPosition in SwizzlerLines([], g) <==> g.samples == 1
    ensures FirstCacheLine(8) in SwizzlerLines([], g) <==> g.samples == 1
  {
    var head := SwizzlerHead(g);
    var tail := SwizzlerTail(g);
    assert DoubleVirtualPosition !in head && DoubleVirtualPosition !in tail;
    assert FirstCacheLine(8) !in head && FirstCacheLine(8) !in tail;
    if g.samples == 1 {
      assert SwizzlerLines([], g) == head + [FirstCacheLine(8), DoubleVirtualPosition] + tail;
    } else {
      assert SwizzlerLines([], g) == head + tail;
    }
  }

  // ---------------------------------------------------------------------------
  // Dispatch (GenerateEncodingShader's switch)
  // ---------------------------------------------------------------------------

  /** The 8-bit depth texture reuses the blue 8-bit copy's encoder and its
      block layout, so the two shaders are the same text. */
  lemma Z8IsBlueCopy(layout: CopyFormat -> Geometry)
    ensures ShaderLines(TfZ8, layout) == ShaderLines(CtfB8, layout)
  {
  }
}
