/** The shader text of a post-processing effect: the stage list, the option
    declarations placed in every stage shader, and the pass that rewrites each
    stage's entry point into the interface the vertex shader feeds. */
module PostProcessingShader {
  import opened Common
  import opened PostProcessingLayout

  // ---------------------------------------------------------------------------
  // Stages
  // ---------------------------------------------------------------------------

  /** One pass of the effect: its entry point, the earlier outputs it samples,
      and the size of its output relative to the source or the destination. */
  datatype Stage = Stage(entryPoint: string, inputs: seq<nat>, useSourceResolution: bool, outputScale: real)

  /** What the frame loop relies on without checking: at least one stage, the
      input lists of the stages after the first fit the four texture slots and
      name existing intermediate targets, and scales are not negative.  Nothing requires an
      input to name an EARLIER stage. */
  predicate WellFormedStages(stages: seq<Stage>)
  {
    && |stages| >= 1
    && (forall i :: 0 <= i < |stages| ==> stages[i].outputScale >= 0.0)
    && (forall i :: 0 < i < |stages| ==> |stages[i].inputs| <= 4)
    && (forall i, k :: 0 < i < |stages| && 0 <= k < |stages[i].inputs| ==> stages[i].inputs[k] < |stages| - 1)
  }

  /** A stage list the frame loop can run: what the configuration loader
      hands over and the processor keeps for its lifetime. */
  type StageList = s: seq<Stage> | WellFormedStages(s) witness [Stage("", [], false, 0.0)]

  /** A stage that samples its own output and a later one still meets every
      condition the frame loop relies on. */
  lemma ForwardReferenceAccepted()
    ensures WellFormedStages([Stage("a", [], false, 1.0), Stage("b", [1, 2], false, 1.0),
                              Stage("c", [1], false, 1.0), Stage("d", [0], false, 1.0)])
  {
  }

  // ---------------------------------------------------------------------------
  // Option declarations and shader assembly
  // ---------------------------------------------------------------------------

  /** The HLSL declaration of one option: bools and single lanes are scalars,
      longer values are vectors whose width is the lane count. */
  function Declaration(o: ConfigurationOption): string
  {
    match o.kind
    case OptionBool => "int     option_" + o.name + ";\n"
    case OptionInteger =>
      if |o.integerValues| < 2 then "int     option_" + o.name + ";\n"
      else "int" + Decimal(|o.integerValues|) + "   option_" + o.name + ";\n"
    case OptionFloat =>
      if |o.floatValues| < 2 then "float   option_" + o.name + ";\n"
      else "float" + Decimal(|o.floatValues|) + " option_" + o.name + ";\n"
  }

  /** The declarations of all options, in option order. */
  function Declarations(opts: seq<ConfigurationOption>): string
    decreases |opts|
  {
    if |opts| == 0 then "" else Declarations(opts[..|opts| - 1]) + Declaration(opts[|opts| - 1])
  }

  lemma DeclarationsLast(a: seq<ConfigurationOption>, x: ConfigurationOption)
    ensures Declarations(a + [x]) == Declarations(a) + Declaration(x)
  {
    assert (a + [x])[..|a|] == a;
  }

  /** Extending a prefix of the options by one appends that option's declaration. */
  lemma DeclarationsPrefix(opts: seq<ConfigurationOption>, i: nat)
    requires i < |opts|
    ensures Declarations(opts[..i + 1]) == Declarations(opts[..i]) + Declaration(opts[i])
  {
    assert opts[..i + 1] == opts[..i] + [opts[i]];
    DeclarationsLast(opts[..i], opts[i]);
  }

  /** Declarations distribute over concatenation: one declaration per option, in order. */
  lemma {:induction false} DeclarationsAppend(a: seq<ConfigurationOption>, b: seq<ConfigurationOption>)
    ensures Declarations(a + b) == Declarations(a) + Declarations(b)
    decreases |b|
  {
    if |b| == 0 {
      assert a + b == a;
    } else {
      var b', x := b[..|b| - 1], b[|b| - 1];
      assert a + b == (a + b') + [x];
      assert b == b' + [x];
      calc {
        Declarations(a + b);
        { DeclarationsLast(a + b', x); }
        Declarations(a + b') + Declaration(x);
        { DeclarationsAppend(a, b'); }
        (Declarations(a) + Declarations(b')) + Declaration(x);
        { AppendAssoc(Declarations(a), Declarations(b'), Declaration(x)); }
        Declarations(a) + (Declarations(b') + Declaration(x));
        { DeclarationsLast(b', x); }
        Declarations(a) + Declarations(b);
      }
    }
  }

  const OptionBufferOpen: string := "cbuffer OptionBuffer : register(b1) {"
  const OptionBufferClose: string := "}\n"

  /** The option block spliced into every stage shader: empty when the
      configuration has no options or the options take no bytes; otherwise the
      declarations between the opening and the closing text. */
  function OptionBlockWith(opts: seq<ConfigurationOption>, open: string, close: string): string
  {
    if |opts| == 0 || LayoutEnd(Sizes(opts)) == 0 then ""
    else open + Declarations(opts) + close
  }

  function OptionBlock(opts: seq<ConfigurationOption>): string
  {
    OptionBlockWith(opts, OptionBufferOpen, OptionBufferClose)
  }

  /** Which sampling header heads a stage shader.  The header texts are GPU code
      and are represented by name; the multisampled one is formatted with the
      sample count. */
  datatype SamplingHeader = PlainHeader | MsaaHeader(samples: int)

  function HeaderFor(samples: int): (h: SamplingHeader)
    ensures h == PlainHeader <==> samples == 1
    ensures h.MsaaHeader? ==> h.samples == samples
  {
    if samples == 1 then PlainHeader else MsaaHeader(samples)
  }

  /** The source text of a stage shader: the sampling header, the fixed
      interface block, the option declarations and the spliced effect code,
      concatenated in this order. */
  datatype PixelShaderSource = PixelShaderSource(header: SamplingHeader, options: string, code: string)

  // ---------------------------------------------------------------------------
  // Entry-point splicing
  // ---------------------------------------------------------------------------

  predicate MatchAt(s: string, pat: string, i: nat)
  {
    i + |pat| <= |s| && s[i..i + |pat|] == pat
  }

  /** i is the first position at or after `from` where pat occurs in s. */
  predicate FirstMatchFrom(s: string, pat: string, from: nat, i: nat)
  {
    from <= i && MatchAt(s, pat, i) && forall j :: from <= j < i ==> !MatchAt(s, pat, j)
  }

  predicate NoMatchFrom(s: string, pat: string, from: nat)
  {
    forall j :: from <= j <= |s| ==> !MatchAt(s, pat, j)
  }

  /** `s.find(pat, from)`: the first occurrence at or after from, if any. */
  function Find(s: string, pat: string, from: nat): (r: Option<nat>)
    ensures r.Some? ==> FirstMatchFrom(s, pat, from, r.value)
    ensures r.None? ==> NoMatchFrom(s, pat, from)
    decreases |s| - from
  {
    if from + |pat| > |s| then None
    else if s[from..from + |pat|] == pat then Some(from)
    else Find(s, pat, from + 1)
  }

  lemma FirstMatchUnique(s: string, pat: string, from: nat, i: nat, j: nat)
    requires FirstMatchFrom(s, pat, from, i) && FirstMatchFrom(s, pat, from, j)
    ensures i == j
  {
  }

  /** The interface code placed after the entry point's name: its parameter list,
      the opening brace and the copies into the shared interface variables. */
  const HlslEntry: string :=
    "(\n" +
    "out float4 ocol0 : SV_Target,\n" +
    "in float4 frag_pos : SV_Position,\n" +
    "in float2 _uv0 : TEXCOORD0,\n" +
    "in float4 _uv1 : TEXCOORD1,\n" +
    "in float4 _uv2 : TEXCOORD2)\n" +
    "{\n" +
    "fragment_pos = frag_pos;\n" +
    "uv0 = _uv0;\n" +
    "uv1 = _uv1;\n" +
    "uv2 = _uv2;\n"

  function EntryPattern(entry: string): string
  {
    "void " + entry
  }

  /** One splice step: keep the text through `void <entry>`, drop everything
      up to and including the first `{` after it, and put `insert` (HlslEntry in
      the program) between. */
  function SpliceEntry(code: string, entry: string, insert: string): Option<string>
  {
    var pat := EntryPattern(entry);
    match Find(code, pat, 0)
    case None => None
    case Some(start) =>
      match Find(code, "{", start)
      case None => None
      case Some(brace) => Some(code[..start + |pat|] + insert + code[brace + 1..])
  }

  /** When the entry point and a following brace exist, the splice keeps the
      text through the first match and the text after the first brace. */
  lemma SpliceEntryFound(code: string, entry: string, insert: string, start: nat, brace: nat)
    requires FirstMatchFrom(code, EntryPattern(entry), 0, start)
    requires FirstMatchFrom(code, "{", start, brace)
    ensures SpliceEntry(code, entry, insert)
         == Some(code[..start + |EntryPattern(entry)|] + insert + code[brace + 1..])
  {
    var pat := EntryPattern(entry);
    var r := Find(code, pat, 0);
    assert r.Some?;
    FirstMatchUnique(code, pat, 0, r.value, start);
    var b := Find(code, "{", start);
    assert b.Some?;
    FirstMatchUnique(code, "{", start, b.value, brace);
  }

  /** Without the entry point the splice fails. */
  lemma SpliceEntryNoEntry(code: string, entry: string, insert: string)
    requires NoMatchFrom(code, EntryPattern(entry), 0)
    ensures SpliceEntry(code, entry, insert) == None
  {
    var r := Find(code, EntryPattern(entry), 0);
    assert r.None?;
  }

  /** Without a brace after the first occurrence of the entry point the splice fails. */
  lemma SpliceEntryNoBrace(code: string, entry: string, insert: string, start: nat)
    requires FirstMatchFrom(code, EntryPattern(entry), 0, start)
    requires NoMatchFrom(code, "{", start)
    ensures SpliceEntry(code, entry, insert) == None
  {
    var pat := EntryPattern(entry);
    var r := Find(code, pat, 0);
    assert r.Some?;
    FirstMatchUnique(code, pat, 0, r.value, start);
  }

  /** The whole entry-point pass: the stages are spliced in order into the
      running text, and the first failure makes the result empty. */
  function SpliceAll(code: string, stages: seq<Stage>, insert: string): string
    decreases |stages|
  {
    if |stages| == 0 then code
    else
      match SpliceEntry(code, stages[0].entryPoint, insert)
      case None => ""
      case Some(r) => SpliceAll(r, stages[1..], insert)
  }

  /** A successful first step leaves the rest of the pass to the remaining stages. */
  lemma SpliceAllStep(code: string, stages: seq<Stage>, insert: string, r: string)
    requires |stages| > 0 && SpliceEntry(code, stages[0].entryPoint, insert) == Some(r)
    ensures SpliceAll(code, stages, insert) == SpliceAll(r, stages[1..], insert)
  {
  }

  /** A failed first step makes the whole pass fail. */
  lemma SpliceAllStop(code: string, stages: seq<Stage>, insert: string)
    requires |stages| > 0 && SpliceEntry(code, stages[0].entryPoint, insert) == None
    ensures SpliceAll(code, stages, insert) == ""
  {
  }

  /** Splicing into the empty text fails at once, so stopping the loop at the
      first failure gives the same result as carrying on. */
  lemma {:induction false} SpliceAllEmpty(stages: seq<Stage>, insert: string)
    ensures SpliceAll("", stages, insert) == ""
  {
    if |stages| > 0 {
      assert !MatchAt("", EntryPattern(stages[0].entryPoint), 0);
      assert Find("", EntryPattern(stages[0].entryPoint), 0) == None;
    }
  }

  /** The pass over a + b is the pass over b applied to the pass over a. */
  lemma {:induction false} SpliceAllAppend(code: string, a: seq<Stage>, b: seq<Stage>, insert: string)
    ensures SpliceAll(code, a + b, insert) == SpliceAll(SpliceAll(code, a, insert), b, insert)
    decreases |a|
  {
    if |a| == 0 {
      assert a + b == b;
    } else {
      assert (a + b)[0] == a[0];
      assert (a + b)[1..] == a[1..] + b;
      match SpliceEntry(code, a[0].entryPoint, insert)
      case None => SpliceAllEmpty(b, insert);
      case Some(r) => SpliceAllAppend(r, a[1..], b, insert);
    }
  }
}
