/** Classification of pixel formats (`PixelFormatUtil`). Each predicate is a
    `switch` over the format with a `default` arm, so it is total. */
module PixelFormatUtil {

  /** The pixel formats the classification names, `Unknown`, and
      `OtherFormat` for each remaining member of the engine's enum (colour,
      packed and integer formats), identified by its ordinal. */
  datatype PixelFormat =
    | Unknown
    | Depth16UNorm | Depth24UNormStencil8 | Depth32Float | Depth32FloatStencil8
    | BC1 | BC2 | BC3 | BC1_sRGB | BC2_sRGB | BC3_sRGB
    | BC4UNorm | BC4SNorm | BC5UNorm | BC5SNorm | BC6HSFloat | BC6HUFloat
    | OtherFormat(ordinal: nat)

  /** The four formats that carry a depth component. */
  const DepthFormats: set<PixelFormat> :=
    {Depth16UNorm, Depth24UNormStencil8, Depth32Float, Depth32FloatStencil8}

  /** The two formats that carry a stencil component. */
  const StencilFormats: set<PixelFormat> := {Depth24UNormStencil8, Depth32FloatStencil8}

  /** The twelve block-compressed formats. */
  const CompressedFormats: set<PixelFormat> :=
    {BC1, BC2, BC3, BC1_sRGB, BC2_sRGB, BC3_sRGB,
     BC4UNorm, BC4SNorm, BC5UNorm, BC5SNorm, BC6HSFloat, BC6HUFloat}

  /** `IsDepthFormat`: true for the four depth formats, false otherwise. */
  predicate IsDepthFormat(format: PixelFormat)
  {
    match format
    case Depth16UNorm | Depth24UNormStencil8 | Depth32Float | Depth32FloatStencil8 => true
    case _ => false
  }

  /** `IsStencilFormat`: true for the two formats with a stencil part. */
  predicate IsStencilFormat(format: PixelFormat)
  {
    match format
    case Depth24UNormStencil8 | Depth32FloatStencil8 => true
    case _ => false
  }

  /** `IsDepthStencilFormat`: depth or stencil. */
  predicate IsDepthStencilFormat(format: PixelFormat)
  {
    IsDepthFormat(format) || IsStencilFormat(format)
  }

  /** `IsCompressed`: true for the twelve BC formats. */
  predicate IsCompressed(format: PixelFormat)
  {
    match format
    case BC1 | BC2 | BC3 | BC1_sRGB | BC2_sRGB | BC3_sRGB => true
    case BC4UNorm | BC4SNorm | BC5UNorm | BC5SNorm | BC6HSFloat | BC6HUFloat => true
    case _ => false
  }

  /** Each predicate holds exactly on its set of formats, and the sets have
      four, two and twelve members. */
  lemma ClassificationSets(format: PixelFormat)
    ensures IsDepthFormat(format) <==> format in DepthFormats
    ensures IsStencilFormat(format) <==> format in StencilFormats
    ensures IsCompressed(format) <==> format in CompressedFormats
    ensures |DepthFormats| == 4 && |StencilFormats| == 2 && |CompressedFormats| == 12
  {
  }

  /** Every stencil format is a depth format, so depth-stencil is depth. */
  lemma StencilImpliesDepth(format: PixelFormat)
    ensures IsStencilFormat(format) ==> IsDepthFormat(format)
    ensures IsDepthStencilFormat(format) <==> IsDepthFormat(format)
  {
  }

  /** No compressed format has a depth or a stencil component. */
  lemma CompressedExcludesDepthStencil(format: PixelFormat)
    ensures IsCompressed(format) ==> !IsDepthFormat(format) && !IsStencilFormat(format)
    ensures IsCompressed(format) ==> !IsDepthStencilFormat(format)
  {
  }
}
