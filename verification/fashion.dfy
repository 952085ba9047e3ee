/** The record the analysis model returns (types.ts). The shape is only
    requested from the service through a schema; nothing local checks it. */
module Fashion {

  datatype ImprovementSuggestion = ImprovementSuggestion(item: string, suggestion: string)

  datatype PaletteColor = PaletteColor(name: string, hex: string)

  datatype AlternativeOutfit = AlternativeOutfit(description: string, colorPalette: seq<PaletteColor>)

  /** `FashionAnalysisResult`. `imageGenerationPrompts` may have any length:
      the schema only describes "2 prompts" in prose. */
  datatype FashionAnalysisResult = FashionAnalysisResult(
    rating: int,
    ratingTitle: string,
    overallFeedback: string,
    improvementSuggestions: seq<ImprovementSuggestion>,
    alternativeOutfit: AlternativeOutfit,
    imageGenerationPrompts: seq<string>)
}
