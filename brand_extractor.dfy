/**
 * Brand grounding: derives design tokens from a brand name and a website URL
 * by substring heuristics on the URL, and warns when it falls back to the
 * default palette or typography.
 */
module BrandExtractor {
  import opened Strings
  import opened Models

  datatype BrandExtractionResult = BrandExtractionResult(tokens: BrandTokens, warnings: seq<string>)

  const DefaultColors: map<string, string> :=
    map["primary" := "#0A84FF", "secondary" := "#111111", "accent" := "#FFCC00"]
  const EcoColors: map<string, string> :=
    map["primary" := "#2E7D32", "secondary" := "#1B5E20", "accent" := "#A5D6A7"]
  const LuxuryColors: map<string, string> :=
    map["primary" := "#1A1A1A", "secondary" := "#E5C07B", "accent" := "#61AFEF"]

  const DefaultTypography: map<string, string> :=
    map["heading" := "Inter Bold", "body" := "Inter Regular"]
  const EcoTypography: map<string, string> :=
    map["heading" := "Work Sans SemiBold", "body" := "Work Sans Regular"]
  const LuxuryTypography: map<string, string> :=
    map["heading" := "Playfair Display Bold", "body" := "Source Sans Pro"]

  const PaletteWarning := "Using default palette; no colours detected"
  const TypographyWarning := "Using default typography; no fonts detected"

  /** The URL names an eco brand. */
  predicate IsEco(url: string) {
    Contains(url, "eco")
  }

  /** The URL names a luxury brand. */
  predicate IsLuxury(url: string) {
    Contains(url, "lux") || Contains(url, "premium")
  }

  function InferPalette(url: string): (r: map<string, string>)
    ensures r.Keys == {"primary", "secondary", "accent"}
  {
    if IsEco(url) then EcoColors
    else if IsLuxury(url) then LuxuryColors
    else DefaultColors
  }

  function InferTypography(url: string): (r: map<string, string>)
    ensures r.Keys == {"heading", "body"}
  {
    if IsEco(url) then EcoTypography
    else if IsLuxury(url) then LuxuryTypography
    else DefaultTypography
  }

  function Extract(brand: string, url: string): (r: BrandExtractionResult)
    ensures r.tokens.brand == brand && r.tokens.url == url
  {
    var palette := InferPalette(url);
    var typography := InferTypography(url);
    var logoUrl := RStripSlashes(url) + "/assets/logo.svg";
    var voice := Voice(
      if Contains(url, "play") then "confident, playful" else "modern, helpful",
      ["no sarcasm", "no slang"]);
    var tokens := BrandTokens(brand, url, palette, typography, Logo(logoUrl, "10%"), voice);
    var warnings :=
      (if palette == DefaultColors then [PaletteWarning] else []) +
      (if typography == DefaultTypography then [TypographyWarning] else []);
    BrandExtractionResult(tokens, warnings)
  }

  /** The palette goes by priority: eco first, then luxury, then the defaults. */
  lemma PaletteChoice(url: string)
    ensures IsEco(url) ==> InferPalette(url) == EcoColors
    ensures !IsEco(url) && IsLuxury(url) ==> InferPalette(url) == LuxuryColors
    ensures !IsEco(url) && !IsLuxury(url) ==> InferPalette(url) == DefaultColors
    ensures InferPalette(url) == DefaultColors <==> !IsEco(url) && !IsLuxury(url)
  {
    assert EcoColors["primary"] != DefaultColors["primary"];
    assert LuxuryColors["primary"] != DefaultColors["primary"];
  }

  /** The typography follows the same priority as the palette. */
  lemma TypographyChoice(url: string)
    ensures IsEco(url) ==> InferTypography(url) == EcoTypography
    ensures !IsEco(url) && IsLuxury(url) ==> InferTypography(url) == LuxuryTypography
    ensures !IsEco(url) && !IsLuxury(url) ==> InferTypography(url) == DefaultTypography
    ensures InferTypography(url) == DefaultTypography <==> !IsEco(url) && !IsLuxury(url)
  {
    assert EcoTypography["heading"] != DefaultTypography["heading"];
    assert LuxuryTypography["heading"] != DefaultTypography["heading"];
  }

  /**
   * Warnings appear exactly when defaults are used: none when the URL names
   * an eco or luxury brand, otherwise both, palette first.
   */
  lemma WarningsExactlyOnDefaults(brand: string, url: string)
    ensures var r := Extract(brand, url);
      (r.warnings == [] <==> IsEco(url) || IsLuxury(url)) &&
      (!IsEco(url) && !IsLuxury(url) ==> r.warnings == [PaletteWarning, TypographyWarning])
    ensures var r := Extract(brand, url);
      (PaletteWarning in r.warnings <==> r.tokens.colors == DefaultColors) &&
      (TypographyWarning in r.warnings <==> r.tokens.typography == DefaultTypography)
  {
    PaletteChoice(url);
    TypographyChoice(url);
    assert PaletteWarning != TypographyWarning;
  }

  /** The logo sits under the URL with all its trailing slashes removed. */
  lemma LogoUrl(brand: string, url: string)
    ensures var logo := Extract(brand, url).tokens.logo.url;
      exists n :: 0 <= n <= |url| &&
        logo == url[..n] + "/assets/logo.svg" &&
        (n == 0 || url[n - 1] != '/') &&
        forall i :: n <= i < |url| ==> url[i] == '/'
  {
    var r := RStripSlashes(url);
    assert url[..|r|] == r;
  }

  /** The voice tone is playful exactly when the URL mentions "play". */
  lemma VoiceTone(brand: string, url: string)
    ensures Extract(brand, url).tokens.voice.tone == "confident, playful" <==> Contains(url, "play")
    ensures !Contains(url, "play") ==> Extract(brand, url).tokens.voice.tone == "modern, helpful"
  {
    assert "confident, playful" != "modern, helpful";
  }
}
