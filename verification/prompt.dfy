/**
 * The prompt compiler: the form's text fields and the chosen style's phrase
 * bundle interpolated into a fixed six-block template, then trimmed.
 */
module Prompt {
  import opened Text
  import opened JewelryTypes
  import opened Wrappers
  import opened Catalog

  /** What an empty field is shown as in the prompt. */
  const CategoryPlaceholder: string := "[CATEGORY]"
  const MaterialDetailsPlaceholder: string := "[MATERIAL_DETAILS]"
  const DimensionsPlaceholder: string := "[DIMENSIONS]"

  /** The blank line between two blocks. */
  const BlockSeparator: string := "\n\n"

  /** The labels that open the five blocks after the directives line. */
  const SubjectLabel: string := "**SUBJECT:** "
  const PhotographyLabel: string := "**PHOTOGRAPHY & LIGHTING:** "
  const EnvironmentLabel: string := "**ENVIRONMENT & STYLING:** "
  const ModelLabel: string := "**MODEL (If Applicable):** "
  const FinalTouchesLabel: string := "**FINAL TOUCHES:** "

  /** The category as the prompt shows it: verbatim, or its placeholder when empty. */
  function ShownCategory(f: FormData): (r: string)
    ensures f.category == "" ==> r == CategoryPlaceholder
    ensures f.category != "" ==> r == f.category
  {
    OrElse(f.category, CategoryPlaceholder)
  }

  /** The material details as the prompt shows them: verbatim, or their placeholder when empty. */
  function ShownMaterialDetails(f: FormData): (r: string)
    ensures f.materialDetails == "" ==> r == MaterialDetailsPlaceholder
    ensures f.materialDetails != "" ==> r == f.materialDetails
  {
    OrElse(f.materialDetails, MaterialDetailsPlaceholder)
  }

  /** The dimensions as the prompt shows them: verbatim, or their placeholder when empty. */
  function ShownDimensions(f: FormData): (r: string)
    ensures f.dimensions == "" ==> r == DimensionsPlaceholder
    ensures f.dimensions != "" ==> r == f.dimensions
  {
    OrElse(f.dimensions, DimensionsPlaceholder)
  }

  function SubjectBlock(category: string, materials: string, dimensions: string): string {
    SubjectLabel + "A hyper-realistic photograph of a " + category + ". The subject is "
    + materials + ". The dimensions are " + dimensions + "."
  }

  function PhotographyBlock(c: StyleConfig, category: string): string {
    PhotographyLabel + c.focalPlane + ", studio shot. " + c.lightingSetup + ". Crisp focus on the "
    + category + ". " + c.dofInstruction + ". Minimal chromatic aberration. Shot on a " + c.cameraLens + "."
  }

  function EnvironmentBlock(c: StyleConfig): string {
    EnvironmentLabel + c.backgroundStaging + ". The color grading should be " + c.colorGrading
    + ". " + c.tone + "."
  }

  function ModelBlock(c: StyleConfig): string {
    ModelLabel + c.modelDescription + "."
  }

  const FinalTouchesBlock: string := FinalTouchesLabel + FinalTouches

  /** The six blocks of the prompt for bundle `c`, in order. */
  function BlocksWith(c: StyleConfig, f: FormData): seq<string> {
    [ c.directives,
      SubjectBlock(ShownCategory(f), ShownMaterialDetails(f), ShownDimensions(f)),
      PhotographyBlock(c, ShownCategory(f)),
      EnvironmentBlock(c),
      ModelBlock(c),
      FinalTouchesBlock ]
  }

  /** The six blocks of the prompt for the form's own style. */
  function Blocks(f: FormData): seq<string> {
    BlocksWith(Config(f.style), f)
  }

  /**
   * The template literal before trimming: it opens with a line break and
   * closes with a line break and the four spaces of the source's indentation.
   */
  function TemplateWith(c: StyleConfig, f: FormData): string {
    "\n" + Join(BlocksWith(c, f), BlockSeparator) + "\n    "
  }

  /** With a well-formed bundle, trimming removes exactly the template's outer padding. */
  lemma TrimmedTemplate(c: StyleConfig, f: FormData)
    requires WellFormed(c)
    ensures Trim(TemplateWith(c, f)) == Join(BlocksWith(c, f), BlockSeparator)
  {
    var bs := BlocksWith(c, f);
    FinalTouchesIsPhrase();
    assert bs[5] == FinalTouchesLabel + FinalTouches;
    assert AllWhitespace("\n") && AllWhitespace("\n    ");
    TrimJoinPadded("\n", bs, BlockSeparator, "\n    ");
  }

  /** Joined blocks begin with the directives and end with the closing sentence. */
  lemma JoinedBlocksEnds(c: StyleConfig, f: FormData)
    ensures var p := Join(BlocksWith(c, f), BlockSeparator);
      && |c.directives| <= |p| && p[..|c.directives|] == c.directives
      && |FinalTouches| <= |p| && p[|p| - |FinalTouches|..] == FinalTouches
  {
    var bs := BlocksWith(c, f);
    var p := Join(bs, BlockSeparator);
    JoinStartsWithFirst(bs, BlockSeparator);
    JoinEndsWithLast(bs, BlockSeparator);
    var tail := p[|p| - |FinalTouchesBlock|..];
    assert tail == FinalTouchesLabel + FinalTouches;
    assert p[|p| - |FinalTouches|..] == tail[|tail| - |FinalTouches|..];
  }

  /**
   * The compiled prompt. Trimming removes exactly the template's outer padding,
   * so the prompt is the six blocks separated by blank lines.
   */
  function ConstructPrompt(f: FormData): (p: string)
    ensures p == Join(Blocks(f), BlockSeparator)
  {
    var c := Config(f.style);
    CatalogWellFormed(f.style);
    TrimmedTemplate(c, f);
    Trim(TemplateWith(c, f))
  }

  /** The prompt begins with the style's directives and ends with the closing sentence. */
  lemma PromptFrame(f: FormData)
    ensures var p := ConstructPrompt(f); var d := Config(f.style).directives;
      && |d| <= |p| && p[..|d|] == d
      && |FinalTouches| <= |p| && p[|p| - |FinalTouches|..] == FinalTouches
  {
    JoinedBlocksEnds(Config(f.style), f);
  }

  /**
   * The shown category appears in both the SUBJECT and the PHOTOGRAPHY blocks,
   * and the shown materials and dimensions in the SUBJECT block.
   */
  lemma FieldsAppearInBlocks(f: FormData)
    ensures |Blocks(f)| == 6
    ensures Contains(Blocks(f)[1], ShownCategory(f))
    ensures Contains(Blocks(f)[1], ShownMaterialDetails(f))
    ensures Contains(Blocks(f)[1], ShownDimensions(f))
    ensures Contains(Blocks(f)[2], ShownCategory(f))
  {
    var c := Config(f.style);
    SubjectShowsFields(ShownCategory(f), ShownMaterialDetails(f), ShownDimensions(f));
    PhotographyShowsCategory(c, ShownCategory(f));
  }

  lemma SubjectShowsFields(cat: string, mat: string, dim: string)
    ensures Contains(SubjectBlock(cat, mat, dim), cat)
    ensures Contains(SubjectBlock(cat, mat, dim), mat)
    ensures Contains(SubjectBlock(cat, mat, dim), dim)
  {
    var s0 := SubjectLabel + "A hyper-realistic photograph of a ";
    var s1 := s0 + cat;
    var s2 := s1 + ". The subject is ";
    var s3 := s2 + mat;
    var s4 := s3 + ". The dimensions are ";
    var s5 := s4 + dim;
    assert SubjectBlock(cat, mat, dim) == s5 + ".";
    ContainsSuffix(s0, cat);
    ContainsExtended(s1, cat, ". The subject is ");
    ContainsExtended(s2, cat, mat);
    ContainsExtended(s3, cat, ". The dimensions are ");
    ContainsExtended(s4, cat, dim);
    ContainsExtended(s5, cat, ".");
    ContainsSuffix(s2, mat);
    ContainsExtended(s3, mat, ". The dimensions are ");
    ContainsExtended(s4, mat, dim);
    ContainsExtended(s5, mat, ".");
    ContainsSuffix(s4, dim);
    ContainsExtended(s5, dim, ".");
  }

  lemma PhotographyShowsCategory(c: StyleConfig, cat: string)
    ensures Contains(PhotographyBlock(c, cat), cat)
  {
    var s0 := PhotographyLabel + c.focalPlane + ", studio shot. " + c.lightingSetup + ". Crisp focus on the ";
    var s1 := s0 + cat;
    var s2 := s1 + ". ";
    var s3 := s2 + c.dofInstruction;
    var s4 := s3 + ". Minimal chromatic aberration. Shot on a ";
    var s5 := s4 + c.cameraLens;
    assert PhotographyBlock(c, cat) == s5 + ".";
    ContainsSuffix(s0, cat);
    ContainsExtended(s1, cat, ". ");
    ContainsExtended(s2, cat, c.dofInstruction);
    ContainsExtended(s3, cat, ". Minimal chromatic aberration. Shot on a ");
    ContainsExtended(s4, cat, c.cameraLens);
    ContainsExtended(s5, cat, ".");
  }

  /** The prompt reads only the style and the three text fields, never the image or its preview. */
  lemma PromptIgnoresImage(f: FormData, g: FormData)
    requires f.style == g.style && f.category == g.category
    requires f.materialDetails == g.materialDetails && f.dimensions == g.dimensions
    ensures ConstructPrompt(f) == ConstructPrompt(g)
  {
  }

  /** Two equal prompts were compiled for the same style. */
  lemma PromptIdentifiesStyle(f: FormData, g: FormData)
    ensures ConstructPrompt(f) == ConstructPrompt(g) ==> f.style == g.style
  {
    PromptFrame(f);
    PromptFrame(g);
    DirectivesDistinct(f.style, g.style);
    var p, q := ConstructPrompt(f), ConstructPrompt(g);
    assert p[0] == Config(f.style).directives[0] by {
      assert p[..|Config(f.style).directives|][0] == p[0];
    }
    assert q[0] == Config(g.style).directives[0] by {
      assert q[..|Config(g.style).directives|][0] == q[0];
    }
  }

  /** With every text field empty, the SUBJECT and PHOTOGRAPHY blocks carry the placeholders. */
  lemma EmptyFieldsShowPlaceholders(f: FormData)
    requires f.category == "" && f.materialDetails == "" && f.dimensions == ""
    ensures Blocks(f)[1] == SubjectBlock("[CATEGORY]", "[MATERIAL_DETAILS]", "[DIMENSIONS]")
    ensures Blocks(f)[2] == PhotographyBlock(Config(f.style), "[CATEGORY]")
  {
  }

  /** A catalog ring with filled-in fields: the SUBJECT block shows the fields verbatim. */
  lemma CatalogRingSubject()
    ensures Blocks(FormData("Ring", "18K Yellow Gold, 1ct diamond", "18mm", CatalogEcommerce, None, None))[1]
      == SubjectBlock("Ring", "18K Yellow Gold, 1ct diamond", "18mm")
  {
  }

  /**
   * The prompt a new session shows: the Indian Commercial directives, and the
   * three placeholders in the SUBJECT block.
   */
  lemma InitialPrompt()
    ensures Blocks(InitialForm)[0] == "Indian Commercial Directives"
    ensures Blocks(InitialForm)[1] == SubjectBlock(CategoryPlaceholder, MaterialDetailsPlaceholder, DimensionsPlaceholder)
  {
  }
}
