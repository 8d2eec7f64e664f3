/**
 * The transcription client the application calls (services/geminiService.ts):
 * the prompt builder, the API-key guard, the choice of model and the shape of the
 * request. The generative service itself is an oracle `generate` that answers a
 * request with text or with a failure.
 */
module Services {
  import opened Wrappers
  import opened Types
  import Lists

  // ---------------------------------------------------------------------------
  // Prompt text
  // ---------------------------------------------------------------------------

  /** The opening sentence, with the target language inserted verbatim, and a blank line. */
  function Opening(language: string): string
  {
    "Transcribeer de volgende audio naar tekst in het " + language + ".\n\n"
  }

  const WordForWordSentence := "Geef een volledig woordelijke transcriptie, exact zoals gesproken."
  const SummarySentence := "Maak een bondige samenvatting van de belangrijkste punten."
  const StructuredSentence := "Maak een gestructureerd verslag met duidelijke kopjes en alinea's."
  const InterviewSentence := "Transcribeer in interviewvorm met \"Spreker 1:\", \"Spreker 2:\", etc."
  const MinutesSentence := "Maak professionele notulen met agenda, besluitvorming en actiepunten."
  const CustomHeader := "Structureer de transcriptie in de volgende secties:\n"

  const LiteralSentence := "Behoud alle herhalingen, stopwoorden en aarzeling."
  const CleanedSentence := "Verwijder herhalingen en overbodige stopwoorden, maar behoud de essentie."
  const EditedSentence := "Redigeer de tekst tot professionele, vloeiende zinnen."

  const ProfessionalSentence := "Gebruik een professionele, zakelijke toon."
  const BusinessSentence := "Gebruik een formele, zakelijke schrijfstijl."
  const InformalSentence := "Gebruik een informele, toegankelijke stijl."

  /** The block one custom section contributes: a level-two heading and its instruction. */
  function SectionBlock(section: StructureSection): string
  {
    "\n## " + section.title + "\n" + section.instruction + "\n"
  }

  /** The blocks of all sections, in list order. */
  function SectionBlocks(sections: seq<StructureSection>): string
  {
    Lists.Flatten(sections, SectionBlock)
  }

  /** The fixed sentence of a non-custom structure. */
  function StructureSentence(structure: StructureType): string
    requires structure != Custom
  {
    match structure
    case WordForWord => WordForWordSentence
    case Summary => SummarySentence
    case Structured => StructuredSentence
    case Interview => InterviewSentence
    case Minutes => MinutesSentence
  }

  /**
   * The structure part of the prompt: the fixed sentence of a non-custom structure;
   * for a custom structure the header and one block per section, or nothing at all
   * when the settings hold no section list.
   */
  function StructureText(settings: TranscriptionSettings): string
  {
    if settings.structure != Custom then StructureSentence(settings.structure)
    else if settings.sections.Some? then CustomHeader + SectionBlocks(settings.sections.value)
    else ""
  }

  /** The one detail sentence of each detail level. */
  function DetailSentence(level: DetailLevel): string
  {
    match level
    case Literal => LiteralSentence
    case Cleaned => CleanedSentence
    case Edited => EditedSentence
  }

  /** The style sentence: none for a raw transcription, one fixed sentence otherwise. */
  function StyleSentence(style: OutputStyle): string
  {
    match style
    case Raw => ""
    case Professional => ProfessionalSentence
    case Business => BusinessSentence
    case Informal => InformalSentence
  }

  /**
   * The prompt the builder is specified to produce: opening, structure text, a
   * blank line, the detail sentence, a blank line, the style sentence.
   */
  function Prompt(settings: TranscriptionSettings): string
  {
    Opening(settings.language) + StructureText(settings) + "\n\n"
    + DetailSentence(settings.detailLevel) + "\n\n" + StyleSentence(settings.outputStyle)
  }

  /**
   * buildPrompt as the source writes it: grow the prompt by appends, choosing the
   * structure clause by comparing enum values and the detail and style clauses by
   * comparing the display labels against string literals.
   */
  method BuildPrompt(settings: TranscriptionSettings) returns (prompt: string)
    ensures prompt == Prompt(settings)
  {
    prompt := Opening(settings.language);
    prompt := AppendStructureClause(prompt, settings);
    prompt := prompt + "\n\n";
    prompt := AppendDetailClause(prompt, settings.detailLevel);
    prompt := prompt + "\n\n";
    prompt := AppendStyleClause(prompt, settings.outputStyle);
  }

  /** The structure block of buildPrompt: an if-chain over the structure type. */
  method AppendStructureClause(prefix: string, settings: TranscriptionSettings) returns (prompt: string)
    ensures prompt == prefix + StructureText(settings)
  {
    prompt := prefix;
    if settings.structure == WordForWord {
      prompt := prompt + WordForWordSentence;
    } else if settings.structure == Summary {
      prompt := prompt + SummarySentence;
    } else if settings.structure == Structured {
      prompt := prompt + StructuredSentence;
    } else if settings.structure == Interview {
      prompt := prompt + InterviewSentence;
    } else if settings.structure == Minutes {
      prompt := prompt + MinutesSentence;
    } else if settings.structure == Custom && settings.sections.Some? {
      prompt := prompt + CustomHeader;
      prompt := AppendSectionBlocks(prompt, settings.sections.value);
    }
  }

  /** The detail block of buildPrompt: the label is compared with two literals, EDITED is the final else. */
  method AppendDetailClause(prefix: string, level: DetailLevel) returns (prompt: string)
    ensures prompt == prefix + DetailSentence(level)
  {
    DetailLabelSelects(level);
    if level.Label() == "Volledig woordelijk (alles letterlijk)" {
      prompt := prefix + LiteralSentence;
    } else if level.Label() == "Licht opgeschoond (zonder stopwoorden en herhalingen)" {
      prompt := prefix + CleanedSentence;
    } else {
      prompt := prefix + EditedSentence;
    }
  }

  /** The style block of buildPrompt: three label comparisons; a raw style appends nothing. */
  method AppendStyleClause(prefix: string, style: OutputStyle) returns (prompt: string)
    ensures prompt == prefix + StyleSentence(style)
  {
    StyleLabelSelects(style);
    prompt := prefix;
    if style.Label() == "Professioneel verslag" {
      prompt := prompt + ProfessionalSentence;
    } else if style.Label() == "Zakelijk / formeel" {
      prompt := prompt + BusinessSentence;
    } else if style.Label() == "Informeel / creatief" {
      prompt := prompt + InformalSentence;
    }
  }

  /** The label literals buildPrompt compares against pick out exactly one detail level each. */
  lemma DetailLabelSelects(level: DetailLevel)
    ensures level.Label() == "Volledig woordelijk (alles letterlijk)" <==> level == Literal
    ensures level.Label() == "Licht opgeschoond (zonder stopwoorden en herhalingen)" <==> level == Cleaned
  {
  }

  /** The label literals buildPrompt compares against pick out exactly one output style each. */
  lemma StyleLabelSelects(style: OutputStyle)
    ensures style.Label() == "Professioneel verslag" <==> style == Professional
    ensures style.Label() == "Zakelijk / formeel" <==> style == Business
    ensures style.Label() == "Informeel / creatief" <==> style == Informal
  {
  }

  /** The `forEach` over the sections: append each section's block, in list order. */
  method AppendSectionBlocks(prefix: string, sections: seq<StructureSection>) returns (prompt: string)
    ensures prompt == prefix + SectionBlocks(sections)
  {
    prompt := prefix;
    for i := 0 to |sections|
      invariant prompt == prefix + SectionBlocks(sections[..i])
    {
      assert sections[..i + 1][..i] == sections[..i];
      prompt := prompt + SectionBlock(sections[i]);
    }
    assert sections[..|sections|] == sections;
  }

  // ---------------------------------------------------------------------------
  // Properties of the prompt
  // ---------------------------------------------------------------------------

  /** The prompt always opens with the language sentence, the language inserted unchanged. */
  lemma PromptOpensWithLanguage(settings: TranscriptionSettings)
    ensures var opening := "Transcribeer de volgende audio naar tekst in het " + settings.language + ".\n\n";
      |opening| <= |Prompt(settings)| && Prompt(settings)[..|opening|] == opening
  {
  }

  /**
   * Section i's heading block stands right after the blocks of the sections before it
   * and right before those after it: headings appear in list order.
   */
  lemma {:induction false} SectionBlockAt(sections: seq<StructureSection>, i: nat)
    requires i < |sections|
    ensures SectionBlocks(sections)
      == SectionBlocks(sections[..i]) + SectionBlock(sections[i]) + SectionBlocks(sections[i + 1..])
  {
    Lists.FlattenAt(sections, i, SectionBlock);
  }

  /** Every prompt is laid out as opening, structure text, blank line, detail sentence, blank line, style sentence. */
  lemma PromptLayout(settings: TranscriptionSettings)
    ensures var k := |Opening(settings.language)| + |StructureText(settings)|;
      var detail := DetailSentence(settings.detailLevel);
      var p := Prompt(settings);
      k + 4 + |detail| <= |p|
      && p[k..k + 2] == "\n\n"
      && p[k + 2..k + 2 + |detail|] == detail
      && p[k + 2 + |detail|..k + 4 + |detail|] == "\n\n"
      && p[k + 4 + |detail|..] == StyleSentence(settings.outputStyle)
  {
  }

  /** For the five fixed structures exactly the structure's sentence is used and the section list is ignored. */
  lemma FixedStructureIgnoresSections(settings: TranscriptionSettings, other: Option<seq<StructureSection>>)
    requires settings.structure != Custom
    ensures StructureText(settings) == StructureSentence(settings.structure)
    ensures Prompt(settings.(sections := other)) == Prompt(settings)
  {
  }

  /**
   * A custom structure with a section list yields the header followed by every
   * section's block, and only the header for an empty list.
   */
  lemma CustomStructureText(settings: TranscriptionSettings)
    requires settings.structure == Custom && settings.sections.Some?
    ensures StructureText(settings) == CustomHeader + SectionBlocks(settings.sections.value)
    ensures settings.sections.value == [] ==> StructureText(settings) == CustomHeader
  {
  }

  /**
   * A custom structure without a section list yields no structure text: the prompt
   * goes straight from the opening to the blank line before the detail sentence.
   */
  lemma CustomWithoutSections(settings: TranscriptionSettings)
    requires settings.structure == Custom && settings.sections.None?
    ensures Prompt(settings) == Opening(settings.language) + "\n\n" + DetailSentence(settings.detailLevel) + "\n\n"
      + StyleSentence(settings.outputStyle)
  {
    assert StructureText(settings) == "";
    assert Opening(settings.language) + StructureText(settings) == Opening(settings.language);
  }

  /** Distinct detail levels give distinct detail sentences, none of them empty. */
  lemma DetailSentencesDistinct(a: DetailLevel, b: DetailLevel)
    ensures DetailSentence(a) != ""
    ensures DetailSentence(a) == DetailSentence(b) <==> a == b
  {
  }

  /** Only the raw style adds nothing; the other styles add distinct sentences. */
  lemma StyleSentencesDistinct(a: OutputStyle, b: OutputStyle)
    ensures StyleSentence(a) == "" <==> a == Raw
    ensures StyleSentence(a) == StyleSentence(b) <==> a == b
  {
  }

  /** With the raw style the prompt ends in the blank line that follows the detail sentence. */
  lemma RawPromptEndsWithBlankLine(settings: TranscriptionSettings)
    requires settings.outputStyle == Raw
    ensures var p := Prompt(settings); |p| >= 2 && p[|p| - 2..] == "\n\n"
  {
  }

  /** The prompt reads only structure, sections, detail level, style and language: the rendering mode never matters. */
  lemma PromptIgnoresRenderingMode(settings: TranscriptionSettings, mode: RenderingMode)
    ensures Prompt(settings.(renderingMode := mode)) == Prompt(settings)
  {
  }

  // ---------------------------------------------------------------------------
  // The request
  // ---------------------------------------------------------------------------

  /** One content part of a request: inline base64 audio with its MIME type, or text. */
  datatype Part = InlineAudio(data: string, mimeType: string) | Text(text: string)

  /** A generateContent request: the model identifier and the content parts. */
  datatype Request = Request(model: string, parts: seq<Part>)

  /** What the service does with a request: returns text, or throws an error with a message. */
  datatype Reply = Generated(text: string) | Failed(message: string)

  const MissingKeyMessage := "GEMINI_API_KEY is niet ingesteld"

  /**
   * The model identifier. The source tests whether the mode's label is the FAST
   * label: that label selects the flash model, any other value the pro model.
   */
  function ModelFor(mode: RenderingMode): (model: string)
    ensures mode.Label() == "Snelle rendering (Prioriteit: snelheid)" ==> model == "gemini-1.5-flash"
    ensures mode.Label() != "Snelle rendering (Prioriteit: snelheid)" ==> model == "gemini-1.5-pro"
  {
    if mode == Fast then "gemini-1.5-flash" else "gemini-1.5-pro"
  }

  /** FAST selects the flash model and QUALITY the pro model: the two modes never share a model. */
  lemma ModelByMode(mode: RenderingMode)
    ensures mode == Fast <==> ModelFor(mode) == "gemini-1.5-flash"
    ensures mode == Quality <==> ModelFor(mode) == "gemini-1.5-pro"
  {
    match mode
    case Fast =>
    case Quality =>
  }

  /** The request sent for one transcription: the chosen model, the inline audio first and the prompt second. */
  function TranscriptionRequest(base64Audio: string, mimeType: string, settings: TranscriptionSettings): (request: Request)
    ensures request.model == ModelFor(settings.renderingMode)
    ensures |request.parts| == 2
    ensures request.parts[0] == InlineAudio(base64Audio, mimeType)
    ensures request.parts[1] == Text(Prompt(settings))
  {
    Request(ModelFor(settings.renderingMode), [InlineAudio(base64Audio, mimeType), Text(Prompt(settings))])
  }

  /**
   * transcribeAudio: an empty API key throws before any request exists, whatever the
   * service would do; otherwise exactly the request above is sent and its text returned
   * or its error passed on unchanged.
   */
  function TranscribeAudio(apiKey: string, base64Audio: string, mimeType: string,
                           settings: TranscriptionSettings, generate: Request -> Reply): (r: Result<string, string>)
    ensures apiKey == "" ==> r == Failure(MissingKeyMessage)
    ensures apiKey != "" ==> match generate(TranscriptionRequest(base64Audio, mimeType, settings))
                             case Generated(text) => r == Success(text)
                             case Failed(message) => r == Failure(message)
  {
    if apiKey == "" then Failure(MissingKeyMessage)
    else
      var request := TranscriptionRequest(base64Audio, mimeType, settings);
      match generate(request)
      case Generated(text) => Success(text)
      case Failed(message) => Failure(message)
  }

  /** The key guard comes first: with no key the answer does not depend on the service at all. */
  lemma MissingKeyMakesNoCall(base64Audio: string, mimeType: string, settings: TranscriptionSettings,
                              g1: Request -> Reply, g2: Request -> Reply)
    ensures TranscribeAudio("", base64Audio, mimeType, settings, g1)
         == TranscribeAudio("", base64Audio, mimeType, settings, g2)
  {
  }
}
