/**
 * The older, divergent transcription client at the repository root (geminiService.ts).
 * It is not the one the application calls. It builds a numbered prompt from the
 * settings' display labels, emits custom sections whenever a non-empty list is
 * present, picks different model identifiers, replaces empty output with a fixed
 * placeholder and turns every failure of the call into one fixed message.
 */
module LegacyClient {
  import opened Wrappers
  import opened Types
  import Lists
  import Services

  /** The fixed persona and output rules sent as the system instruction; its text is not modelled. */
  datatype SystemInstruction = XcribeInstruction

  /** One content part of a request: inline base64 audio with its MIME type, or text. */
  datatype Part = InlineAudio(data: string, mimeType: string) | Text(text: string)

  /** A generateContent request: model, parts, system instruction and temperature. */
  datatype Request = Request(model: string, parts: seq<Part>, systemInstruction: SystemInstruction, temperature: real)

  /** What the service does with a request: a response whose text may be absent, or a thrown error. */
  datatype Reply = Responded(text: Option<string>) | Failed(message: string)

  const NoTextPlaceholder := "Er is geen tekst gegenereerd."
  const FailureMessage := "De transcriptie is mislukt. Controleer of het audiobestand niet te groot is of probeer het later opnieuw."

  /** The model identifier: QUALITY selects the pro preview model, any other mode the flash preview model. */
  function ModelName(mode: RenderingMode): (model: string)
    ensures mode == Quality ==> model == "gemini-3-pro-preview"
    ensures mode != Quality ==> model == "gemini-3-flash-preview"
  {
    if mode == Quality then "gemini-3-pro-preview" else "gemini-3-flash-preview"
  }

  const StructureLead := "Structuur-type: "
  const SectionsHeader := "\nGEBRUIK DE VOLGENDE SECTIES ALS HEADERS:\n"

  /** The entry one section contributes: its heading and its instruction. */
  function SectionEntry(section: StructureSection): string
  {
    "## " + section.title + "\nInstructie voor deze sectie: " + section.instruction + "\n"
  }

  /** The entries of all sections, in list order. */
  function SectionEntries(sections: seq<StructureSection>): string
  {
    Lists.Flatten(sections, SectionEntry)
  }

  /** Whether the settings hold a non-empty section list; the structure type plays no part. */
  predicate HasSections(settings: TranscriptionSettings)
  {
    settings.sections.Some? && |settings.sections.value| > 0
  }

  /**
   * The structure item: the lead and the structure's label, then, when a non-empty
   * section list is present, the header and every section's entry.
   */
  function StructurePrompt(settings: TranscriptionSettings): string
  {
    StructureLead + settings.structure.Label()
    + if HasSections(settings) then SectionsHeader + SectionEntries(settings.sections.value) else ""
  }

  /** structurePrompt as the source builds it: an initial string grown by appends inside a loop over the sections. */
  method BuildStructurePrompt(settings: TranscriptionSettings) returns (structurePrompt: string)
    ensures structurePrompt == StructurePrompt(settings)
  {
    structurePrompt := StructureLead + settings.structure.Label();
    if settings.sections.Some? && |settings.sections.value| > 0 {
      structurePrompt := structurePrompt + SectionsHeader;
      structurePrompt := AppendSectionEntries(structurePrompt, settings.sections.value);
    }
  }

  /** The `forEach` over the sections: append each section's entry, in list order. */
  method AppendSectionEntries(prefix: string, sections: seq<StructureSection>) returns (structurePrompt: string)
    ensures structurePrompt == prefix + SectionEntries(sections)
  {
    structurePrompt := prefix;
    for i := 0 to |sections|
      invariant structurePrompt == prefix + SectionEntries(sections[..i])
    {
      assert sections[..i + 1][..i] == sections[..i];
      structurePrompt := structurePrompt + SectionEntry(sections[i]);
    }
    assert sections[..|sections|] == sections;
  }

  const Preamble := "\n    OPDRACHT: Transcribeer de bijgevoegde audio.\n    \n    GEKOZEN CONFIGURATIE:\n    1. "
  const DetailItem := "\n    2. Detailniveau: "
  const StyleItem := "\n    3. Outputstijl: "
  const LanguageItem := "\n    4. Doeltaal: "
  const ModeItem := "\n    5. Verwerkingsmodus: "
  const Closing := "\n    \n    START TRANSCRIPTIE VOLGENS XCRIBE PROTOCOL:\n  "

  /** The prompt template: items 1 to 5 hold the structure text and the detail, style, language and mode labels. */
  function PromptText(settings: TranscriptionSettings): string
  {
    Preamble + StructurePrompt(settings)
    + DetailItem + settings.detailLevel.Label()
    + StyleItem + settings.outputStyle.Label()
    + LanguageItem + settings.language
    + ModeItem + settings.renderingMode.Label()
    + Closing
  }

  /** The request: the chosen model, the audio part before the text part, the fixed instruction, temperature 0.1. */
  function TranscriptionRequest(audioBase64: string, mimeType: string, settings: TranscriptionSettings): (request: Request)
    ensures request.model == ModelName(settings.renderingMode)
    ensures request.parts == [InlineAudio(audioBase64, mimeType), Text(PromptText(settings))]
    ensures request.systemInstruction == XcribeInstruction && request.temperature == 0.1
  {
    Request(ModelName(settings.renderingMode), [InlineAudio(audioBase64, mimeType), Text(PromptText(settings))],
            XcribeInstruction, 0.1)
  }

  /**
   * transcribeAudio of the older client: non-empty response text is returned as is,
   * absent or empty text becomes the placeholder, and any failure becomes the one
   * fixed message, whatever its cause.
   */
  function TranscribeAudio(audioBase64: string, mimeType: string, settings: TranscriptionSettings,
                           generate: Request -> Reply): (r: Result<string, string>)
    ensures r.Success? ==> r.value != ""
    ensures forall t :: t != "" && generate(TranscriptionRequest(audioBase64, mimeType, settings)) == Responded(Some(t)) ==>
      r == Success(t)
    ensures r.Failure? <==> generate(TranscriptionRequest(audioBase64, mimeType, settings)).Failed?
    ensures r.Failure? ==> r.error == FailureMessage
    ensures r == Success(NoTextPlaceholder) <==>
      generate(TranscriptionRequest(audioBase64, mimeType, settings)) in {Responded(None), Responded(Some("")), Responded(Some(NoTextPlaceholder))}
  {
    match generate(TranscriptionRequest(audioBase64, mimeType, settings))
    case Responded(text) =>
      if text.Some? && text.value != "" then Success(text.value) else Success(NoTextPlaceholder)
    case Failed(_) => Failure(FailureMessage)
  }

  // ---------------------------------------------------------------------------
  // Properties
  // ---------------------------------------------------------------------------

  /**
   * The structure item starts with the lead and the structure label, and is longer
   * than that exactly when a non-empty section list is present, for every structure type.
   */
  lemma StructurePromptShape(settings: TranscriptionSettings)
    ensures var lead := StructureLead + settings.structure.Label();
      |lead| <= |StructurePrompt(settings)| && StructurePrompt(settings)[..|lead|] == lead
      && (|StructurePrompt(settings)| > |lead| <==> HasSections(settings))
  {
  }

  /** Section i's entry stands between the entries of the sections before and after it. */
  lemma {:induction false} SectionEntryAt(sections: seq<StructureSection>, i: nat)
    requires i < |sections|
    ensures SectionEntries(sections)
      == SectionEntries(sections[..i]) + SectionEntry(sections[i]) + SectionEntries(sections[i + 1..])
  {
    Lists.FlattenAt(sections, i, SectionEntry);
  }

  /**
   * The five items come in order: the structure text right after the preamble, then
   * the detail, style, language and rendering-mode labels, each after its item lead.
   */
  lemma PromptItemsInOrder(settings: TranscriptionSettings)
    ensures var p := PromptText(settings);
      var k1 := |Preamble|;
      var sp := StructurePrompt(settings);
      var k2 := k1 + |sp| + |DetailItem|;
      var dl := settings.detailLevel.Label();
      var k3 := k2 + |dl| + |StyleItem|;
      var st := settings.outputStyle.Label();
      var k4 := k3 + |st| + |LanguageItem|;
      var lang := settings.language;
      var k5 := k4 + |lang| + |ModeItem|;
      var md := settings.renderingMode.Label();
      k5 + |md| + |Closing| == |p|
      && p[..k1] == Preamble
      && p[k1..k1 + |sp|] == sp
      && p[k2..k2 + |dl|] == dl
      && p[k3..k3 + |st|] == st
      && p[k4..k4 + |lang|] == lang
      && p[k5..k5 + |md|] == md
  {
    ItemsAt(Preamble, StructurePrompt(settings), DetailItem, settings.detailLevel.Label(),
            StyleItem, settings.outputStyle.Label(), LanguageItem, settings.language,
            ModeItem, settings.renderingMode.Label(), Closing);
  }

  /** Where each piece of an eleven-part concatenation starts, whatever the pieces are. */
  lemma ItemsAt(a0: string, b1: string, a1: string, b2: string, a2: string, b3: string,
                a3: string, b4: string, a4: string, b5: string, a5: string)
    ensures var p := a0 + b1 + a1 + b2 + a2 + b3 + a3 + b4 + a4 + b5 + a5;
      var k1 := |a0|;
      var k2 := k1 + |b1| + |a1|;
      var k3 := k2 + |b2| + |a2|;
      var k4 := k3 + |b3| + |a3|;
      var k5 := k4 + |b4| + |a4|;
      k5 + |b5| + |a5| == |p|
      && p[..k1] == a0
      && p[k1..k1 + |b1|] == b1
      && p[k2..k2 + |b2|] == b2
      && p[k3..k3 + |b3|] == b3
      && p[k4..k4 + |b4|] == b4
      && p[k5..k5 + |b5|] == b5
  {
  }

  /** Unlike the services client, the older one emits sections for any structure type, not only custom. */
  lemma SectionsEmittedForAnyStructure(settings: TranscriptionSettings, structure: StructureType)
    requires HasSections(settings)
    ensures StructurePrompt(settings.(structure := structure))
      == StructureLead + structure.Label() + SectionsHeader + SectionEntries(settings.sections.value)
  {
  }

  /** The two clients never agree on the model: every rendering mode maps to different identifiers. */
  lemma ModelChoiceDiverges(mode: RenderingMode)
    ensures ModelName(mode) != Services.ModelFor(mode)
  {
  }

  /**
   * For a fixed structure with sections, the services client ignores the sections
   * while this client lists them: the two prompts disagree on what the sections mean.
   */
  lemma SectionHandlingDiverges(settings: TranscriptionSettings, other: Option<seq<StructureSection>>)
    requires settings.structure != Custom && HasSections(settings)
    ensures Services.Prompt(settings.(sections := other)) == Services.Prompt(settings)
    ensures StructurePrompt(settings) != StructurePrompt(settings.(sections := None))
  {
    Services.FixedStructureIgnoresSections(settings, other);
    StructurePromptShape(settings);
    StructurePromptShape(settings.(sections := None));
  }
}
