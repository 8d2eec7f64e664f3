/**
 * The configuration vocabulary of the transcription front end (types.ts).
 *
 * The source declares string enums whose values double as display labels and as
 * the discriminants that the prompt builders compare against. Here each enum is a
 * tag datatype and `Label()` gives the exact string value of the source, so both
 * uses can be stated separately.
 */
module Types {
  import opened Wrappers

  /** The overall shape of the transcript. */
  datatype StructureType = WordForWord | Summary | Structured | Interview | Minutes | Custom
  {
    function Label(): string
    {
      match this
      case WordForWord => "Puur woordelijke tekst"
      case Summary => "Samenvatting"
      case Structured => "Gestructureerd verslag (standaard)"
      case Interview => "Interviewvorm (spreker per spreker)"
      case Minutes => "Notulen / meeting notes"
      case Custom => "Custom Modulaire Structuur (zelf samenstellen)"
    }
  }

  /** How much spoken filler and repetition is kept. */
  datatype DetailLevel = Literal | Cleaned | Edited
  {
    function Label(): string
    {
      match this
      case Literal => "Volledig woordelijk (alles letterlijk)"
      case Cleaned => "Licht opgeschoond (zonder stopwoorden en herhalingen)"
      case Edited => "Sterk geredigeerd (inhoudelijk, professioneel)"
    }
  }

  /** The tone of the final text. */
  datatype OutputStyle = Raw | Professional | Business | Informal
  {
    function Label(): string
    {
      match this
      case Raw => "Ruwe transcriptie"
      case Professional => "Professioneel verslag"
      case Business => "Zakelijk / formeel"
      case Informal => "Informeel / creatief"
    }
  }

  /** The speed/accuracy trade-off that selects the model tier. */
  datatype RenderingMode = Fast | Quality
  {
    function Label(): string
    {
      match this
      case Fast => "Snelle rendering (Prioriteit: snelheid)"
      case Quality => "Kwaliteitsvolle rendering (Prioriteit: nauwkeurigheid)"
    }
  }

  /** One user-defined heading of a custom structure: exactly an id, a title and an instruction. */
  datatype StructureSection = StructureSection(id: string, title: string, instruction: string)

  /** The settings snapshot handed to the transcription client; `sections` is optional. */
  datatype TranscriptionSettings = TranscriptionSettings(
    structure: StructureType,
    sections: Option<seq<StructureSection>>,
    detailLevel: DetailLevel,
    outputStyle: OutputStyle,
    language: string,
    renderingMode: RenderingMode)

  /**
   * A named, persisted preset. It has no language and no rendering mode field, so
   * a profile cannot carry either; `sections` is optional.
   */
  datatype TranscriptionProfile = TranscriptionProfile(
    id: string,
    name: string,
    structure: StructureType,
    sections: Option<seq<StructureSection>>,
    outputStyle: OutputStyle,
    detailLevel: DetailLevel)

  /** The transcript of one session together with the moment it was captured. */
  datatype TranscriptionResult = TranscriptionResult(text: string, timestamp: string)

  const AllStructureTypes: seq<StructureType> := [WordForWord, Summary, Structured, Interview, Minutes, Custom]
  const AllDetailLevels: seq<DetailLevel> := [Literal, Cleaned, Edited]
  const AllOutputStyles: seq<OutputStyle> := [Raw, Professional, Business, Informal]
  const AllRenderingModes: seq<RenderingMode> := [Fast, Quality]

  /** StructureType has exactly six variants, each listed once. */
  lemma StructureTypesEnumerated()
    ensures |AllStructureTypes| == 6
    ensures forall s: StructureType :: s in AllStructureTypes
    ensures forall i, j :: 0 <= i < j < |AllStructureTypes| ==> AllStructureTypes[i] != AllStructureTypes[j]
  {
    forall s: StructureType ensures s in AllStructureTypes {
      match s
      case WordForWord => assert AllStructureTypes[0] == s;
      case Summary => assert AllStructureTypes[1] == s;
      case Structured => assert AllStructureTypes[2] == s;
      case Interview => assert AllStructureTypes[3] == s;
      case Minutes => assert AllStructureTypes[4] == s;
      case Custom => assert AllStructureTypes[5] == s;
    }
  }

  /** DetailLevel has exactly three variants, each listed once. */
  lemma DetailLevelsEnumerated()
    ensures |AllDetailLevels| == 3
    ensures forall d: DetailLevel :: d in AllDetailLevels
    ensures forall i, j :: 0 <= i < j < |AllDetailLevels| ==> AllDetailLevels[i] != AllDetailLevels[j]
  {
    forall d: DetailLevel ensures d in AllDetailLevels {
      match d
      case Literal => assert AllDetailLevels[0] == d;
      case Cleaned => assert AllDetailLevels[1] == d;
      case Edited => assert AllDetailLevels[2] == d;
    }
  }

  /** OutputStyle has exactly four variants, each listed once. */
  lemma OutputStylesEnumerated()
    ensures |AllOutputStyles| == 4
    ensures forall o: OutputStyle :: o in AllOutputStyles
    ensures forall i, j :: 0 <= i < j < |AllOutputStyles| ==> AllOutputStyles[i] != AllOutputStyles[j]
  {
    forall o: OutputStyle ensures o in AllOutputStyles {
      match o
      case Raw => assert AllOutputStyles[0] == o;
      case Professional => assert AllOutputStyles[1] == o;
      case Business => assert AllOutputStyles[2] == o;
      case Informal => assert AllOutputStyles[3] == o;
    }
  }

  /** RenderingMode has exactly two variants, each listed once. */
  lemma RenderingModesEnumerated()
    ensures |AllRenderingModes| == 2
    ensures forall m: RenderingMode :: m in AllRenderingModes
    ensures AllRenderingModes[0] != AllRenderingModes[1]
  {
    forall m: RenderingMode ensures m in AllRenderingModes {
      match m
      case Fast => assert AllRenderingModes[0] == m;
      case Quality => assert AllRenderingModes[1] == m;
    }
  }

  /** Distinct structure types carry distinct labels, so matching on the label selects exactly one variant. */
  lemma StructureLabelInjective(a: StructureType, b: StructureType)
    requires a.Label() == b.Label()
    ensures a == b
  {
  }

  /** Distinct detail levels carry distinct labels. */
  lemma DetailLabelInjective(a: DetailLevel, b: DetailLevel)
    requires a.Label() == b.Label()
    ensures a == b
  {
  }

  /** Distinct output styles carry distinct labels. */
  lemma StyleLabelInjective(a: OutputStyle, b: OutputStyle)
    requires a.Label() == b.Label()
    ensures a == b
  {
  }

  /** Distinct rendering modes carry distinct labels. */
  lemma RenderingLabelInjective(a: RenderingMode, b: RenderingMode)
    requires a.Label() == b.Label()
    ensures a == b
  {
  }
}
