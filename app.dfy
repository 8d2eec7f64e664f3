/**
 * The application state and handlers of App.tsx: the step machine
 * (1 configure, 2 upload, 3 processing, 4 done), the profile list with its
 * persisted copy, the draft profile being edited and its sections, and the
 * settings a profile is applied to.
 *
 * The value computations of the handlers (spread, map, filter, findIndex) are
 * functions; the handlers that set component state are methods of `AppState`.
 */
module App {
  import opened Wrappers
  import opened Types
  import Lists
  import Services

  // ---------------------------------------------------------------------------
  // Constants
  // ---------------------------------------------------------------------------

  /** The two profiles installed when storage holds none. */
  const DefaultProfiles: seq<TranscriptionProfile> := [
    TranscriptionProfile("def-1", "Standaard Verslag", Structured, None, Professional, Cleaned),
    TranscriptionProfile("def-2", "Juridisch Protocol", Custom, Some([
      StructureSection("1", "Partijen", "Wie zijn de aanwezigen en wat is hun rol?"),
      StructureSection("2", "Feiten", "Wat zijn de onbetwiste feiten die zijn besproken?"),
      StructureSection("3", "Besluiten", "Welke juridische bindende afspraken zijn gemaakt?")]),
      Business, Literal)
  ]

  /** The settings a session starts with. */
  const InitialSettings := TranscriptionSettings(WordForWord, Some([]), Literal, Raw, "Automatisch detecteren", Fast)

  const NoFileMessage := "Selecteer eerst een audiobestand."
  const UnknownErrorMessage := "Er is een onbekende fout opgetreden."

  /** The selected audio file, as far as the handlers look at it. */
  datatype AudioFile = AudioFile(name: string, mimeType: string)

  /** The keys of a section that updateSection may set. */
  datatype SectionField = Id | Title | Instruction

  // ---------------------------------------------------------------------------
  // Settings and profiles as values
  // ---------------------------------------------------------------------------

  /** A section list, or the empty list when there is none (the `sections || []` of the source). */
  function SectionsOrEmpty(sections: Option<seq<StructureSection>>): seq<StructureSection>
  {
    if sections.Some? then sections.value else []
  }

  /**
   * applyProfile: structure, style and detail level come from the profile, the
   * sections from the profile or the empty list; language and rendering mode stay.
   */
  function ProfileApplied(settings: TranscriptionSettings, profile: TranscriptionProfile): (r: TranscriptionSettings)
    ensures r.structure == profile.structure && r.outputStyle == profile.outputStyle
    ensures r.detailLevel == profile.detailLevel
    ensures r.sections == Some(SectionsOrEmpty(profile.sections))
    ensures r.language == settings.language && r.renderingMode == settings.renderingMode
  {
    settings.(structure := profile.structure, outputStyle := profile.outputStyle,
              detailLevel := profile.detailLevel, sections := Some(SectionsOrEmpty(profile.sections)))
  }

  /** The section with one key set to a new value (`{ ...s, [field]: value }`). */
  function WithField(section: StructureSection, field: SectionField, value: string): StructureSection
  {
    match field
    case Id => section.(id := value)
    case Title => section.(title := value)
    case Instruction => section.(instruction := value)
  }

  /** The value of one key of a section. */
  function FieldOf(section: StructureSection, field: SectionField): string
  {
    match field
    case Id => section.id
    case Title => section.title
    case Instruction => section.instruction
  }

  /** Setting a key changes that key to the new value and leaves the other two keys alone. */
  lemma WithFieldSetsOnlyThatField(section: StructureSection, field: SectionField, value: string, other: SectionField)
    ensures FieldOf(WithField(section, field, value), field) == value
    ensures other != field ==> FieldOf(WithField(section, field, value), other) == FieldOf(section, other)
  {
  }

  /** updateSection's map: every section with the id gets the new value for the key; the others are kept. */
  function SectionsUpdated(sections: seq<StructureSection>, id: string, field: SectionField, value: string)
    : (r: seq<StructureSection>)
    ensures |r| == |sections|
    ensures forall i :: 0 <= i < |r| && sections[i].id == id ==> FieldOf(r[i], field) == value
    ensures forall i, other :: 0 <= i < |r| && other != field ==> FieldOf(r[i], other) == FieldOf(sections[i], other)
    ensures forall i :: 0 <= i < |r| && sections[i].id != id ==> r[i] == sections[i]
  {
    seq(|sections|, i requires 0 <= i < |sections| =>
      if sections[i].id == id then WithField(sections[i], field, value) else sections[i])
  }

  /** Updating the same key to the same value twice is the same as once. */
  lemma SectionsUpdatedIdempotent(sections: seq<StructureSection>, id: string, field: SectionField, value: string)
    requires field != Id || value == id
    ensures SectionsUpdated(SectionsUpdated(sections, id, field, value), id, field, value)
         == SectionsUpdated(sections, id, field, value)
  {
    var once := SectionsUpdated(sections, id, field, value);
    var twice := SectionsUpdated(once, id, field, value);
    forall i | 0 <= i < |sections| ensures twice[i] == once[i] {
      if sections[i].id == id {
        assert once[i] == WithField(sections[i], field, value);
        assert once[i].id == id;
        assert twice[i] == WithField(once[i], field, value);
      } else {
        assert once[i] == sections[i];
      }
    }
  }

  /** removeSection's filter: the sections without the id, in their original order. */
  function SectionsWithout(sections: seq<StructureSection>, id: string): (r: seq<StructureSection>)
    ensures |r| <= |sections|
    ensures forall i :: 0 <= i < |r| ==> r[i].id != id && r[i] in sections
    ensures forall i :: 0 <= i < |sections| && sections[i].id != id ==> sections[i] in r
    ensures forall k {:trigger sections[..k]} :: 0 <= k <= |sections| ==>
      r == SectionsWithout(sections[..k], id) + SectionsWithout(sections[k..], id)
  {
    Lists.FilterSplit(sections, OtherSection(id));
    Lists.Filter(sections, OtherSection(id))
  }

  /** The filter test of removeSection: the section's id differs from the one removed. */
  function OtherSection(id: string): StructureSection -> bool
  {
    (s: StructureSection) => s.id != id
  }

  /**
   * Removing a section that was just appended under a fresh id gives back the
   * sections that were there before.
   */
  lemma RemoveUndoesAdd(sections: seq<StructureSection>, newId: string)
    requires forall i :: 0 <= i < |sections| ==> sections[i].id != newId
    ensures SectionsWithout(sections + [StructureSection(newId, "", "")], newId) == sections
  {
    var keep := OtherSection(newId);
    Lists.FilterAppend(sections, [StructureSection(newId, "", "")], keep);
    Lists.FilterKeepsAll(sections, keep);
  }

  /** findIndex on the profile list: the position of the first profile with the id, or -1. */
  function FindProfileIndex(profiles: seq<TranscriptionProfile>, id: string): (k: int)
    ensures -1 <= k < |profiles|
    ensures k == -1 <==> forall i :: 0 <= i < |profiles| ==> profiles[i].id != id
    ensures k >= 0 ==> profiles[k].id == id && forall i :: 0 <= i < k ==> profiles[i].id != id
  {
    if profiles == [] then -1
    else if profiles[0].id == id then 0
    else
      var k := FindProfileIndex(profiles[1..], id);
      if k == -1 then -1 else k + 1
  }

  /**
   * handleSaveProfile's list update: a draft whose id is present replaces the first
   * profile with that id, keeping length and order; otherwise it is appended.
   */
  function ProfileUpserted(profiles: seq<TranscriptionProfile>, draft: TranscriptionProfile)
    : (r: seq<TranscriptionProfile>)
    ensures (forall i :: 0 <= i < |profiles| ==> profiles[i].id != draft.id) ==> r == profiles + [draft]
    ensures (exists i :: 0 <= i < |profiles| && profiles[i].id == draft.id) ==>
      exists k :: 0 <= k < |profiles| && profiles[k].id == draft.id
        && (forall i :: 0 <= i < k ==> profiles[i].id != draft.id)
        && r == profiles[k := draft]
  {
    var index := FindProfileIndex(profiles, draft.id);
    if index >= 0 then profiles[index := draft] else profiles + [draft]
  }

  /** handleDeleteProfile's filter: every profile with the id is dropped, the others keep their order. */
  function ProfilesWithout(profiles: seq<TranscriptionProfile>, id: string): (r: seq<TranscriptionProfile>)
    ensures |r| <= |profiles|
    ensures forall i :: 0 <= i < |r| ==> r[i].id != id && r[i] in profiles
    ensures forall i :: 0 <= i < |profiles| && profiles[i].id != id ==> profiles[i] in r
    ensures forall k {:trigger profiles[..k]} :: 0 <= k <= |profiles| ==>
      r == ProfilesWithout(profiles[..k], id) + ProfilesWithout(profiles[k..], id)
  {
    Lists.FilterSplit(profiles, OtherProfile(id));
    Lists.Filter(profiles, OtherProfile(id))
  }

  /** The filter test of handleDeleteProfile: the profile's id differs from the one deleted. */
  function OtherProfile(id: string): TranscriptionProfile -> bool
  {
    (p: TranscriptionProfile) => p.id != id
  }

  /** Deleting an id that no profile has leaves the list unchanged. */
  lemma DeleteMissingIsNoop(profiles: seq<TranscriptionProfile>, id: string)
    requires forall i :: 0 <= i < |profiles| ==> profiles[i].id != id
    ensures ProfilesWithout(profiles, id) == profiles
  {
    Lists.FilterKeepsAll(profiles, OtherProfile(id));
  }

  /** findIndex answers with the first position holding the id, and only that one. */
  lemma FindsFirstMatch(profiles: seq<TranscriptionProfile>, id: string, k: nat)
    requires k < |profiles| && profiles[k].id == id
    requires forall i :: 0 <= i < k ==> profiles[i].id != id
    ensures FindProfileIndex(profiles, id) == k
  {
    assert FindProfileIndex(profiles, id) != -1;
  }

  /** After a save, looking the draft's id up finds the draft itself. */
  lemma SavedDraftIsFound(profiles: seq<TranscriptionProfile>, draft: TranscriptionProfile)
    ensures var saved := ProfileUpserted(profiles, draft);
      var k := FindProfileIndex(saved, draft.id);
      0 <= k < |saved| && saved[k] == draft
  {
    var index := FindProfileIndex(profiles, draft.id);
    var saved := ProfileUpserted(profiles, draft);
    if index >= 0 {
      FindsFirstMatch(saved, draft.id, index);
    } else {
      FindsFirstMatch(saved, draft.id, |profiles|);
    }
  }

  /** Saving the same draft twice is the same as saving it once. */
  lemma SaveIdempotent(profiles: seq<TranscriptionProfile>, draft: TranscriptionProfile)
    ensures ProfileUpserted(ProfileUpserted(profiles, draft), draft) == ProfileUpserted(profiles, draft)
  {
    var saved := ProfileUpserted(profiles, draft);
    SavedDraftIsFound(profiles, draft);
    var again := FindProfileIndex(saved, draft.id);
    assert saved[again := draft] == saved;
  }

  /** Deleting the draft's id after saving it leaves what deleting it before would have left. */
  lemma DeleteUndoesSave(profiles: seq<TranscriptionProfile>, draft: TranscriptionProfile)
    ensures ProfilesWithout(ProfileUpserted(profiles, draft), draft.id) == ProfilesWithout(profiles, draft.id)
  {
    var keep := OtherProfile(draft.id);
    var index := FindProfileIndex(profiles, draft.id);
    if index >= 0 {
      Lists.FilterReplaceDropped(profiles, index, draft, keep);
    } else {
      Lists.FilterAppend(profiles, [draft], keep);
      assert Lists.Filter([draft], keep) == [];
    }
  }

  /**
   * Round trip of a profile through the store: after saving a draft, the stored
   * copy found under its id, applied to any settings, yields its structure,
   * detail level, style and sections.
   */
  lemma SaveThenApplyRoundTrip(profiles: seq<TranscriptionProfile>, draft: TranscriptionProfile,
                               settings: TranscriptionSettings)
    ensures var saved := ProfileUpserted(profiles, draft);
      var k := FindProfileIndex(saved, draft.id);
      0 <= k < |saved|
      && ProfileApplied(settings, saved[k]).structure == draft.structure
      && ProfileApplied(settings, saved[k]).detailLevel == draft.detailLevel
      && ProfileApplied(settings, saved[k]).outputStyle == draft.outputStyle
      && ProfileApplied(settings, saved[k]).sections == Some(SectionsOrEmpty(draft.sections))
  {
    SavedDraftIsFound(profiles, draft);
  }

  /**
   * After a profile is applied, the prompt the services client builds depends only
   * on the profile and the language: whatever was configured before is overwritten.
   */
  lemma AppliedPromptDependsOnProfileAndLanguage(s1: TranscriptionSettings, s2: TranscriptionSettings,
                                                 profile: TranscriptionProfile)
    requires s1.language == s2.language
    ensures Services.Prompt(ProfileApplied(s1, profile)) == Services.Prompt(ProfileApplied(s2, profile))
  {
    Services.PromptIgnoresRenderingMode(ProfileApplied(s2, profile), s1.renderingMode);
    assert ProfileApplied(s2, profile).(renderingMode := s1.renderingMode) == ProfileApplied(s1, profile);
  }

  /** The defaults: two profiles, ids def-1 and def-2, the second a custom structure with three sections. */
  lemma DefaultProfilesShape()
    ensures |DefaultProfiles| == 2
    ensures DefaultProfiles[0].id == "def-1" && DefaultProfiles[1].id == "def-2"
    ensures DefaultProfiles[1].structure == Custom && DefaultProfiles[1].sections.Some?
    ensures |DefaultProfiles[1].sections.value| == 3
  {
  }

  /**
   * Applying the second default profile makes the services prompt list its three
   * sections, Partijen, Feiten and Besluiten, each heading followed by its
   * instruction, in that order.
   */
  lemma DefaultCustomProfileHeadingsInOrder(settings: TranscriptionSettings)
    ensures var sections := DefaultProfiles[1].sections.value;
      && sections[0].title == "Partijen" && sections[1].title == "Feiten" && sections[2].title == "Besluiten"
      && Services.StructureText(ProfileApplied(settings, DefaultProfiles[1]))
         == Services.CustomHeader + Services.SectionBlock(sections[0])
            + Services.SectionBlock(sections[1]) + Services.SectionBlock(sections[2])
  {
    var sections := DefaultProfiles[1].sections.value;
    ThreeSectionBlocks(sections);
  }

  /** The blocks of a three-section list are the three blocks in list order. */
  lemma ThreeSectionBlocks(sections: seq<StructureSection>)
    requires |sections| == 3
    ensures Services.SectionBlocks(sections)
      == Services.SectionBlock(sections[0]) + Services.SectionBlock(sections[1]) + Services.SectionBlock(sections[2])
  {
    Services.SectionBlockAt(sections, 1);
    assert sections[..1] == [sections[0]] && sections[2..] == [sections[2]];
    Lists.FlattenSingleton(sections[0], Services.SectionBlock);
    Lists.FlattenSingleton(sections[2], Services.SectionBlock);
  }

  /** The error text the session shows: the thrown message, or the fixed fallback when it has none. */
  function ShownError(message: string): (shown: string)
    ensures shown != ""
    ensures message != "" ==> shown == message
    ensures message == "" ==> shown == UnknownErrorMessage
  {
    if message != "" then message else UnknownErrorMessage
  }

  /**
   * The outcome of the try block of startTranscription: reading the file (absent
   * data stands for a reader error, which carries no message), then the services
   * client on the file's MIME type and the current settings.
   */
  function TranscriptionOutcome(apiKey: string, audioData: Option<string>, file: AudioFile,
                                settings: TranscriptionSettings, generate: Services.Request -> Services.Reply)
    : (r: Result<string, string>)
    ensures audioData.None? ==> r.Failure? && ShownError(r.error) == UnknownErrorMessage
    ensures audioData.Some? && apiKey == "" ==> r == Failure(Services.MissingKeyMessage)
    ensures audioData.Some? && apiKey != "" ==>
      match generate(Services.TranscriptionRequest(audioData.value, file.mimeType, settings))
      case Generated(text) => r == Success(text)
      case Failed(message) => r == Failure(message)
  {
    if audioData.None? then Failure("")
    else Services.TranscribeAudio(apiKey, audioData.value, file.mimeType, settings, generate)
  }

  // ---------------------------------------------------------------------------
  // Component state
  // ---------------------------------------------------------------------------

  /** The values of all state slots of the component, for stating what a handler leaves unchanged. */
  datatype Snapshot = Snapshot(
    isLoggedIn: bool, username: string, password: string,
    step: int, settings: TranscriptionSettings, profiles: seq<TranscriptionProfile>,
    editingProfile: Option<TranscriptionProfile>, audioFile: Option<AudioFile>,
    isProcessing: bool, result: Option<TranscriptionResult>, error: Option<string>,
    storage: Option<seq<TranscriptionProfile>>, requests: nat)

  class AppState {
    var isLoggedIn: bool
    var username: string
    var password: string
    var step: int
    var settings: TranscriptionSettings
    var profiles: seq<TranscriptionProfile>
    var editingProfile: Option<TranscriptionProfile>
    var audioFile: Option<AudioFile>
    var isProcessing: bool
    var result: Option<TranscriptionResult>
    var error: Option<string>
    /** The persisted profile list under the storage key; None when nothing is stored. */
    var storage: Option<seq<TranscriptionProfile>>
    /**
     * How many transcriptions have been started. A completion carries the count taken
     * when its request started, so a completion that arrives after the session moved
     * on can be told apart. The source keeps no such counter; it serves the corrected
     * completion FinishRequest.
     */
    var requests: nat
    /** Every step the session has shown, in order. */
    ghost var steps: seq<int>

    /** Step 4 is only ever entered straight from step 3. */
    ghost predicate EntersDoneFromProcessing(trail: seq<int>)
    {
      forall i :: 0 < i < |trail| && trail[i] == 4 ==> trail[i - 1] == 3
    }

    /** Step 3 is always followed by step 4 or step 2, and step 4 is only ever entered from step 3. */
    ghost predicate StepTrail(trail: seq<int>)
    {
      && (forall i :: 0 <= i < |trail| - 1 && trail[i] == 3 ==> trail[i + 1] == 2 || trail[i + 1] == 4)
      && EntersDoneFromProcessing(trail)
    }

    /**
     * What holds in every state, also while a transcription is awaited: the trail ends
     * with the step shown, the step is one of the four, and step 4 has a result.
     */
    ghost predicate Consistent()
      reads this
    {
      && steps != [] && steps[|steps| - 1] == step
      && 1 <= step <= 4
      && (step == 4 ==> result.Some?)
    }

    /**
     * Between handlers of a session in which every transcription runs to completion
     * before the next event: the session shows step 1, 2 or 4, is not processing, and
     * its trail keeps StepTrail. A reset while a transcription is awaited leaves this
     * (see ResetDuringTranscription).
     */
    ghost predicate Valid()
      reads this
    {
      && Consistent()
      && step != 3
      && !isProcessing
      && StepTrail(steps)
    }

    ghost function View(): Snapshot
      reads this
    {
      Snapshot(isLoggedIn, username, password, step, settings, profiles, editingProfile,
               audioFile, isProcessing, result, error, storage, requests)
    }

    /** The component's initial state over whatever the browser storage holds. */
    constructor (stored: Option<seq<TranscriptionProfile>>)
      ensures Valid() && steps == [1]
      ensures View() == Snapshot(false, "", "", 1, InitialSettings, [], None, None, false, None, None, stored, 0)
    {
      isLoggedIn, username, password := false, "", "";
      step, settings, profiles := 1, InitialSettings, [];
      editingProfile, audioFile, isProcessing := None, None, false;
      result, error, storage := None, None, stored;
      requests := 0;
      steps := [1];
    }

    /** The startup effect: use the stored list as is, or install and persist the defaults. */
    method LoadProfiles()
      requires Valid()
      modifies this
      ensures Valid() && steps == old(steps)
      ensures old(storage).Some? ==> View() == old(View()).(profiles := old(storage).value)
      ensures old(storage).None? ==>
        View() == old(View()).(profiles := DefaultProfiles, storage := Some(DefaultProfiles))
    {
      if storage.Some? {
        profiles := storage.value;
      } else {
        profiles := DefaultProfiles;
        storage := Some(DefaultProfiles);
      }
    }

    /** saveProfiles: the new list becomes the state and is persisted whole. */
    method SaveProfiles(newProfiles: seq<TranscriptionProfile>)
      requires Valid()
      modifies this
      ensures Valid() && steps == old(steps)
      ensures View() == old(View()).(profiles := newProfiles, storage := Some(newProfiles))
    {
      profiles := newProfiles;
      storage := Some(newProfiles);
    }

    /** applyProfile: copy the profile's structure, style, detail level and sections into the settings. */
    method ApplyProfile(profile: TranscriptionProfile)
      requires Valid()
      modifies this
      ensures Valid() && steps == old(steps)
      ensures View() == old(View()).(settings := ProfileApplied(old(settings), profile))
    {
      settings := ProfileApplied(settings, profile);
    }

    /** handleAddProfile: start a fresh unnamed draft with the given id. */
    method HandleAddProfile(newId: string)
      requires Valid()
      modifies this
      ensures Valid() && steps == old(steps)
      ensures View() == old(View()).(editingProfile :=
        Some(TranscriptionProfile(newId, "", Structured, Some([]), Professional, Cleaned)))
    {
      editingProfile := Some(TranscriptionProfile(newId, "", Structured, Some([]), Professional, Cleaned));
    }

    /** The edit button of a stored profile: the profile becomes the draft. */
    method EditProfile(profile: TranscriptionProfile)
      requires Valid()
      modifies this
      ensures Valid() && steps == old(steps)
      ensures View() == old(View()).(editingProfile := Some(profile))
    {
      editingProfile := Some(profile);
    }

    /** handleAddSection: append an empty section with the given id to the draft; no-op without a draft. */
    method HandleAddSection(newId: string)
      requires Valid()
      modifies this
      ensures Valid() && steps == old(steps)
      ensures old(editingProfile).None? ==> View() == old(View())
      ensures old(editingProfile).Some? ==>
        var draft := old(editingProfile).value;
        View() == old(View()).(editingProfile := Some(draft.(sections :=
          Some(SectionsOrEmpty(draft.sections) + [StructureSection(newId, "", "")]))))
    {
      if editingProfile.None? {
        return;
      }
      var draft := editingProfile.value;
      editingProfile := Some(draft.(sections := Some(SectionsOrEmpty(draft.sections) + [StructureSection(newId, "", "")])));
    }

    /** updateSection: set one key of the draft's sections with the id; no-op without a draft or its sections. */
    method UpdateSection(id: string, field: SectionField, value: string)
      requires Valid()
      modifies this
      ensures Valid() && steps == old(steps)
      ensures old(editingProfile).None? || old(editingProfile).value.sections.None? ==> View() == old(View())
      ensures old(editingProfile).Some? && old(editingProfile).value.sections.Some? ==>
        var draft := old(editingProfile).value;
        View() == old(View()).(editingProfile := Some(draft.(sections :=
          Some(SectionsUpdated(draft.sections.value, id, field, value)))))
    {
      if editingProfile.None? || editingProfile.value.sections.None? {
        return;
      }
      var draft := editingProfile.value;
      editingProfile := Some(draft.(sections := Some(SectionsUpdated(draft.sections.value, id, field, value))));
    }

    /** removeSection: drop the draft's sections with the id; no-op without a draft or its sections. */
    method RemoveSection(id: string)
      requires Valid()
      modifies this
      ensures Valid() && steps == old(steps)
      ensures old(editingProfile).None? || old(editingProfile).value.sections.None? ==> View() == old(View())
      ensures old(editingProfile).Some? && old(editingProfile).value.sections.Some? ==>
        var draft := old(editingProfile).value;
        View() == old(View()).(editingProfile := Some(draft.(sections :=
          Some(SectionsWithout(draft.sections.value, id)))))
    {
      if editingProfile.None? || editingProfile.value.sections.None? {
        return;
      }
      var draft := editingProfile.value;
      editingProfile := Some(draft.(sections := Some(SectionsWithout(draft.sections.value, id))));
    }

    /**
     * handleSaveProfile: without a draft or with an empty name nothing happens;
     * otherwise the draft is upserted, the whole list persisted and the draft cleared.
     */
    method HandleSaveProfile()
      requires Valid()
      modifies this
      ensures Valid() && steps == old(steps)
      ensures old(editingProfile).None? || old(editingProfile).value.name == "" ==> View() == old(View())
      ensures old(editingProfile).Some? && old(editingProfile).value.name != "" ==>
        var saved := ProfileUpserted(old(profiles), old(editingProfile).value);
        View() == old(View()).(profiles := saved, storage := Some(saved), editingProfile := None)
    {
      if editingProfile.None? || editingProfile.value.name == "" {
        return;
      }
      SaveProfiles(ProfileUpserted(profiles, editingProfile.value));
      editingProfile := None;
    }

    /** handleDeleteProfile: persist the list without the profiles that have the id. */
    method HandleDeleteProfile(id: string)
      requires Valid()
      modifies this
      ensures Valid() && steps == old(steps)
      ensures var kept := ProfilesWithout(old(profiles), id);
        View() == old(View()).(profiles := kept, storage := Some(kept))
    {
      SaveProfiles(ProfilesWithout(profiles, id));
    }

    /** The confirm button of the configuration step: go to the upload step. */
    method ConfirmSettings()
      requires Valid()
      modifies this
      ensures Valid() && steps == old(steps) + [2]
      ensures View() == old(View()).(step := 2)
    {
      step := 2;
      steps := steps + [2];
    }

    /** The back button of the upload step: return to the configuration step. */
    method BackToSettings()
      requires Valid()
      modifies this
      ensures Valid() && steps == old(steps) + [1]
      ensures View() == old(View()).(step := 1)
    {
      step := 1;
      steps := steps + [1];
    }

    /** handleFileChange: a chosen file becomes the audio file and clears the error; no choice changes nothing. */
    method HandleFileChange(chosen: Option<AudioFile>)
      requires Valid()
      modifies this
      ensures Valid() && steps == old(steps)
      ensures chosen.None? ==> View() == old(View())
      ensures chosen.Some? ==> View() == old(View()).(audioFile := chosen, error := None)
    {
      if chosen.Some? {
        audioFile := chosen;
        error := None;
      }
    }

    /**
     * startTranscription. Without an audio file only the error is set. Otherwise the
     * session goes to step 3 and then to step 4 with the text and the timestamp, or
     * back to step 2 with the thrown message or the fallback; it never stays processing.
     * `audioData` is what reading the file produced, `generate` the service, `timestamp`
     * the clock's reading.
     */
    method StartTranscription(apiKey: string, audioData: Option<string>,
                              generate: Services.Request -> Services.Reply, timestamp: string)
      requires Valid()
      modifies this
      ensures Valid()
      ensures old(audioFile).None? ==> View() == old(View()).(error := Some(NoFileMessage)) && steps == old(steps)
      ensures old(audioFile).Some? ==>
        var outcome := TranscriptionOutcome(apiKey, audioData, old(audioFile).value, old(settings), generate);
        && (outcome.Success? ==>
              View() == old(View()).(step := 4, result := Some(TranscriptionResult(outcome.value, timestamp)),
                                     error := None, requests := old(requests) + 1)
              && steps == old(steps) + [3, 4])
        && (outcome.Failure? ==>
              View() == old(View()).(step := 2, error := Some(ShownError(outcome.error)), requests := old(requests) + 1)
              && steps == old(steps) + [3, 2])
    {
      if audioFile.None? {
        error := Some(NoFileMessage);
        return;
      }
      Transcribe(apiKey, audioData, generate, timestamp);
    }

    /**
     * startTranscription once an audio file is present: step 3, then step 4 or back to
     * step 2. The request is counted, and its completion is the corrected FinishRequest,
     * which in a run without interleaved events behaves as the source.
     */
    method Transcribe(apiKey: string, audioData: Option<string>,
                      generate: Services.Request -> Services.Reply, timestamp: string)
      requires Valid() && audioFile.Some?
      modifies this
      ensures Valid()
      ensures var outcome := TranscriptionOutcome(apiKey, audioData, old(audioFile).value, old(settings), generate);
        && (outcome.Success? ==>
              View() == old(View()).(step := 4, result := Some(TranscriptionResult(outcome.value, timestamp)),
                                     error := None, requests := old(requests) + 1)
              && steps == old(steps) + [3, 4])
        && (outcome.Failure? ==>
              View() == old(View()).(step := 2, error := Some(ShownError(outcome.error)), requests := old(requests) + 1)
              && steps == old(steps) + [3, 2])
    {
      var ticket := BeginRequest();
      var outcome := TranscriptionOutcome(apiKey, audioData, audioFile.value, settings, generate);
      assert step == 3 && ticket == requests;
      FinishRequest(ticket, outcome, timestamp);
    }

    /**
     * The part of startTranscription before the await, once a file is present:
     * processing, no error, step 3. It runs from any state.
     */
    method BeginProcessing()
      requires Consistent()
      modifies this
      ensures Consistent() && steps == old(steps) + [3] && step == 3
      ensures old(Valid()) ==> StepTrail(steps)
      ensures EntersDoneFromProcessing(old(steps)) ==> EntersDoneFromProcessing(steps)
      ensures View() == old(View()).(isProcessing := true, error := None, step := 3)
    {
      isProcessing := true;
      error := None;
      step := 3;
      steps := steps + [3];
    }

    /**
     * The continuation after the await, as written: a result and step 4 on success,
     * the shown error and step 2 on failure, and in both cases processing ends. It
     * runs whatever the session did in the meantime.
     */
    method FinishProcessing(outcome: Result<string, string>, timestamp: string)
      requires Consistent()
      modifies this
      ensures Consistent()
      ensures old(step) == 3 && StepTrail(old(steps)) ==> Valid()
      ensures outcome.Success? ==>
        View() == old(View()).(step := 4, result := Some(TranscriptionResult(outcome.value, timestamp)), isProcessing := false)
        && steps == old(steps) + [4]
      ensures outcome.Failure? ==>
        View() == old(View()).(step := 2, error := Some(ShownError(outcome.error)), isProcessing := false)
        && steps == old(steps) + [2]
    {
      if outcome.Success? {
        result := Some(TranscriptionResult(outcome.value, timestamp));
        step := 4;
        steps := steps + [4];
      } else {
        error := Some(ShownError(outcome.error));
        step := 2;
        steps := steps + [2];
      }
      isProcessing := false;
    }

    /** BeginProcessing that also counts the request and hands out its ticket. */
    method BeginRequest() returns (ticket: nat)
      requires Consistent()
      modifies this
      ensures Consistent() && steps == old(steps) + [3] && step == 3
      ensures ticket == requests == old(requests) + 1
      ensures old(Valid()) ==> StepTrail(steps)
      ensures EntersDoneFromProcessing(old(steps)) ==> EntersDoneFromProcessing(steps)
      ensures View() == old(View()).(isProcessing := true, error := None, step := 3, requests := ticket)
    {
      BeginProcessing();
      requests := requests + 1;
      ticket := requests;
    }

    /**
     * The corrected continuation: the outcome of the request with this ticket is
     * applied as in FinishProcessing only while the session still shows step 3 for
     * that very request; a late completion changes nothing. Whatever events come in
     * between, step 4 is then only ever entered straight from step 3.
     */
    method FinishRequest(ticket: nat, outcome: Result<string, string>, timestamp: string)
      requires Consistent()
      modifies this
      ensures Consistent()
      ensures EntersDoneFromProcessing(old(steps)) ==> EntersDoneFromProcessing(steps)
      ensures old(step) == 3 && ticket == old(requests) && StepTrail(old(steps)) ==> Valid()
      ensures !(old(step) == 3 && ticket == old(requests)) ==> View() == old(View()) && steps == old(steps)
      ensures old(step) == 3 && ticket == old(requests) && outcome.Success? ==>
        View() == old(View()).(step := 4, result := Some(TranscriptionResult(outcome.value, timestamp)), isProcessing := false)
        && steps == old(steps) + [4]
      ensures old(step) == 3 && ticket == old(requests) && outcome.Failure? ==>
        View() == old(View()).(step := 2, error := Some(ShownError(outcome.error)), isProcessing := false)
        && steps == old(steps) + [2]
    {
      if step == 3 && ticket == requests {
        FinishProcessing(outcome, timestamp);
      }
    }

    /**
     * reset: back to step 1 with no file, no result and no error; settings, profiles
     * and the processing flag stay. The header logo offers it at every step, also
     * while a transcription is awaited.
     */
    method Reset()
      requires Consistent()
      modifies this
      ensures Consistent() && steps == old(steps) + [1]
      ensures old(Valid()) ==> Valid()
      ensures EntersDoneFromProcessing(old(steps)) ==> EntersDoneFromProcessing(steps)
      ensures View() == old(View()).(step := 1, audioFile := None, result := None, error := None)
    {
      step := 1;
      steps := steps + [1];
      audioFile := None;
      result := None;
      error := None;
    }

    /** handleLogout: log out, clear the credentials and reset the session. */
    method HandleLogout()
      requires Consistent()
      modifies this
      ensures Consistent() && steps == old(steps) + [1]
      ensures old(Valid()) ==> Valid()
      ensures EntersDoneFromProcessing(old(steps)) ==> EntersDoneFromProcessing(steps)
      ensures View() == old(View()).(isLoggedIn := false, username := "", password := "",
                                     step := 1, audioFile := None, result := None, error := None)
    {
      isLoggedIn := false;
      username := "";
      password := "";
      Reset();
    }
  }

  /**
   * The source as written: the logo's reset while a transcription is awaited does not
   * stop the pending continuation, which then shows step 4 with the result after the
   * session went back to step 1, so the trail enters step 4 from step 1.
   */
  method ResetDuringTranscription(stored: Option<seq<TranscriptionProfile>>, file: AudioFile,
                                  text: string, timestamp: string) returns (app: AppState)
    ensures app.steps == [1, 2, 3, 1, 4]
    ensures app.step == 4 && app.result == Some(TranscriptionResult(text, timestamp))
    ensures !app.EntersDoneFromProcessing(app.steps) && !app.Valid()
  {
    app := new AppState(stored);
    app.ConfirmSettings();
    app.HandleFileChange(Some(file));
    app.BeginProcessing();
    app.Reset();
    app.FinishProcessing(Success(text), timestamp);
    assert app.steps[4] == 4 && app.steps[3] == 1;
  }

  /**
   * The same through logout: the result of a transcription started before logging
   * out is stored and step 4 is set after the credentials were cleared.
   */
  method LogoutDuringTranscription(stored: Option<seq<TranscriptionProfile>>, file: AudioFile,
                                   text: string, timestamp: string) returns (app: AppState)
    ensures app.steps == [1, 2, 3, 1, 4]
    ensures !app.isLoggedIn && app.username == "" && app.password == ""
    ensures app.step == 4 && app.result == Some(TranscriptionResult(text, timestamp))
  {
    app := new AppState(stored);
    app.ConfirmSettings();
    app.HandleFileChange(Some(file));
    app.BeginProcessing();
    app.HandleLogout();
    app.FinishProcessing(Success(text), timestamp);
  }

  /** The corrected continuation on the same events: the late result is dropped and step 1 stays. */
  method ResetDuringGuardedTranscription(stored: Option<seq<TranscriptionProfile>>, file: AudioFile,
                                         text: string, timestamp: string) returns (app: AppState)
    ensures app.steps == [1, 2, 3, 1]
    ensures app.step == 1 && app.result == None
    ensures app.EntersDoneFromProcessing(app.steps)
  {
    app := new AppState(stored);
    app.ConfirmSettings();
    app.HandleFileChange(Some(file));
    var ticket := app.BeginRequest();
    app.Reset();
    app.FinishRequest(ticket, Success(text), timestamp);
  }
}
