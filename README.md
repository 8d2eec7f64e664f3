# Xcribe core in Dafny

Xcribe is a browser front end that sends an audio file to Google's Gemini service and
shows the transcript. Before sending, the user configures the transcript: structure type,
optional custom sections, detail level, output style, target language and rendering mode.
Named configurations are stored as profiles. This project models the logic under the UI:

- `types.dfy` (module `Types`): the four closed enums, each with its exact Dutch display
  label, and the records for sections, settings, profiles and results.
- `services.dfy` (module `Services`): the client the application calls. It covers the prompt
  builder `buildPrompt`, the API-key guard, the choice of model and the two-part request of
  `transcribeAudio`. The prompt builder is a method that appends clause by clause, including
  a loop over the custom sections. It is proved equal to the function `Prompt`, and the
  promised layout of the prompt is proved about that function.
- `legacy_client.dfy` (module `LegacyClient`): the older client at the repository root. It has
  a numbered prompt, different model names, an empty-text placeholder and one fixed error
  message. It is modelled separately, and lemmas state where it diverges from `Services`.
- `app.dfy` (module `App`): the component state as a class `AppState`. It covers:
  - the step machine (1 configure, 2 upload, 3 processing, 4 done);
  - profile create, save, delete, and the startup load of the default profiles;
  - editing the sections of the draft profile;
  - `applyProfile`, `startTranscription`, `reset` and `handleLogout`.

  Each handler states its whole new state as `View() == old(View()).(…)`. A ghost
  `steps` trail records every step shown. Every handler keeps `Consistent()`: the step is
  one of the four, and step 4 always has a result.

  When every transcription completes before the next event, the handlers also keep
  `Valid()`:
  - between handlers the session is not processing;
  - step 3 is always followed by step 4 or step 2;
  - step 4 is only ever entered from step 3.

  The source does not keep `Valid()` when the logo's `reset` or logout comes while a
  transcription is awaited. "## Findings" shows this and proves a corrected completion.
- `lists.dfy` (module `Lists`): `Filter` (JavaScript's `Array.filter`) and `Flatten`
  (string building over a list with `forEach`), with the lemmas the other modules share.
- `wrappers.dfy` (module `Wrappers`): `Option` and `Result`.

External parts are modelled as follows:

- The Gemini service is a function parameter `generate` that answers a request with text or
  a failure.
- The API key, the base64 audio, random ids and the timestamp are parameters.
- Browser storage is an `Option<seq<TranscriptionProfile>>` field.

Where the prose description of the system and the code differ, the model follows the code:

- For a custom structure with an empty section list, the services prompt holds only the
  section header line.
- For a custom structure with no section list at all, the services prompt holds no
  structure text.
- The RAW style appends nothing, so such a prompt ends in a blank line.
- The services client picks its model by comparing with the FAST label. It neither
  replaces empty output nor rewrites errors. Only the older client does those things.
- `sections` is optional whatever the structure. The initial settings hold an empty list
  with the word-for-word structure.
- `reset` has no step guard. The header logo calls it from any step.

## Model

| member | source | states |
|---|---|---|
| Types.StructureTypesEnumerated | types.ts:2-9 | There are exactly six structure types, every one is listed, and no two entries are the same. |
| Types.DetailLevelsEnumerated | types.ts:11-15 | There are exactly three detail levels, listed without repetition. |
| Types.OutputStylesEnumerated | types.ts:17-22 | There are exactly four output styles, listed without repetition. |
| Types.RenderingModesEnumerated | types.ts:24-27 | There are exactly two rendering modes, listed without repetition. |
| Types.StructureLabelInjective | types.ts:2-9 | Two structure types with the same display string are the same type, so matching on the string is sound. |
| Types.DetailLabelInjective | types.ts:11-15 | Detail levels are determined by their display string, which the services client compares against. |
| Types.StyleLabelInjective | types.ts:17-22 | Output styles are determined by their display string, which the services client compares against. |
| Types.RenderingLabelInjective | types.ts:24-27 | Rendering modes are determined by their display string, which the services client compares against. |
| Lists.Filter | App.tsx:144 | The result is no longer than the input. It keeps exactly the elements that pass the test. |
| Lists.FilterAppend | App.tsx:162 | Filtering a concatenation is the concatenation of the filtered parts. |
| Lists.FilterSplit | App.tsx:162 | Filtering a list cut at any point joins the filtered parts, so the order and repeats of kept elements are preserved. |
| Lists.FilterKeepsAll | App.tsx:162 | When every element passes, the filter returns the list unchanged. |
| Lists.FilterIdempotent | App.tsx:162 | Filtering twice by the same test is the same as filtering once. |
| Lists.FilterReplaceDropped | App.tsx:162 | Replacing a dropped element with another dropped element does not change the filtered list. |
| Lists.FlattenSingleton | services/geminiService.ts:56-58 | Building text over a one-element list gives that element's text. |
| Lists.FlattenAppend | services/geminiService.ts:56-58 | Building text over two lists one after the other concatenates their texts. |
| Lists.FlattenAt | services/geminiService.ts:56-58 | Element i's text stands between the text of the elements before it and the text of those after it. |
| Services.BuildPrompt | services/geminiService.ts:38-84 | The appended prompt equals `Prompt(settings)`: opening, structure text, blank line, detail sentence, blank line, style sentence. |
| Services.AppendStructureClause | services/geminiService.ts:43-59 | Appends the fixed sentence of a non-custom structure. For custom with sections it appends the header and one block per section. For custom without sections it appends nothing. |
| Services.AppendSectionBlocks | services/geminiService.ts:56-58 | After the loop, the prompt is the prefix followed by `\n## title\ninstruction\n` for every section, in order. |
| Services.AppendDetailClause | services/geminiService.ts:63-70 | Appends the literal sentence for the LITERAL label and the cleaned sentence for the CLEANED label. Any other level gets the edited sentence. |
| Services.AppendStyleClause | services/geminiService.ts:74-81 | Appends the sentence for PROFESSIONAL, BUSINESS or INFORMAL, chosen by label. RAW appends nothing. |
| Services.DetailLabelSelects | services/geminiService.ts:64-66 | A label comparison succeeds exactly for the level carrying that label. |
| Services.StyleLabelSelects | services/geminiService.ts:75-79 | A label comparison succeeds exactly for the style carrying that label. |
| Services.PromptOpensWithLanguage | services/geminiService.ts:39-41 | Every prompt starts with the opening sentence, with the language inserted unchanged (possibly empty), followed by a blank line. |
| Services.SectionBlockAt | services/geminiService.ts:56-58 | Section i's block stands between the blocks of earlier and later sections. Sections are emitted in list order. |
| Services.PromptLayout | services/geminiService.ts:61-83 | After the opening and the structure text come `\n\n`, exactly the level's detail sentence, `\n\n`, then the style text, which ends the prompt. |
| Services.FixedStructureIgnoresSections | services/geminiService.ts:44-53 | For the five non-custom structures the prompt does not depend on `sections` at all. |
| Services.CustomStructureText | services/geminiService.ts:54-58 | For custom with a list, the structure text is the header followed by the section blocks. An empty list gives only the header. |
| Services.CustomWithoutSections | services/geminiService.ts:54 | For custom with no list, the prompt has no structure text between the opening and the first blank line. |
| Services.DetailSentencesDistinct | services/geminiService.ts:63-70 | The three detail levels produce three different sentences. |
| Services.StyleSentencesDistinct | services/geminiService.ts:74-81 | Different styles produce different style texts, and the text is empty exactly for RAW. |
| Services.RawPromptEndsWithBlankLine | services/geminiService.ts:72-83 | With the RAW style, the prompt ends with `\n\n`. |
| Services.PromptIgnoresRenderingMode | services/geminiService.ts:38-84 | Changing the rendering mode never changes the prompt. |
| Services.ModelFor | services/geminiService.ts:16-20 | The FAST label selects `gemini-1.5-flash`. Every other label selects `gemini-1.5-pro`. |
| Services.ModelByMode | services/geminiService.ts:16-20 | FAST gets the flash model exactly, and QUALITY gets the pro model exactly. |
| Services.TranscriptionRequest | services/geminiService.ts:22-32 | The request uses the mode's model. It has exactly two parts: inline audio with its MIME type first, then the prompt text. |
| Services.TranscribeAudio | services/geminiService.ts:4-35 | An empty key fails with `GEMINI_API_KEY is niet ingesteld`. Otherwise the one request is sent, and its text is returned or its error passed on. |
| Services.MissingKeyMakesNoCall | services/geminiService.ts:11-13 | With an empty key the outcome does not depend on the service: no call is made. |
| LegacyClient.ModelName | geminiService.ts:48-50 | QUALITY selects `gemini-3-pro-preview`. Every other mode selects `gemini-3-flash-preview`. |
| LegacyClient.BuildStructurePrompt | geminiService.ts:52-58 | The built structure text equals `StructurePrompt(settings)`. |
| LegacyClient.AppendSectionEntries | geminiService.ts:55-57 | After the loop, the text is the prefix followed by `## title\nInstructie voor deze sectie: instruction\n` for every section, in order. |
| LegacyClient.StructurePromptShape | geminiService.ts:52-58 | The structure text starts with `Structuur-type: ` and the structure label. It is longer than that exactly when a non-empty list is present. |
| LegacyClient.SectionEntryAt | geminiService.ts:55-57 | Section i's entry stands between the entries of earlier and later sections. |
| LegacyClient.SectionsEmittedForAnyStructure | geminiService.ts:53-58 | With a non-empty list, the section header and entries are emitted whatever the structure type. |
| LegacyClient.PromptItemsInOrder | geminiService.ts:60-71 | `PromptText`, the template literal, holds, at computed positions and in order, the structure text and the detail, style, language and mode labels as items 1 to 5. |
| LegacyClient.ItemsAt | geminiService.ts:60-71 | Gives the start position of each piece of the eleven-piece template concatenation. |
| LegacyClient.TranscriptionRequest | geminiService.ts:74-86 | The request uses the mode's model, sends audio before text, and carries the fixed system instruction and temperature 0.1. |
| LegacyClient.TranscribeAudio | geminiService.ts:73-92 | Non-empty response text is returned unchanged. Success is never empty. Absent or empty text gives `Er is geen tekst gegenereerd.`. The call fails exactly when the service fails, and always with the one fixed message. |
| LegacyClient.ModelChoiceDiverges | geminiService.ts:48-50 | For every mode the two clients name different models. |
| LegacyClient.SectionHandlingDiverges | geminiService.ts:53-58 | For a fixed structure with sections, the services prompt ignores the sections while this client lists them. |
| App.ProfileApplied | App.tsx:98-106 | Structure, style and detail come from the profile. Sections become the profile's list or `[]`. Language and rendering mode are kept. |
| App.WithFieldSetsOnlyThatField | App.tsx:136 | Setting one key of a section changes that key and no other. |
| App.SectionsUpdated | App.tsx:132-138 | Same length. Sections with the id get the named field set. All their other fields and all other sections are unchanged. |
| App.SectionsUpdatedIdempotent | App.tsx:132-138 | Repeating the same update changes nothing, unless it renames the id away. |
| App.SectionsWithout | App.tsx:140-146 | The kept sections are exactly those whose id differs. Cutting the input anywhere and removing from both parts gives the same list, so relative order and repeats are kept. |
| App.RemoveUndoesAdd | App.tsx:119-146 | Adding a section with a fresh id and then removing that id gives back the original list. |
| App.FindProfileIndex | App.tsx:151 | Returns -1 exactly when no profile has the id. Otherwise it returns the first index holding it. |
| App.ProfileUpserted | App.tsx:150-156 | An unknown id is appended at the end. A known id replaces its first match in place, keeping length and order. |
| App.ProfilesWithout | App.tsx:161-163 | Keeps exactly the profiles whose id differs. Cutting the input anywhere and deleting from both parts gives the same list, so order and repeats are kept. |
| App.DeleteMissingIsNoop | App.tsx:161-163 | Deleting an id no profile has leaves the list unchanged. |
| App.FindsFirstMatch | App.tsx:151 | When index k holds the id and no earlier index does, the search finds k. |
| App.SavedDraftIsFound | App.tsx:150-156 | After saving, looking up the draft's id finds the draft. |
| App.SaveIdempotent | App.tsx:150-156 | Saving the same draft twice gives the same list as saving it once. |
| App.DeleteUndoesSave | App.tsx:150-163 | Saving a draft and then deleting its id leaves the same list as deleting the id without saving. For a new id, that is the original list. |
| App.SaveThenApplyRoundTrip | App.tsx:98-159 | Applying a saved profile, as found by its id, sets the settings from the draft. |
| App.AppliedPromptDependsOnProfileAndLanguage | App.tsx:98-106 | After applying a profile, the prompt depends only on the profile and the language. |
| App.DefaultProfilesShape | App.tsx:17-37 | There are two defaults, `def-1` and `def-2`. The second is custom with three sections. |
| App.DefaultCustomProfileHeadingsInOrder | App.tsx:25-36 | Applying `def-2` makes the prompt list Partijen, Feiten and Besluiten, each with its instruction, in that order. |
| App.ThreeSectionBlocks | services/geminiService.ts:56-58 | The text of a three-section list is the three blocks in order. |
| App.TranscriptionOutcome | App.tsx:192-194 | A failed file read fails with no message, so the fallback text is shown. With audio, an empty key fails with `GEMINI_API_KEY is niet ingesteld`. Otherwise the services request for the file's MIME type and the settings is sent, and its text or error is passed on. |
| App.ShownError | App.tsx:198 | The shown error is never empty: the thrown message, or `Er is een onbekende fout opgetreden.` when it is empty. |
| App.AppState.constructor | App.tsx:41-64 | The initial state: logged out, step 1, the initial settings, no profiles, draft, file, result or error. |
| App.AppState.LoadProfiles | App.tsx:66-74 | A stored list is used as is. Otherwise the two defaults are installed and persisted. Nothing else changes. |
| App.AppState.SaveProfiles | App.tsx:93-96 | The new list becomes the state and is persisted whole. |
| App.AppState.ApplyProfile | App.tsx:98-106 | The settings become `ProfileApplied(old settings, profile)`. Nothing else changes. |
| App.AppState.HandleAddProfile | App.tsx:108-117 | The draft becomes an unnamed structured, professional, cleaned profile with the given id and an empty list. |
| App.AppState.EditProfile | App.tsx:635 | The chosen profile becomes the draft. |
| App.AppState.HandleAddSection | App.tsx:119-130 | Without a draft this is a no-op. Otherwise one empty section with the new id is appended to the draft's list. |
| App.AppState.UpdateSection | App.tsx:132-138 | Without a draft or its list this is a no-op. Otherwise the draft's list becomes `SectionsUpdated`. |
| App.AppState.RemoveSection | App.tsx:140-146 | Without a draft or its list this is a no-op. Otherwise the draft's list becomes `SectionsWithout`. |
| App.AppState.HandleSaveProfile | App.tsx:148-159 | No draft or an empty name: a no-op. Otherwise the list is upserted, persisted, and the draft is cleared. |
| App.AppState.HandleDeleteProfile | App.tsx:161-163 | The list without the id becomes the state and is persisted. |
| App.AppState.ConfirmSettings | App.tsx:429 | Moves to step 2. Nothing else changes. |
| App.AppState.BackToSettings | App.tsx:501 | Moves to step 1. Nothing else changes. |
| App.AppState.HandleFileChange | App.tsx:165-170 | A chosen file becomes the audio file and clears the error. No choice changes nothing. |
| App.AppState.StartTranscription | App.tsx:184-203 | No file: only the error is set. Otherwise it passes through step 3, then goes to step 4 with the result, or back to step 2 with the shown error. It is never left processing, and one request is counted. |
| App.AppState.Transcribe | App.tsx:189-202 | From step 3 it goes to step 4 with text and timestamp and no error, or to step 2 with the shown error. |
| App.AppState.BeginProcessing | App.tsx:189-191 | From any state: processing starts, the error is cleared, and step 3 is shown. |
| App.AppState.FinishProcessing | App.tsx:195-201 | As written, whatever happened meanwhile: success stores the result and shows step 4, and failure stores the shown error and shows step 2. Processing ends either way. |
| App.AppState.BeginRequest | App.tsx:189-191 | BeginProcessing that also counts the request and returns its ticket. |
| App.AppState.FinishRequest | App.tsx:195-201 | Corrected completion. The outcome applies as in FinishProcessing only while step 3 is shown for this ticket. A late completion changes nothing. Step 4 is still entered only from step 3. |
| App.AppState.Reset | App.tsx:216-221 | From any state: step 1, with no file, result or error. Settings, profiles, credentials and the processing flag are unchanged. |
| App.AppState.HandleLogout | App.tsx:86-91 | Logs out, clears username and password, and resets. Nothing else changes. |
| App.ResetDuringTranscription | App.tsx:184-221 | As written, a reset while a transcription is awaited gives the trail 1, 2, 3, 1, 4. The late result is shown, and `Valid()` no longer holds. |
| App.LogoutDuringTranscription | App.tsx:86-91 | As written, logging out while a transcription is awaited still stores the result and sets step 4 after the credentials were cleared. |
| App.ResetDuringGuardedTranscription | App.tsx:184-221 | With FinishRequest on the same events, the late result is dropped: the trail stays 1, 2, 3, 1 with no result. |

## Findings

| source | as written | input that shows it | evidently intended | confidence | as-written member | corrected member |
|---|---|---|---|---|---|---|
| App.tsx:184-203, App.tsx:216-221, App.tsx:301 | After `await transcribeAudio`, the continuation stores the result and sets step 4, or the error and step 2, whatever the session did meanwhile. `reset` and logout remain available at step 3. | Start a transcription, click the header logo before the reply arrives, and let the reply succeed. The trail becomes 1, 2, 3, 1, 4, and the discarded result is shown. After logout the same happens with the credentials already cleared. | A completion that arrives after the session left processing for that request is ignored. | not executed | App.ResetDuringTranscription | App.AppState.FinishRequest |

## Left out

- The JSX rendering, styling, `showProfileModal` and `loginError`: these are presentation only.
- `handleLogin`: it is a fixed credential comparison that does not touch the modelled state.
- The inline `setSettings` bindings of the configuration form, and the draft's name and
  structure inputs: each is a one-field record update made by a UI control.
- `fileToBase64`: it is FileReader I/O. Its result is the input `audioData`, and `None`
  stands for a reader error, which carries no message.
- `downloadTxt` and the clipboard button: these are DOM, Blob and clock I/O.
- The Gemini SDK: it is the oracle parameter `generate`. What the model writes is external.
- `localStorage` and JSON (de)serialisation: storage is an `Option` field holding the profile
  list, and serialisation is taken to round-trip.
- `Math.random` ids and `new Date().toLocaleString()`: these are parameters.
- The text of `SYSTEM_INSTRUCTION`: it is the opaque constant `XcribeInstruction`.
- `console.error` logging: it has no effect on state.
- Asynchronous interleaving beyond the three events around the await: each handler runs to
  completion. BeginProcessing, FinishProcessing, Reset and HandleLogout run from any
  `Consistent()` state. The other handlers are stated from `Valid()` states only.
  - StepTrail and the no-processing part of `Valid()` fail in the source once reset or
    logout comes during step 3 (see Findings).
  - A second request started after such a reset, while the first is still pending, is
    not modelled. The source allows it because `isProcessing` is never read.
- App.AppState.requests: the request counter behind FinishRequest's ticket does not exist in
  the source. It is added for the corrected completion and counts every started request.
- Services.PromptLayout, LegacyClient.PromptItemsInOrder: positions count Dafny characters,
  which are Unicode scalar values. JavaScript positions count UTF-16 code units, so the
  two differ for characters outside the Basic Multilingual Plane.
- LegacyClient.TranscriptionRequest: the temperature is the exact real 0.1, not a
  floating-point number.
- LegacyClient.TranscribeAudio: the `process.env.API_KEY` value is not modelled, because
  that client never checks it.
- The older client's `../types` import does not resolve from the repository root, and the
  application never calls that client. It is modelled on the shared `Types` module all the same.
- Services.ModelFor: the body tests the mode itself. Its contract states the label
  comparison the source makes, and the two agree because labels are injective.
