# Social-post wizard: a Dafny model

This project models the content wizard of the "Social Media Post Genie" Next.js app. The
wizard has five steps:

- input content and platforms;
- post text per platform;
- image prompt;
- image generation;
- final review and export.

The model covers the state the steps share and the commands that move between them. It also covers the three effects that throw away downstream work when upstream content changes. Finally it covers the list transforms the step components perform on that state:

- platform toggle and select-all;
- placeholder fill, field edit and text regeneration;
- prompt batches and image batches;
- the review grid's per-platform records, approvals and CSV export rows with their timestamp.

Modules, one per source file plus shared helpers:

| module | models |
|---|---|
| `Wizard` (wizard.dfy) | `src/app/page.tsx` |
| `PlatformPostGrid` (platform_post_grid.dfy) | `src/components/platform-post/PlatformPostGrid.tsx` |
| `ExportTimestamp` (export_timestamp.dfy) | its CSV timestamp |
| `ImagePromptSelector` (image_prompt_selector.dfy) | `src/components/image-prompt/ImagePromptSelector.tsx` |
| `BlogInputPanel` (blog_input_panel.dfy) | `src/components/blog-input/BlogInputPanel.tsx` |
| `PostTextOptions` (post_text_options.dfy) | `src/components/platform-post/PostTextOptions.tsx` |
| `StepIndicator` (step_indicator.dfy) | `src/components/ui/StepIndicator.tsx` |
| `Registry` (registry.dfy) | the four-platform table the files repeat, and the key order of `platform_overrides` in `src/lib/mock-data.ts` |
| `Strings` (strings.dfy) | `toString`, `padStart`, `trim`, `join` and the string quoting of `JSON.stringify` |
| `Base` (base.dfy) | `Option`, duplicate-freedom and two counting lemmas |

## How the page is modelled

`Wizard.WizardState` holds the ten state fields the transitions read. `Wizard.Command` lists the handlers and the setters the page passes to its children. `Wizard.Step(s, cmd)` applies one command and then `Settle`.

`Settle` runs the three effects in source order:

1. the snapshot rule (lines 146-164);
2. the clear rule (167-172);
3. the clamp rule (175-180).

All three read the values of the same render. They write disjoint fields, or equal values, so running them one after another gives the same result as React does. `Settle` is idempotent, so a re-run of the effects after their own writes changes nothing.

`Wizard.Page` is the page as an object with fields. Each handler method that performs a `Command` (`Next`, `OnStepClick`, `Set`, `OnImagesGenerated`, `HandleRegenerateImage`, `OnImageClick`, `ResizeToPlatforms`, `HandleRunNewSet`) is proved equal to `Step` on the old state and keeps the invariant `Inv`. The other methods (`SetNewSetModal`, and the helpers `ResetFields`, `ResetContent`, `ResetFlags`, `SetImages`, `Commit`) state the fields they write. The three effects appear as one imperative method, `RunEffects`.

`ImagePromptSelector.PromptSelector`, `PlatformPostGrid.ReviewGrid`, `BlogInputPanel.InputPanel` and `PostTextOptions.TextOptionsPanel` hold the components' own state. Every other operation is a function over values.

### Where the code differs from the design

The design text describes a different wizard in four places. The model follows the code:

- **Jumping back clamps `maxStep`.** The clamp effect depends on `step` and `maxStep` themselves, so a jump back through the step indicator lowers `maxStep` to the new step even when nothing is edited (`Wizard.JumpBackClampsMaxStep`). As a result `maxStep == step` in every reachable state (`Wizard.Inv`), and the step indicator never offers a forward step (`Wizard.NoForwardJump`). The design says any step up to `maxStep` stays reachable and only edits clamp.
- **Reset keeps the image snapshot.** `handleRunNewSet` does not touch `imageGenSnapshot` (`Wizard.ResetState`). The design says every artifact returns to its initial value.
- **Image selection is not checked.** An image click stores its id as is (`Wizard.Command.SelectImage`). The design says an id outside the batch is ignored. Only ids of shown images can be clicked.
- **Export order.** Export rows follow `platformPosts`. The page keeps that list in registry order, so the rows are in registry order, as the design says (`PlatformPostGrid.ExportFollowsRegistryOrder`). The header row is always present.

## Model

| member | source | states |
|---|---|---|
| `Wizard.SnapshotEffect` | src/app/page.tsx:146-164 | the state changes exactly when the step is the image step and the snapshot differs from the live upstream values. The change clears images and selection and sets the snapshot to the upstream values. Step, maxStep, upstream values and approvals are untouched. |
| `Wizard.ClearEffect` | src/app/page.tsx:167-172 | before the image step, images and image selection are empty. On or after it, nothing changes. Only those two fields are ever written. |
| `Wizard.ClampEffect` | src/app/page.tsx:175-180 | afterwards `maxStep <= step`. `maxStep` is either kept or lowered to `step`. Nothing changes when `maxStep <= step` already. |
| `Wizard.Settle` | src/app/page.tsx:146-180 | the result is settled. A state is left alone exactly when it is already settled. Step, upstream values and approvals are kept, and `maxStep` never rises. |
| `Wizard.SettleIdempotent` | src/app/page.tsx:146-180 | running the effects again after their own writes changes nothing |
| `Wizard.Advanced` | src/app/page.tsx:117-123 | step becomes `step + 1`, or stays 4 at the end. `maxStep` becomes the larger of the old `maxStep` and the new step. Nothing else changes. |
| `Wizard.Clicked` | src/app/page.tsx:209-211 | the step becomes `idx` when `idx <= maxStep`. Otherwise the state is unchanged. |
| `Wizard.WithRegeneratedUrl` | src/app/page.tsx:129-133 | same length. Every image keeps its id and prompt. Images with the id get the new address. All other images are unchanged. |
| `Wizard.RegenerateUnknownImage` | src/app/page.tsx:129-133 | an id no image carries leaves the list unchanged |
| `Wizard.RegenerateChangesOneImage` | src/app/page.tsx:129-133 | with distinct ids, exactly the chosen image's address changes |
| `Wizard.ResetState` | src/app/page.tsx:80-102 | step and maxStep are 0. Content, selection, prompt, images, image selection and approvals are empty. There are four empty posts in registry order. The snapshot is the old one. |
| `Wizard.SelectedImage` | src/app/page.tsx:469-470 | found exactly when some image has the id, and the found image has that id |
| `Wizard.ReviewCardsShowChosenImage` | src/app/page.tsx:469-470 | the cards the review grid builds carry the chosen image's address, and its prompt unless that is empty |
| `Wizard.ResizeKeepsChosenImage` | src/app/page.tsx:429-435 | resizing from the image step reaches the review step with the batch and the chosen image unchanged, so the grid gets the image chosen on step 3 |
| `Wizard.Step` | src/app/page.tsx:146-180 | every transition ends in a settled state |
| `Wizard.InitInv` | src/app/page.tsx:29-77 | the initial state satisfies the invariant and is settled |
| `Wizard.InvPreserved` | src/app/page.tsx:117-180 | every command with well-formed arguments keeps the invariant: step <= 4, `maxStep == step`, settled, four posts in registry order, and the selection is distinct registry ids |
| `Wizard.ChildWritesWellFormed` | src/app/page.tsx:244-250 | toggle, select-all, placeholder fill, field edit and regeneration all hand the page well-formed values |
| `Wizard.NextStepBounds` | src/app/page.tsx:117-123 | after `nextStep` the step is `min(step + 1, 4)` and `maxStep` equals it |
| `Wizard.StepClickRejected` | src/app/page.tsx:209-211 | a click past `maxStep` leaves a settled state unchanged |
| `Wizard.JumpBackClampsMaxStep` | src/app/page.tsx:175-180 | after a backward jump to `idx`, both step and maxStep are `idx` |
| `Wizard.NoForwardJump` | src/app/page.tsx:205-211 | in a reachable state, only steps before the current one are clickable |
| `Wizard.ForwardOnlyByAdvance` | src/app/page.tsx:117-123 | the step rises by at most one, and only through `nextStep` or a completed image batch |
| `Wizard.UpstreamEditOnImageStepClears` | src/app/page.tsx:146-164 | a content edit on the image step clears images and selection and snapshots the new values |
| `Wizard.ImageCommandsKeepBatch` | src/app/page.tsx:146-164 | on the image step, choosing an image or regenerating one changes only that field |
| `Wizard.CompleteImageBatchKeepsImages` | src/app/page.tsx:333-343 | from the prompt step, the batch is stored, the snapshot equals the upstream values, and the step and maxStep become 3. The snapshot effect then clears nothing. |
| `Wizard.CompletedBatchIsMockImages` | src/app/page.tsx:333-343 | after the selector's mock batch, the page holds three images tagged with the prompt |
| `Wizard.RunNewSetIdempotent` | src/app/page.tsx:80-102 | reset gives the initial state apart from the snapshot. Resetting twice equals resetting once. The result satisfies the invariant. |
| `Wizard.ApprovalsFromGrid` | src/app/page.tsx:463-487 | with the approvals the grid reports, the new-set bar shows exactly when a selected record is ready. The approve tick is set exactly when there are selected records and all are ready. |
| `Wizard.Page.constructor` | src/app/page.tsx:29-77 | the fields hold the initial state, the busy flags are clear, and the invariant holds |
| `Wizard.Page.RunEffects` | src/app/page.tsx:146-180 | the fields become `Settle` of the old state. The busy flags and dialog are untouched. |
| `Wizard.Page.Next` | src/app/page.tsx:117-123 | the fields become `Step(old, NextStep)` and the invariant is kept. The busy flags, the image loading map and the new-set dialog are untouched. |
| `Wizard.Page.OnStepClick` | src/app/page.tsx:209-211 | the fields become `Step(old, StepClick(idx))` and the invariant is kept. The busy flags, the image loading map and the new-set dialog are untouched. |
| `Wizard.Page.Set` | src/app/page.tsx:244-250 | each setter the page hands to its children writes its field and runs the effects. The invariant is kept. The busy flags, the image loading map and the new-set dialog are untouched. |
| `Wizard.Page.OnImagesGenerated` | src/app/page.tsx:333-343 | the fields become `Step(old, CompleteImageBatch(images))`. The busy flags, the image loading map and the new-set dialog are untouched. |
| `Wizard.Page.HandleRegenerateImage` | src/app/page.tsx:125-137 | the fields become `Step(old, RegenerateImage(id, now))`, and the image's loading flag ends false. The other loading flags, the busy flags and the dialog are untouched. |
| `Wizard.Page.OnImageClick` | src/app/page.tsx:401-403 | the fields become `Step(old, SelectImage(id))`. The busy flags, the image loading map and the new-set dialog are untouched. |
| `Wizard.Page.ResizeToPlatforms` | src/app/page.tsx:429-435 | callable only when the button is enabled (an image is chosen and no posts are being generated). The busy flag ends false, the wizard advances as `nextStep` does, and the other flags and the dialog are untouched. |
| `Wizard.Page.SetNewSetModal` | src/app/page.tsx:489-515 | the confirmation dialog is open exactly as asked |
| `Wizard.Page.ResetFields` | src/app/page.tsx:80-101 | the fields the handler assigns take their initial values (step 0, no content, no selection, no images, one empty post per platform, no approvals). Only the image snapshot keeps its value. The busy flags, loading map and dialog are cleared. |
| `Wizard.Page.HandleRunNewSet` | src/app/page.tsx:80-102 | the fields become `Step(old, RunNewSet)`. The busy flags, loading map and dialog are reset. The invariant holds. |
| `StepIndicator.View` | src/components/ui/StepIndicator.tsx:19-42 | completed iff `idx < current` and current iff `idx == current`, never both. Clickable iff `idx <= maxStep`, not current and a callback exists. The tooltip shows iff completed. The badge is `idx + 1` iff not completed. |
| `StepIndicator.Click` | src/components/ui/StepIndicator.tsx:28 | the callback gets `idx` exactly when the step is clickable |
| `StepIndicator.ExactlyOneCurrent` | src/components/ui/StepIndicator.tsx:18-20 | exactly one index is current |
| `StepIndicator.BackwardOnly` | src/components/ui/StepIndicator.tsx:21 | when `maxStep <= current`, only completed (earlier) steps are clickable |
| `BlogInputPanel.Toggle` | src/components/blog-input/BlogInputPanel.tsx:33-39 | only the platform's membership flips. Adding appends at the end. |
| `BlogInputPanel.ToggleTwiceRestoresMembership` | src/components/blog-input/BlogInputPanel.tsx:33-39 | toggling twice restores the membership |
| `BlogInputPanel.ToggleTwiceRestoresSequence` | src/components/blog-input/BlogInputPanel.tsx:33-39 | adding then removing restores the exact list |
| `BlogInputPanel.ToggleKeepsSelection` | src/components/blog-input/BlogInputPanel.tsx:33-39 | a toggle keeps the selection a duplicate-free list of registry ids |
| `BlogInputPanel.SelectAll` | src/components/blog-input/BlogInputPanel.tsx:93-100 | `[]` when the selection has four entries, otherwise the four registry keys in order |
| `BlogInputPanel.SelectAllOnSelection` | src/components/blog-input/BlogInputPanel.tsx:93-100 | on a valid selection, gives `[]` exactly when all platforms are selected, and the result is a valid selection |
| `BlogInputPanel.SubmitButtonMatchesGuard` | src/components/blog-input/BlogInputPanel.tsx:137 | when not loading, the button is enabled exactly when the submit guard lets the call through. While loading it is disabled. |
| `BlogInputPanel.BlankContentIsSubmitted` | src/components/blog-input/BlogInputPanel.tsx:42 | the guard is not trimmed: content of one space goes through |
| `BlogInputPanel.InputPanel.constructor` | src/components/blog-input/BlogInputPanel.tsx:18 | not loading |
| `BlogInputPanel.InputPanel.Submit` | src/components/blog-input/BlogInputPanel.tsx:41-69 | `onGenerate` runs exactly when the guard passes, and then loading ends false on both the success and the error path. Otherwise nothing changes. |
| `PostTextOptions.LabelText` | src/components/platform-post/PostTextOptions.tsx:23-26 | the registry label for a registry id, `undefined` otherwise |
| `PostTextOptions.PlaceholderNotBlank` | src/components/platform-post/PostTextOptions.tsx:26 | the sample text is not blank |
| `PostTextOptions.FillPlaceholders` | src/components/platform-post/PostTextOptions.tsx:20-31 | posts whose trimmed text is empty get the sample text and hashtags. Other posts are untouched. Ids and length are kept. |
| `PostTextOptions.FillLeavesNoBlankText` | src/components/platform-post/PostTextOptions.tsx:20-31 | no post has blank text afterwards |
| `PostTextOptions.FillPlaceholdersIdempotent` | src/components/platform-post/PlatformPostGrid.tsx:89-101 | a second fill changes nothing: the filled list is a fixed point of the fill |
| `PostTextOptions.EditField` | src/components/platform-post/PostTextOptions.tsx:45-49 | only the chosen field of the matching post changes. Length, ids and other posts are kept. |
| `PostTextOptions.EditFieldLastWins` | src/components/platform-post/PlatformPostGrid.tsx:147-153 | two edits of the same field equal the second alone (the grid's `handleFieldChange` is the same map) |
| `PostTextOptions.Regenerated` | src/components/platform-post/PostTextOptions.tsx:54-64 | the matching post gets the regenerated text and `#regenerated #new #hashtags`. Other posts are unchanged. Ids are kept. |
| `PostTextOptions.RegenerateOverwritesPendingEdit` | src/components/platform-post/PostTextOptions.tsx:51-54 | an edit of another post made during the delay is lost |
| `PostTextOptions.Shown` | src/components/platform-post/PostTextOptions.tsx:70 | exactly the posts with a selected id, in list order |
| `PostTextOptions.ShownInRegistryOrder` | src/components/platform-post/PostTextOptions.tsx:70 | with the page's posts, the shown order is registry order, not selection order |
| `PostTextOptions.TextOptionsPanel.constructor` | src/components/platform-post/PostTextOptions.tsx:35 | nothing is regenerating |
| `PostTextOptions.TextOptionsPanel.Regenerate` | src/components/platform-post/PostTextOptions.tsx:51-66 | the list handed back is regenerated from the captured posts, and the loading flag of the id ends false |
| `ImagePromptSelector.RecommendedCountOne` | src/components/image-prompt/ImagePromptSelector.tsx:62 | a list flagged at exactly one position has exactly one recommended prompt |
| `ImagePromptSelector.RandomPrompts` | src/components/image-prompt/ImagePromptSelector.tsx:55-65 | three prompts with ids "1", "2", "3" carry the template texts in order. Exactly one is recommended, the one drawn, and it carries the drawn rationale. An explanation is present iff the prompt is recommended. |
| `ImagePromptSelector.InitialPromptsShape` | src/components/image-prompt/ImagePromptSelector.tsx:68-85 | three prompts, exactly one recommended, an explanation iff recommended |
| `ImagePromptSelector.FindPrompt` | src/components/image-prompt/ImagePromptSelector.tsx:112 | none exactly when no prompt has the id. A found prompt has the id. |
| `ImagePromptSelector.MockImages` | src/components/image-prompt/ImagePromptSelector.tsx:137-141 | three images `img-1`..`img-3`, each tagged with the prompt |
| `ImagePromptSelector.PromptSelector.constructor` | src/components/image-prompt/ImagePromptSelector.tsx:68-87 | the initial prompts, an empty working prompt, not generating |
| `ImagePromptSelector.PromptSelector.RegenerateBatch` | src/components/image-prompt/ImagePromptSelector.tsx:91-95 | a new batch, and both the chosen prompt and the working prompt cleared (also the button at 157-161) |
| `ImagePromptSelector.PromptSelector.Select` | src/components/image-prompt/ImagePromptSelector.tsx:110-116 | the chosen prompt becomes the id. The working prompt becomes that prompt's text if the id exists and is kept otherwise. |
| `ImagePromptSelector.PromptSelector.EditPrompt` | src/components/image-prompt/ImagePromptSelector.tsx:219 | the working prompt becomes the typed text |
| `ImagePromptSelector.PromptSelector.GenerateImages` | src/components/image-prompt/ImagePromptSelector.tsx:118-150 | with no chosen prompt or an empty working prompt, nothing happens. Otherwise the flag ends false on both paths and success yields the three mock images. |
| `ExportTimestamp.Hour12` | src/components/platform-post/PlatformPostGrid.tsx:112-114 | an hour in 1..12 congruent to the 24-hour hour modulo 12, so 0 shows as 12 |
| `ExportTimestamp.Meridiem` | src/components/platform-post/PlatformPostGrid.tsx:111 | `AM` or `PM` |
| `ExportTimestamp.HourRoundTrip` | src/components/platform-post/PlatformPostGrid.tsx:111-114 | the 12-hour hour and its marker determine the 24-hour hour, so it is AM exactly below 12 |
| `ExportTimestamp.DateFields` | src/components/platform-post/PlatformPostGrid.tsx:115 | `MM/DD/YYYY`: month and day are two digits denoting month+1 and day, followed by the year's digits |
| `ExportTimestamp.TimeFields` | src/components/platform-post/PlatformPostGrid.tsx:115 | `HH:MM:SS AM`: two-digit fields read back as minutes, seconds and, with the marker, the hour |
| `ExportTimestamp.TimestampFields` | src/components/platform-post/PlatformPostGrid.tsx:115 | the timestamp is the date part, one space, then the time part, `18 + digits(year)` characters long |
| `PlatformPostGrid.OrElse` | src/components/platform-post/PlatformPostGrid.tsx:49-50 | a missing or empty value falls back to the default, otherwise it is kept |
| `PlatformPostGrid.InitLocalPosts` | src/components/platform-post/PlatformPostGrid.tsx:45-56 | the selected platforms in registry order, all drafts, fallback images numbered by position |
| `PlatformPostGrid.KeepSelected` | src/components/platform-post/PlatformPostGrid.tsx:62 | the kept ids are the old ids filtered by the selection, in their old order |
| `PlatformPostGrid.KeepSelectedMembers` | src/components/platform-post/PlatformPostGrid.tsx:62 | a record is kept exactly when it was there and its id is selected |
| `PlatformPostGrid.MissingIdsAreWanted` | src/components/platform-post/PlatformPostGrid.tsx:63-76 | the ids of the appended drafts are the selected registry ids the kept records lack, in registry order |
| `PlatformPostGrid.WantedWithin` | src/components/platform-post/PlatformPostGrid.tsx:63-64 | every wanted id is a selected registry id below the position reached and is not present |
| `PlatformPostGrid.WantedCovers` | src/components/platform-post/PlatformPostGrid.tsx:63-64 | every selected registry id below the position reached that is not present is wanted |
| `PlatformPostGrid.WantedNoDup` | src/components/platform-post/PlatformPostGrid.tsx:63-64 | over a duplicate-free registry the wanted ids are distinct |
| `PlatformPostGrid.MissingIds` | src/components/platform-post/PlatformPostGrid.tsx:63-76 | the appended records are distinct and are exactly the selected registry platforms the kept records lack |
| `PlatformPostGrid.SyncStep` | src/components/platform-post/PlatformPostGrid.tsx:63-75 | one `forEach` iteration extends the appended prefix by the next registry position |
| `PlatformPostGrid.SyncTurn` | src/components/platform-post/PlatformPostGrid.tsx:63-75 | one turn of the loop, pushing a draft when the platform is selected and absent, keeps the records equal to the kept ones followed by the missing ones up to the next registry position |
| `PlatformPostGrid.SyncedIdsAreSelection` | src/components/platform-post/PlatformPostGrid.tsx:60-79 | after sync the record ids are distinct and are exactly the selected registry ids, and every record that was present with a selected id is still there, unchanged (so it keeps its status) |
| `PlatformPostGrid.SyncedIdempotent` | src/components/platform-post/PlatformPostGrid.tsx:60-79 | syncing twice equals syncing once |
| `PlatformPostGrid.AllSelectedKept` | src/components/platform-post/PlatformPostGrid.tsx:62 | filtering records that are all selected keeps them all |
| `PlatformPostGrid.NothingMissing` | src/components/platform-post/PlatformPostGrid.tsx:63-76 | nothing is appended when every selected platform already has a record |
| `PlatformPostGrid.SyncAfterInit` | src/components/platform-post/PlatformPostGrid.tsx:45-79 | the sync run on mount leaves the initial records unchanged |
| `PlatformPostGrid.SetStatus` | src/components/platform-post/PlatformPostGrid.tsx:155-157 | only the matching records' status changes. Ids and length are kept. |
| `PlatformPostGrid.SetStatusLastWins` | src/components/platform-post/PlatformPostGrid.tsx:155-157 | two status changes of one id equal the second |
| `PlatformPostGrid.SetStatusUnchanged` | src/components/platform-post/PlatformPostGrid.tsx:155-157 | setting the status a record already has changes nothing |
| `PlatformPostGrid.ApproveTwiceRestores` | src/components/platform-post/PlatformPostGrid.tsx:208 | pressing a record's approve button twice restores the records |
| `PlatformPostGrid.Approvals` | src/components/platform-post/PlatformPostGrid.tsx:82-86 | one flag per selected record, in record order, true iff it is ready |
| `PlatformPostGrid.AnyApprovalIffSomeReady` | src/components/platform-post/PlatformPostGrid.tsx:82-86 | some flag is true exactly when some selected record is ready |
| `PlatformPostGrid.AllApprovedIffAllReady` | src/components/platform-post/PlatformPostGrid.tsx:82-86 | the flags are nonempty and all true exactly when there is a selected record and every selected record is ready |
| `PlatformPostGrid.ReadyLocal` | src/components/platform-post/PlatformPostGrid.tsx:106 | exactly the records that are selected and ready |
| `PlatformPostGrid.ExportedPosts` | src/components/platform-post/PlatformPostGrid.tsx:107 | exactly the posts with a selected, ready record, in post order |
| `PlatformPostGrid.FindLocal` | src/components/platform-post/PlatformPostGrid.tsx:119 | found exactly when a record has the id, and the found record has that id |
| `PlatformPostGrid.CsvRows` | src/components/platform-post/PlatformPostGrid.tsx:118-129 | one row per exported post, built from the post and its record |
| `PlatformPostGrid.ExportRows` | src/components/platform-post/PlatformPostGrid.tsx:117-130 | the header first, then exactly one row per exported post |
| `PlatformPostGrid.ExportedRowsAreReady` | src/components/platform-post/PlatformPostGrid.tsx:106-129 | every row belongs to a selected, ready record and is built from it |
| `PlatformPostGrid.ExportFollowsRegistryOrder` | src/components/platform-post/PlatformPostGrid.tsx:107 | with the page's posts, rows come in registry order |
| `PlatformPostGrid.NothingReadyExportsHeaderOnly` | src/components/platform-post/PlatformPostGrid.tsx:104-130 | with no selected record ready, the export is the header alone |
| `PlatformPostGrid.ReadyLocalEmpty` | src/components/platform-post/PlatformPostGrid.tsx:106 | with no selected record ready, the ready list is empty |
| `PlatformPostGrid.DisabledIffHeaderOnly` | src/components/platform-post/PlatformPostGrid.tsx:226-227 | for synced records whose posts exist, the buttons are disabled exactly when the export would be the header alone |
| `PlatformPostGrid.ReviewGrid.constructor` | src/components/platform-post/PlatformPostGrid.tsx:45-57 | the initial records and no dialog |
| `PlatformPostGrid.ReviewGrid.Sync` | src/components/platform-post/PlatformPostGrid.tsx:60-79 | the loop of the sync effect computes the kept records followed by the missing ones |
| `PlatformPostGrid.ReviewGrid.ApproveChange` | src/components/platform-post/PlatformPostGrid.tsx:155-157 | the records become `SetStatus` of the old ones |
| `PlatformPostGrid.ReviewGrid.ExportCsv` | src/components/platform-post/PlatformPostGrid.tsx:104-138 | the file text is the rows joined by newlines, and the CSV dialog opens |
| `PlatformPostGrid.ReviewGrid.PushToBuffer` | src/components/platform-post/PlatformPostGrid.tsx:142-145 | only the Buffer dialog opens |
| `Registry.RegistryIdsDistinct` | src/app/page.tsx:20-25 | four distinct platform ids with four labels |
| `Registry.LabelOf` | src/components/platform-post/PlatformPostGrid.tsx:121 | a label exactly for registry ids, and it is that id's label |
| `Registry.EmptyPosts` | src/app/page.tsx:52-58 | one empty post per platform, in registry order |
| `Registry.FilterIn` | src/components/platform-post/PlatformPostGrid.tsx:46 | keeps exactly the entries that are selected and never grows |
| `Registry.FilterInNoDup` | src/components/platform-post/PlatformPostGrid.tsx:46 | filtering a duplicate-free list gives a duplicate-free list |
| `Strings.NatToStringRoundTrip` | src/components/platform-post/PlatformPostGrid.tsx:109 | the decimal text of `n` reads back as `n` |
| `Strings.Pad2` | src/components/platform-post/PlatformPostGrid.tsx:109 | below 100, exactly two digits denoting `n` |
| `Strings.BlankIffAllWhitespace` | src/components/platform-post/PostTextOptions.tsx:22 | `trim()` gives the empty string exactly when every character is whitespace |
| `Strings.JsonQuote` | src/components/platform-post/PlatformPostGrid.tsx:122-123 | the quoted field starts and ends with a double quote |
| `Strings.UnescapeChar` | src/components/platform-post/PlatformPostGrid.tsx:122-123 | one escaped character followed by more escaped text reads back as that character followed by the rest |
| `Strings.EscapeRoundTrip` | src/components/platform-post/PlatformPostGrid.tsx:122-123 | unescaping the quoted body gives back the text |
| `Strings.EscapeHasNoControlChar` | src/components/platform-post/PlatformPostGrid.tsx:122-123 | a quoted field holds no raw control character, so a newline in a post never breaks a CSV row |

## Left out

- Rendering and styling (JSX, Tailwind classes, `Button`, `Checklist`), and the scrolling and DOM measurement of `src/app/page.tsx:183-201` and `window.scrollTo`: browser presentation and I/O.
- Timers and animation: the mock delays are not modelled. Each async handler is one atomic step with its busy flag set and cleared. The `loadingDots` intervals are left out as well.
- Interleavings during those delays: a regeneration or generation completing after the user has moved on is not modelled. One consequence of the delay is modelled, the stale capture of `PostTextOptions.handleRegenerate`.
- The Blob, object URL and anchor click of the CSV download. The model returns the file text instead.
- `Math.random`, `Date.now()`, `new Date()` and `toLocaleTimeString()` become parameters: the template, recommendation and rationale indices, `now`, the `LocalTime` fields and the time text.
- `console.log` / `console.error`, and the commented-out webhook calls.
- Re-render loop: the grid's placeholder effect (`src/components/platform-post/PlatformPostGrid.tsx:89-101`) hands the page a new array on every run, and that array is the effect's own dependency. So the review step keeps re-rendering and re-running the effect without end, even though the value stops changing. The model reduces this to one run of `PostTextOptions.FillPlaceholders`, whose result is a fixed point. The order in which child effects fire when a step mounts is not composed into the wizard. Child writes enter the page through `Wizard.Command` setters.
- `Wizard.Settle`: effects are modelled as running after every transition. React runs them only when a dependency changed. The two agree because `Settle` leaves settled states alone.
- The grid's always-false UI flags (`showPromptEdit`, `isRegenImageLoading`, `isRegenTextLoading`), its success-dialog dismissal, and the page's `isRegenerating`, which is only ever set false.
- `JSON.stringify` comparisons of arrays in the snapshot effect are modelled as value equality. The serialisation is injective on these values.
- `Strings.EscapeChar`: lone UTF-16 surrogates (escaped by `JSON.stringify` as `\uXXXX`) do not occur in `seq<char>` and are not modelled.
- `src/lib/brand-config.ts`: configuration constants only. `src/lib/mock-data.ts` contributes only the key order of `platform_overrides`.
