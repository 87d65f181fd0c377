# Sticker-pack orchestration, modelled in Dafny

The app turns a topic and a style into a pack of sticker records, one per
planned emotion. It then generates and processes each record's image in
batches of four. A single caption can be edited and reprocessed, a single
sticker regenerated, and the completed stickers exported. This project
models that orchestration:

- `types.dfy` (module `Types`): the data model. It holds the closed set of
  sixteen emotion tags, the plan of one sticker, the five-state status and
  the record with its optional raw image, processed image and file blob.
- `constants.dfy` (module `Constants`): the canonical emotion order, the
  caption label of each emotion and the platform's size constants.
- `records.dfy` (module `Records`): the pure list operations the app
  performs:
  - the spread-merge of a partial record (`Patch`, one `Option` per key);
  - the map that updates every record with an id;
  - the lookup by id;
  - the filter on completed records.
- `pipeline.dfy` (module `Pipeline`): each flow as the sequence of calls it
  makes to the single mutation entry point, for example `SingleRun` for one
  sticker and `PackRun` for a whole pack. Each flow also has a reference
  outcome per record (`Rerun`, `Edited`) and lemmas tying the two together.
  The batches of a pack are here too.
- `app.dfy` (module `App`): the class `StickerApp`. It holds the list of
  records, the pack-level busy flag and a ghost trace of every call of the
  mutation entry point. Its methods follow the handlers step by step, and
  the batch loop keeps its `for` loop. Each method's postcondition gives
  the new list as the updates of its flow applied to the old list, and the
  trace as the old trace followed by those updates. `HandleGenerate` is the
  exception: it first drops the old list, leaves it empty when planning
  fails, and otherwise applies the pack's updates to the freshly seeded
  list.

The planner, image generator and image processor are parameters. The
planner's outcome is an `Option<seq<StickerPlan>>`. The generator is a
function from a prompt to `Option<Image>`, and the processor is a function
from an image and a caption to `Option<Image>`. `None` stands for a call
that throws.

The code does not do the following, and neither does the model:

- No record is protected against a second in-flight run on the same id.
- Regenerating, or failing, does not clear `processedImageUrl`.
  `Pipeline.RegenerateKeepsStaleImage` shows a record marked generating
  that still holds its old processed image. Only the one-way fact is
  proved: reaching complete sets the processed image.
- A caption edit is not restricted by status: any record with a non-empty
  raw image can be edited.
- Exporting with no completed record does not raise an error; it returns
  silently.
- The orchestration does not check that the planner returned sixteen plans
  with lookup captions. The pack lemmas hold for any plan list with
  distinct ids.

## Model

| member | source | states |
|---|---|---|
| Types.Seeded | App.tsx:35-38 | a seeded record carries exactly the plan's fields, is pending and has no raw image, processed image or blob |
| Constants.Label | constants.ts:10-27 | every emotion has a label, and each label is two characters long (non-empty) |
| Constants.EmotionsIsCanonicalOrder | constants.ts:3-8 | the table has sixteen entries, covers every emotion tag and puts each tag at its own canonical position |
| Constants.EmotionsDistinct | constants.ts:3-8 | no emotion appears twice in the table |
| Constants.LabelInjective | constants.ts:11-26 | two emotions with the same label are the same emotion |
| Constants.SizesConsistent | constants.ts:30-32 | the thumbnail side is positive and half the sticker side; the file limit is 100 KB |
| Records.Merge | App.tsx:20 | definition of the spread of a partial record over a record: each key present in the update overwrites, every other field is kept; its properties are stated by `Records.Updated` and `Records.MergeRepeat` |
| Records.MergeRepeat | App.tsx:20 | merging the same two partial records again into a record they already reached changes nothing |
| Records.Updated | App.tsx:18-24 | the list keeps its length; each record with the id becomes its merge with the update, and every other record is unchanged |
| Records.UpdatedKeepsIds | App.tsx:20 | an update that does not rewrite the id keeps every record's id in order; an unknown id leaves the list unchanged |
| Records.ApplyAllKeepsIds | App.tsx:18-24 | any number of such updates keep the list's ids and their order |
| Records.ApplyAllAppend | App.tsx:18-24 | applying two runs of updates in turn is applying their concatenation |
| Records.ApplyAllOthers | App.tsx:20 | updates that target other ids leave a record unchanged |
| Records.Find | App.tsx:82 | the lookup fails exactly when no record has the id; otherwise it returns a record of the list with that id |
| Records.FindFirst | App.tsx:82 | the record found is the first one with the id: no earlier record has it |
| Records.FindDistinct | App.tsx:97 | with distinct ids, looking up a record's id returns that record |
| Records.FindUpdated | App.tsx:82 | after an update to an id, the lookup of that id returns the updated form of the record it returned before |
| Records.Completed | App.tsx:103 | a record is selected exactly when it is in the list and complete; the selection is no longer than the list |
| Records.CompletedAppend | App.tsx:103 | the selection keeps list order: it distributes over concatenation |
| Records.CompletedAll | App.tsx:103 | a list of complete records is selected whole |
| Pipeline.SingleRun | App.tsx:59-79 | a single-sticker run makes two or three updates, all to the sticker's id, none of which rewrites an id |
| Pipeline.SingleRunStatuses | App.tsx:59-79 | the statuses set are generating then error, generating then processing then error, or generating then processing then complete; processing comes with the raw image, complete with the processed image and exactly when both calls succeed; error sets only the status |
| Pipeline.Rerun | App.tsx:59-79 | the outcome keeps the plan fields and the blob and is complete or error; complete exactly when both calls succeed, with both images set; error keeps the old processed image, and keeps the newly generated raw image when processing failed or the old raw image when generation failed |
| Pipeline.SingleRunMerges | App.tsx:60-77 | on one record, the run's successive merges give the reference outcome |
| Pipeline.SingleRunEffect | App.tsx:59-79 | the run turns each record with the id into its reference outcome and leaves every other record alone |
| Pipeline.Seed | App.tsx:35-38 | one record per plan, in plan order, each carrying its plan's fields, pending and without images or blob |
| Pipeline.PackRun | App.tsx:46-49 | definition of the pack's updates: the single-sticker run of each record, in list order, each exactly once; its properties are stated by `Pipeline.PackRunTargets`, `Pipeline.PackRunAppend`, `Pipeline.PackEffect` and `Pipeline.PackOutcome` |
| Pipeline.PackRunTargets | App.tsx:46-49 | every update of a pack run targets one of the jobs' ids and never rewrites an id |
| Pipeline.PackRunAppend | App.tsx:46-49 | running two job lists in turn is running their concatenation |
| Pipeline.PackEffect | App.tsx:46-49 | with distinct job ids, each record ends as the reference outcome of the job with its id, or unchanged if there is none |
| Pipeline.PackOutcome | App.tsx:35-49 | with distinct plan ids, the pack ends with one record per plan in plan order; each is the outcome of its own run, keeps its plan and is complete or error, independently of the others |
| Pipeline.Batches | App.tsx:45-47 | definition of the batches: consecutive slices of four records from position 0, the last possibly shorter; its properties are stated by `Pipeline.BatchesFlatten`, `Pipeline.BatchesCount` and `Pipeline.BatchesSlices` |
| Pipeline.BatchesFlatten | App.tsx:46-47 | the batches concatenate back to the seeded list |
| Pipeline.BatchesCount | App.tsx:45-47 | there are (n + 3) / 4 batches for n records |
| Pipeline.BatchesSlices | App.tsx:45-47 | batch j is the slice starting at 4 j; it is non-empty and holds at most four records |
| Pipeline.SixteenRecordsFourBatches | App.tsx:45-47 | sixteen records make four batches of four |
| Pipeline.HasRaw | App.tsx:83 | definition of the edit guard: a raw image counts only when it is set and non-empty, as the falsy test treats the empty string; `Pipeline.EditRun` and `Pipeline.EditNoOp` state what the guard decides |
| Pipeline.EditRun | App.tsx:81-94 | no update when the id is unknown or the record has no non-empty raw image; otherwise processing with the new caption, then complete with the reprocessed image of the found raw image, or error; the raw image is never touched |
| Pipeline.Edited | App.tsx:85-92 | the edited record has the new caption, the same id, emotion, prompt and raw image; it keeps the blob; it is complete exactly when reprocessing succeeds, with the processed image set, and error keeps the old processed image |
| Pipeline.EditNoOp | App.tsx:83 | an edit for an unknown id or a record without a raw image leaves the list unchanged |
| Pipeline.EditMerges | App.tsx:85-92 | on one record, the edit's two merges give its edited form |
| Pipeline.EditEffect | App.tsx:85-93 | an edit that runs turns each record with the id into its edited form, reusing the found raw image, and leaves the others alone |
| Pipeline.EditRunStable | App.tsx:82-85 | after an edit the same edit again issues the same updates, since the raw image is unchanged |
| Pipeline.EditIdempotent | App.tsx:81-94 | editing a caption twice to the same text ends where editing it once does |
| Pipeline.RegenerateRun | App.tsx:96-100 | no update exactly when the id is unknown; otherwise only updates to that id, none of which rewrites an id |
| Pipeline.RegenerateEffect | App.tsx:96-100 | regenerating turns each record with the id into the rerun outcome of the found record and leaves the others alone |
| Pipeline.RegenerateKeepsStaleImage | App.tsx:60 | regenerating a complete record first marks it generating while its processed image is still set |
| App.StickerApp.constructor | App.tsx:10-11 | the app starts with no records, not busy and with an empty trace |
| App.StickerApp.UpdateSticker | App.tsx:18-24 | the list becomes the update applied by id; the call is appended to the trace; the busy flag is unchanged |
| App.StickerApp.GenerateAndProcessSingle | App.tsx:59-79 | the list and trace advance by exactly the single-sticker run's updates |
| App.StickerApp.HandleGenerate | App.tsx:26-57 | the flag ends false; a planner failure leaves the list empty and the trace unchanged; otherwise the batches are those of the seeded list, and list and trace are the seeded list after the pack run |
| App.StickerApp.RunBatches | App.tsx:45-49 | the loop visits the batches of the list in order, and list and trace advance by the pack run of the whole list |
| App.StickerApp.RunBatch | App.tsx:48 | one batch advances list and trace by the pack run of its records |
| App.StickerApp.HandleEditorUpdate | App.tsx:81-94 | list and trace advance by the edit's updates, computed on the list before the call |
| App.StickerApp.HandleRegenerateSingle | App.tsx:96-100 | list and trace advance by the regenerate's updates, computed on the list before the call |
| App.StickerApp.HandleExport | App.tsx:102-106 | nothing is exported exactly when no record is complete; otherwise the export is the non-empty list of completed records in list order |

## Left out

- The JSX rendering, the editor modal and `editingId`: these are UI only.
- React hook mechanics. The mirror reference of the list and the rendered
  state are one field, `stickers`. The edit and regenerate handlers read
  the rendered list, which the model treats as the current list.
- Concurrency inside a batch: the items of a batch run one after another,
  in batch order. Only the batch boundaries and the partition are kept.
  Interleavings of two flows on the same id are not modelled.
- The internals of the planner, generator, processor and archive builder,
  whose files are not part of this model. Each call is an abstract outcome
  that may fail. A generator is one function per flow, so two records with
  the same prompt in one pack get the same outcome.
- The archive itself: `HandleExport` returns the records it would hand to
  the archive builder. A failure of the archive builder is not modelled.
- The topic and style request: the planner that reads it is a parameter,
  so `HandleGenerate` takes the planner's outcome instead.
- Console logging and the alert on a planning failure: these are I/O.
- The JSZip and file-saver globals and all pixel work (background removal,
  stroke, caption drawing, resize, compression). `ProcessingOptions` is
  kept only as a shape.
- App.StickerApp.GenerateAndProcessSingle: its postcondition gives the list
  as the run's updates applied to it. The per-record outcome is stated
  separately, in `Pipeline.SingleRunEffect`.
