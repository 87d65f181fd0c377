/** The app's state, the list of sticker records and the pack-level busy
    flag, and the flows that change it. */
module App {
  import opened Types
  import opened Records
  import opened Pipeline

  class StickerApp {
    /** The authoritative list of records. */
    var stickers: seq<StickerData>
    /** True while a pack is being generated. */
    var isProcessing: bool
    /** Every call of the mutation entry point so far, in order: the
        per-record update notifications. */
    ghost var trace: seq<Update>

    constructor ()
      ensures stickers == [] && !isProcessing && trace == []
    {
      stickers := [];
      isProcessing := false;
      trace := [];
    }

    /** The single mutation entry point: merge `u` into every record with the id. */
    method UpdateSticker(id: int, u: Patch)
      modifies this
      ensures stickers == Updated(old(stickers), id, u)
      ensures trace == old(trace) + [Update(id, u)]
      ensures isProcessing == old(isProcessing)
    {
      stickers := Updated(stickers, id, u);
      trace := trace + [Update(id, u)];
    }

    /** Generate and process one sticker, recording each step on its record. */
    method GenerateAndProcessSingle(sticker: StickerData, generate: Generator, process: Processor)
      modifies this
      ensures stickers == ApplyAll(old(stickers), SingleRun(sticker, generate, process))
      ensures trace == old(trace) + SingleRun(sticker, generate, process)
      ensures isProcessing == old(isProcessing)
    {
      ghost var l0 := stickers;
      ghost var t0 := trace;
      ghost var done: seq<Update> := [];
      var started := Update(sticker.id, StatusPatch(Generating));
      UpdateSticker(started.id, started.patch);
      ApplyAllSnoc(l0, done, started);
      AppendAssoc(t0, done, [started]);
      done := done + [started];
      var raw := generate(sticker.visualPrompt);
      var last: Update;
      if raw.None? {
        last := Update(sticker.id, StatusPatch(Error));
      } else {
        var generated := Update(sticker.id, NoChange.(status := Some(Processing), rawImageUrl := Some(Some(raw.value))));
        UpdateSticker(generated.id, generated.patch);
        ApplyAllSnoc(l0, done, generated);
        AppendAssoc(t0, done, [generated]);
        done := done + [generated];
        var processed := process(raw.value, sticker.caption);
        if processed.None? {
          last := Update(sticker.id, StatusPatch(Error));
        } else {
          last := Update(sticker.id, NoChange.(status := Some(Complete), processedImageUrl := Some(Some(processed.value))));
        }
      }
      UpdateSticker(last.id, last.patch);
      ApplyAllSnoc(l0, done, last);
      AppendAssoc(t0, done, [last]);
      done := done + [last];
      assert done == SingleRun(sticker, generate, process);
    }

    /** Start a new pack: clear the list, seed one pending record per plan,
        then generate the records in consecutive batches. A planner failure
        leaves the list empty. The ghost result lists the batches visited. */
    method HandleGenerate(planned: Option<seq<StickerPlan>>, generate: Generator, process: Processor)
      returns (ghost batches: seq<seq<StickerData>>)
      modifies this
      ensures !isProcessing
      ensures planned.None? ==> stickers == [] && trace == old(trace) && batches == []
      ensures planned.Some? ==>
        var seed := Seed(planned.value);
        batches == Batches(seed) &&
        trace == old(trace) + PackRun(seed, generate, process) &&
        stickers == ApplyAll(seed, PackRun(seed, generate, process))
    {
      isProcessing := true;
      stickers := [];
      batches := [];
      if planned.None? {
        isProcessing := false;
        return;
      }
      var initial := Seed(planned.value);
      stickers := initial;
      batches := RunBatches(initial, generate, process);
      isProcessing := false;
    }

    /** The batch loop: walk the list in consecutive slices of `BatchSize`
        starting at 0, and settle each slice before starting the next. The
        ghost result lists the slices visited. */
    method RunBatches(initial: seq<StickerData>, generate: Generator, process: Processor)
      returns (ghost batches: seq<seq<StickerData>>)
      modifies this
      ensures batches == Batches(initial)
      ensures trace == old(trace) + PackRun(initial, generate, process)
      ensures stickers == ApplyAll(old(stickers), PackRun(initial, generate, process))
      ensures isProcessing == old(isProcessing)
    {
      ghost var l0 := stickers;
      ghost var t0 := trace;
      ghost var done: seq<Update> := [];
      ghost var m := 0;
      batches := [];
      var i := 0;
      while i < |initial|
        invariant 0 <= i < |initial| + BatchSize
        invariant m == Min(i, |initial|)
        invariant batches + Batches(initial[m..]) == Batches(initial)
        invariant done == PackRun(initial[..m], generate, process)
        invariant trace == t0 + done
        invariant stickers == ApplyAll(l0, done)
        invariant isProcessing == old(isProcessing)
      {
        var batch := initial[i..Min(i + BatchSize, |initial|)];
        ghost var run := PackRun(batch, generate, process);
        NextBatch(l0, initial, i, generate, process);
        RunBatch(batch, generate, process);
        AppendAssoc(t0, done, run);
        AppendAssoc(batches, [batch], Batches(initial[Min(i + BatchSize, |initial|)..]));
        done := done + run;
        batches := batches + [batch];
        m := Min(i + BatchSize, |initial|);
        i := i + BatchSize;
      }
      assert initial[..|initial|] == initial;
    }

    /** Run every record of one batch to completion or error; the items are
        taken in batch order. */
    method RunBatch(batch: seq<StickerData>, generate: Generator, process: Processor)
      modifies this
      ensures stickers == ApplyAll(old(stickers), PackRun(batch, generate, process))
      ensures trace == old(trace) + PackRun(batch, generate, process)
      ensures isProcessing == old(isProcessing)
    {
      ghost var l0 := stickers;
      ghost var t0 := trace;
      ghost var done: seq<Update> := [];
      var j := 0;
      while j < |batch|
        invariant 0 <= j <= |batch|
        invariant done == PackRun(batch[..j], generate, process)
        invariant trace == t0 + done
        invariant stickers == ApplyAll(l0, done)
        invariant isProcessing == old(isProcessing)
      {
        ghost var before := batch[..j];
        ghost var run := SingleRun(batch[j], generate, process);
        GenerateAndProcessSingle(batch[j], generate, process);
        PackRunSnoc(l0, before, batch[j], generate, process);
        assert before + [batch[j]] == batch[..j + 1];
        AppendAssoc(t0, done, run);
        done := done + run;
        j := j + 1;
      }
      assert batch[..j] == batch;
    }

    /** Change one record's caption and reprocess its existing raw image. */
    method HandleEditorUpdate(id: int, newCaption: string, process: Processor)
      modifies this
      ensures stickers == ApplyAll(old(stickers), EditRun(old(stickers), id, newCaption, process))
      ensures trace == old(trace) + EditRun(old(stickers), id, newCaption, process)
      ensures isProcessing == old(isProcessing)
    {
      var sticker := Find(stickers, id);
      if sticker.None? || !HasRaw(sticker.value) {
        return;
      }
      ghost var l0 := stickers;
      var raw := sticker.value.rawImageUrl.value;
      var reprocessing := Update(id, NoChange.(status := Some(Processing), caption := Some(newCaption)));
      UpdateSticker(reprocessing.id, reprocessing.patch);
      var processed := process(raw, newCaption);
      var last: Update;
      if processed.Some? {
        last := Update(id, NoChange.(status := Some(Complete), processedImageUrl := Some(Some(processed.value))));
      } else {
        last := Update(id, StatusPatch(Error));
      }
      UpdateSticker(last.id, last.patch);
      ghost var us := [reprocessing, last];
      assert EditRun(l0, id, newCaption, process) == us;
      ApplyAllPair(l0, us);
    }

    /** Rerun the single-sticker pipeline on the record with the id, if any. */
    method HandleRegenerateSingle(id: int, generate: Generator, process: Processor)
      modifies this
      ensures stickers == ApplyAll(old(stickers), RegenerateRun(old(stickers), id, generate, process))
      ensures trace == old(trace) + RegenerateRun(old(stickers), id, generate, process)
      ensures isProcessing == old(isProcessing)
    {
      var sticker := Find(stickers, id);
      if sticker.None? {
        return;
      }
      GenerateAndProcessSingle(sticker.value, generate, process);
    }

    /** The records handed to the archive builder: the completed ones, in
        list order, or nothing at all when none is complete. */
    method HandleExport() returns (exported: Option<seq<StickerData>>)
      ensures exported.None? <==> forall i :: 0 <= i < |stickers| ==> stickers[i].status != Complete
      ensures exported.Some? ==> exported.value == Completed(stickers) && exported.value != []
    {
      var completed := Completed(stickers);
      if |completed| == 0 {
        return None;
      }
      assert completed[0] in completed;
      return Some(completed);
    }
  }
}
