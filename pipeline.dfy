/** The sticker pipeline, stated as the sequence of calls each flow makes to
    the app's mutation entry point, together with the record each flow
    leaves behind and the batches a new pack is processed in. */
module Pipeline {
  import opened Types
  import opened Records

  /** The image generator: a prompt to a raw image, or None when the call throws. */
  type Generator = string -> Option<Image>

  /** The image processor: a raw image and a caption to the finished sticker,
      or None when the call throws. */
  type Processor = (Image, string) -> Option<Image>

  /** How many stickers are generated at the same time. */
  const BatchSize: nat := 4

  function Min(a: int, b: int): int
  {
    if a <= b then a else b
  }

  /** An update that sets only the status. */
  function StatusPatch(st: Status): Patch
  {
    NoChange.(status := Some(st))
  }

  /** The statuses a sequence of updates sets, in order. The ensures clauses
      spell out the comprehension for the solver; they are not a property of it. */
  function Statuses(us: seq<Update>): (r: seq<Option<Status>>)
    ensures |r| == |us|
    ensures forall k :: 0 <= k < |us| ==> r[k] == us[k].patch.status
  {
    seq(|us|, k requires 0 <= k < |us| => us[k].patch.status)
  }

  // ---------------------------------------------------------------------
  // Generating one sticker

  /** The updates generating and processing one sticker makes: mark it
      generating, then processing with the raw image, then complete with the
      processed image; a failing call ends the run with an error. */
  function SingleRun(s: StickerData, generate: Generator, process: Processor): (us: seq<Update>)
    ensures 2 <= |us| <= 3
    ensures forall k :: 0 <= k < |us| ==> us[k].id == s.id && us[k].patch.id.None?
  {
    var started := Update(s.id, StatusPatch(Generating));
    match generate(s.visualPrompt)
    case None => [started, Update(s.id, StatusPatch(Error))]
    case Some(raw) =>
      var generated := Update(s.id, NoChange.(status := Some(Processing), rawImageUrl := Some(Some(raw))));
      match process(raw, s.caption)
      case None => [started, generated, Update(s.id, StatusPatch(Error))]
      case Some(img) =>
        [started, generated, Update(s.id, NoChange.(status := Some(Complete), processedImageUrl := Some(Some(img))))]
  }

  /** A single-sticker run sets generating, then processing together with the
      raw image, then complete together with the processed image; a failing
      generator or processor ends it with error instead. It reaches complete
      exactly when both calls succeed. */
  lemma SingleRunStatuses(s: StickerData, generate: Generator, process: Processor)
    ensures var us := SingleRun(s, generate, process);
      && Statuses(us) in {
           [Some(Generating), Some(Error)],
           [Some(Generating), Some(Processing), Some(Error)],
           [Some(Generating), Some(Processing), Some(Complete)]}
      && us[0].patch == StatusPatch(Generating)
      && (|us| == 3 ==>
           us[1].patch == NoChange.(status := Some(Processing), rawImageUrl := Some(generate(s.visualPrompt))))
      && (us[|us| - 1].patch.status == Some(Complete) <==>
           generate(s.visualPrompt).Some? && process(generate(s.visualPrompt).value, s.caption).Some?)
      && (us[|us| - 1].patch.status == Some(Complete) ==>
           us[|us| - 1].patch == NoChange.(status := Some(Complete),
             processedImageUrl := Some(process(generate(s.visualPrompt).value, s.caption))))
      && (us[|us| - 1].patch.status == Some(Error) ==> us[|us| - 1].patch == StatusPatch(Error))
  {
    var us := SingleRun(s, generate, process);
    if |us| == 2 {
      assert Statuses(us) == [Some(Generating), Some(Error)];
    } else if us[2].patch.status == Some(Error) {
      assert Statuses(us) == [Some(Generating), Some(Processing), Some(Error)];
    } else {
      assert Statuses(us) == [Some(Generating), Some(Processing), Some(Complete)];
    }
  }

  /** Reference outcome: record `e` after the single-sticker run for `job`,
      whose prompt and caption the generator and processor are given. */
  function Rerun(e: StickerData, job: StickerData, generate: Generator, process: Processor): (r: StickerData)
    ensures PlanOf(r) == PlanOf(e) && r.finalBlob == e.finalBlob
    ensures r.status == Complete || r.status == Error
    ensures r.status == Complete <==>
      generate(job.visualPrompt).Some? && process(generate(job.visualPrompt).value, job.caption).Some?
    ensures r.status == Complete ==>
      r.rawImageUrl == generate(job.visualPrompt) &&
      r.processedImageUrl == process(generate(job.visualPrompt).value, job.caption)
    ensures r.status == Error ==> r.processedImageUrl == e.processedImageUrl
    ensures r.status == Error ==>
      r.rawImageUrl == (if generate(job.visualPrompt).Some? then generate(job.visualPrompt) else e.rawImageUrl)
  {
    match generate(job.visualPrompt)
    case None => e.(status := Error)
    case Some(raw) =>
      match process(raw, job.caption)
      case None => e.(status := Error, rawImageUrl := Some(raw))
      case Some(img) => e.(status := Complete, rawImageUrl := Some(raw), processedImageUrl := Some(img))
  }

  /** Successive merges of the patches of `us` into one record. */
  function MergeAll(s: StickerData, us: seq<Update>): StickerData
    decreases |us|
  {
    if us == [] then s else MergeAll(Merge(s, us[0].patch), us[1..])
  }

  /** Merging a run of two or three updates, written out. */
  lemma MergeAllShort(s: StickerData, us: seq<Update>)
    requires 2 <= |us| <= 3
    ensures MergeAll(s, us) ==
      if |us| == 2 then Merge(Merge(s, us[0].patch), us[1].patch)
      else Merge(Merge(Merge(s, us[0].patch), us[1].patch), us[2].patch)
  {
    var s1 := Merge(s, us[0].patch);
    var s2 := Merge(s1, us[1].patch);
    assert MergeAll(s, us) == MergeAll(s1, us[1..]);
    assert us[1..][1..] == us[2..];
    assert MergeAll(s1, us[1..]) == MergeAll(s2, us[2..]);
    if |us| == 3 {
      assert us[2..][1..] == [];
      assert MergeAll(s2, us[2..]) == MergeAll(Merge(s2, us[2].patch), []);
    } else {
      assert us[2..] == [];
    }
  }

  /** Updates that all target one id act on the records with that id as
      successive merges and leave every other record alone. */
  lemma {:induction false} ApplyAllSameId(l: seq<StickerData>, id: int, us: seq<Update>)
    requires forall k :: 0 <= k < |us| ==> us[k].id == id && us[k].patch.id.None?
    ensures forall i :: 0 <= i < |l| ==>
      ApplyAll(l, us)[i] == if l[i].id == id then MergeAll(l[i], us) else l[i]
    decreases |us|
  {
    if us != [] {
      var l' := Updated(l, id, us[0].patch);
      ApplyAllSameId(l', id, us[1..]);
      forall i | 0 <= i < |l|
        ensures ApplyAll(l, us)[i] == if l[i].id == id then MergeAll(l[i], us) else l[i]
      {
        assert l'[i].id == l[i].id;
      }
    }
  }

  /** One single-sticker run turns every record with the job's id into its
      reference outcome and leaves the others alone. */
  lemma SingleRunEffect(l: seq<StickerData>, job: StickerData, generate: Generator, process: Processor)
    ensures forall i :: 0 <= i < |l| ==>
      ApplyAll(l, SingleRun(job, generate, process))[i] ==
        if l[i].id == job.id then Rerun(l[i], job, generate, process) else l[i]
  {
    var us := SingleRun(job, generate, process);
    ApplyAllSameId(l, job.id, us);
    forall i | 0 <= i < |l| && l[i].id == job.id
      ensures MergeAll(l[i], us) == Rerun(l[i], job, generate, process)
    {
      SingleRunMerges(l[i], job, generate, process);
    }
  }

  /** On one record, the merges of a single-sticker run give the reference outcome. */
  lemma SingleRunMerges(e: StickerData, job: StickerData, generate: Generator, process: Processor)
    ensures MergeAll(e, SingleRun(job, generate, process)) == Rerun(e, job, generate, process)
  {
    var us := SingleRun(job, generate, process);
    MergeAllShort(e, us);
    var started := Merge(e, us[0].patch);
    assert started == e.(status := Generating);
    if generate(job.visualPrompt).Some? {
      var raw := generate(job.visualPrompt).value;
      assert Merge(started, us[1].patch) == e.(status := Processing, rawImageUrl := Some(raw));
    }
  }

  // ---------------------------------------------------------------------
  // Generating a whole pack

  /** One pending record per plan, in plan order. */
  function Seed(plans: seq<StickerPlan>): (l: seq<StickerData>)
    ensures |l| == |plans|
    ensures forall i :: 0 <= i < |plans| ==>
      PlanOf(l[i]) == plans[i] && l[i].status == Pending &&
      l[i].rawImageUrl.None? && l[i].processedImageUrl.None? && l[i].finalBlob.None?
  {
    seq(|plans|, i requires 0 <= i < |plans| => Seeded(plans[i]))
  }

  /** The updates of running every job once, in list order. */
  function PackRun(jobs: seq<StickerData>, generate: Generator, process: Processor): seq<Update>
    decreases |jobs|
  {
    if jobs == [] then []
    else SingleRun(jobs[0], generate, process) + PackRun(jobs[1..], generate, process)
  }

  /** A pack run only targets the jobs' ids and never rewrites an id. */
  lemma {:induction false} PackRunTargets(jobs: seq<StickerData>, generate: Generator, process: Processor)
    ensures forall k :: 0 <= k < |PackRun(jobs, generate, process)| ==>
      PackRun(jobs, generate, process)[k].patch.id.None? &&
      PackRun(jobs, generate, process)[k].id in Ids(jobs)
    decreases |jobs|
  {
    if jobs != [] {
      PackRunTargets(jobs[1..], generate, process);
      var first := SingleRun(jobs[0], generate, process);
      var us := PackRun(jobs, generate, process);
      forall k | 0 <= k < |us|
        ensures us[k].patch.id.None? && us[k].id in Ids(jobs)
      {
        var rest := PackRun(jobs[1..], generate, process);
        assert us == first + rest;
        if k >= |first| {
          var k' := k - |first|;
          assert us[k] == rest[k'];
          var id := rest[k'].id;
          var tail := Ids(jobs[1..]);
          assert id in tail;
          var m :| 0 <= m < |tail| && tail[m] == id;
          assert Ids(jobs)[m + 1] == id;
        } else {
          assert us[k] == first[k];
          assert Ids(jobs)[0] == jobs[0].id;
        }
      }
    }
  }

  /** Running two lists of jobs one after the other is running their concatenation. */
  lemma {:induction false} PackRunAppend(a: seq<StickerData>, b: seq<StickerData>, generate: Generator, process: Processor)
    ensures PackRun(a + b, generate, process) == PackRun(a, generate, process) + PackRun(b, generate, process)
    decreases |a|
  {
    if a == [] {
      assert a + b == b;
    } else {
      assert (a + b)[0] == a[0] && (a + b)[1..] == a[1..] + b;
      PackRunAppend(a[1..], b, generate, process);
    }
  }

  /** Running one more job after a list of jobs. */
  lemma PackRunSnoc(l: seq<StickerData>, before: seq<StickerData>, job: StickerData, generate: Generator, process: Processor)
    ensures PackRun(before + [job], generate, process) ==
      PackRun(before, generate, process) + SingleRun(job, generate, process)
    ensures ApplyAll(l, PackRun(before + [job], generate, process)) ==
      ApplyAll(ApplyAll(l, PackRun(before, generate, process)), SingleRun(job, generate, process))
  {
    PackRunAppend(before, [job], generate, process);
    assert [job][1..] == [];
    assert PackRun([job], generate, process) == SingleRun(job, generate, process) + [];
    ApplyAllAppend(l, PackRun(before, generate, process), SingleRun(job, generate, process));
  }

  /** Running one more batch after a list of jobs. */
  lemma PackRunThen(l: seq<StickerData>, before: seq<StickerData>, batch: seq<StickerData>, generate: Generator, process: Processor)
    ensures PackRun(before + batch, generate, process) ==
      PackRun(before, generate, process) + PackRun(batch, generate, process)
    ensures ApplyAll(l, PackRun(before + batch, generate, process)) ==
      ApplyAll(ApplyAll(l, PackRun(before, generate, process)), PackRun(batch, generate, process))
  {
    PackRunAppend(before, batch, generate, process);
    ApplyAllAppend(l, PackRun(before, generate, process), PackRun(batch, generate, process));
  }

  /** One round of the batch loop: the slice starting at `i` is the next
      batch, and running it extends the run of the prefix before it. */
  lemma NextBatch(l: seq<StickerData>, jobs: seq<StickerData>, i: int, generate: Generator, process: Processor)
    requires 0 <= i < |jobs|
    ensures var end := Min(i + BatchSize, |jobs|);
      Batches(jobs[i..]) == [jobs[i..end]] + Batches(jobs[end..]) &&
      PackRun(jobs[..end], generate, process) ==
        PackRun(jobs[..i], generate, process) + PackRun(jobs[i..end], generate, process) &&
      ApplyAll(l, PackRun(jobs[..end], generate, process)) ==
        ApplyAll(ApplyAll(l, PackRun(jobs[..i], generate, process)), PackRun(jobs[i..end], generate, process))
  {
    var end := Min(i + BatchSize, |jobs|);
    BatchesStep(jobs, i);
    PackRunThen(l, jobs[..i], jobs[i..end], generate, process);
    assert jobs[..i] + jobs[i..end] == jobs[..end];
  }

  /** With distinct job ids, every record ends as the reference outcome of
      the job with its id, or untouched when no job has its id: each record
      is affected by its own run only. */
  lemma {:induction false} PackEffect(l: seq<StickerData>, jobs: seq<StickerData>, generate: Generator, process: Processor)
    requires DistinctIds(jobs)
    ensures forall i :: 0 <= i < |l| ==>
      ApplyAll(l, PackRun(jobs, generate, process))[i] ==
        match Find(jobs, l[i].id)
        case None => l[i]
        case Some(job) => Rerun(l[i], job, generate, process)
    decreases |jobs|
  {
    if jobs != [] {
      var first := SingleRun(jobs[0], generate, process);
      var rest := PackRun(jobs[1..], generate, process);
      ApplyAllAppend(l, first, rest);
      var l' := ApplyAll(l, first);
      SingleRunEffect(l, jobs[0], generate, process);
      assert DistinctIds(jobs[1..]);
      PackEffect(l', jobs[1..], generate, process);
      assert PackRun(jobs, generate, process) == first + rest;
      forall i | 0 <= i < |l|
        ensures ApplyAll(l, PackRun(jobs, generate, process))[i] ==
          match Find(jobs, l[i].id)
          case None => l[i]
          case Some(job) => Rerun(l[i], job, generate, process)
      {
        var id := l[i].id;
        assert l'[i].id == id;
        if id == jobs[0].id {
          assert l'[i] == Rerun(l[i], jobs[0], generate, process);
          forall k | 0 <= k < |jobs[1..]|
            ensures jobs[1..][k].id != id
          {
            assert jobs[1..][k] == jobs[k + 1];
          }
          assert Find(jobs[1..], id).None?;
        } else {
          assert l'[i] == l[i];
          assert Find(jobs, id) == Find(jobs[1..], id);
        }
      }
    }
  }

  /** A new pack with distinct plan ids ends with one record per plan, in
      plan order, each the outcome of its own generate-and-process run. */
  lemma PackOutcome(plans: seq<StickerPlan>, generate: Generator, process: Processor)
    requires forall i, j :: 0 <= i < j < |plans| ==> plans[i].id != plans[j].id
    ensures var seed := Seed(plans);
      var r := ApplyAll(seed, PackRun(seed, generate, process));
      |r| == |plans| &&
      forall i :: 0 <= i < |plans| ==>
        r[i] == Rerun(seed[i], seed[i], generate, process) &&
        PlanOf(r[i]) == plans[i] &&
        (r[i].status == Complete || r[i].status == Error)
  {
    var seed := Seed(plans);
    assert DistinctIds(seed) by {
      forall i, j | 0 <= i < j < |seed|
        ensures seed[i].id != seed[j].id
      {
        assert PlanOf(seed[i]) == plans[i] && PlanOf(seed[j]) == plans[j];
      }
    }
    PackEffect(seed, seed, generate, process);
    forall i | 0 <= i < |seed|
      ensures Find(seed, seed[i].id) == Some(seed[i])
    {
      FindDistinct(seed, i);
    }
  }

  // ---------------------------------------------------------------------
  // Batches

  /** Consecutive slices of `BatchSize` records from position 0, the last
      possibly shorter. */
  function Batches<T>(l: seq<T>): seq<seq<T>>
    decreases |l|
  {
    if l == [] then []
    else
      var n := Min(BatchSize, |l|);
      [l[..n]] + Batches(l[n..])
  }

  /** The batches joined back together. */
  function Flatten<T>(bs: seq<seq<T>>): seq<T>
    decreases |bs|
  {
    if bs == [] then [] else bs[0] + Flatten(bs[1..])
  }

  /** The first batch of a suffix, and the batches after it. */
  lemma BatchesStep<T>(l: seq<T>, i: int)
    requires 0 <= i < |l|
    ensures Batches(l[i..]) == [l[i..Min(i + BatchSize, |l|)]] + Batches(l[Min(i + BatchSize, |l|)..])
  {
    var n := Min(BatchSize, |l| - i);
    assert l[i..][..n] == l[i..Min(i + BatchSize, |l|)];
    assert l[i..][n..] == l[Min(i + BatchSize, |l|)..];
  }

  /** The batches concatenate back to the list. */
  lemma {:induction false} BatchesFlatten<T>(l: seq<T>)
    ensures Flatten(Batches(l)) == l
    decreases |l|
  {
    if l != [] {
      var n := Min(BatchSize, |l|);
      BatchesFlatten(l[n..]);
      assert Batches(l)[1..] == Batches(l[n..]);
      assert l[..n] + l[n..] == l;
    }
  }

  /** There are as many batches as the batch size divides into the list,
      rounded up. */
  lemma {:induction false} BatchesCount<T>(l: seq<T>)
    ensures |Batches(l)| == (|l| + BatchSize - 1) / BatchSize
    decreases |l|
  {
    if l != [] {
      var n := Min(BatchSize, |l|);
      BatchesCount(l[n..]);
    }
  }

  /** Batch `j` is the slice that starts at `j * BatchSize`; it is non-empty
      and holds at most `BatchSize` items. */
  lemma {:induction false} BatchesSlices<T>(l: seq<T>)
    ensures var bs := Batches(l);
      forall j :: 0 <= j < |bs| ==>
        0 < |bs[j]| <= BatchSize && j * BatchSize < |l| &&
        bs[j] == l[j * BatchSize .. Min(j * BatchSize + BatchSize, |l|)]
    decreases |l|
  {
    if l != [] {
      var n := Min(BatchSize, |l|);
      var tail := l[n..];
      BatchesSlices(tail);
      var bs := Batches(l);
      assert bs[1..] == Batches(tail);
      forall j | 1 <= j < |bs|
        ensures 0 < |bs[j]| <= BatchSize && j * BatchSize < |l| &&
          bs[j] == l[j * BatchSize .. Min(j * BatchSize + BatchSize, |l|)]
      {
        assert bs[j] == Batches(tail)[j - 1];
        assert n == BatchSize;
      }
    }
  }

  /** A full pack of sixteen records runs as four batches of four. */
  lemma SixteenRecordsFourBatches<T>(l: seq<T>)
    requires |l| == 16
    ensures |Batches(l)| == 4
    ensures forall j :: 0 <= j < 4 ==> |Batches(l)[j]| == 4
  {
    BatchesCount(l);
    BatchesSlices(l);
  }

  // ---------------------------------------------------------------------
  // Editing a caption

  /** A raw image counts only when it is set and non-empty. */
  predicate HasRaw(s: StickerData)
  {
    s.rawImageUrl.Some? && s.rawImageUrl.value != ""
  }

  /** The updates a caption edit makes: none when the id is unknown or the
      record has no raw image; otherwise mark it processing with the new
      caption, then complete with the reprocessed image, or error. */
  function EditRun(l: seq<StickerData>, id: int, caption: string, process: Processor): (us: seq<Update>)
    ensures us == [] <==> Find(l, id).None? || !HasRaw(Find(l, id).value)
    ensures forall k :: 0 <= k < |us| ==>
      us[k].id == id && us[k].patch.id.None? && us[k].patch.rawImageUrl.None?
    ensures us != [] ==>
      var raw := Find(l, id).value.rawImageUrl.value;
      |us| == 2 &&
      us[0].patch == NoChange.(status := Some(Processing), caption := Some(caption)) &&
      us[1].patch == match process(raw, caption)
        case None => StatusPatch(Error)
        case Some(img) => NoChange.(status := Some(Complete), processedImageUrl := Some(Some(img)))
  {
    match Find(l, id)
    case None => []
    case Some(s) =>
      if !HasRaw(s) then []
      else
        var reprocessing := Update(id, NoChange.(status := Some(Processing), caption := Some(caption)));
        match process(s.rawImageUrl.value, caption)
        case None => [reprocessing, Update(id, StatusPatch(Error))]
        case Some(img) =>
          [reprocessing, Update(id, NoChange.(status := Some(Complete), processedImageUrl := Some(Some(img))))]
  }

  /** Reference outcome: record `e` after its caption is edited to `caption`
      and its raw image `raw` reprocessed. */
  function Edited(e: StickerData, raw: Image, caption: string, process: Processor): (r: StickerData)
    ensures r.id == e.id && r.emotion == e.emotion && r.visualPrompt == e.visualPrompt
    ensures r.caption == caption && r.rawImageUrl == e.rawImageUrl
    ensures r.status == Complete || r.status == Error
    ensures r.status == Complete <==> process(raw, caption).Some?
    ensures r.status == Complete ==> r.processedImageUrl == process(raw, caption)
    ensures r.finalBlob == e.finalBlob
    ensures r.status == Error ==> r.processedImageUrl == e.processedImageUrl
  {
    match process(raw, caption)
    case None => e.(caption := caption, status := Error)
    case Some(img) => e.(caption := caption, status := Complete, processedImageUrl := Some(img))
  }

  /** A caption edit for an unknown id, or for a record without a raw image,
      changes nothing. */
  lemma EditNoOp(l: seq<StickerData>, id: int, caption: string, process: Processor)
    requires Find(l, id).None? || !HasRaw(Find(l, id).value)
    ensures ApplyAll(l, EditRun(l, id, caption, process)) == l
  {
  }

  /** On one record with the id, the two merges of a caption edit give its
      edited form. */
  lemma EditMerges(e: StickerData, l: seq<StickerData>, id: int, caption: string, process: Processor)
    requires Find(l, id).Some? && HasRaw(Find(l, id).value)
    ensures MergeAll(e, EditRun(l, id, caption, process)) ==
      Edited(e, Find(l, id).value.rawImageUrl.value, caption, process)
  {
    var us := EditRun(l, id, caption, process);
    MergeAllShort(e, us);
    assert Merge(e, us[0].patch) == e.(status := Processing, caption := caption);
  }

  /** A caption edit that can run turns every record with the id into its
      edited form, reusing the raw image of the first such record, and leaves
      the other records alone. */
  lemma EditEffect(l: seq<StickerData>, id: int, caption: string, process: Processor)
    requires Find(l, id).Some? && HasRaw(Find(l, id).value)
    ensures forall i :: 0 <= i < |l| ==>
      ApplyAll(l, EditRun(l, id, caption, process))[i] ==
        if l[i].id == id then Edited(l[i], Find(l, id).value.rawImageUrl.value, caption, process) else l[i]
  {
    ApplyAllSameId(l, id, EditRun(l, id, caption, process));
    forall i | 0 <= i < |l| && l[i].id == id
      ensures MergeAll(l[i], EditRun(l, id, caption, process)) ==
        Edited(l[i], Find(l, id).value.rawImageUrl.value, caption, process)
    {
      EditMerges(l[i], l, id, caption, process);
    }
  }

  /** After a caption edit the first record with the id still has the same
      raw image, so the same edit again issues the same updates. */
  lemma EditRunStable(l: seq<StickerData>, id: int, caption: string, process: Processor)
    ensures var us := EditRun(l, id, caption, process);
      EditRun(ApplyAll(l, us), id, caption, process) == us
  {
    var us := EditRun(l, id, caption, process);
    if us != [] {
      var mid := Updated(l, id, us[0].patch);
      ApplyAllPair(l, us);
      FindUpdated(l, id, us[0].patch);
      FindUpdated(mid, id, us[1].patch);
      var s := Find(l, id).value;
      var s' := Merge(Merge(s, us[0].patch), us[1].patch);
      assert Find(ApplyAll(l, us), id) == Some(s');
      assert s'.rawImageUrl == s.rawImageUrl;
    }
  }

  /** Editing a caption twice to the same text ends where editing it once
      does. */
  lemma EditIdempotent(l: seq<StickerData>, id: int, caption: string, process: Processor)
    ensures var once := ApplyAll(l, EditRun(l, id, caption, process));
      ApplyAll(once, EditRun(once, id, caption, process)) == once
  {
    var us := EditRun(l, id, caption, process);
    var once := ApplyAll(l, us);
    EditRunStable(l, id, caption, process);
    if us != [] {
      ApplyAllSameId(l, id, us);
      ApplyAllSameId(once, id, us);
      forall i | 0 <= i < |l|
        ensures ApplyAll(once, us)[i] == once[i]
      {
        if l[i].id == id {
          MergeAllShort(l[i], us);
          MergeAllShort(once[i], us);
          MergeRepeat(l[i], us[0].patch, us[1].patch);
        }
      }
    }
  }

  // ---------------------------------------------------------------------
  // Regenerating one sticker

  /** The updates regenerating a sticker makes: none for an unknown id,
      otherwise a single-sticker run on the first record with that id. */
  function RegenerateRun(l: seq<StickerData>, id: int, generate: Generator, process: Processor): (us: seq<Update>)
    ensures us == [] <==> Find(l, id).None?
    ensures forall k :: 0 <= k < |us| ==> us[k].id == id && us[k].patch.id.None?
  {
    match Find(l, id)
    case None => []
    case Some(s) => SingleRun(s, generate, process)
  }

  /** Regenerating turns the records with the id into their rerun outcome and
      leaves the others alone. */
  lemma RegenerateEffect(l: seq<StickerData>, id: int, generate: Generator, process: Processor)
    requires Find(l, id).Some?
    ensures forall i :: 0 <= i < |l| ==>
      ApplyAll(l, RegenerateRun(l, id, generate, process))[i] ==
        if l[i].id == id then Rerun(l[i], Find(l, id).value, generate, process) else l[i]
  {
    SingleRunEffect(l, Find(l, id).value, generate, process);
  }

  /** Regenerating a complete record first marks it generating while its
      processed image is still set. */
  lemma RegenerateKeepsStaleImage(l: seq<StickerData>, i: int, generate: Generator, process: Processor)
    requires 0 <= i < |l| && l[i].status == Complete && l[i].processedImageUrl.Some?
    ensures var us := RegenerateRun(l, l[i].id, generate, process);
      var started := Updated(l, l[i].id, us[0].patch);
      started[i].status == Generating && started[i].processedImageUrl.Some?
  {
    var id := l[i].id;
    assert Ids(l)[i] == id;
    var us := RegenerateRun(l, id, generate, process);
    assert us == SingleRun(Find(l, id).value, generate, process);
    assert us[0].patch == StatusPatch(Generating);
    assert Updated(l, id, us[0].patch)[i] == Merge(l[i], StatusPatch(Generating));
  }
}
