/** The pure operations the app performs on its list of sticker records:
    merging a partial record, updating by id, finding by id, and selecting
    the completed records. */
module Records {
  import opened Types

  /** A partial record: a field that is `Some` is a key present in the
      update, a field that is `None` is a key the update does not mention. */
  datatype Patch = Patch(
    id: Option<int>,
    emotion: Option<Emotion>,
    visualPrompt: Option<string>,
    caption: Option<string>,
    status: Option<Status>,
    rawImageUrl: Option<Option<Image>>,
    processedImageUrl: Option<Option<Image>>,
    finalBlob: Option<Option<Blob>>)

  /** The update that mentions no key. */
  const NoChange: Patch := Patch(None, None, None, None, None, None, None, None)

  /** One call of the app's single mutation entry point. */
  datatype Update = Update(id: int, patch: Patch)

  /** The value a key ends up with: the update's if present, else the old one. */
  function Pick<T>(present: Option<T>, current: T): T
  {
    if present.Some? then present.value else current
  }

  /** The record with the update spread over it: every key present in `u`
      overwrites, the others are kept. */
  function Merge(s: StickerData, u: Patch): StickerData
  {
    StickerData(
      Pick(u.id, s.id),
      Pick(u.emotion, s.emotion),
      Pick(u.visualPrompt, s.visualPrompt),
      Pick(u.caption, s.caption),
      Pick(u.status, s.status),
      Pick(u.rawImageUrl, s.rawImageUrl),
      Pick(u.processedImageUrl, s.processedImageUrl),
      Pick(u.finalBlob, s.finalBlob))
  }

  /** Repeating a pair of updates on a record they already reached changes nothing. */
  lemma MergeRepeat(s: StickerData, u: Patch, v: Patch)
    ensures Merge(Merge(Merge(Merge(s, u), v), u), v) == Merge(Merge(s, u), v)
  {
  }

  /** Concatenation is associative (a hint for the solver). */
  lemma AppendAssoc<T>(a: seq<T>, b: seq<T>, c: seq<T>)
    ensures a + b + c == a + (b + c)
  {
  }

  /** The ids of the records, in list order. The ensures clauses spell out
      the comprehension for the solver; they are not a property of it. */
  function Ids(l: seq<StickerData>): (r: seq<int>)
    ensures |r| == |l|
    ensures forall i :: 0 <= i < |l| ==> r[i] == l[i].id
  {
    seq(|l|, i requires 0 <= i < |l| => l[i].id)
  }

  /** No two records share an id. */
  predicate DistinctIds(l: seq<StickerData>)
  {
    forall i, j :: 0 <= i < j < |l| ==> l[i].id != l[j].id
  }

  /** Every record with the id merged with the update, every other record as
      it was, in list order. */
  function Updated(l: seq<StickerData>, id: int, u: Patch): (r: seq<StickerData>)
    ensures |r| == |l|
    ensures forall i :: 0 <= i < |l| ==> r[i] == if l[i].id == id then Merge(l[i], u) else l[i]
    decreases |l|
  {
    if l == [] then []
    else [if l[0].id == id then Merge(l[0], u) else l[0]] + Updated(l[1..], id, u)
  }

  /** An update that does not rewrite ids keeps the list's length, order and
      ids; an update for an unknown id changes nothing. */
  lemma UpdatedKeepsIds(l: seq<StickerData>, id: int, u: Patch)
    ensures u.id.None? ==> Ids(Updated(l, id, u)) == Ids(l)
    ensures id !in Ids(l) ==> Updated(l, id, u) == l
  {
  }

  /** The list after a sequence of calls of the mutation entry point, in order. */
  function ApplyAll(l: seq<StickerData>, us: seq<Update>): (r: seq<StickerData>)
    ensures |r| == |l|
    decreases |us|
  {
    if us == [] then l else ApplyAll(Updated(l, us[0].id, us[0].patch), us[1..])
  }

  /** Updates that do not rewrite ids keep the list's ids and their order. */
  lemma {:induction false} ApplyAllKeepsIds(l: seq<StickerData>, us: seq<Update>)
    requires forall k :: 0 <= k < |us| ==> us[k].patch.id.None?
    ensures Ids(ApplyAll(l, us)) == Ids(l)
    decreases |us|
  {
    if us != [] {
      ApplyAllKeepsIds(Updated(l, us[0].id, us[0].patch), us[1..]);
    }
  }

  /** Applying two sequences of updates is applying their concatenation. */
  lemma {:induction false} ApplyAllAppend(l: seq<StickerData>, us: seq<Update>, vs: seq<Update>)
    ensures ApplyAll(l, us + vs) == ApplyAll(ApplyAll(l, us), vs)
    decreases |us|
  {
    if us == [] {
      assert us + vs == vs;
    } else {
      assert (us + vs)[1..] == us[1..] + vs;
      ApplyAllAppend(Updated(l, us[0].id, us[0].patch), us[1..], vs);
    }
  }

  /** One more update after a sequence of them. */
  lemma ApplyAllSnoc(l: seq<StickerData>, us: seq<Update>, u: Update)
    ensures ApplyAll(l, us + [u]) == Updated(ApplyAll(l, us), u.id, u.patch)
  {
    ApplyAllAppend(l, us, [u]);
    var last := ApplyAll(l, us);
    assert ApplyAll(last, [u]) == ApplyAll(Updated(last, u.id, u.patch), []);
  }

  /** Two updates, written out. */
  lemma ApplyAllPair(l: seq<StickerData>, us: seq<Update>)
    requires |us| == 2
    ensures ApplyAll(l, us) == Updated(Updated(l, us[0].id, us[0].patch), us[1].id, us[1].patch)
  {
    var mid := Updated(l, us[0].id, us[0].patch);
    assert ApplyAll(l, us) == ApplyAll(mid, us[1..]);
    assert us[1..][1..] == [];
    assert ApplyAll(mid, us[1..]) == ApplyAll(Updated(mid, us[1].id, us[1].patch), []);
  }

  /** Updates that target other ids leave a record alone, provided they do not
      rewrite ids. */
  lemma {:induction false} ApplyAllOthers(l: seq<StickerData>, us: seq<Update>, i: int)
    requires 0 <= i < |l|
    requires forall k :: 0 <= k < |us| ==> us[k].id != l[i].id && us[k].patch.id.None?
    ensures ApplyAll(l, us)[i] == l[i]
    decreases |us|
  {
    if us != [] {
      ApplyAllOthers(Updated(l, us[0].id, us[0].patch), us[1..], i);
    }
  }

  /** The first record with that id, if any. */
  function Find(l: seq<StickerData>, id: int): (r: Option<StickerData>)
    ensures r.None? <==> id !in Ids(l)
    ensures r.Some? ==> r.value in l && r.value.id == id
    decreases |l|
  {
    if l == [] then None
    else if l[0].id == id then Some(l[0])
    else Find(l[1..], id)
  }

  /** The lookup returns the first record with the id: one at some position
      that no earlier record with the id precedes. */
  lemma {:induction false} FindFirst(l: seq<StickerData>, id: int)
    ensures Find(l, id).Some? ==>
      exists i :: 0 <= i < |l| && l[i] == Find(l, id).value &&
        forall j :: 0 <= j < i ==> l[j].id != id
    decreases |l|
  {
    if l != [] {
      if l[0].id == id {
        assert l[0] == Find(l, id).value;
      } else {
        FindFirst(l[1..], id);
        if Find(l, id).Some? {
          var k :| 0 <= k < |l[1..]| && l[1..][k] == Find(l, id).value &&
            forall j :: 0 <= j < k ==> l[1..][j].id != id;
          assert l[k + 1] == Find(l, id).value;
          forall j | 0 <= j < k + 1
            ensures l[j].id != id
          {
            if j > 0 {
              assert l[j] == l[1..][j - 1];
            }
          }
        }
      }
    }
  }

  /** With distinct ids, looking up a record's id finds that record. */
  lemma FindDistinct(l: seq<StickerData>, i: int)
    requires DistinctIds(l)
    requires 0 <= i < |l|
    ensures Find(l, l[i].id) == Some(l[i])
  {
  }

  /** Find on an updated list finds the updated form of the same record, as
      long as the update does not rewrite ids. */
  lemma {:induction false} FindUpdated(l: seq<StickerData>, id: int, u: Patch)
    requires u.id.None?
    ensures Find(Updated(l, id, u), id) ==
      match Find(l, id) case None => None case Some(s) => Some(Merge(s, u))
    decreases |l|
  {
    if l != [] && l[0].id != id {
      assert Updated(l, id, u)[1..] == Updated(l[1..], id, u);
      FindUpdated(l[1..], id, u);
    }
  }

  /** The complete records, in list order. */
  function Completed(l: seq<StickerData>): (r: seq<StickerData>)
    ensures |r| <= |l|
    ensures forall x :: x in r <==> x in l && x.status == Complete
    decreases |l|
  {
    if l == [] then []
    else (if l[0].status == Complete then [l[0]] else []) + Completed(l[1..])
  }

  /** The selection keeps list order: it distributes over concatenation. */
  lemma {:induction false} CompletedAppend(a: seq<StickerData>, b: seq<StickerData>)
    ensures Completed(a + b) == Completed(a) + Completed(b)
    decreases |a|
  {
    if a == [] {
      assert a + b == b;
    } else {
      assert (a + b)[0] == a[0] && (a + b)[1..] == a[1..] + b;
      CompletedAppend(a[1..], b);
      var head := if a[0].status == Complete then [a[0]] else [];
      assert Completed(a + b) == head + (Completed(a[1..]) + Completed(b));
      assert Completed(a) == head + Completed(a[1..]);
    }
  }

  /** A list whose records are all complete is selected whole. */
  lemma {:induction false} CompletedAll(l: seq<StickerData>)
    requires forall i :: 0 <= i < |l| ==> l[i].status == Complete
    ensures Completed(l) == l
    decreases |l|
  {
    if l != [] {
      CompletedAll(l[1..]);
    }
  }
}
