/** `insert_many`: inserting documents batch by batch (driver/src/action/insert_many.rs:91-189,
    driver/src/operation/insert.rs:129-168).

    Whether the server accepts a document is that document's fate. How many documents a batch takes,
    whether it ends in a write concern error and whether it fails altogether comes from outside.
 */
module InsertMany {
  import opened Wrappers
  import opened Errors

  type Fate = Option<WriteError>

  /** A batch of at most `size` documents that the server answered, or an operation that failed. */
  datatype Answer =
    | Answered(size: Positive, concern: Option<WriteConcernError>, labels: set<string>)
    | Failed(error: Error)

  // ---------------------------------------------------------------------
  // The server and one batch
  // ---------------------------------------------------------------------

  /** The refused documents of a batch, by position. */
  function Failures(fates: seq<Fate>): seq<IndexedWriteError> {
    if fates == [] then []
    else
      var n := |fates| - 1;
      Failures(fates[..n]) + (if fates[n].None? then [] else [IndexedWriteError(n, fates[n].value)])
  }

  predicate Lists(fs: seq<IndexedWriteError>, k: nat) { exists i | 0 <= i < |fs| :: fs[i].index == k }

  lemma ListsSnoc(fs: seq<IndexedWriteError>, f: IndexedWriteError, k: nat)
    ensures Lists(fs + [f], k) <==> Lists(fs, k) || f.index == k
  {
    var more := fs + [f];
    if Lists(fs, k) {
      var i :| 0 <= i < |fs| && fs[i].index == k;
      assert more[i].index == k;
    }
    if f.index == k {
      assert more[|fs|].index == k;
    }
    if Lists(more, k) && f.index != k {
      var i :| 0 <= i < |more| && more[i].index == k;
      assert fs[i].index == k;
    }
  }

  /** The list names refused documents only. */
  lemma {:induction false} ListedAreRefused(fates: seq<Fate>)
    ensures |Failures(fates)| <= |fates|
    ensures forall i | 0 <= i < |Failures(fates)| ::
              Failures(fates)[i].index < |fates| && fates[Failures(fates)[i].index] == Some(Failures(fates)[i].error)
  {
    if fates != [] {
      var n := |fates| - 1;
      var before, fs := Failures(fates[..n]), Failures(fates);
      ListedAreRefused(fates[..n]);
      forall i | 0 <= i < |fs|
        ensures fs[i].index < |fates| && fates[fs[i].index] == Some(fs[i].error)
      {
        if i < |before| { assert fs[i] == before[i]; }
      }
    }
  }

  /** It names each of them. */
  lemma {:induction false} RefusedIsListed(fates: seq<Fate>, k: nat)
    requires k < |fates|
    ensures fates[k].Some? <==> Lists(Failures(fates), k)
  {
    var n := |fates| - 1;
    var before := Failures(fates[..n]);
    ListedAreRefused(fates[..n]);
    if fates[n].Some? {
      ListsSnoc(before, IndexedWriteError(n, fates[n].value), k);
    } else {
      assert before + [] == before;
    }
    if k < n { RefusedIsListed(fates[..n], k); }
  }

  /** The list names refused documents only, and all of them. */
  lemma FailuresAreTheRefused(fates: seq<Fate>)
    ensures |Failures(fates)| <= |fates|
    ensures forall i | 0 <= i < |Failures(fates)| ::
              Failures(fates)[i].index < |fates| && fates[Failures(fates)[i].index] == Some(Failures(fates)[i].error)
    ensures forall k: nat | k < |fates| :: fates[k].Some? <==> Lists(Failures(fates), k)
  {
    ListedAreRefused(fates);
    forall k: nat | k < |fates|
      ensures fates[k].Some? <==> Lists(Failures(fates), k)
    {
      RefusedIsListed(fates, k);
    }
  }

  lemma NothingListedExactlyWhen(fates: seq<Fate>)
    ensures Failures(fates) == [] <==> forall i | 0 <= i < |fates| :: fates[i].None?
  {
    ListedAreRefused(fates);
    if Failures(fates) == [] {
      forall i | 0 <= i < |fates|
        ensures fates[i].None?
      {
        RefusedIsListed(fates, i);
      }
    } else {
      assert fates[Failures(fates)[0].index].Some?;
    }
  }

  /** The list is in the order of the documents. */
  lemma {:induction false} FailuresAreOrdered(fates: seq<Fate>)
    ensures forall i, j | 0 <= i < j < |Failures(fates)| :: Failures(fates)[i].index < Failures(fates)[j].index
  {
    if fates != [] {
      FailuresAreOrdered(fates[..|fates| - 1]);
      ListedAreRefused(fates[..|fates| - 1]);
    }
  }

  /** An ordered insert stops at the first refusal. */
  function Reported(ordered: bool, fs: seq<IndexedWriteError>): seq<IndexedWriteError> {
    if ordered && fs != [] then fs[..1] else fs
  }

  function IdMap(ids: seq<int>): map<nat, int> { map i: nat | i < |ids| :: ids[i] }

  function NoneIfEmpty(fs: seq<IndexedWriteError>): Option<seq<IndexedWriteError>> {
    if fs == [] then None else Some(fs)
  }

  /** The ids of the documents of a batch that were inserted. */
  function InsertedIn(ids: seq<int>, fates: seq<Fate>, ordered: bool): map<nat, int>
    requires |ids| == |fates|
  {
    var fs := Failures(fates);
    if ordered then IdMap(if fs != [] && fs[0].index < |ids| then ids[..fs[0].index] else ids)
    else map i: nat | i < |ids| && fates[i].None? :: ids[i]
  }

  /** What the insert operation makes of a batch. */
  function BatchResult(ids: seq<int>, fates: seq<Fate>, ordered: bool, concern: Option<WriteConcernError>,
                       labels: set<string>)
    : Result<map<nat, int>, Error>
    requires |ids| == |fates|
  {
    var errors := Reported(ordered, Failures(fates));
    if errors == [] && concern.None? then Ok(IdMap(ids))
    else
      var failure := InsertManyError(NoneIfEmpty(errors), concern, InsertedIn(ids, fates, ordered));
      Err(Error(ErrorKind.InsertMany(failure), labels, None, None))
  }

  /** The number of inserted documents that the server reports. */
  function ReportedCount(fates: seq<Fate>, ordered: bool): nat {
    var fs := Failures(fates);
    if ordered && fs != [] then fs[0].index else if |fs| <= |fates| then |fates| - |fs| else 0
  }

  /** `Insert::handle_response`. */
  method HandleResponse(ids: seq<int>, n: nat, ordered: bool, writeErrors: Option<seq<IndexedWriteError>>,
                        concern: Option<WriteConcernError>, labels: set<string>, ghost fates: seq<Fate>)
    returns (r: Result<map<nat, int>, Error>)
    requires |ids| == |fates| && n == ReportedCount(fates, ordered)
    requires writeErrors == NoneIfEmpty(Reported(ordered, Failures(fates)))
    ensures r == BatchResult(ids, fates, ordered, concern, labels)
  {
    ListedAreRefused(fates);
    var firstIds := IdMap(if n < |ids| then ids[..n] else ids);
    if writeErrors.None? && concern.None? {
      return Ok(firstIds);
    }
    var inserted := firstIds;
    if !ordered {
      inserted := WithoutFailed(ids, writeErrors.UnwrapOr([]));
      UnlistedAreInserted(ids, fates);
    }
    return Err(Error(ErrorKind.InsertMany(InsertManyError(writeErrors, concern, inserted)), labels, None, None));
  }

  lemma UnlistedAreInserted(ids: seq<int>, fates: seq<Fate>)
    requires |ids| == |fates|
    ensures (map i: nat | i < |ids| && !Lists(Failures(fates), i) :: ids[i]) == InsertedIn(ids, fates, false)
  {
    forall i: nat | i < |ids|
      ensures fates[i].None? <==> !Lists(Failures(fates), i)
    {
      RefusedIsListed(fates, i);
    }
  }

  method WithoutFailed(ids: seq<int>, fs: seq<IndexedWriteError>) returns (inserted: map<nat, int>)
    ensures inserted == map i: nat | i < |ids| && !Lists(fs, i) :: ids[i]
  {
    inserted := IdMap(ids);
    var k := 0;
    while k < |fs|
      invariant 0 <= k <= |fs|
      invariant inserted == map i: nat | i < |ids| && !Lists(fs[..k], i) :: ids[i]
    {
      ListsOneMore(fs, k);
      inserted := inserted - {fs[k].index};
      k := k + 1;
    }
    assert fs[..k] == fs;
  }

  lemma ListsOneMore(fs: seq<IndexedWriteError>, k: nat)
    requires k < |fs|
    ensures forall i: nat :: Lists(fs[..k + 1], i) <==> Lists(fs[..k], i) || fs[k].index == i
  {
    forall i: nat
      ensures Lists(fs[..k + 1], i) <==> Lists(fs[..k], i) || fs[k].index == i
    {
      assert fs[..k + 1][k] == fs[k];
      if Lists(fs[..k], i) {
        var j :| 0 <= j < k && fs[..k][j].index == i;
        assert fs[..k + 1][j].index == i;
      }
      if Lists(fs[..k + 1], i) && fs[k].index != i {
        var j :| 0 <= j < k + 1 && fs[..k + 1][j].index == i;
        assert fs[..k][j].index == i;
      }
    }
  }

  /** An unordered batch is accounted for: every document is inserted or refused. */
  lemma {:induction false} EveryDocumentCounts(ids: seq<int>, fates: seq<Fate>)
    requires |ids| == |fates|
    ensures |InsertedIn(ids, fates, false)| + |Failures(fates)| == |ids|
    decreases |ids|
  {
    if ids != [] {
      var n := |ids| - 1;
      EveryDocumentCounts(ids[..n], fates[..n]);
      var before, after := InsertedIn(ids[..n], fates[..n], false), InsertedIn(ids, fates, false);
      if fates[n].None? {
        assert after == before[n := ids[n]];
      } else {
        assert after == before;
      }
    }
  }

  lemma IdMapSize(ids: seq<int>)
    ensures |IdMap(ids)| == |ids|
    decreases |ids|
  {
    if ids != [] {
      var n := |ids| - 1;
      IdMapSize(ids[..n]);
      assert IdMap(ids) == IdMap(ids[..n])[n := ids[n]];
    }
  }

  // ---------------------------------------------------------------------
  // What a run of batches amounts to
  // ---------------------------------------------------------------------

  /** The first document after a run of batches. */
  function End(run: seq<Answer>, total: nat): (n: nat)
    ensures n <= total
  {
    if run == [] then 0
    else BatchEnd(run[|run| - 1], End(run[..|run| - 1], total), total)
  }

  function BatchEnd(a: Answer, from: nat, total: nat): (to: nat)
    requires from <= total
    ensures from <= to <= total
    ensures a.Answered? && from < total ==> from < to
  {
    if a.Failed? then from else if from + a.size <= total then from + a.size else total
  }

  predicate Troubled(a: Answer, fates: seq<Fate>) { a.Answered? && (Failures(fates) != [] || a.concern.Some?) }

  /** After this batch the loop goes on, if there are documents left. */
  predicate GoesOn(a: Answer, fates: seq<Fate>, ordered: bool) { a.Answered? && !(ordered && Troubled(a, fates)) }

  predicate Continues(run: seq<Answer>, fates: seq<Fate>, ordered: bool)
    decreases |run|
  {
    run != [] ==>
      var init, last := run[..|run| - 1], run[|run| - 1];
      && Continues(init, fates, ordered)
      && GoesOn(last, fates[End(init, |fates|)..End(run, |fates|)], ordered)
  }

  /** The last write concern error of a run. */
  function Concern(run: seq<Answer>): Option<WriteConcernError> {
    if run == [] then None
    else if run[|run| - 1].Answered? && run[|run| - 1].concern.Some? then run[|run| - 1].concern
    else Concern(run[..|run| - 1])
  }

  function Labels(run: seq<Answer>, fates: seq<Fate>): set<string> {
    if run == [] then {}
    else
      var init, last := run[..|run| - 1], run[|run| - 1];
      Labels(init, fates) +
      (if Troubled(last, fates[End(init, |fates|)..End(run, |fates|)]) then last.labels else {})
  }

  function Failure(fs: seq<IndexedWriteError>, concern: Option<WriteConcernError>): Option<InsertManyError> {
    if fs == [] && concern.None? then None else Some(InsertManyError(NoneIfEmpty(fs), concern, map[]))
  }

  /** The outcome of inserting documents with these fates. */
  function Conclude(ids: seq<int>, fates: seq<Fate>, ordered: bool, concern: Option<WriteConcernError>,
                    labels: set<string>)
    : Result<map<nat, int>, Error>
  {
    var failure := Failure(Reported(ordered, Failures(fates)), concern);
    if failure.None? then Ok(IdMap(ids)) else Err(Error(ErrorKind.InsertMany(failure.value), labels, None, None))
  }

  /** A run that ended the loop: all but its last batch went on, and the last one was the last. */
  predicate Ends(run: seq<Answer>, fates: seq<Fate>, ordered: bool) {
    && run != []
    && Continues(run[..|run| - 1], fates, ordered)
    && End(run[..|run| - 1], |fates|) < |fates|
    && (Continues(run, fates, ordered) ==> End(run, |fates|) == |fates|)
  }

  /** The loop terminates: every batch that lets it go on takes a document, so there are at most as many
      batches as documents. */
  lemma {:induction false} LoopTerminates(run: seq<Answer>, fates: seq<Fate>, ordered: bool)
    requires Continues(run, fates, ordered) && End(run, |fates|) < |fates|
    ensures |run| <= End(run, |fates|)
    decreases |run|
  {
    if run != [] {
      LoopTerminates(run[..|run| - 1], fates, ordered);
    }
  }

  /** A run that ended the loop has at most as many batches as there are documents. */
  lemma EndsInTime(run: seq<Answer>, fates: seq<Fate>, ordered: bool)
    requires Ends(run, fates, ordered)
    ensures |run| <= |fates|
  {
    LoopTerminates(run[..|run| - 1], fates, ordered);
  }

  // ---------------------------------------------------------------------
  // The loop
  // ---------------------------------------------------------------------

  const NO_DOCUMENTS := Error(Other("No documents provided to insert_many"), {}, None, None)

  /** `r` is `acc` with the entries of `ids` put in `offset` places higher. */
  ghost predicate Merged(r: map<nat, int>, acc: map<nat, int>, ids: map<nat, int>, offset: nat) {
    && (forall k: nat :: k in r <==> k in acc || (k >= offset && k - offset in ids))
    && (forall k: nat | k in r :: r[k] == if k >= offset && k - offset in ids then ids[k - offset] else acc[k])
  }

  function Reindexed(fs: seq<IndexedWriteError>, offset: nat): seq<IndexedWriteError> {
    seq(|fs|, i requires 0 <= i < |fs| => IndexedWriteError(offset + fs[i].index, fs[i].error))
  }

  method AddIds(acc: map<nat, int>, ids: map<nat, int>, offset: nat) returns (r: map<nat, int>)
    ensures Merged(r, acc, ids, offset)
  {
    r := acc;
    var left := ids.Keys;
    while left != {}
      invariant left <= ids.Keys
      invariant Merged(r, acc, ids - left, offset)
      decreases |left|
    {
      var index: nat :| index in left;
      MergedOneMore(r, acc, ids - left, offset, index, ids[index]);
      assert (ids - left)[index := ids[index]] == ids - (left - {index});
      r := r[index + offset := ids[index]];
      left := left - {index};
    }
    assert ids - {} == ids;
  }

  lemma MergedOneMore(r: map<nat, int>, acc: map<nat, int>, done: map<nat, int>, offset: nat, index: nat, id: int)
    requires Merged(r, acc, done, offset)
    ensures Merged(r[index + offset := id], acc, done[index := id], offset)
  {
    var r', done' := r[index + offset := id], done[index := id];
    forall k: nat
      ensures k in r' <==> k in acc || (k >= offset && k - offset in done')
    {
      assert k in r <==> k in acc || (k >= offset && k - offset in done);
    }
  }

  lemma MergedIdMaps(r: map<nat, int>, a: seq<int>, b: seq<int>)
    requires Merged(r, IdMap(a), IdMap(b), |a|)
    ensures r == IdMap(a + b)
  {
    forall k: nat
      ensures k in r <==> k < |a + b|
    {
      assert k in r <==> k in IdMap(a) || (k >= |a| && k - |a| in IdMap(b));
    }
  }

  /** Adds the failure of one batch to what has failed before. */
  method AddFailure(acc: Option<InsertManyError>, e: InsertManyError, offset: nat) returns (failure: InsertManyError)
    ensures var before := acc.UnwrapOr(InsertManyError(None, None, map[]));
            && failure.insertedIds == before.insertedIds
            && failure.writeConcernError ==
               (if e.writeConcernError.Some? then e.writeConcernError else before.writeConcernError)
            && failure.writeErrors ==
               (if e.writeErrors.None? || e.writeErrors.value == [] then before.writeErrors
                else Some(before.writeErrors.UnwrapOr([]) + Reindexed(e.writeErrors.value, offset)))
  {
    failure := acc.UnwrapOr(InsertManyError(None, None, map[]));
    if e.writeErrors.Some? {
      var es := e.writeErrors.value;
      ghost var before := failure;
      for k := 0 to |es|
        invariant failure.insertedIds == before.insertedIds && failure.writeConcernError == before.writeConcernError
        invariant failure.writeErrors == if k == 0 then before.writeErrors
                                         else Some(before.writeErrors.UnwrapOr([]) + Reindexed(es[..k], offset))
      {
        var all := failure.writeErrors.UnwrapOr([]);
        assert Reindexed(es[..k + 1], offset) ==
               Reindexed(es[..k], offset) + [IndexedWriteError(offset + es[k].index, es[k].error)];
        assert all == before.writeErrors.UnwrapOr([]) + Reindexed(es[..k], offset);
        var e := es[k].(index := offset + es[k].index);
        assert all + [e] == before.writeErrors.UnwrapOr([]) + Reindexed(es[..k + 1], offset);
        failure := failure.(writeErrors := Some(all + [e]));
      }
      assert es[..|es|] == es;
    }
    if e.writeConcernError.Some? {
      failure := failure.(writeConcernError := e.writeConcernError);
    }
  }

  lemma {:induction false} FailuresConcat(a: seq<Fate>, b: seq<Fate>)
    ensures Failures(a + b) == Failures(a) + Reindexed(Failures(b), |a|)
    decreases |b|
  {
    if b == [] {
      assert a + b == a;
    } else {
      var n := |b| - 1;
      FailuresConcat(a, b[..n]);
      assert (a + b)[..|a| + n] == a + b[..n];
    }
  }

  /** The failure accumulated over `a` and then a batch `b` is that of both together. */
  lemma FailureGrows(a: seq<Fate>, b: seq<Fate>, ca: Option<WriteConcernError>, cb: Option<WriteConcernError>,
                     ordered: bool, failure: InsertManyError)
    requires Failures(b) != [] || cb.Some?
    requires ordered ==> Failures(a) == []
    requires var before := Failure(Failures(a), ca).UnwrapOr(InsertManyError(None, None, map[]));
             var errors := Reported(ordered, Failures(b));
             && failure.insertedIds == before.insertedIds
             && failure.writeConcernError == (if cb.Some? then cb else before.writeConcernError)
             && failure.writeErrors == (if errors == [] then before.writeErrors
                                        else Some(before.writeErrors.UnwrapOr([]) + Reindexed(errors, |a|)))
    ensures Failure(Reported(ordered, Failures(a + b)), if cb.Some? then cb else ca) == Some(failure)
  {
    FailuresConcat(a, b);
    ReportedGrows(Failures(a), Failures(b), |a|, ordered);
  }

  lemma ReportedGrows(fa: seq<IndexedWriteError>, fb: seq<IndexedWriteError>, n: nat, ordered: bool)
    requires ordered ==> fa == []
    ensures Reported(ordered, fa + Reindexed(fb, n)) == fa + Reindexed(Reported(ordered, fb), n)
    ensures fb == [] ==> Reported(ordered, fa + Reindexed(fb, n)) == fa
    ensures fb != [] ==> Reported(ordered, fb) != [] && Reported(ordered, fa + Reindexed(fb, n)) != []
  {
    if ordered {
      assert fa + Reindexed(fb, n) == Reindexed(fb, n);
      if fb != [] { assert Reindexed(fb, n)[..1] == Reindexed(fb[..1], n); }
      assert fa + Reindexed(Reported(ordered, fb), n) == Reindexed(Reported(ordered, fb), n);
    }
  }

  /** What the loop has gathered from documents with these ids and fates. */
  predicate Gathered(ids: seq<int>, fates: seq<Fate>, ordered: bool, concern: Option<WriteConcernError>,
                     failure: Option<InsertManyError>, result: Option<map<nat, int>>) {
    && failure == Failure(Failures(fates), concern)
    && (ordered ==> failure.None?)
    && (failure.None? ==> result.UnwrapOr(map[]) == IdMap(ids))
  }

  /** One turn of the loop, for a batch that the server answered. */
  method TakeBatch(ids: seq<int>, fates: seq<Fate>, ordered: bool, a: Answer, from: nat, to: nat,
                   ghost concern: Option<WriteConcernError>,
                   failure: Option<InsertManyError>, result: Option<map<nat, int>>, labels: set<string>)
    returns (failure': Option<InsertManyError>, result': Option<map<nat, int>>, labels': set<string>, stop: bool,
             attempted: nat)
    requires |ids| == |fates| && a.Answered? && from < |ids| && to == BatchEnd(a, from, |ids|)
    requires Gathered(ids[..from], fates[..from], ordered, concern, failure, result)
    ensures stop <==> ordered && Troubled(a, fates[from..to])
    ensures stop ==> failure'.Some?
    ensures labels' == labels + (if Troubled(a, fates[from..to]) then a.labels else {})
    ensures var concern' := if a.concern.Some? then a.concern else concern;
            if stop then failure' == Failure(Reported(ordered, Failures(fates[..to])), concern')
            else attempted == to && Gathered(ids[..to], fates[..to], ordered, concern', failure', result')
  {
    failure', result', labels', stop, attempted := failure, result, labels, false, from;
    var ids', fates' := ids[from..to], fates[from..to];
    assert ids[..from] + ids' == ids[..to] && fates[..from] + fates' == fates[..to];
    var reply := HandleResponse(ids', ReportedCount(fates', ordered), ordered,
                                NoneIfEmpty(Reported(ordered, Failures(fates'))),
                                a.concern, a.labels, fates');
    match reply {
      case Ok(inserted) =>
        result', attempted :=
          TakeInserted(from, ids[..from], fates[..from], ids', fates', ordered, concern, failure, result, inserted);
      case Err(e) =>
        failure', attempted :=
          TakeFailure(from, ids[..from], fates[..from], ids', fates', ordered, concern, a.concern, failure, result,
                      e.kind.insertMany);
        labels' := labels + e.labels;
        stop := ordered;
    }
  }

  /** A batch in which every document was inserted. */
  method TakeInserted(from: nat, ghost ids: seq<int>, ghost before: seq<Fate>, ghost ids': seq<int>,
                      ghost fates': seq<Fate>, ordered: bool,
                      ghost concern: Option<WriteConcernError>, ghost failure: Option<InsertManyError>,
                      result: Option<map<nat, int>>, inserted: map<nat, int>)
    returns (result': Option<map<nat, int>>, attempted: nat)
    requires |ids| == |before| == from && |ids'| == |fates'| && Failures(fates') == [] && inserted == IdMap(ids')
    requires Gathered(ids, before, ordered, concern, failure, result)
    ensures attempted == |ids + ids'| && Gathered(ids + ids', before + fates', ordered, concern, failure, result')
  {
    IdMapSize(ids');
    NothingMoreRefused(before, fates');
    var merged := AddIds(result.UnwrapOr(map[]), inserted, from);
    if failure.None? { MergedIdMaps(merged, ids, ids'); }
    return Some(merged), from + |inserted|;
  }

  lemma NothingMoreRefused(a: seq<Fate>, b: seq<Fate>)
    requires Failures(b) == []
    ensures Failures(a + b) == Failures(a)
  {
    FailuresConcat(a, b);
    assert Reindexed(Failures(b), |a|) == [];
  }

  /** A batch with refused documents or a write concern error. */
  method TakeFailure(from: nat, ghost ids: seq<int>, ghost before: seq<Fate>, ghost ids': seq<int>,
                     ghost fates': seq<Fate>, ordered: bool,
                     ghost concern: Option<WriteConcernError>, ghost concern': Option<WriteConcernError>,
                     failure: Option<InsertManyError>, ghost result: Option<map<nat, int>>, e: InsertManyError)
    returns (failure': Option<InsertManyError>, attempted: nat)
    requires |ids| == |before| == from && |ids'| == |fates'| && (Failures(fates') != [] || concern'.Some?)
    requires Gathered(ids, before, ordered, concern, failure, result)
    requires e == InsertManyError(NoneIfEmpty(Reported(ordered, Failures(fates'))), concern',
                                  InsertedIn(ids', fates', ordered))
    ensures failure'.Some?
    ensures failure' ==
            Failure(Reported(ordered, Failures(before + fates')), if concern'.Some? then concern' else concern)
    ensures !ordered ==> attempted == |ids + ids'|
  {
    var size := |e.insertedIds| + |e.writeErrors.UnwrapOr([])|;
    var more := AddFailure(failure, e, from);
    FailureGrows(before, fates', concern, concern', ordered, more);
    if !ordered { EveryDocumentCounts(ids', fates'); }
    return Some(more), from + size;
  }

  /** What a finished run returns. */
  function Verdict(ids: seq<int>, fates: seq<Fate>, ordered: bool, run: seq<Answer>): Result<map<nat, int>, Error>
    requires run != [] && |ids| == |fates|
  {
    if run[|run| - 1].Failed? then Err(run[|run| - 1].error)
    else Conclude(ids, fates[..End(run, |ids|)], ordered, Concern(run), Labels(run, fates))
  }

  /** One turn of the loop extends the run by an answer. */
  lemma OneTurn(script: seq<Answer>, fates: seq<Fate>, ordered: bool, k: nat)
    requires k < |script| && Continues(script[..k], fates, ordered) && End(script[..k], |fates|) < |fates|
    ensures var run, from, a := script[..k + 1], End(script[..k], |fates|), script[k];
            var to := BatchEnd(a, from, |fates|);
            && run[..k] == script[..k] && End(run, |fates|) == to && |run| <= |fates|
            && (Continues(run, fates, ordered) <==> GoesOn(a, fates[from..to], ordered))
            && ((Continues(run, fates, ordered) && to < |fates|) || Ends(run, fates, ordered))
            && Concern(run) == (if a.Answered? && a.concern.Some? then a.concern else Concern(script[..k]))
            && Labels(run, fates) ==
               Labels(script[..k], fates) + (if Troubled(a, fates[from..to]) then a.labels else {})
  {
    var run := script[..k + 1];
    assert run[..k] == script[..k];
    if Ends(run, fates, ordered) { EndsInTime(run, fates, ordered); } else { LoopTerminates(run, fates, ordered); }
  }

  /** One turn of the loop: the next batch ends it with a verdict, or what was gathered is what the longer
      run leaves, and more documents were attempted. */
  method Turn(ids: seq<int>, fates: seq<Fate>, ordered: bool, script: seq<Answer>, k: nat,
              failure: Option<InsertManyError>, result: Option<map<nat, int>>, labels: set<string>, attempted: nat)
    returns (verdict: Option<Result<map<nat, int>, Error>>, failure': Option<InsertManyError>,
             result': Option<map<nat, int>>, labels': set<string>, attempted': nat)
    requires |ids| == |fates| && k < |script| && attempted < |ids|
    requires GatheredFrom(ids, fates, ordered, script[..k], attempted, failure, result, labels)
    ensures k + 1 <= |ids|
    ensures verdict.Some? ==>
              Ends(script[..k + 1], fates, ordered) && verdict.value == Verdict(ids, fates, ordered, script[..k + 1])
    ensures verdict.None? ==>
              && attempted < attempted' <= |ids|
              && GatheredFrom(ids, fates, ordered, script[..k + 1], attempted', failure', result', labels')
              && (attempted' == |ids| ==> Ends(script[..k + 1], fates, ordered))
  {
    failure', result', labels', attempted' := failure, result, labels, attempted;
    var a := script[k];
    OneTurn(script, fates, ordered, k);
    if a.Failed? {
      return Some(Err(a.error)), failure', result', labels', attempted';
    }
    var to, stop := BatchEnd(a, attempted, |ids|), false;
    failure', result', labels', stop, attempted' :=
      TakeBatch(ids, fates, ordered, a, attempted, to, Concern(script[..k]), failure, result, labels);
    verdict := if stop then Some(Err(Error(ErrorKind.InsertMany(failure'.value), labels', None, None))) else None;
  }

  /** The loop of `insert_many`. As many answers as there are documents are always enough. */
  method InsertAll(ids: seq<int>, fates: seq<Fate>, ordered: bool, script: seq<Answer>)
    returns (r: Option<Result<map<nat, int>, Error>>, ghost used: nat)
    requires |ids| == |fates|
    ensures used <= |script|
    ensures ids == [] ==> r == Some(Err(NO_DOCUMENTS))
    ensures r.None? ==> used == |script| && Continues(script, fates, ordered) && End(script, |ids|) < |ids|
    ensures r.Some? && ids != [] ==>
              && used > 0 && Ends(script[..used], fates, ordered)
              && r.value == Verdict(ids, fates, ordered, script[..used])
              && (script[used - 1].Failed? ==> r.value == Err(script[used - 1].error))
              && (script[used - 1].Answered? && r.value.Err? ==> r.value.error.kind.InsertMany?)
    ensures used <= |ids| && (|script| >= |ids| ==> r.Some?)
  {
    used := 0;
    if ids == [] {
      return Some(Err(NO_DOCUMENTS)), used;
    }
    var cumulativeFailure: Option<InsertManyError> := None;
    var cumulativeResult: Option<map<nat, int>> := None;
    var labels: set<string> := {};
    var attempted, k := 0, 0;
    GatheredNothing(ids, fates, ordered, script[..0]);
    while attempted < |ids|
      invariant 0 <= k <= |script| && k <= |ids| && used == k && attempted <= |ids|
      invariant GatheredFrom(ids, fates, ordered, script[..k], attempted, cumulativeFailure, cumulativeResult, labels)
      invariant attempted == |ids| ==> k > 0 && Ends(script[..k], fates, ordered)
      decreases |ids| - attempted
    {
      if k == |script| {
        assert script[..k] == script;
        LoopTerminates(script, fates, ordered);
        return None, used;
      }
      var verdict;
      verdict, cumulativeFailure, cumulativeResult, labels, attempted :=
        Turn(ids, fates, ordered, script, k, cumulativeFailure, cumulativeResult, labels, attempted);
      k, used := k + 1, used + 1;
      if verdict.Some? {
        return verdict, used;
      }
    }
    GatheredAll(ids, fates, ordered, script[..k], cumulativeFailure, cumulativeResult, labels);
    match cumulativeFailure {
      case Some(failure) => return Some(Err(Error(ErrorKind.InsertMany(failure), labels, None, None))), used;
      case None => return Some(Ok(cumulativeResult.UnwrapOr(map[]))), used;
    }
  }

  /** What the loop has gathered after a run that goes on. */
  predicate GatheredFrom(ids: seq<int>, fates: seq<Fate>, ordered: bool, run: seq<Answer>, attempted: nat,
                         failure: Option<InsertManyError>, result: Option<map<nat, int>>, labels: set<string>)
    requires |ids| == |fates| && attempted <= |ids|
  {
    && Continues(run, fates, ordered) && attempted == End(run, |ids|)
    && Gathered(ids[..attempted], fates[..attempted], ordered, Concern(run), failure, result)
    && labels == Labels(run, fates)
  }

  lemma GatheredNothing(ids: seq<int>, fates: seq<Fate>, ordered: bool, run: seq<Answer>)
    requires |ids| == |fates| && run == []
    ensures GatheredFrom(ids, fates, ordered, run, 0, None, None, {})
  {
    assert ids[..0] == [] && fates[..0] == [];
  }

  lemma GatheredAll(ids: seq<int>, fates: seq<Fate>, ordered: bool, run: seq<Answer>,
                    failure: Option<InsertManyError>, result: Option<map<nat, int>>, labels: set<string>)
    requires |ids| == |fates| && run != []
    requires GatheredFrom(ids, fates, ordered, run, |ids|, failure, result, labels)
    ensures Verdict(ids, fates, ordered, run) ==
            if failure.Some? then Err(Error(ErrorKind.InsertMany(failure.value), labels, None, None))
            else Ok(result.UnwrapOr(map[]))
  {
    assert ids[..|ids|] == ids && fates[..|ids|] == fates;
  }

  // ---------------------------------------------------------------------
  // Batching does not matter
  // ---------------------------------------------------------------------

  lemma {:induction false} ContinuedRunsAreAnswered(run: seq<Answer>, fates: seq<Fate>, ordered: bool)
    requires Continues(run, fates, ordered)
    ensures forall a | a in run :: a.Answered?
    ensures ordered ==> Failures(fates[..End(run, |fates|)]) == [] && Concern(run).None?
    decreases |run|
  {
    if run != [] {
      var init, last := run[..|run| - 1], run[|run| - 1];
      ContinuedRunsAreAnswered(init, fates, ordered);
      assert run == init + [last];
      var from, to := End(init, |fates|), End(run, |fates|);
      FailuresConcat(fates[..from], fates[from..to]);
      assert fates[..from] + fates[from..to] == fates[..to];
    }
  }

  /** The fates of the documents after a run do not change what an ordered failure in it reports. */
  lemma FirstFailureDecides(fates: seq<Fate>, to: nat)
    requires to <= |fates| && Failures(fates[..to]) != []
    ensures Failures(fates) != [] && Failures(fates)[..1] == Failures(fates[..to])[..1]
  {
    FailuresConcat(fates[..to], fates[to..]);
    assert fates[..to] + fates[to..] == fates;
  }

  function WriteErrorsOf(r: Result<map<nat, int>, Error>): seq<IndexedWriteError> {
    if r.Err? && r.error.kind.InsertMany? then r.error.kind.insertMany.writeErrors.UnwrapOr([]) else []
  }

  /** An ordered insert stopped at a write concern error before any document was refused, and a later one
      would have been. */
  predicate ConcernCameFirst(fates: seq<Fate>, ordered: bool, run: seq<Answer>)
    requires run != []
  {
    var to, last := End(run, |fates|), run[|run| - 1];
    && ordered && last.Answered? && last.concern.Some?
    && Failures(fates[..to]) == [] && Failures(fates[to..]) != []
  }

  /** An answered run reports the same write errors as one unbatched insert of all the documents, except
      when an ordered insert stopped at a batch that had nothing but a write concern error and a later
      document would have been refused. */
  lemma WriteErrorsDoNotDependOnBatches(ids: seq<int>, fates: seq<Fate>, ordered: bool, run: seq<Answer>)
    requires |ids| == |fates| && Ends(run, fates, ordered) && run[|run| - 1].Answered?
    ensures WriteErrorsOf(Verdict(ids, fates, ordered, run)) == Reported(ordered, Failures(fates)) <==>
            !ConcernCameFirst(fates, ordered, run)
  {
    var to := End(run, |ids|);
    ConcludeReports(ids, fates[..to], ordered, Concern(run), Labels(run, fates));
    if !ordered {
      assert GoesOn(run[|run| - 1], fates[End(run[..|run| - 1], |ids|)..to], ordered);
    }
    PrefixReports(fates, ordered, to);
    StoppedWithoutRefusal(fates, ordered, run);
  }

  /** A run that refused nothing and stopped before the end stopped at a write concern error. */
  lemma StoppedWithoutRefusal(fates: seq<Fate>, ordered: bool, run: seq<Answer>)
    requires Ends(run, fates, ordered) && run[|run| - 1].Answered?
    ensures var to := End(run, |fates|);
            Failures(fates[..to]) == [] && Failures(fates[to..]) != [] ==> ordered && run[|run| - 1].concern.Some?
  {
    var from, to := End(run[..|run| - 1], |fates|), End(run, |fates|);
    if Continues(run, fates, ordered) {
      assert fates[to..] == [];
    } else {
      assert fates[..from] + fates[from..to] == fates[..to];
      NothingInPart(fates[..from], fates[from..to]);
    }
  }

  lemma NothingInPart(a: seq<Fate>, b: seq<Fate>)
    ensures Failures(a + b) == [] ==> Failures(b) == []
  {
    FailuresConcat(a, b);
  }

  lemma PrefixReports(fates: seq<Fate>, ordered: bool, to: nat)
    requires to <= |fates| && (!ordered ==> to == |fates|)
    ensures Reported(ordered, Failures(fates[..to])) == Reported(ordered, Failures(fates)) <==>
            !(Failures(fates[..to]) == [] && Failures(fates[to..]) != [])
  {
    if Failures(fates[..to]) == [] {
      FailuresConcat(fates[..to], fates[to..]);
      assert fates[..to] + fates[to..] == fates;
      assert Failures(fates) == Reindexed(Failures(fates[to..]), to);
    } else if ordered {
      FirstFailureDecides(fates, to);
    } else {
      assert fates[..to] == fates;
    }
  }

  lemma ConcludeReports(ids: seq<int>, fates: seq<Fate>, ordered: bool, concern: Option<WriteConcernError>,
                        labels: set<string>)
    ensures WriteErrorsOf(Conclude(ids, fates, ordered, concern, labels)) == Reported(ordered, Failures(fates))
  {
  }

  /** Without write concern errors the whole outcome is that of one unbatched insert. */
  lemma BatchingDoesNotMatter(ids: seq<int>, fates: seq<Fate>, ordered: bool, run: seq<Answer>)
    requires |ids| == |fates| && Ends(run, fates, ordered) && run[|run| - 1].Answered? && Concern(run).None?
    ensures Verdict(ids, fates, ordered, run) == Conclude(ids, fates, ordered, None, Labels(run, fates))
  {
    var init, to := run[..|run| - 1], End(run, |ids|);
    if Continues(run, fates, ordered) {
      assert fates[..to] == fates;
    } else {
      var from := End(init, |ids|);
      FailuresConcat(fates[..from], fates[from..to]);
      assert fates[..from] + fates[from..to] == fates[..to];
      FirstFailureDecides(fates, to);
    }
  }

  /** `insert_many` succeeds exactly when every batch was answered, no document was refused and there was
      no write concern error; then every document has its id. */
  lemma SuccessMeansAll(ids: seq<int>, fates: seq<Fate>, ordered: bool, run: seq<Answer>)
    requires |ids| == |fates| && Ends(run, fates, ordered)
    ensures Verdict(ids, fates, ordered, run).Ok? <==>
            run[|run| - 1].Answered? && (forall i | 0 <= i < |fates| :: fates[i].None?) && Concern(run).None?
    ensures var r := Verdict(ids, fates, ordered, run);
            r.Ok? ==>
              && (forall i: nat :: i in r.value <==> i < |ids|)
              && (forall i | 0 <= i < |ids| :: r.value[i] == ids[i])
  {
    if run[|run| - 1].Answered? && Concern(run).None? {
      BatchingDoesNotMatter(ids, fates, ordered, run);
      NothingListedExactlyWhen(fates);
    }
  }

  /** The write concern error of batch `i` is the last one reported. */
  predicate LastConcern(run: seq<Answer>, i: nat, concern: WriteConcernError) {
    && i < |run| && run[i].Answered? && run[i].concern == Some(concern)
    && forall j | i < j < |run| :: run[j].Answered? ==> run[j].concern.None?
  }

  lemma {:induction false} ConcernIsTheLast(run: seq<Answer>, concern: WriteConcernError)
    ensures Concern(run) == Some(concern) <==> exists i: nat :: LastConcern(run, i, concern)
    decreases |run|
  {
    if run != [] {
      var n := |run| - 1;
      var init, last := run[..n], run[n];
      ConcernIsTheLast(init, concern);
      if last.Answered? && last.concern.Some? {
        if last.concern == Some(concern) { assert LastConcern(run, n, concern); }
      } else {
        if i: nat :| LastConcern(init, i, concern) { assert LastConcern(run, i, concern); }
        if i: nat :| LastConcern(run, i, concern) { assert LastConcern(init, i, concern); }
      }
    }
  }

  /** Batch `i` had refused documents or a write concern error, and its error had this label. */
  predicate LabelledBy(run: seq<Answer>, fates: seq<Fate>, i: nat, name: string) {
    && i < |run| && run[i].Answered? && name in run[i].labels
    && (|| run[i].concern.Some?
        || Failures(fates[End(run[..i], |fates|)..BatchEnd(run[i], End(run[..i], |fates|), |fates|)]) != [])
  }

  lemma {:induction false} LabelsAreTheBatches(run: seq<Answer>, fates: seq<Fate>, name: string)
    ensures name in Labels(run, fates) <==> exists i: nat :: LabelledBy(run, fates, i, name)
    decreases |run|
  {
    if run != [] {
      var n := |run| - 1;
      var init := run[..n];
      LabelsAreTheBatches(init, fates, name);
      forall i: nat | i < n ensures LabelledBy(run, fates, i, name) <==> LabelledBy(init, fates, i, name) {
        assert run[..i] == init[..i];
      }
      if name in Labels(run, fates) && name !in Labels(init, fates) { assert LabelledBy(run, fates, n, name); }
    }
  }

  /** A failure after the last batch was answered carries the last write concern error and every label the batches'
      errors had. */
  lemma FailureCarries(ids: seq<int>, fates: seq<Fate>, ordered: bool, run: seq<Answer>)
    requires |ids| == |fates| && Ends(run, fates, ordered)
    requires run[|run| - 1].Answered? && Verdict(ids, fates, ordered, run).Err?
    ensures var e := Verdict(ids, fates, ordered, run).error;
            && e.kind.InsertMany?
            && (forall c :: e.kind.insertMany.writeConcernError == Some(c) <==> exists i: nat :: LastConcern(run, i, c))
            && (forall l :: l in e.labels <==> exists i: nat :: LabelledBy(run, fates, i, l))
  {
    forall c { ConcernIsTheLast(run, c); }
    forall l { LabelsAreTheBatches(run, fates, l); }
  }

  /** What an ordered failure reports is the first refused document. */
  lemma OrderedReportsTheFirst(fates: seq<Fate>, k: nat)
    requires k < |fates| && fates[k].Some? && forall i | 0 <= i < k :: fates[i].None?
    ensures Reported(true, Failures(fates)) == [IndexedWriteError(k, fates[k].value)]
  {
    NoneRefused(fates[..k]);
    assert fates[..k + 1][..k] == fates[..k];
    assert Failures(fates[..k + 1]) == [IndexedWriteError(k, fates[k].value)];
    FirstFailureDecides(fates, k + 1);
  }

  lemma {:induction false} NoneRefused(fates: seq<Fate>)
    requires forall i | 0 <= i < |fates| :: fates[i].None?
    ensures Failures(fates) == []
  {
    if fates != [] {
      NoneRefused(fates[..|fates| - 1]);
    }
  }

  /** A batch with a write concern error only ends an ordered insert; a document that would have been
      refused goes unreported. */
  lemma ConcernHidesRefusal(w: WriteError, c: WriteConcernError)
    ensures var run, fates := [Answered(1, Some(c), {})], [None, Some(w)];
            && Ends(run, fates, true)
            && WriteErrorsOf(Verdict([7, 8], fates, true, run)) == []
            && Reported(true, Failures(fates)) == [IndexedWriteError(1, w)]
  {
    var run, fates: seq<Fate> := [Answered(1, Some(c), {})], [None, Some(w)];
    assert run[..0] == [] && End(run, 2) == 1;
    assert fates[..1] == [None] && fates[..1][..0] == [];
    assert Failures(fates[..1]) == [];
    OrderedReportsTheFirst(fates, 1);
  }
}
