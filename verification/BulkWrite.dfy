/** Client-level bulk writes: running the batches and merging what they report
    (driver/src/action/bulk_write.rs:119-160, 198-282, driver/src/error/bulk_write.rs:43-70,
    driver/src/results/bulk_write.rs:96-155, driver/src/operation/bulk_write.rs:244-296).
 */
module BulkWrites {
  import opened Wrappers
  import opened Errors

  // ---------------------------------------------------------------------
  // Merging
  // ---------------------------------------------------------------------

  function MergeSummary(a: Summary, b: Summary): Summary {
    Summary(a.inserted + b.inserted, a.matched + b.matched, a.modified + b.modified, a.upserted + b.upserted,
            a.deleted + b.deleted)
  }

  predicate SameMode(a: PartialResult, b: PartialResult) { a.SummaryResult? == b.SummaryResult? }

  /** `merge`: `b` is put into `a`. Results of different modes do not meet. */
  function MergePartial(a: PartialResult, b: PartialResult): PartialResult
    requires SameMode(a, b)
  {
    if a.SummaryResult? then SummaryResult(MergeSummary(a.summary, b.summary))
    else VerboseResult(MergeSummary(a.summary, b.summary), a.inserts + b.inserts, a.updates + b.updates,
                       a.deletes + b.deletes)
  }

  predicate SameModeAsAny(a: Option<PartialResult>, b: PartialResult) { a.Some? ==> SameMode(a.value, b) }

  function MergePartialResults(e: BulkWriteError, r: PartialResult): BulkWriteError
    requires SameModeAsAny(e.partialResult, r)
  {
    e.(partialResult := Some(if e.partialResult.Some? then MergePartial(e.partialResult.value, r) else r))
  }

  function MergeErrors(e: BulkWriteError, other: BulkWriteError): BulkWriteError
    requires other.partialResult.Some? ==> SameModeAsAny(e.partialResult, other.partialResult.value)
  {
    var merged := e.(writeConcernErrors := e.writeConcernErrors + other.writeConcernErrors,
                     writeErrors := e.writeErrors + other.writeErrors);
    if other.partialResult.Some? then MergePartialResults(merged, other.partialResult.value) else merged
  }

  // ---------------------------------------------------------------------
  // Execution status
  // ---------------------------------------------------------------------

  datatype Status = NotStarted | Success(result: PartialResult) | Failed(error: Error)

  type BatchResult = Result<PartialResult, Error>

  predicate ShouldContinue(s: Status, ordered: bool) {
    s.Failed? ==>
      && s.error.kind.BulkWrite?
      && s.error.source.None?
      && !(ordered && s.error.kind.bulkWrite.writeErrors != map[])
  }

  /** The error inside must be a bulk write error whenever something is merged into it; results must be of
      one mode. These are the two `unreachable!` places. */
  predicate CanTake(s: Status, r: BatchResult) {
    && (s.Failed? && (r.Ok? || r.error.kind.BulkWrite?) ==> s.error.kind.BulkWrite?)
    && (PartialOf(s).Some? && BatchPartial(r).Some? ==> SameMode(PartialOf(s).value, BatchPartial(r).value))
  }

  function PartialOf(s: Status): Option<PartialResult> {
    match s
    case NotStarted => None
    case Success(r) => Some(r)
    case Failed(e) => if e.kind.BulkWrite? then e.kind.bulkWrite.partialResult else None
  }

  function BatchPartial(r: BatchResult): Option<PartialResult> {
    if r.Ok? then Some(r.value) else if r.error.kind.BulkWrite? then r.error.kind.bulkWrite.partialResult else None
  }

  function WithSuccess(s: Status, r: PartialResult): Status
    requires CanTake(s, Ok(r))
  {
    match s
    case NotStarted => Success(r)
    case Success(current) => Success(MergePartial(current, r))
    case Failed(e) => Failed(e.(kind := BulkWrite(MergePartialResults(e.kind.bulkWrite, r))))
  }

  function WithFailure(s: Status, error: Error): Status
    requires CanTake(s, Err(error))
  {
    match s
    case NotStarted => Failed(error)
    case Success(current) =>
      if error.kind.BulkWrite?
      then Failed(error.(kind := BulkWrite(MergePartialResults(error.kind.bulkWrite, current))))
      else Failed(Error(BulkWrite(BulkWriteError([], map[], Some(current))), {}, Some(error), None))
    case Failed(e) =>
      if error.kind.BulkWrite? then Failed(e.(kind := BulkWrite(MergeErrors(e.kind.bulkWrite, error.kind.bulkWrite))))
      else Failed(e.(source := Some(error)))
  }

  function Taken(s: Status, r: BatchResult): Status
    requires CanTake(s, r)
  {
    match r
    case Ok(result) => WithSuccess(s, result)
    case Err(error) => WithFailure(s, error)
  }

  // ---------------------------------------------------------------------
  // What a status or a batch reports
  // ---------------------------------------------------------------------

  /** `fatal` is an error other than individual write errors and write concern errors. */
  datatype Ledger = Ledger(
    partial: Option<PartialResult>,
    writeErrors: map<nat, WriteError>,
    concerns: seq<WriteConcernError>,
    fatal: Option<Error>)

  const EMPTY := Ledger(None, map[], [], None)

  function ErrorLedger(e: Error): Ledger {
    if e.kind.BulkWrite? then
      var b := e.kind.bulkWrite;
      Ledger(b.partialResult, b.writeErrors, b.writeConcernErrors, e.source)
    else EMPTY.(fatal := Some(e))
  }

  function BatchLedger(r: BatchResult): Ledger {
    if r.Ok? then EMPTY.(partial := Some(r.value)) else ErrorLedger(r.error)
  }

  function StatusLedger(s: Status): Ledger {
    match s
    case NotStarted => EMPTY
    case Success(r) => EMPTY.(partial := Some(r))
    case Failed(e) => ErrorLedger(e)
  }

  predicate KeysWithin(p: Option<PartialResult>, lo: nat, hi: nat) {
    p.Some? && p.value.VerboseResult? ==>
      && (forall k | k in p.value.inserts :: lo <= k < hi)
      && (forall k | k in p.value.updates :: lo <= k < hi)
      && (forall k | k in p.value.deletes :: lo <= k < hi)
  }

  /** Every write the ledger mentions is one of the models `lo..hi`. */
  predicate Within(l: Ledger, lo: nat, hi: nat) {
    (forall k | k in l.writeErrors :: lo <= k < hi) && KeysWithin(l.partial, lo, hi)
  }

  predicate Joinable(a: Option<PartialResult>, b: Option<PartialResult>) {
    a.Some? && b.Some? ==> SameMode(a.value, b.value)
  }

  function JoinPartial(a: Option<PartialResult>, b: Option<PartialResult>): Option<PartialResult>
    requires Joinable(a, b)
  {
    if a.None? then b else if b.None? then a else Some(MergePartial(a.value, b.value))
  }

  /** Both ledgers, each entry once. */
  function Both(a: Ledger, b: Ledger): Ledger
    requires Joinable(a.partial, b.partial)
  {
    Ledger(JoinPartial(a.partial, b.partial), a.writeErrors + b.writeErrors, a.concerns + b.concerns,
           if a.fatal.Some? then a.fatal else b.fatal)
  }

  /** Results about different models can be merged in either order. */
  lemma MergeCommutes(a: PartialResult, b: PartialResult, at: nat, end: nat)
    requires SameMode(a, b) && KeysWithin(Some(a), 0, at) && KeysWithin(Some(b), at, end)
    ensures MergePartial(a, b) == MergePartial(b, a)
  {
    if a.VerboseResult? {
      assert a.inserts + b.inserts == b.inserts + a.inserts;
      assert a.updates + b.updates == b.updates + a.updates;
      assert a.deletes + b.deletes == b.deletes + a.deletes;
    }
  }

  /** Merging a bulk write error into an existing one forgets its source. */
  predicate ForgetsFatal(s: Status, r: BatchResult) {
    s.Failed? && r.Err? && r.error.kind.BulkWrite? && r.error.source.Some?
  }

  lemma BothWithin(a: Ledger, b: Ledger, at: nat, end: nat)
    requires Joinable(a.partial, b.partial) && Within(a, 0, at) && Within(b, at, end) && at <= end
    ensures Within(Both(a, b), 0, end)
  {
  }

  lemma BothEmpty(l: Ledger)
    ensures Both(EMPTY, l) == l
  {
    assert map[] + l.writeErrors == l.writeErrors;
    assert [] + l.concerns == l.concerns;
  }

  lemma AfterSuccess(current: PartialResult, r: BatchResult, at: nat, end: nat)
    requires CanTake(Success(current), r)
    requires KeysWithin(Some(current), 0, at) && Within(BatchLedger(r), at, end)
    ensures StatusLedger(Taken(Success(current), r)) == Both(StatusLedger(Success(current)), BatchLedger(r))
  {
    var a, b := StatusLedger(Success(current)), BatchLedger(r);
    assert map[] + b.writeErrors == b.writeErrors;
    assert [] + b.concerns == b.concerns;
    if b.partial.Some? {
      MergeCommutes(current, b.partial.value, at, end);
    }
  }

  lemma AfterFailure(e: Error, r: BatchResult)
    requires CanTake(Failed(e), r) && e.kind.BulkWrite? && e.source.None?
    ensures var both := Both(ErrorLedger(e), BatchLedger(r));
            StatusLedger(Taken(Failed(e), r)) == if ForgetsFatal(Failed(e), r) then both.(fatal := None) else both
  {
    var a := ErrorLedger(e);
    assert a.writeErrors + map[] == a.writeErrors;
    assert a.concerns + [] == a.concerns;
  }

  /** Taking in a batch adds exactly what the batch reports. */
  lemma TakenAddsTheBatch(s: Status, r: BatchResult, ordered: bool, at: nat, end: nat)
    requires CanTake(s, r) && ShouldContinue(s, ordered)
    requires Within(StatusLedger(s), 0, at) && Within(BatchLedger(r), at, end) && at <= end
    ensures var both := Both(StatusLedger(s), BatchLedger(r));
            && StatusLedger(Taken(s, r)) == (if ForgetsFatal(s, r) then both.(fatal := None) else both)
            && Within(both, 0, end)
    ensures Taken(s, r).Success? <==> r.Ok? && !s.Failed?
    ensures !Taken(s, r).NotStarted?
  {
    BothWithin(StatusLedger(s), BatchLedger(r), at, end);
    match s
    case NotStarted => BothEmpty(BatchLedger(r));
    case Success(current) => AfterSuccess(current, r, at, end);
    case Failed(e) => AfterFailure(e, r);
  }

  // ---------------------------------------------------------------------
  // Runs of batches
  // ---------------------------------------------------------------------

  /** One batch: how many models each build of its command took, and its result. A command is built
      again when the operation is retried; only the last one built is the one the result is about. A build
      can also fail part way, after it counted `failed` models; no command comes of it, and the operation
      ends with an error. */
  datatype Batch = Batch(builds: seq<Positive>, failed: nat, result: BatchResult)

  function Sum(ns: seq<Positive>): nat { if ns == [] then 0 else Sum(ns[..|ns| - 1]) + ns[|ns| - 1] }

  /** The models a batch has counted as attempted. */
  function Counts(b: Batch): nat { Sum(b.builds) + b.failed }

  /** The models in the last command that was built. */
  function LastBuild(b: Batch): nat { if b.builds == [] then 0 else b.builds[|b.builds| - 1] }

  /** The counter of attempted models is not reset between builds, so all of them are added up. */
  function Attempted(run: seq<Batch>): nat {
    if run == [] then 0 else Attempted(run[..|run| - 1]) + Counts(run[|run| - 1])
  }

  /** What a server and the code that reads its replies can report for a batch of the models from `offset`. */
  predicate Plausible(b: Batch, offset: nat, count: nat, verbose: bool) {
    && (b.builds == [] ==> b.result.Err? && !b.result.error.kind.BulkWrite?)
    && (b.failed > 0 ==> b.result.Err?)
    && (forall n | n in b.builds :: offset + n <= count) && offset + b.failed <= count
    && Within(BatchLedger(b.result), offset, offset + LastBuild(b))
    && (BatchPartial(b.result).Some? ==> BatchPartial(b.result).value.VerboseResult? == verbose)
  }

  predicate PlausibleRun(run: seq<Batch>, count: nat, verbose: bool)
    decreases |run|
  {
    run != [] ==>
      && PlausibleRun(run[..|run| - 1], count, verbose)
      && Plausible(run[|run| - 1], Attempted(run[..|run| - 1]), count, verbose)
  }

  function StatusAfter(run: seq<Batch>): Status {
    if run == [] then NotStarted
    else
      var s, r := StatusAfter(run[..|run| - 1]), run[|run| - 1].result;
      if CanTake(s, r) then Taken(s, r) else s
  }

  predicate Guard(run: seq<Batch>, count: nat, ordered: bool) {
    Attempted(run) < count && ShouldContinue(StatusAfter(run), ordered)
  }

  /** The loop got as far as this run. */
  predicate Going(run: seq<Batch>, count: nat, ordered: bool)
    decreases |run|
  {
    run != [] ==> Going(run[..|run| - 1], count, ordered) && Guard(run[..|run| - 1], count, ordered)
  }

  function Total(run: seq<Batch>): Ledger {
    if run == [] then EMPTY
    else
      var a, b := Total(run[..|run| - 1]), BatchLedger(run[|run| - 1].result);
      if Joinable(a.partial, b.partial) then Both(a, b) else a
  }

  predicate InMode(l: Ledger, verbose: bool) { l.partial.Some? ==> l.partial.value.VerboseResult? == verbose }

  lemma CountsAtLeastLast(b: Batch)
    ensures LastBuild(b) <= Counts(b)
    ensures |b.builds| >= 2 || b.failed > 0 <==> LastBuild(b) < Counts(b)
  {
    if b.builds != [] {
      var init := b.builds[..|b.builds| - 1];
      if init != [] {
        assert Sum(init) == Sum(init[..|init| - 1]) + init[|init| - 1];
      }
    }
  }

  /** What a status has to do with the batches it was made from. */
  predicate Reports(s: Status, total: Ledger, at: nat, verbose: bool) {
    var l := StatusLedger(s);
    && total == Ledger(l.partial, l.writeErrors, l.concerns, total.fatal)
    && Within(l, 0, at) && InMode(l, verbose)
  }

  lemma OneMoreBatch(s: Status, total: Ledger, b: Batch, at: nat, count: nat, verbose: bool, ordered: bool)
    requires Reports(s, total, at, verbose) && ShouldContinue(s, ordered) && Plausible(b, at, count, verbose)
    ensures CanTake(s, b.result) && Joinable(total.partial, BatchLedger(b.result).partial)
    ensures Reports(Taken(s, b.result), Both(total, BatchLedger(b.result)), at + Counts(b), verbose)
    ensures Taken(s, b.result).Success? <==> b.result.Ok? && !s.Failed?
    ensures !Taken(s, b.result).NotStarted?
  {
    CountsAtLeastLast(b);
    TakenAddsTheBatch(s, b.result, ordered, at, at + Counts(b));
  }

  /** The status reports what every batch of the run reported, each entry once, under its own index. */
  lemma {:induction false} RunReportsEverything(run: seq<Batch>, count: nat, verbose: bool, ordered: bool)
    requires PlausibleRun(run, count, verbose) && Going(run, count, ordered)
    ensures Reports(StatusAfter(run), Total(run), Attempted(run), verbose)
    ensures run != [] ==> CanTake(StatusAfter(run[..|run| - 1]), run[|run| - 1].result)
    decreases |run|
  {
    if run != [] {
      var init, last := run[..|run| - 1], run[|run| - 1];
      RunReportsEverything(init, count, verbose, ordered);
      OneMoreBatch(StatusAfter(init), Total(init), last, Attempted(init), count, verbose, ordered);
    }
  }

  /** A bulk write succeeds exactly when it had a batch and all of them succeeded. */
  lemma {:induction false} SucceedsExactlyWhen(run: seq<Batch>, count: nat, verbose: bool, ordered: bool)
    requires PlausibleRun(run, count, verbose) && Going(run, count, ordered)
    ensures StatusAfter(run).Success? <==> run != [] && forall b | b in run :: b.result.Ok?
    ensures StatusAfter(run).NotStarted? <==> run == []
    decreases |run|
  {
    if run != [] {
      var init, last := run[..|run| - 1], run[|run| - 1];
      SucceedsExactlyWhen(init, count, verbose, ordered);
      assert CanTake(StatusAfter(init), last.result) by { RunReportsEverything(run, count, verbose, ordered); }
      assert StatusAfter(run) == Taken(StatusAfter(init), last.result);
      assert run == init + [last];
    }
  }

  // ---------------------------------------------------------------------
  // The loop
  // ---------------------------------------------------------------------

  const NO_WRITES := Error(Other("bulk_write must be provided at least one write operation"), {}, None, None)

  function Final(s: Status): BatchResult {
    match s
    case NotStarted => Err(NO_WRITES)
    case Success(r) => Ok(r)
    case Failed(e) => Err(e)
  }

  /** What the caller gets says what the batches said. Success means that there was a batch and all of them
      succeeded, and its result is theirs, joined. Every failure carries all their write errors, write concern
      errors and partial results; an error of another kind comes back only where there are none. */
  predicate Returns(r: BatchResult, run: seq<Batch>) {
    var total := Total(run);
    && (r.Ok? <==> run != [] && forall b | b in run :: b.result.Ok?)
    && (r.Ok? ==> total.partial == Some(r.value))
    && (r.Err? && r.error.kind.BulkWrite? ==>
          r.error.kind.bulkWrite == BulkWriteError(total.concerns, total.writeErrors, total.partial))
    && (r.Err? && !r.error.kind.BulkWrite? ==>
          total.concerns == [] && total.writeErrors == map[] && total.partial.None?)
    && (run == [] ==> r == Err(NO_WRITES))
  }

  lemma FinalReturns(run: seq<Batch>, count: nat, verbose: bool, ordered: bool)
    requires PlausibleRun(run, count, verbose) && Going(run, count, ordered)
    ensures Returns(Final(StatusAfter(run)), run)
  {
    RunReportsEverything(run, count, verbose, ordered);
    SucceedsExactlyWhen(run, count, verbose, ordered);
  }

  /** The error that ended a run comes back, as the source of a bulk write error or by itself, unless it was merged
      into an earlier one. */
  lemma LastFatalIsReturned(run: seq<Batch>, count: nat, verbose: bool, ordered: bool)
    requires PlausibleRun(run, count, verbose) && Going(run, count, ordered) && run != []
    requires BatchLedger(run[|run| - 1].result).fatal.Some?
    requires !ForgetsFatal(StatusAfter(run[..|run| - 1]), run[|run| - 1].result)
    ensures var r, fatal := Final(StatusAfter(run)), BatchLedger(run[|run| - 1].result).fatal;
            r.Err? && fatal == if r.error.kind.BulkWrite? then r.error.source else Some(r.error)
  {
    var init, last := run[..|run| - 1], run[|run| - 1];
    RunReportsEverything(init, count, verbose, ordered);
    RunReportsEverything(run, count, verbose, ordered);
    CountsAtLeastLast(last);
    TakenAddsTheBatch(StatusAfter(init), last.result, ordered, Attempted(init), Attempted(init) + Counts(last));
  }

  /** A batch that lets the loop go on was built, so it attempted a model. One that was not built failed
      for another reason than a write, and that ends the loop. */
  lemma GoingOnAttempts(s: Status, b: Batch, at: nat, count: nat, verbose: bool, ordered: bool)
    requires Plausible(b, at, count, verbose) && CanTake(s, b.result) && ShouldContinue(s, ordered)
    ensures ShouldContinue(Taken(s, b.result), ordered) ==> Counts(b) > 0
  {
    CountsAtLeastLast(b);
  }

  /** The loop terminates: a run has at most as many batches as there are models, and while the loop goes
      on every batch so far has attempted one. */
  lemma {:induction false} LoopTerminates(run: seq<Batch>, count: nat, verbose: bool, ordered: bool)
    requires PlausibleRun(run, count, verbose) && Going(run, count, ordered)
    ensures |run| <= count
    ensures Guard(run, count, ordered) ==> |run| <= Attempted(run)
    decreases |run|
  {
    if run != [] {
      var init, last := run[..|run| - 1], run[|run| - 1];
      LoopTerminates(init, count, verbose, ordered);
      RunReportsEverything(run, count, verbose, ordered);
      GoingOnAttempts(StatusAfter(init), last, Attempted(init), count, verbose, ordered);
    }
  }

  /** How many of these batches the loop runs, having run `k`. */
  function Used(script: seq<Batch>, count: nat, ordered: bool, k: nat): (used: nat)
    requires k <= |script|
    ensures k <= used <= |script|
    ensures used == |script| || !Guard(script[..used], count, ordered)
    ensures forall j | k <= j < used :: Guard(script[..j], count, ordered)
    decreases |script| - k
  {
    if k < |script| && Guard(script[..k], count, ordered) then Used(script, count, ordered, k + 1) else k
  }

  /** One turn of the loop extends the run by a batch. */
  lemma OneTurn(script: seq<Batch>, count: nat, verbose: bool, ordered: bool, k: nat)
    requires PlausibleRun(script, count, verbose) && k < |script|
    requires Going(script[..k], count, ordered) && Guard(script[..k], count, ordered)
    ensures PlausibleRun(script[..k + 1], count, verbose) && Going(script[..k + 1], count, ordered)
    ensures var s, s' := StatusAfter(script[..k]), StatusAfter(script[..k + 1]);
            && CanTake(s, script[k].result) && s' == Taken(s, script[k].result)
            && (ShouldContinue(s', ordered) ==> Counts(script[k]) > 0)
    ensures Attempted(script[..k + 1]) == Attempted(script[..k]) + Counts(script[k])
    ensures Used(script, count, ordered, k) == Used(script, count, ordered, k + 1)
  {
    assert script[..k + 1][..k] == script[..k];
    PrefixesArePlausible(script, count, verbose, k + 1);
    RunReportsEverything(script[..k + 1], count, verbose, ordered);
    GoingOnAttempts(StatusAfter(script[..k]), script[k], Attempted(script[..k]), count, verbose, ordered);
  }

  /** `execute_inner`: the status after the batches up to the first that ends the loop. Neither
      `unreachable!` is reached: the status can take in every batch. Nothing is returned while a batch is due;
      as many batches as there are models are always enough. */
  method ExecuteInner(count: nat, ordered: bool, script: seq<Batch>, ghost verbose: bool)
    returns (r: Option<BatchResult>)
    requires PlausibleRun(script, count, verbose)
    ensures var run := script[..Used(script, count, ordered, 0)];
            && Going(run, count, ordered)
            && r == (if Guard(run, count, ordered) then None else Some(Final(StatusAfter(run))))
            && (r.Some? ==> Returns(r.value, run))
    ensures |script| >= count ==> r.Some?
  {
    var attempted, status, k := 0, NotStarted, 0;
    PrefixesArePlausible(script, count, verbose, 0);
    while attempted < count && ShouldContinue(status, ordered)
      invariant 0 <= k <= |script| && Used(script, count, ordered, k) == Used(script, count, ordered, 0)
      invariant PlausibleRun(script[..k], count, verbose) && Going(script[..k], count, ordered)
      invariant attempted == Attempted(script[..k]) && status == StatusAfter(script[..k])
      decreases ShouldContinue(status, ordered), count - attempted
    {
      if k == |script| {
        LoopTerminates(script[..k], count, verbose, ordered);
        return None;
      }
      var batch := script[k];
      OneTurn(script, count, verbose, ordered, k);
      attempted := attempted + Counts(batch);
      match batch.result {
        case Ok(result) => status := WithSuccess(status, result);
        case Err(error) => status := WithFailure(status, error);
      }
      k := k + 1;
    }
    assert Used(script, count, ordered, k) == k;
    var result := Conclude(status, script[..k], count, verbose, ordered);
    return Some(result);
  }

  /** What is made of the status in the end. */
  method Conclude(status: Status, ghost run: seq<Batch>, ghost count: nat, ghost verbose: bool, ghost ordered: bool)
    returns (r: BatchResult)
    requires PlausibleRun(run, count, verbose) && Going(run, count, ordered) && status == StatusAfter(run)
    ensures r == Final(status) && Returns(r, run)
  {
    FinalReturns(run, count, verbose, ordered);
    match status {
      case Success(result) => return Ok(result);
      case Failed(error) => return Err(error);
      case NotStarted => return Err(NO_WRITES);
    }
  }

  lemma {:induction false} PrefixesArePlausible(run: seq<Batch>, count: nat, verbose: bool, k: nat)
    requires PlausibleRun(run, count, verbose) && k <= |run|
    ensures PlausibleRun(run[..k], count, verbose)
    decreases |run|
  {
    if k < |run| {
      PrefixesArePlausible(run[..|run| - 1], count, verbose, k);
      assert run[..|run| - 1][..k] == run[..k];
    } else {
      assert run[..k] == run;
    }
  }

  lemma {:induction false} PrefixesAreGoing(run: seq<Batch>, count: nat, ordered: bool, k: nat)
    requires Going(run, count, ordered) && k <= |run|
    ensures Going(run[..k], count, ordered) && (k < |run| ==> Guard(run[..k], count, ordered))
    decreases |run|
  {
    if k < |run| - 1 {
      PrefixesAreGoing(run[..|run| - 1], count, ordered, k);
      assert run[..|run| - 1][..k] == run[..k];
    } else if k == |run| {
      assert run[..k] == run;
    }
  }

  // ---------------------------------------------------------------------
  // Which models are sent
  // ---------------------------------------------------------------------

  /** Model `i` is in the command whose result batch `k` reports. */
  predicate InBatch(run: seq<Batch>, k: nat, i: nat) {
    k < |run| && Attempted(run[..k]) <= i < Attempted(run[..k]) + LastBuild(run[k])
  }

  predicate Sent(run: seq<Batch>, i: nat) { exists k: nat | k < |run| :: InBatch(run, k, i) }

  lemma {:induction false} AttemptedGrows(run: seq<Batch>, j: nat, k: nat)
    requires j < k <= |run|
    ensures Attempted(run[..j]) + Counts(run[j]) <= Attempted(run[..k])
    decreases k
  {
    assert run[..k][..k - 1] == run[..k - 1];
    if j < k - 1 {
      AttemptedGrows(run, j, k - 1);
    }
  }

  /** No model is sent in two batches. */
  lemma BatchesAreDisjoint(run: seq<Batch>, j: nat, k: nat, i: nat)
    requires j < |run| && k < |run| && InBatch(run, j, i) && InBatch(run, k, i)
    ensures j == k
  {
    CountsAtLeastLast(run[j]);
    CountsAtLeastLast(run[k]);
    if j < k {
      AttemptedGrows(run, j, k);
    } else if k < j {
      AttemptedGrows(run, k, j);
    }
  }

  /** A batch whose command was built more than once, or whose last build failed part way, and left models
      for later. */
  predicate Skips(run: seq<Batch>, k: nat, count: nat)
    requires k < |run|
  {
    (|run[k].builds| >= 2 || run[k].failed > 0) && Attempted(run[..k]) + LastBuild(run[k]) < count
  }

  lemma SkippedModelIsNotSent(run: seq<Batch>, k: nat)
    requires k < |run| && (|run[k].builds| >= 2 || run[k].failed > 0)
    ensures var i := Attempted(run[..k]) + LastBuild(run[k]); i < Attempted(run) && !Sent(run, i)
  {
    var i := Attempted(run[..k]) + LastBuild(run[k]);
    CountsAtLeastLast(run[k]);
    assert run[..|run|] == run;
    AttemptedGrows(run, k, |run|);
    forall j: nat | j < |run|
      ensures !InBatch(run, j, i)
    {
      CountsAtLeastLast(run[j]);
      if j < k {
        AttemptedGrows(run, j, k);
      } else if k < j {
        AttemptedGrows(run, k, j);
      }
    }
  }

  lemma SentStaysSent(run: seq<Batch>, i: nat)
    requires run != [] && Sent(run[..|run| - 1], i)
    ensures Sent(run, i)
  {
    var init := run[..|run| - 1];
    var k: nat :| k < |init| && InBatch(init, k, i);
    assert init[..k] == run[..k];
    assert InBatch(run, k, i);
  }

  lemma {:induction false} AttemptedAreSent(run: seq<Batch>, count: nat, verbose: bool, ordered: bool, i: nat)
    requires PlausibleRun(run, count, verbose) && Going(run, count, ordered)
    requires i < count && i < Attempted(run) && forall k: nat | k < |run| :: !Skips(run, k, count)
    ensures Sent(run, i)
    decreases |run|
  {
    var init, last := run[..|run| - 1], run[|run| - 1];
    if i < Attempted(init) {
      forall k: nat | k < |init|
        ensures !Skips(init, k, count)
      {
        assert init[..k] == run[..k];
        assert !Skips(run, k, count);
      }
      AttemptedAreSent(init, count, verbose, ordered, i);
      SentStaysSent(run, i);
    } else {
      CountsAtLeastLast(last);
      assert !Skips(run, |run| - 1, count);
      assert InBatch(run, |run| - 1, i);
    }
  }

  /** Every model the loop counted as attempted was sent, exactly when no batch that was built more than
      once, or failed to build part way, left models for later. */
  lemma AllAttemptedSentExactlyWhen(run: seq<Batch>, count: nat, verbose: bool, ordered: bool)
    requires PlausibleRun(run, count, verbose) && Going(run, count, ordered)
    ensures (forall i: nat | i < count && i < Attempted(run) :: Sent(run, i)) <==>
            (forall k: nat | k < |run| :: !Skips(run, k, count))
  {
    if forall k: nat | k < |run| :: !Skips(run, k, count) {
      forall i: nat | i < count && i < Attempted(run)
        ensures Sent(run, i)
      {
        AttemptedAreSent(run, count, verbose, ordered, i);
      }
    } else {
      var k: nat :| k < |run| && Skips(run, k, count);
      SkippedModelIsNotSent(run, k);
    }
  }

  // ---------------------------------------------------------------------
  // Entry by entry
  // ---------------------------------------------------------------------

  function WriteErrors(l: Ledger): map<nat, WriteError> { l.writeErrors }

  function Verbose(l: Ledger): Option<PartialResult> {
    if l.partial.Some? && l.partial.value.VerboseResult? then l.partial else None
  }

  function Inserts(l: Ledger): map<nat, int> { if Verbose(l).Some? then l.partial.value.inserts else map[] }

  function Updates(l: Ledger): map<nat, int> { if Verbose(l).Some? then l.partial.value.updates else map[] }

  function Deletes(l: Ledger): map<nat, int> { if Verbose(l).Some? then l.partial.value.deletes else map[] }

  /** A table of a ledger that has an entry for some of its models: the tables of two ledgers are joined
      when the ledgers are. */
  ghost predicate Table<V(!new)>(table: Ledger -> map<nat, V>) {
    && table(EMPTY) == map[]
    && (forall a: Ledger, b: Ledger | Joinable(a.partial, b.partial) :: table(Both(a, b)) == table(a) + table(b))
    && (forall l: Ledger, lo: nat, hi: nat, k: nat | Within(l, lo, hi) && k in table(l) :: lo <= k < hi)
  }

  lemma WriteErrorsAreATable()
    ensures Table(WriteErrors)
  {
  }

  lemma InsertsAreATable()
    ensures Table(Inserts)
  {
  }

  lemma UpdatesAreATable()
    ensures Table(Updates)
  {
  }

  lemma DeletesAreATable()
    ensures Table(Deletes)
  {
  }

  /** Model `i` has an entry in the table of batch `k`. */
  predicate Entered<V>(run: seq<Batch>, table: Ledger -> map<nat, V>, k: nat, i: nat) {
    k < |run| && i in table(BatchLedger(run[k].result))
  }

  /** In `m`, model `i` has the entry of the batch it was sent in, and one exactly if it has one there. */
  ghost predicate Traced<V>(run: seq<Batch>, table: Ledger -> map<nat, V>, m: map<nat, V>, i: nat) {
    && (i in m <==> exists k: nat :: Entered(run, table, k, i))
    && (forall k: nat | Entered(run, table, k, i) ::
          InBatch(run, k, i) && i in m && m[i] == table(BatchLedger(run[k].result))[i])
  }

  /** Reports of one mode can always be joined. */
  lemma {:induction false} TotalJoins(run: seq<Batch>, count: nat, verbose: bool)
    requires PlausibleRun(run, count, verbose)
    ensures InMode(Total(run), verbose)
    ensures run != [] ==>
              var before, batch := Total(run[..|run| - 1]), BatchLedger(run[|run| - 1].result);
              Joinable(before.partial, batch.partial) && Total(run) == Both(before, batch)
    decreases |run|
  {
    if run != [] {
      TotalJoins(run[..|run| - 1], count, verbose);
    }
  }

  lemma JoinedTable<V(!new)>(table: Ledger -> map<nat, V>, a: Ledger, b: Ledger)
    requires Table(table) && Joinable(a.partial, b.partial)
    ensures table(Both(a, b)) == table(a) + table(b)
  {
  }

  lemma EntryWithin<V(!new)>(table: Ledger -> map<nat, V>, l: Ledger, lo: nat, hi: nat, i: nat)
    requires Table(table) && Within(l, lo, hi) && i in table(l)
    ensures lo <= i < hi
  {
  }

  /** Each entry of the sum is that of the batch its model was sent in, and none is lost. */
  lemma {:induction false} EntriesAreTheBatches<V(!new)>(run: seq<Batch>, count: nat, verbose: bool,
                                                         table: Ledger -> map<nat, V>, i: nat)
    requires PlausibleRun(run, count, verbose) && Table(table)
    ensures i in table(Total(run)) ==> i < Attempted(run)
    ensures Traced(run, table, table(Total(run)), i)
    decreases |run|
  {
    if run != [] {
      var n := |run| - 1;
      var init, batch := run[..n], BatchLedger(run[n].result);
      EntriesAreTheBatches(init, count, verbose, table, i);
      CountsAtLeastLast(run[n]);
      TotalJoins(run, count, verbose);
      JoinedTable(table, Total(init), batch);
      if i in table(batch) { EntryWithin(table, batch, Attempted(init), Attempted(init) + LastBuild(run[n]), i); }
      TracedOneMore(run, table, table(Total(init)), table(Total(run)), i);
    }
  }

  lemma TracedOneMore<V>(run: seq<Batch>, table: Ledger -> map<nat, V>, before: map<nat, V>, all: map<nat, V>, i: nat)
    requires run != []
    requires var n := |run| - 1;
             var batch := table(BatchLedger(run[n].result));
             && Traced(run[..n], table, before, i) && all == before + batch
             && (i in before ==> i < Attempted(run[..n]))
             && (i in batch ==> InBatch(run, n, i))
    ensures Traced(run, table, all, i)
  {
    var n := |run| - 1;
    forall k: nat | Entered(run, table, k, i)
      ensures InBatch(run, k, i) && i in all && all[i] == table(BatchLedger(run[k].result))[i]
    {
      if k < n { EnteredBefore(run, table, k, i); }
    }
    if i in table(BatchLedger(run[n].result)) {
      assert Entered(run, table, n, i);
    } else if i in before {
      var k: nat :| Entered(run[..n], table, k, i);
      EnteredBefore(run, table, k, i);
    }
  }

  /** An entry of an earlier batch is there before the last one. */
  lemma EnteredBefore<V>(run: seq<Batch>, table: Ledger -> map<nat, V>, k: nat, i: nat)
    requires run != [] && k < |run| - 1
    ensures Entered(run, table, k, i) <==> Entered(run[..|run| - 1], table, k, i)
    ensures InBatch(run, k, i) <==> InBatch(run[..|run| - 1], k, i)
    ensures run[..|run| - 1][k] == run[k]
    ensures InBatch(run, k, i) ==> i < Attempted(run[..|run| - 1])
  {
    var n := |run| - 1;
    assert run[..n][k] == run[k] && run[..n][..k] == run[..k];
    CountsAtLeastLast(run[k]);
    AttemptedGrows(run, k, n);
  }

  /** The write errors the caller gets. */
  function WriteErrorsIn(r: BatchResult): map<nat, WriteError> {
    if r.Err? && r.error.kind.BulkWrite? then r.error.kind.bulkWrite.writeErrors else map[]
  }

  /** A write error the caller gets is that of the batch its model was sent in, and none is lost. */
  lemma WriteErrorsAreTheBatches(run: seq<Batch>, count: nat, verbose: bool, ordered: bool, i: nat)
    requires PlausibleRun(run, count, verbose) && Going(run, count, ordered)
    ensures Traced(run, WriteErrors, WriteErrorsIn(Final(StatusAfter(run))), i)
  {
    FinalReturns(run, count, verbose, ordered);
    RunReportsEverything(run, count, verbose, ordered);
    WriteErrorsAreATable();
    EntriesAreTheBatches(run, count, verbose, WriteErrors, i);
  }

  /** So is the result of every single insert, update and delete that a verbose bulk write returns. */
  lemma ResultsAreTheBatches(run: seq<Batch>, count: nat, verbose: bool, ordered: bool, i: nat)
    requires PlausibleRun(run, count, verbose) && Going(run, count, ordered)
    ensures var p := BatchPartial(Final(StatusAfter(run)));
            var results := p.Some? && p.value.VerboseResult?;
            && Traced(run, Inserts, if results then p.value.inserts else map[], i)
            && Traced(run, Updates, if results then p.value.updates else map[], i)
            && Traced(run, Deletes, if results then p.value.deletes else map[], i)
  {
    FinalReturns(run, count, verbose, ordered);
    RunReportsEverything(run, count, verbose, ordered);
    InsertsAreATable();
    EntriesAreTheBatches(run, count, verbose, Inserts, i);
    UpdatesAreATable();
    EntriesAreTheBatches(run, count, verbose, Updates, i);
    DeletesAreATable();
    EntriesAreTheBatches(run, count, verbose, Deletes, i);
  }

  /** One of the five counters, summed over the batches that have counters. */
  function CounterSum(run: seq<Batch>, counter: Summary -> int): int {
    if run == [] then 0
    else
      var p := BatchPartial(run[|run| - 1].result);
      CounterSum(run[..|run| - 1], counter) + if p.Some? then counter(p.value.summary) else 0
  }

  ghost predicate Additive(counter: Summary -> int) {
    forall a, b :: counter(MergeSummary(a, b)) == counter(a) + counter(b)
  }

  lemma {:induction false} CounterIsTheSum(run: seq<Batch>, count: nat, verbose: bool, counter: Summary -> int)
    requires PlausibleRun(run, count, verbose) && Additive(counter)
    ensures InMode(Total(run), verbose)
    ensures CounterSum(run, counter) ==
            if Total(run).partial.Some? then counter(Total(run).partial.value.summary) else 0
    decreases |run|
  {
    if run != [] {
      CounterIsTheSum(run[..|run| - 1], count, verbose, counter);
    }
  }

  /** Every counter the caller gets is the sum of that counter over the batches. */
  lemma CountersAddUp(run: seq<Batch>, count: nat, verbose: bool, ordered: bool)
    requires PlausibleRun(run, count, verbose) && Going(run, count, ordered)
    requires BatchPartial(Final(StatusAfter(run))).Some?
    ensures var total := BatchPartial(Final(StatusAfter(run))).value.summary;
            && total.inserted == CounterSum(run, (s: Summary) => s.inserted)
            && total.matched == CounterSum(run, (s: Summary) => s.matched)
            && total.modified == CounterSum(run, (s: Summary) => s.modified)
            && total.upserted == CounterSum(run, (s: Summary) => s.upserted)
            && total.deleted == CounterSum(run, (s: Summary) => s.deleted)
  {
    FinalReturns(run, count, verbose, ordered);
    CounterIsTheSum(run, count, verbose, (s: Summary) => s.inserted);
    CounterIsTheSum(run, count, verbose, (s: Summary) => s.matched);
    CounterIsTheSum(run, count, verbose, (s: Summary) => s.modified);
    CounterIsTheSum(run, count, verbose, (s: Summary) => s.upserted);
    CounterIsTheSum(run, count, verbose, (s: Summary) => s.deleted);
  }

  // ---------------------------------------------------------------------
  // When the loop stops
  // ---------------------------------------------------------------------

  /** An ordered run sends nothing after a batch with a write error. */
  lemma OrderedStopsAtWriteError(run: seq<Batch>, count: nat, verbose: bool, k: nat)
    requires PlausibleRun(run, count, verbose) && Going(run, count, true) && k < |run| - 1
    ensures BatchLedger(run[k].result).writeErrors == map[]
  {
    var upto := run[..k + 1];
    PrefixesArePlausible(run, count, verbose, k + 1);
    PrefixesAreGoing(run, count, true, k + 1);
    assert upto[..k] == run[..k] && upto[k] == run[k];
    NoErrorsWhileGoing(upto, count, verbose);
    TotalJoins(upto, count, verbose);
  }

  /** While an ordered run goes on, no batch reported a write error. */
  lemma NoErrorsWhileGoing(run: seq<Batch>, count: nat, verbose: bool)
    requires PlausibleRun(run, count, verbose) && Going(run, count, true) && Guard(run, count, true)
    ensures Total(run).writeErrors == map[]
  {
    RunReportsEverything(run, count, verbose, true);
    if run != [] { SucceedsExactlyWhen(run, count, verbose, true); }
  }

  predicate Tame(r: BatchResult) { r.Err? ==> r.error.kind.BulkWrite? && r.error.source.None? }

  /** An unordered run whose batches succeed or report write errors only goes on to the last model. */
  lemma {:induction false} TameUnorderedRunsFinish(run: seq<Batch>, count: nat, verbose: bool)
    requires PlausibleRun(run, count, verbose) && Going(run, count, false)
    requires forall b | b in run :: Tame(b.result)
    ensures ShouldContinue(StatusAfter(run), false)
    ensures !Guard(run, count, false) ==> Attempted(run) >= count
  {
    if run != [] {
      var last := run[|run| - 1];
      assert Tame(last.result);
      RunReportsEverything(run, count, verbose, false);
    }
  }

  /** A fatal error ends the run, unless it came with a bulk write error that was merged into an earlier one. */
  lemma FatalErrorEndsExactlyWhen(s: Status, r: BatchResult, ordered: bool, at: nat, end: nat)
    requires CanTake(s, r) && ShouldContinue(s, ordered)
    requires Within(StatusLedger(s), 0, at) && Within(BatchLedger(r), at, end) && at <= end
    requires BatchLedger(r).fatal.Some?
    ensures ShouldContinue(Taken(s, r), ordered) <==>
            ForgetsFatal(s, r) && !(ordered && StatusLedger(s).writeErrors + BatchLedger(r).writeErrors != map[])
  {
    TakenAddsTheBatch(s, r, ordered, at, end);
  }

  // ---------------------------------------------------------------------
  // Examples
  // ---------------------------------------------------------------------

  const ONE_INSERTED := SummaryResult(Summary(1, 0, 0, 0, 0))

  /** The first batch takes one of two models and is sent twice because of a retry: the second model is
      never sent, and the bulk write succeeds. */
  lemma RetriedBatchSkipsAModel()
    ensures var run := [Batch([1, 1], 0, Ok(ONE_INSERTED))];
            && PlausibleRun(run, 2, false) && Going(run, 2, true) && !Guard(run, 2, true)
            && Final(StatusAfter(run)) == Ok(ONE_INSERTED)
            && !Sent(run, 1)
  {
    var run := [Batch([1, 1], 0, Ok(ONE_INSERTED))];
    assert run[..0] == [];
    var ones: seq<Positive> := [1, 1];
    assert ones[..1][..0] == [] && Sum(ones[..1]) == 1 && Sum(ones) == 2;
    SkippedModelIsNotSent(run, 0);
  }
}
