/** The driver's error type: a kind, a set of labels and an optional source error
    (driver/src/error.rs), the classification predicates that walk the source
    chain, and redaction.
 */
module Errors {
  import opened Wrappers

  /** Stands for any structured document the server attached to an error. */
  type Document = string

  datatype CommandError = CommandError(code: int, codeName: string, message: string)

  datatype WriteConcernError =
    WriteConcernError(code: int, codeName: string, message: string, details: Option<Document>, labels: set<string>)

  datatype WriteError =
    WriteError(code: int, codeName: Option<string>, message: string, details: Option<Document>)

  datatype IndexedWriteError = IndexedWriteError(index: nat, error: WriteError)

  datatype InsertManyError = InsertManyError(
    writeErrors: Option<seq<IndexedWriteError>>,
    writeConcernError: Option<WriteConcernError>,
    insertedIds: map<nat, int>)

  datatype Summary = Summary(inserted: int, matched: int, modified: int, upserted: int, deleted: int)

  /** `SummaryBulkWriteResult` and `VerboseBulkWriteResult`; a run uses one of the two throughout. */
  datatype PartialResult =
    | SummaryResult(summary: Summary)
    | VerboseResult(summary: Summary, inserts: map<nat, int>, updates: map<nat, int>, deletes: map<nat, int>)

  datatype BulkWriteError = BulkWriteError(
    writeConcernErrors: seq<WriteConcernError>,
    writeErrors: map<nat, WriteError>,
    partialResult: Option<PartialResult>)

  datatype WriteFailure = ConcernFailure(concern: WriteConcernError) | SingleFailure(write: WriteError)

  /** The kinds that some modelled function distinguishes; `Other` stands for the rest. An I/O error or a
      user's custom value can hold a whole driver error (driver/src/gridfs.rs:197-198). */
  datatype ErrorKind =
    | Command(command: CommandError)
    | InsertMany(insertMany: InsertManyError)
    | BulkWrite(bulkWrite: BulkWriteError)
    | Write(failure: WriteFailure)
    | Authentication(message: string)
    | Io(inner: Option<Error>)
    | Custom(inner: Option<Error>)
    | ConnectionPoolCleared(message: string)
    | ProxyConnect(message: string)
    | ServerSelection(message: string)
    | GridFsAbort(original: Option<Error>, delete: Error)
    | Other(message: string)

  datatype Error = Error(kind: ErrorKind, labels: set<string>, source: Option<Error>, serverResponse: Option<Document>)

  const RETRYABLE_WRITE_ERROR := "RetryableWriteError"
  const TRANSIENT_TRANSACTION_ERROR := "TransientTransactionError"
  const UNKNOWN_TRANSACTION_COMMIT_RESULT := "UnknownTransactionCommitResult"
  const SYSTEM_OVERLOADED_ERROR := "SystemOverloadedError"
  const RETRYABLE_ERROR := "RetryableError"
  const RESUMABLE_CHANGE_STREAM_ERROR := "ResumableChangeStreamError"

  const RETRYABLE_READ_CODES: set<int> :=
    {11600, 11602, 10107, 13435, 13436, 189, 91, 7, 6, 89, 9001, 134, 262}
  const UNKNOWN_TRANSACTION_COMMIT_RESULT_LABEL_CODES: set<int> := {50, 64, 91}
  const REAUTHENTICATION_REQUIRED_CODE := 391
  const CURSOR_NOT_FOUND_CODE := 43

  // ---------------------------------------------------------------------
  // Classification over the source chain
  // ---------------------------------------------------------------------

  predicate ContainsLabel(e: Error, name: string) {
    name in e.labels || (e.source.Some? && ContainsLabel(e.source.value, name))
  }

  function OwnSdamCode(k: ErrorKind): Option<int> {
    match k
    case Command(c) => Some(c.code)
    case InsertMany(im) => if im.writeConcernError.Some? then Some(im.writeConcernError.value.code) else None
    case Write(ConcernFailure(wce)) => Some(wce.code)
    case _ => None
  }

  /** The first code along the chain that topology monitoring may look at; write error codes never count. */
  function SdamCode(e: Error): Option<int> {
    if OwnSdamCode(e.kind).Some? then OwnSdamCode(e.kind)
    else if e.source.Some? then SdamCode(e.source.value)
    else None
  }

  /** The error and its sources, outermost first. */
  function Chain(e: Error): seq<Error> { [e] + if e.source.Some? then Chain(e.source.value) else [] }

  /** A label counts wherever it is along the chain. */
  lemma {:induction false} LabelsAlongTheChain(e: Error, name: string)
    ensures ContainsLabel(e, name) <==> exists i :: 0 <= i < |Chain(e)| && name in Chain(e)[i].labels
  {
    assert Chain(e)[0] == e;
    if e.source.Some? {
      var rest := Chain(e.source.value);
      LabelsAlongTheChain(e.source.value, name);
      if i :| 0 <= i < |rest| && name in rest[i].labels { assert Chain(e)[i + 1] == rest[i]; }
      if i :| 0 < i < |Chain(e)| && name in Chain(e)[i].labels { assert rest[i - 1] == Chain(e)[i]; }
    }
  }

  /** The error itself has this code: that of a failed command, or of a write concern error. */
  predicate HasCode(k: ErrorKind, code: int) {
    || (k.Command? && k.command.code == code)
    || (k.InsertMany? && k.insertMany.writeConcernError.Some? && k.insertMany.writeConcernError.value.code == code)
    || (k.Write? && k.failure.ConcernFailure? && k.failure.concern.code == code)
  }

  ghost predicate HasNoCode(k: ErrorKind) { forall code :: !HasCode(k, code) }

  ghost predicate FirstCode(chain: seq<Error>, i: int, code: int) {
    0 <= i < |chain| && HasCode(chain[i].kind, code) && forall j | 0 <= j < i :: HasNoCode(chain[j].kind)
  }

  /** The first code along a chain. */
  ghost predicate LeadsWith(chain: seq<Error>, code: int) { exists i :: FirstCode(chain, i, code) }

  lemma OneCode(k: ErrorKind, code: int)
    ensures HasCode(k, code) <==> OwnSdamCode(k) == Some(code)
  {
  }

  /** The code of an error is the first along its chain. */
  lemma {:induction false} CodeIsTheFirst(e: Error, code: int)
    ensures SdamCode(e) == Some(code) <==> LeadsWith(Chain(e), code)
  {
    FirstInChain(e, Chain(e), code);
    if OwnSdamCode(e.kind).None? && e.source.Some? { CodeIsTheFirst(e.source.value, code); }
  }

  lemma FirstInChain(e: Error, chain: seq<Error>, code: int)
    requires chain == [e] + if e.source.Some? then Chain(e.source.value) else []
    ensures OwnSdamCode(e.kind).Some? ==>
              (LeadsWith(chain, code) <==> OwnSdamCode(e.kind) == Some(code))
    ensures OwnSdamCode(e.kind).None? ==>
              (LeadsWith(chain, code) <==> e.source.Some? && LeadsWith(Chain(e.source.value), code))
  {
    OneCode(e.kind, code);
    if OwnSdamCode(e.kind).Some? {
      OneCode(e.kind, OwnSdamCode(e.kind).value);
      if OwnSdamCode(e.kind) == Some(code) { assert FirstCode(chain, 0, code); }
      assert !HasNoCode(chain[0].kind);
      forall i | FirstCode(chain, i, code) ensures i == 0 { }
    } else {
      forall c ensures !HasCode(e.kind, c) { OneCode(e.kind, c); }
      assert HasNoCode(chain[0].kind);
      if e.source.Some? { FirstFurtherOn(chain, Chain(e.source.value), code); }
    }
  }

  lemma FirstFurtherOn(chain: seq<Error>, rest: seq<Error>, code: int)
    requires chain != [] && chain[1..] == rest && HasNoCode(chain[0].kind)
    ensures LeadsWith(chain, code) <==> LeadsWith(rest, code)
  {
    if i :| FirstCode(rest, i, code) {
      forall j | 0 <= j < i + 1 ensures HasNoCode(chain[j].kind) { if j > 0 { assert chain[j] == rest[j - 1]; } }
      assert FirstCode(chain, i + 1, code);
    }
    if i :| FirstCode(chain, i, code) {
      forall j | 0 <= j < i - 1 ensures HasNoCode(rest[j].kind) { assert rest[j] == chain[j + 1]; }
      assert FirstCode(rest, i - 1, code);
    }
  }

  predicate IsNetworkError(e: Error) {
    e.kind.Io? || e.kind.ConnectionPoolCleared? || e.kind.ProxyConnect?
  }

  predicate IsServerSelectionError(e: Error) { e.kind.ServerSelection? }

  predicate IsPoolCleared(e: Error) { e.kind.ConnectionPoolCleared? }

  predicate IsServerError(e: Error) {
    e.kind.Authentication? || e.kind.InsertMany? || e.kind.Command? || e.kind.Write?
  }

  predicate IsReadRetryable(e: Error) {
    IsNetworkError(e) || (SdamCode(e).Some? && SdamCode(e).value in RETRYABLE_READ_CODES)
  }

  predicate IsWriteRetryable(e: Error) { ContainsLabel(e, RETRYABLE_WRITE_ERROR) }

  predicate IsReauthenticationRequired(e: Error) { SdamCode(e) == Some(REAUTHENTICATION_REQUIRED_CODE) }

  predicate IsResumable(e: Error) {
    || !IsServerError(e)
    || SdamCode(e) == Some(CURSOR_NOT_FOUND_CODE)
    || ContainsLabel(e, RESUMABLE_CHANGE_STREAM_ERROR)
  }

  predicate ShouldAddUnknownCommitLabel(e: Error) {
    && !ContainsLabel(e, TRANSIENT_TRANSACTION_ERROR)
    && (|| IsNetworkError(e)
        || IsServerSelectionError(e)
        || IsWriteRetryable(e)
        || (SdamCode(e).Some? && SdamCode(e).value in UNKNOWN_TRANSACTION_COMMIT_RESULT_LABEL_CODES))
  }

  function AddLabel(e: Error, name: string): (r: Error)
    ensures ContainsLabel(r, name)
    ensures forall l :: ContainsLabel(r, l) <==> l == name || ContainsLabel(e, l)
  {
    e.(labels := e.labels + {name})
  }

  // ---------------------------------------------------------------------
  // Redaction
  // ---------------------------------------------------------------------

  const REDACTED := "REDACTED"
  const REDACTED_RESPONSE: Document := "{ \"redacted\": true }"

  function RedactWrite(w: WriteError): WriteError { w.(message := REDACTED, details := None) }

  function RedactConcern(w: WriteConcernError): WriteConcernError { w.(message := REDACTED, details := None) }

  function RedactIndexed(ws: seq<IndexedWriteError>): seq<IndexedWriteError> {
    seq(|ws|, i requires 0 <= i < |ws| => ws[i].(error := RedactWrite(ws[i].error)))
  }

  function RedactKind(k: ErrorKind): ErrorKind {
    match k
    case InsertMany(im) =>
      InsertMany(im.(
        writeErrors := if im.writeErrors.Some? then Some(RedactIndexed(im.writeErrors.value)) else None,
        writeConcernError :=
          if im.writeConcernError.Some? then Some(RedactConcern(im.writeConcernError.value)) else None))
    case BulkWrite(bw) =>
      BulkWrite(bw.(
        writeConcernErrors :=
          seq(|bw.writeConcernErrors|, i requires 0 <= i < |bw.writeConcernErrors| =>
            RedactConcern(bw.writeConcernErrors[i])),
        writeErrors := map i | i in bw.writeErrors :: RedactWrite(bw.writeErrors[i])))
    case Command(c) => Command(c.(message := REDACTED))
    case Write(ConcernFailure(wce)) => Write(ConcernFailure(RedactConcern(wce)))
    case Write(SingleFailure(we)) => Write(SingleFailure(RedactWrite(we)))
    case _ => k
  }

  /** What `Error::redact` leaves behind: the whole source chain is rewritten, kinds outside the
      four server-error kinds are not. */
  function Redact(e: Error): Error {
    Error(
      RedactKind(e.kind),
      e.labels,
      if e.source.Some? then Some(Redact(e.source.value)) else None,
      if e.serverResponse.Some? then Some(REDACTED_RESPONSE) else None)
  }

  predicate CleanWrite(w: WriteError) { w.message == REDACTED && w.details.None? }

  predicate CleanConcern(w: WriteConcernError) { w.message == REDACTED && w.details.None? }

  /** No server-supplied text is left in this kind itself. */
  predicate CleanKind(k: ErrorKind) {
    match k
    case Command(c) => c.message == REDACTED
    case InsertMany(im) =>
      && (im.writeErrors.Some? ==>
            forall i | 0 <= i < |im.writeErrors.value| :: CleanWrite(im.writeErrors.value[i].error))
      && (im.writeConcernError.Some? ==> CleanConcern(im.writeConcernError.value))
    case BulkWrite(bw) =>
      && (forall i | 0 <= i < |bw.writeConcernErrors| :: CleanConcern(bw.writeConcernErrors[i]))
      && (forall i | i in bw.writeErrors :: CleanWrite(bw.writeErrors[i]))
    case Write(ConcernFailure(wce)) => CleanConcern(wce)
    case Write(SingleFailure(we)) => CleanWrite(we)
    case _ => true
  }

  /** No server-supplied text is left anywhere along the source chain. */
  predicate CleanChain(e: Error) {
    && CleanKind(e.kind)
    && (e.serverResponse.Some? ==> e.serverResponse.value == REDACTED_RESPONSE)
    && (e.source.Some? ==> CleanChain(e.source.value))
  }

  /** No server-supplied text is left anywhere, counting the errors that other errors carry. */
  predicate CleanDeep(e: Error)
    decreases e, 1
  {
    CleanChain(e) && CleanNested(e)
  }

  /** Every error carried inside a GridFS abort, I/O or custom error along the chain is itself clean. */
  predicate CleanNested(e: Error)
    decreases e, 0
  {
    && (e.kind.GridFsAbort? ==>
          && CleanDeep(e.kind.delete)
          && (e.kind.original.Some? ==> CleanDeep(e.kind.original.value)))
    && ((e.kind.Io? || e.kind.Custom?) && e.kind.inner.Some? ==> CleanDeep(e.kind.inner.value))
    && (e.source.Some? ==> CleanNested(e.source.value))
  }

  /** Codes and code names, position by position: what the monitoring specification lets through. */
  datatype Codes = Codes(
    single: seq<(int, string)>,
    indexed: seq<(nat, int, Option<string>)>,
    keyed: map<nat, (int, Option<string>)>)

  function CodesOf(k: ErrorKind): Codes {
    match k
    case Command(c) => Codes([(c.code, c.codeName)], [], map[])
    case InsertMany(im) =>
      var wce := if im.writeConcernError.Some?
                 then [(im.writeConcernError.value.code, im.writeConcernError.value.codeName)] else [];
      var wes := if im.writeErrors.Some? then im.writeErrors.value else [];
      Codes(
        wce,
        seq(|wes|, i requires 0 <= i < |wes| => (wes[i].index, wes[i].error.code, wes[i].error.codeName)),
        map[])
    case BulkWrite(bw) =>
      var wces := bw.writeConcernErrors;
      Codes(seq(|wces|, i requires 0 <= i < |wces| => (wces[i].code, wces[i].codeName)), [],
            map i | i in bw.writeErrors :: (bw.writeErrors[i].code, bw.writeErrors[i].codeName))
    case Write(ConcernFailure(wce)) => Codes([(wce.code, wce.codeName)], [], map[])
    case Write(SingleFailure(we)) => Codes([], [(0, we.code, we.codeName)], map[])
    case _ => Codes([], [], map[])
  }

  /** The labels and codes along the chain agree position by position. */
  predicate SameVisibleChain(a: Error, b: Error) {
    && a.labels == b.labels
    && CodesOf(a.kind) == CodesOf(b.kind)
    && a.source.Some? == b.source.Some?
    && (a.source.Some? ==> SameVisibleChain(a.source.value, b.source.value))
  }

  lemma {:induction false} RedactIdempotent(e: Error)
    ensures Redact(Redact(e)) == Redact(e)
  {
    if e.source.Some? { RedactIdempotent(e.source.value); }
    RedactKindIdempotent(e.kind);
  }

  lemma RedactKindIdempotent(k: ErrorKind)
    ensures RedactKind(RedactKind(k)) == RedactKind(k)
  {
    var once, twice := RedactKind(k), RedactKind(RedactKind(k));
    match k {
      case InsertMany(im) =>
        if im.writeErrors.Some? {
          assert twice.insertMany.writeErrors.value == once.insertMany.writeErrors.value;
        }
      case BulkWrite(bw) =>
        assert twice.bulkWrite.writeConcernErrors == once.bulkWrite.writeConcernErrors;
        assert twice.bulkWrite.writeErrors == once.bulkWrite.writeErrors;
      case _ =>
    }
  }

  lemma {:induction false} RedactCleansChain(e: Error)
    ensures CleanChain(Redact(e))
  {
    if e.source.Some? { RedactCleansChain(e.source.value); }
  }

  /** Redaction reaches everything exactly when the errors nested in GridFS abort, I/O and custom errors were
      clean to begin with: `redact` does not descend into those. */
  lemma {:induction false} RedactCleansDeepIff(e: Error)
    ensures CleanDeep(Redact(e)) <==> CleanNested(e)
  {
    RedactCleansChain(e);
    RedactKeepsNested(e);
  }

  lemma {:induction false} RedactKeepsNested(e: Error)
    ensures CleanNested(Redact(e)) <==> CleanNested(e)
  {
    if e.source.Some? { RedactKeepsNested(e.source.value); }
  }

  /** An error with text of the server's in it that sits inside a GridFS abort, I/O or custom error stays as
      it is. */
  lemma RedactMissesCarried(inner: Error, original: Option<Error>)
    requires !CleanDeep(inner)
    ensures forall k | k in {GridFsAbort(original, inner), Io(Some(inner)), Custom(Some(inner))} ::
              var r := Redact(Error(k, {}, None, None));
              r.kind == k && !CleanDeep(r)
  {
    forall k | k in {GridFsAbort(original, inner), Io(Some(inner)), Custom(Some(inner))}
      ensures RedactKind(k) == k && !CleanDeep(Redact(Error(k, {}, None, None)))
    {
      RedactCleansDeepIff(Error(k, {}, None, None));
    }
  }

  /** Such an error: the message of a command error that a failed GridFS read wraps in an I/O error. */
  lemma RedactMissesNestedMessage()
    ensures var inner := Error(Command(CommandError(18, "AuthenticationFailed", "text")), {}, None, None);
            var r := Redact(Error(Io(Some(inner)), {}, None, None));
            r.kind == Io(Some(inner)) && !CleanDeep(r)
  {
    var inner := Error(Command(CommandError(18, "AuthenticationFailed", "text")), {}, None, None);
    assert "text"[0] != REDACTED[0];
    assert !CleanKind(inner.kind);
    RedactMissesCarried(inner, None);
    assert Io(Some(inner)) in {GridFsAbort(None, inner), Io(Some(inner)), Custom(Some(inner))};
  }

  lemma {:induction false} RedactKeepsVisible(e: Error)
    ensures SameVisibleChain(e, Redact(e))
  {
    if e.source.Some? { RedactKeepsVisible(e.source.value); }
    var r := RedactKind(e.kind);
    match e.kind {
      case InsertMany(im) => assert CodesOf(e.kind).indexed == CodesOf(r).indexed;
      case BulkWrite(bw) =>
        assert CodesOf(e.kind).single == CodesOf(r).single;
        assert CodesOf(e.kind).keyed == CodesOf(r).keyed;
      case _ =>
    }
  }

  /** Every decision the driver takes on an error is the same before and after redaction. */
  lemma {:induction false} RedactKeepsDecisions(e: Error, name: string)
    ensures SdamCode(Redact(e)) == SdamCode(e)
    ensures ContainsLabel(Redact(e), name) == ContainsLabel(e, name)
    ensures IsReadRetryable(Redact(e)) == IsReadRetryable(e)
    ensures IsWriteRetryable(Redact(e)) == IsWriteRetryable(e)
    ensures IsResumable(Redact(e)) == IsResumable(e)
  {
    RedactKeepsCode(e);
    RedactKeepsLabel(e, name);
    RedactKeepsLabel(e, RETRYABLE_WRITE_ERROR);
    RedactKeepsLabel(e, RESUMABLE_CHANGE_STREAM_ERROR);
  }

  lemma {:induction false} RedactKeepsCode(e: Error)
    ensures SdamCode(Redact(e)) == SdamCode(e)
  {
    if e.source.Some? { RedactKeepsCode(e.source.value); }
  }

  lemma {:induction false} RedactKeepsLabel(e: Error, name: string)
    ensures ContainsLabel(Redact(e), name) == ContainsLabel(e, name)
  {
    if e.source.Some? { RedactKeepsLabel(e.source.value, name); }
  }
}
