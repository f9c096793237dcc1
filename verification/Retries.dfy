/** Which errors make an operation try again, read off the log of a session
    (driver/src/client/executor/retry.rs:90-160, driver/src/operation.rs:84-117,
    driver/src/error.rs:220-278). A small observer follows the operation that runs, its tries and
    its last failure; every run of the executor leaves events the observer agrees to.
 */
module Retries {
  import opened Wrappers
  import opened Machines
  import opened Errors
  import opened Sessions
  import opened Executor
  import opened Protocol
  import opened SessionRuns

  // ---------------------------------------------------------------------
  // What deserves another try
  // ---------------------------------------------------------------------

  /** The connection was lost, or could not be made. */
  predicate LostConnection(e: Error) { e.kind.Io? || e.kind.ConnectionPoolCleared? || e.kind.ProxyConnect? }

  /** A read can be sent again after a lost connection or one of thirteen codes that say that the server
      was going down, stepping down or out of reach. */
  predicate ReadAgain(e: Error) {
    || LostConnection(e)
    || SdamCode(e) in {Some(11600), Some(11602), Some(10107), Some(13435), Some(13436), Some(189), Some(91), Some(7),
                       Some(6), Some(89), Some(9001), Some(134), Some(262)}
  }

  /** The server is overloaded and says that the operation can be tried again. */
  predicate Overload(e: Error) { ContainsLabel(e, "SystemOverloadedError") && ContainsLabel(e, "RetryableError") }

  /** An operation deserves another try after this error; `bound` means that it belongs to a transaction
      that is not over and does not end it. */
  predicate Deserves(op: Op, bound: bool, e: Error) {
    || (Overload(e) && op.backpressureRetryable)
    || (op.retryability.ReadRetryable? && e.kind.ConnectionPoolCleared?)
    || (!bound && op.retryability.WriteRetryable? && ContainsLabel(e, "RetryableWriteError"))
    || (!bound && op.retryability.ReadRetryable? && ReadAgain(e))
  }

  predicate Bound(op: Op, inside: bool) { inside && op.name.OtherName? }

  // ---------------------------------------------------------------------
  // The observer
  // ---------------------------------------------------------------------

  datatype Watch = Watch(
    op: Option<Op>,
    inside: bool,               // a transaction was started and not committed, aborted or reset since
    retries: nat,
    limit: nat,                 // how many retries the errors so far allow
    overloaded: bool,           // the last retry was for an overload
    failure: Option<Error>)     // an error that has had no consequence yet

  const NOTHING := Watch(None, false, 0, 0, false, None)

  function See(cfg: Config, w: Watch, e: Event): Watch {
    match e
    case TransactionStarted(_, _) => w.(inside := true)
    case TransactionCommitted => w.(inside := false)
    case TransactionAborted => w.(inside := false)
    case TransactionReset => w.(inside := false)
    case OperationBegan(_, details) => Watch(Some(details), w.inside, 0, 0, false, None)
    case OperationEnded(_) => w.(op := None, failure := None)
    case OperationDropped(_) => w.(op := None, failure := None)
    case Failed(_, error) => w.(failure := Some(error))
    case Recovered(_) => w.(failure := None)
    case Reauthenticated(_) => w.(failure := None)
    case Retrying(_, error) =>
      var over := ContainsLabel(error, "SystemOverloadedError");
      w.(retries := w.retries + 1, overloaded := over, failure := None,
         limit := if over then cfg.maxAdaptiveRetries else if w.retries == 0 then 1 else w.limit)
    case _ => w
  }

  predicate NeedsReauthentication(e: Error) { SdamCode(e) == Some(391) }

  /** An error has a consequence at once. */
  predicate Settles(failure: Error, e: Event) {
    || e.Recovered? || e.Retrying? || e.OperationEnded?
    || (e.Reauthenticated? && NeedsReauthentication(failure))
  }

  /** An error that deserves another try gets one, and no other error does. */
  predicate Agrees(w: Watch, e: Event) {
    && (w.failure.Some? ==> Settles(w.failure.value, e))
    && match e
       case Retrying(op, error) =>
         && w.op.Some? && w.op.value.id == op && Deserves(w.op.value, Bound(w.op.value, w.inside), error)
         && (w.failure.Some? && !NeedsReauthentication(w.failure.value) ==> error == w.failure.value)
       case OperationEnded(op) =>
         && w.op.Some? && w.op.value.id == op
         && (w.failure.Some? && !NeedsReauthentication(w.failure.value) ==>
               !Deserves(w.op.value, Bound(w.op.value, w.inside), w.failure.value))
       case Failed(op, _) => w.op.Some? && w.op.value.id == op
       case _ => true
  }

  function Seer(cfg: Config): (Watch, Event) -> Watch { (w, e) => See(cfg, w, e) }

  function Judge(): (Watch, Event) -> bool { (w, e) => Agrees(w, e) }

  function Sees(cfg: Config, w: Watch, events: seq<Event>): Watch { Watching(Seer(cfg), w, events) }

  predicate AgreesToAll(cfg: Config, w: Watch, events: seq<Event>) { Allowed(Seer(cfg), Judge(), w, events) }

  lemma SeesOne(cfg: Config, w: Watch, events: seq<Event>, e: Event)
    ensures Sees(cfg, w, events + [e]) == See(cfg, Sees(cfg, w, events), e)
    ensures AgreesToAll(cfg, w, events + [e]) <==> AgreesToAll(cfg, w, events) && Agrees(Sees(cfg, w, events), e)
  {
    WatchOne(Seer(cfg), Judge(), w, events, e);
  }

  /** Events the observer takes no notice of. */
  predicate Silent(e: Event) {
    || e.TransactionUnpinned? || e.WriteNumbered? || e.CommandBuilt? || e.Unselected? || e.ReplyMovedOn?
    || e.TokenReceived? || e.TimeProcessed? || e.OperationTimeProcessed?
  }

  predicate AllSilent(events: seq<Event>) { forall i | 0 <= i < |events| :: Silent(events[i]) }

  lemma {:induction false} SilenceKeeps(cfg: Config, w: Watch, events: seq<Event>)
    requires AllSilent(events) && w.failure.None?
    ensures Sees(cfg, w, events) == w && AgreesToAll(cfg, w, events)
    decreases |events|
  {
    if events != [] {
      var init, last := events[..|events| - 1], events[|events| - 1];
      SilenceKeeps(cfg, w, init);
      SeesOne(cfg, w, init, last);
      assert events == init + [last];
    }
  }

  // ---------------------------------------------------------------------
  // The invariant
  // ---------------------------------------------------------------------

  predicate SameOp(a: Op, b: Op) {
    && a.id == b.id && a.name == b.name && a.retryability == b.retryability
    && a.backpressureRetryable == b.backpressureRetryable
  }

  predicate Follows(w: Watch, run: Run) {
    && w.op.Some? && SameOp(w.op.value, run.op)
    && w.retries == (if run.retry.Some? then run.retry.value.attempt else 0)
    && (run.retry.Some? ==>
          && w.retries > 0 && w.limit == run.retry.value.maxRetries && w.overloaded == run.retry.value.overloaded)
  }

  predicate Knows(st: State, w: Watch) {
    && w.inside == InTransaction(st.session)
    && w.failure.None?
    && match st.phase
       case Idle => w.op.None?
       case Selecting(run) => Follows(w, run)
       case Building(run, a) => Follows(w, run) && a.isTransactionOp == Bound(run.op, w.inside)
       case Waiting(run, a) => Follows(w, run) && a.isTransactionOp == Bound(run.op, w.inside)
  }

  predicate Fine(cfg: Config, w: Watch, o: Outcome<State, Event>) {
    AgreesToAll(cfg, w, o.events) && Knows(o.state, Sees(cfg, w, o.events))
  }

  lemma Decides(op: Op, watched: Op, e: Error, inside: bool)
    requires SameOp(watched, op)
    ensures CanRetry(op, e, Bound(op, inside)) <==> Deserves(watched, Bound(watched, inside), e)
  {
  }

  /** An attempt failed with `e`, so far as the observer can tell. */
  predicate FailedWith(w: Watch, run: Run, e: Error) {
    Follows(w, run) && (w.failure.None? || w.failure == Some(e) || NeedsReauthentication(w.failure.value))
  }

  lemma AgainIsFine(cfg: Config, w: Watch, s: Session, run: Run, e: Error, n: Option<int>, events: seq<Event>)
    requires AgreesToAll(cfg, w, events)
    requires var w' := Sees(cfg, w, events);
             && FailedWith(w', run, e) && w'.inside == InTransaction(s)
             && Deserves(w'.op.value, Bound(w'.op.value, w'.inside), e)
    ensures Fine(cfg, w, Outcome(State(s, Selecting(run.(retry := Some(NextRetry(cfg, run.retry, e, n))))),
                                 events + [Retrying(run.op.id, e)]))
  {
    SeesOne(cfg, w, events, Retrying(run.op.id, e));
  }

  lemma GivingUpIsFine(cfg: Config, w: Watch, s: Session, run: Run, e: Error, events: seq<Event>)
    requires AgreesToAll(cfg, w, events)
    requires var w' := Sees(cfg, w, events);
             && FailedWith(w', run, e) && w'.inside == InTransaction(s)
             && !Deserves(w'.op.value, Bound(w'.op.value, w'.inside), e)
    ensures Fine(cfg, w, Finish(s, run.op, events))
  {
    SeesOne(cfg, w, events, OperationEnded(run.op.id));
  }

  /** After an attempt failed with `e`. */
  lemma FailureIsFine(cfg: Config, w: Watch, s: Session, run: Run, e: Error, isTransactionOp: bool, n: Option<int>,
                      events: seq<Event>)
    requires AgreesToAll(cfg, w, events)
    requires var w' := Sees(cfg, w, events);
             FailedWith(w', run, e) && w'.inside == InTransaction(s) && isTransactionOp == Bound(run.op, w'.inside)
    ensures Fine(cfg, w, RetryOrFinish(cfg, s, run, e, isTransactionOp, n, events))
  {
    var w' := Sees(cfg, w, events);
    Decides(run.op, w'.op.value, e, w'.inside);
    if CanRetry(run.op, e, isTransactionOp) {
      AgainIsFine(cfg, w, s, run, e, n, events);
    } else {
      GivingUpIsFine(cfg, w, s, run, e, events);
    }
  }

  /** An operation that ends without an error. */
  lemma EndIsFine(cfg: Config, w: Watch, s: Session, op: Op, events: seq<Event>)
    requires AgreesToAll(cfg, w, events)
    requires var w' := Sees(cfg, w, events);
             w'.op.Some? && w'.op.value.id == op.id && w'.inside == InTransaction(s) && w'.failure.None?
    ensures Fine(cfg, w, Finish(s, op, events))
  {
    SeesOne(cfg, w, events, OperationEnded(op.id));
  }

  lemma SelectIsFine(cfg: Config, w: Watch, s: Session, run: Run, input: SelectInput)
    requires Knows(State(s, Selecting(run)), w)
    ensures Fine(cfg, w, StepSelecting(cfg, s, run, input))
  {
    var run' := if run.retry.Some? then run.(op := UpdatedForRetry(run.op)) else run;
    var overloaded := run.retry.Some? && run.retry.value.overloaded;
    EndIsFine(cfg, w, s, run.op, []);
    EndIsFine(cfg, w, s, run'.op, []);
    match input {
      case SelectionFailed(_, error) =>
        UnselectedIsFine(cfg, w, s, run', Labelled(error, NotRetryable, s.transaction.state));
      case Selected(_, candidate, ConnectFailed(error)) =>
        UnconnectedIsFine(cfg, w, s, run', Labelled(error, run'.op.retryability, s.transaction.state));
      case Selected(_, candidate, Connected(id, isMongos, _, retryableWrites)) =>
        ConnectIsFine(cfg, w, s, run', Target(s, run', candidate), id, isMongos, retryableWrites, overloaded);
    }
  }

  lemma UnselectedIsFine(cfg: Config, w: Watch, s: Session, run: Run, e: Error)
    requires Knows(State(s, Selecting(run)), w)
    ensures Fine(cfg, w, Finish(AfterError(s, e), run.op, [Unselected(run.op.id, e)]))
  {
    SilenceKeeps(cfg, w, [Unselected(run.op.id, e)]);
    EndIsFine(cfg, w, AfterError(s, e), run.op, [Unselected(run.op.id, e)]);
  }

  lemma UnconnectedIsFine(cfg: Config, w: Watch, s: Session, run: Run, e: Error)
    requires Knows(State(s, Selecting(run)), w)
    ensures Fine(cfg, w, RetryOrFinish(cfg, AfterError(s, e), run, e, InTransaction(s) && !IsCommitOrAbort(run.op),
                                       None, [Failed(run.op.id, e)]))
  {
    OneFailure(cfg, w, run.op, e);
    FailureIsFine(cfg, w, AfterError(s, e), run, e, InTransaction(s) && !IsCommitOrAbort(run.op), None,
                  [Failed(run.op.id, e)]);
  }

  lemma OneFailure(cfg: Config, w: Watch, op: Op, e: Error)
    requires w.op.Some? && w.op.value.id == op.id && w.failure.None?
    ensures AgreesToAll(cfg, w, [Failed(op.id, e)]) && Sees(cfg, w, [Failed(op.id, e)]) == w.(failure := Some(e))
  {
    SeesFirst(cfg, w, Failed(op.id, e));
  }

  lemma ConnectIsFine(cfg: Config, w: Watch, s: Session, run: Run, address: Address, id: ConnectionId, isMongos: bool,
                      retryableWrites: bool, overloaded: bool)
    requires Knows(State(s, Selecting(run)), w)
    ensures Fine(cfg, w, StepConnected(s, run, address, id, isMongos, retryableWrites, overloaded))
  {
    EndIsFine(cfg, w, s, run.op, []);
    var o := StepConnected(s, run, address, id, isMongos, retryableWrites, overloaded);
    if o.state.phase.Building? { SilenceKeeps(cfg, w, o.events); }
  }

  lemma BuildIsFine(cfg: Config, w: Watch, s: Session, run: Run, a: Attempt, input: BuildInput)
    requires Knows(State(s, Building(run, a)), w)
    ensures Fine(cfg, w, StepBuilding(cfg, s, run, a, input))
  {
    if input.Unbuildable? {
      FailureIsFine(cfg, w, s, run, input.error, a.isTransactionOp, a.txnNumber, []);
    } else if !run.op.supportsSessions && !s.implicit {
      FailureIsFine(cfg, w, s, run, UNSUPPORTED_SESSION, a.isTransactionOp, a.txnNumber, []);
    } else {
      var built := [CommandBuilt(BuiltCommand(s, run.op, a, input.clientTime), input.Transmit?)];
      SilenceKeeps(cfg, w, built);
      if input.Unsendable? {
        FailureIsFine(cfg, w, PinnedByBuild(cfg, s, run.op, a), run, input.error, a.isTransactionOp, a.txnNumber,
                      built);
      }
    }
  }

  lemma ParseIsSilent(s: Session, isMongos: bool, received: Received)
    ensures var p := Receive(s, isMongos, received);
            AllSilent(p.events) && p.session.transaction.state == s.transaction.state
  {
  }

  /** A failure at the end of events the observer takes no notice of. */
  lemma FailureIsSeen(cfg: Config, w: Watch, events: seq<Event>, op: OpId, e: Error)
    requires AllSilent(events) && w.op.Some? && w.op.value.id == op && w.failure.None?
    ensures AgreesToAll(cfg, w, events + [Failed(op, e)])
    ensures Sees(cfg, w, events + [Failed(op, e)]) == w.(failure := Some(e))
    ensures AgreesToAll(cfg, w, events + [Failed(op, e)] + [Recovered(op)])
    ensures Sees(cfg, w, events + [Failed(op, e)] + [Recovered(op)]) == w
  {
    SilenceKeeps(cfg, w, events);
    SeesOne(cfg, w, events, Failed(op, e));
    SeesOne(cfg, w, events + [Failed(op, e)], Recovered(op));
  }

  /** What interpreting a reply leaves with the observer: the error, if there is one. */
  lemma InterpretIsSeen(cfg: Config, w: Watch, p: Parsed, run: Run, a: Attempt, input: ReplyInput)
    requires AllSilent(p.events) && w.op.Some? && w.op.value.id == run.op.id && w.failure.None?
    ensures var q := Interpreted(p, run, a, input);
            && AgreesToAll(cfg, w, q.events) && Sees(cfg, w, q.events) == w.(failure := q.error)
            && InTransaction(q.session) == InTransaction(p.session)
  {
    if p.error.Some? {
      FailureIsSeen(cfg, w, p.events, run.op.id, Labelled(p.error.value, a.retryability, p.session.transaction.state));
    } else {
      HandledIsSeen(cfg, w, p, run, a, input);
    }
  }

  lemma HandledIsSeen(cfg: Config, w: Watch, p: Parsed, run: Run, a: Attempt, input: ReplyInput)
    requires AllSilent(p.events) && w.op.Some? && w.op.value.id == run.op.id && w.failure.None? && p.error.None?
    ensures var q := Interpreted(p, run, a, input);
            && AgreesToAll(cfg, w, q.events) && Sees(cfg, w, q.events) == w.(failure := q.error)
            && InTransaction(q.session) == InTransaction(p.session)
  {
    var moves := run.op.batchesReplies && input.movesOn && p.session.transaction.state.Starting?;
    var s1 := if moves then ToInProgress(p.session) else p.session;
    var events := p.events + (if moves then [ReplyMovedOn(run.op.id)] else []);
    assert AllSilent(events);
    if input.handled.Some? {
      FailureIsSeen(cfg, w, events, run.op.id, Labelled(input.handled.value, a.retryability, s1.transaction.state));
    } else {
      SilenceKeeps(cfg, w, events);
    }
  }

  lemma ReplyIsFine(cfg: Config, w: Watch, p: Parsed, run: Run, a: Attempt, reauthenticationError: Option<Error>)
    requires AgreesToAll(cfg, w, p.events) && Sees(cfg, w, p.events) == w.(failure := p.error)
    requires Follows(w, run) && w.inside == InTransaction(p.session) && a.isTransactionOp == Bound(run.op, w.inside)
    ensures Fine(cfg, w, AfterReply(cfg, p, run, a, reauthenticationError))
  {
    if p.error.None? {
      EndIsFine(cfg, w, p.session, run.op, p.events);
    } else if !IsReauthenticationRequired(p.error.value) {
      FailureIsFine(cfg, w, p.session, run, p.error.value, a.isTransactionOp, a.txnNumber, p.events);
    } else if reauthenticationError.Some? {
      FailureIsFine(cfg, w, p.session, run, reauthenticationError.value, a.isTransactionOp, a.txnNumber, p.events);
    } else {
      LoginIsFine(cfg, w, p.session, run, a, p.events);
    }
  }

  /** The same command again, after a new login. */
  lemma LoginIsFine(cfg: Config, w: Watch, s: Session, run: Run, a: Attempt, events: seq<Event>)
    requires AgreesToAll(cfg, w, events)
    requires var w' := Sees(cfg, w, events);
             && Follows(w', run) && w'.inside == InTransaction(s) && a.isTransactionOp == Bound(run.op, w'.inside)
             && (w'.failure.Some? ==> NeedsReauthentication(w'.failure.value))
    ensures Fine(cfg, w, Outcome(State(s, Building(run, a)), events + [Reauthenticated(run.op.id)]))
  {
    SeesOne(cfg, w, events, Reauthenticated(run.op.id));
  }

  lemma AnswerIsFine(cfg: Config, w: Watch, s: Session, run: Run, a: Attempt, input: ReplyInput)
    requires Knows(State(s, Waiting(run, a)), w)
    ensures Fine(cfg, w, StepWaiting(cfg, s, run, a, input))
  {
    var p := Receive(s, a.conn.isMongos, input.received);
    ParseIsSilent(s, a.conn.isMongos, input.received);
    InterpretIsSeen(cfg, w, p, run, a, input);
    ReplyIsFine(cfg, w, Interpreted(p, run, a, input), run, a, input.reauthenticationError);
  }

  lemma BeganIsFine(cfg: Config, w: Watch, s: Session, run: Run, events: seq<Event>)
    requires AgreesToAll(cfg, w, events) && Knows(State(s, Idle), Sees(cfg, w, events)) && run.retry.None?
    ensures Fine(cfg, w, Outcome(State(s, Selecting(run)), events + [OperationBegan(run.op.id, run.op)]))
  {
    SeesOne(cfg, w, events, OperationBegan(run.op.id, run.op));
  }

  lemma ResetIsFine(cfg: Config, w: Watch, s: Session, run: Run, events: seq<Event>)
    requires AgreesToAll(cfg, w, events) && Knows(State(s, Idle), Sees(cfg, w, events)) && run.retry.None?
    requires !InTransaction(s)
    ensures Fine(cfg, w, Outcome(State(s.(transaction := NO_TRANSACTION), Selecting(run)),
                                 events + [TransactionReset] + [OperationBegan(run.op.id, run.op)]))
  {
    SeesOne(cfg, w, events, TransactionReset);
    BeganIsFine(cfg, w, s.(transaction := NO_TRANSACTION), run, events + [TransactionReset]);
  }

  lemma BeginIsFine(cfg: Config, w: Watch, s: Session, op: Op, valid: bool, events: seq<Event>)
    requires AgreesToAll(cfg, w, events) && Knows(State(s, Idle), Sees(cfg, w, events))
    ensures Fine(cfg, w, Begin(s, op, valid, events))
  {
    var criteria := if op.pinned.Some? && op.pinned.value.Mongos? then Some(op.pinned.value.address) else None;
    if valid {
      if ResetsTransaction(s, op.name) {
        ResetIsFine(cfg, w, s, Run(op, criteria, None), events);
      } else {
        BeganIsFine(cfg, w, s, Run(op, criteria, None), events);
        assert events + [] == events;
      }
    }
  }

  lemma SeesFirst(cfg: Config, w: Watch, e: Event)
    ensures Sees(cfg, w, [e]) == See(cfg, w, e) && (AgreesToAll(cfg, w, [e]) <==> Agrees(w, e))
  {
    SeesOne(cfg, w, [], e);
    assert [] + [e] == [e];
  }

  lemma StartIsFine(cfg: Config, w: Watch, s: Session, supported: bool, options: Option<TransactionOptions>)
    requires Knows(State(s, Idle), w)
    ensures Fine(cfg, w, StartTransaction(s, supported, options))
  {
    var s1 := WithPin(s, None);
    if s.transaction.state.Committed? {
      SeesFirst(cfg, w, TransactionUnpinned);
      StartedIsFine(cfg, w, s1, [TransactionUnpinned], options);
    } else if !InTransaction(s) {
      StartedIsFine(cfg, w, s, [], options);
    }
  }

  lemma StartedIsFine(cfg: Config, w: Watch, s: Session, events: seq<Event>, options: Option<TransactionOptions>)
    requires AgreesToAll(cfg, w, events)
    requires var w' := Sees(cfg, w, events); w'.op.None? && w'.failure.None?
    ensures var s' := IncrementTxnNumber(s);
            Fine(cfg, w, Outcome(State(s'.(transaction := Started(s'.transaction, options)), Idle),
                                 events + [TransactionStarted(s'.server.id, s'.server.txnNumber)]))
  {
    SeesOne(cfg, w, events, TransactionStarted(s.server.id, s.server.txnNumber + 1));
  }

  lemma CommitIsFine(cfg: Config, w: Watch, s: Session, id: OpId, valid: bool)
    requires Knows(State(s, Idle), w)
    ensures Fine(cfg, w, CommitTransaction(s, id, valid))
  {
    SeesFirst(cfg, w, TransactionCommitted);
    if s.transaction.state.InProgress? {
      BeginIsFine(cfg, w, s.(transaction := CommittedAs(s.transaction, true)), CommitOp(id), valid,
                  [TransactionCommitted]);
    } else if s.transaction.state == Committed(true) {
      BeginIsFine(cfg, w, s, CommitOp(id), valid, []);
    }
  }

  lemma AbortIsFine(cfg: Config, w: Watch, s: Session, id: OpId, valid: bool)
    requires Knows(State(s, Idle), w)
    ensures Fine(cfg, w, AbortTransaction(s, id, valid))
  {
    SeesFirst(cfg, w, TransactionAborted);
    if s.transaction.state.InProgress? {
      BeginIsFine(cfg, w, s.(transaction := AbortedFrom(s.transaction)), AbortOp(id, s.transaction.pinned), valid,
                  [TransactionAborted]);
    }
  }

  lemma CallIsFine(cfg: Config, w: Watch, s: Session, a: Action)
    requires Knows(State(s, Idle), w) && Enabled(State(s, Idle), a)
    ensures Fine(cfg, w, Step(cfg, State(s, Idle), a))
  {
    match a {
      case StartCall(supported, options) => StartIsFine(cfg, w, s, supported, options);
      case CommitCall(id, valid) => CommitIsFine(cfg, w, s, id, valid);
      case AbortCall(id, valid) => AbortIsFine(cfg, w, s, id, valid);
      case OperationCall(op, valid) => BeginIsFine(cfg, w, s, op, valid, []);
      case _ => SilenceKeeps(cfg, w, Step(cfg, State(s, Idle), a).events);
    }
  }

  lemma StepIsFine(cfg: Config, w: Watch, st: State, a: Action)
    requires Knows(st, w)
    ensures Fine(cfg, w, Step(cfg, st, a))
  {
    var s := st.session;
    if Enabled(st, a) {
      match a {
        case Select(input) => SelectIsFine(cfg, w, s, st.phase.run, input);
        case Build(input) => BuildIsFine(cfg, w, s, st.phase.run, st.phase.attempt, input);
        case Answer(input) => AnswerIsFine(cfg, w, s, st.phase.run, st.phase.attempt, input);
        case Cancel =>
          SeesFirst(cfg, w, OperationDropped(st.phase.run.op.id));
        case _ => CallIsFine(cfg, w, s, a);
      }
    }
  }

  /** Every run of a new session. */
  lemma {:induction false} RunsAreFine(cfg: Config, server: ServerSession, implicit: bool, actions: seq<Action>)
    ensures Fine(cfg, NOTHING, Execute(cfg, State(NewSession(server, implicit), Idle), actions))
    decreases |actions|
  {
    if actions != [] {
      var init, last := actions[..|actions| - 1], actions[|actions| - 1];
      RunsAreFine(cfg, server, implicit, init);
      var before := Execute(cfg, State(NewSession(server, implicit), Idle), init);
      var step := Step(cfg, before.state, last);
      StepIsFine(cfg, Sees(cfg, NOTHING, before.events), before.state, last);
      WatchConcat(Seer(cfg), Judge(), NOTHING, before.events, step.events);
    }
  }

  // ---------------------------------------------------------------------
  // Results
  // ---------------------------------------------------------------------

  function BeganAs(op: Op): Event -> bool { (e: Event) => e.OperationBegan? && e.details == op }

  /** The observer's memory in terms of the log. */
  lemma {:induction false} MemoryIsTheLog(cfg: Config, log: seq<Event>)
    ensures var w := Sees(cfg, NOTHING, log);
            && (w.op.Some? ==> Since(log, BeganAs(w.op.value), Turns))
            && (w.inside <==> Since(log, IsStart, EndsTransaction))
    decreases |log|
  {
    if log != [] {
      var before, e := log[..|log| - 1], log[|log| - 1];
      assert log == before + [e];
      MemoryIsTheLog(cfg, before);
      SeesOne(cfg, NOTHING, before, e);
      SinceSnoc(before, e, IsStart, EndsTransaction);
      var w := Sees(cfg, NOTHING, log);
      if w.op.Some? { SinceSnoc(before, e, BeganAs(w.op.value), Turns); }
    }
  }

  /** Every failure of a connection or of a command, unless it asks for a new login, is followed at once
      by what becomes of it. The operation may know how to make a result of it. If it does not, it tries
      again exactly when the error deserves it, given what the operation is and whether a transaction
      was under way. */
  lemma RetriedExactlyWhen(cfg: Config, server: ServerSession, implicit: bool, actions: seq<Action>, j: nat)
    requires j < |Log(cfg, server, implicit, actions)| && Log(cfg, server, implicit, actions)[j].Failed?
    requires SdamCode(Log(cfg, server, implicit, actions)[j].error) != Some(391)
    ensures j + 1 < |Log(cfg, server, implicit, actions)|
    ensures var log := Log(cfg, server, implicit, actions);
            var next := log[j + 1];
            || next.Recovered?
            || exists op: Op ::
                 && Since(log[..j], BeganAs(op), Turns) && op.id == log[j].op
                 && next == if Deserves(op, Bound(op, Since(log[..j], IsStart, EndsTransaction)), log[j].error)
                            then Retrying(op.id, log[j].error) else OperationEnded(op.id)
  {
    RunsAreFine(cfg, server, implicit, actions);
    FailureSettles(cfg, Log(cfg, server, implicit, actions), j);
  }

  lemma FailureSettles(cfg: Config, log: seq<Event>, j: nat)
    requires AgreesToAll(cfg, NOTHING, log) && Sees(cfg, NOTHING, log).failure.None?
    requires j < |log| && log[j].Failed? && SdamCode(log[j].error) != Some(391)
    ensures j + 1 < |log|
    ensures || log[j + 1].Recovered?
            || exists op: Op ::
                 && Since(log[..j], BeganAs(op), Turns) && op.id == log[j].op
                 && log[j + 1] == if Deserves(op, Bound(op, Since(log[..j], IsStart, EndsTransaction)), log[j].error)
                                  then Retrying(op.id, log[j].error) else OperationEnded(op.id)
  {
    var w := Sees(cfg, NOTHING, log[..j]);
    AllowedAt(Seer(cfg), Judge(), NOTHING, log, j);
    SeesOne(cfg, NOTHING, log[..j], log[j]);
    assert log[..j + 1] == log[..j] + [log[j]];
    assert log[..|log|] == log;
    MemoryIsTheLog(cfg, log[..j]);
    AllowedAt(Seer(cfg), Judge(), NOTHING, log, j + 1);
    NextIs(w.(failure := Some(log[j].error)), log[j + 1]);
  }

  lemma NextIs(w: Watch, e: Event)
    requires w.failure.Some? && !NeedsReauthentication(w.failure.value) && w.op.Some? && Agrees(w, e)
    ensures || e.Recovered?
            || e == if Deserves(w.op.value, Bound(w.op.value, w.inside), w.failure.value)
                    then Retrying(w.op.value.id, w.failure.value) else OperationEnded(w.op.value.id)
  {
  }

  /** No operation tries again for any other reason. */
  lemma RetriesAreDeserved(cfg: Config, server: ServerSession, implicit: bool, actions: seq<Action>, j: nat)
    requires j < |Log(cfg, server, implicit, actions)| && Log(cfg, server, implicit, actions)[j].Retrying?
    ensures var log := Log(cfg, server, implicit, actions);
            exists op: Op ::
              && Since(log[..j], BeganAs(op), Turns) && op.id == log[j].op
              && Deserves(op, Bound(op, Since(log[..j], IsStart, EndsTransaction)), log[j].error)
  {
    var log := Log(cfg, server, implicit, actions);
    RunsAreFine(cfg, server, implicit, actions);
    AllowedAt(Seer(cfg), Judge(), NOTHING, log, j);
    MemoryIsTheLog(cfg, log[..j]);
  }

  /** The next try is not one too many, and the server and the token bucket do not stand in its way. */
  predicate MayTry(w: Watch, granted: bool, retryableWrites: bool) {
    && w.op.Some?
    && w.retries <= w.limit
    && if w.overloaded then granted && w.op.value.backpressureRetryable
       else !w.inside && (w.op.value.retryability.ReadRetryable?
                          || (w.op.value.retryability.WriteRetryable? && retryableWrites))
  }

  /** An operation that is to try again gets a command ready on the next connection, exactly when it has
      tries left; otherwise it ends. */
  lemma TriesAgainExactlyWhen(cfg: Config, server: ServerSession, implicit: bool, actions: seq<Action>, granted: bool,
                              candidate: Address, id: ConnectionId, isMongos: bool, retryableWrites: bool)
    requires var o := Execute(cfg, State(NewSession(server, implicit), Idle), actions);
             o.state.phase.Selecting? && Sees(cfg, NOTHING, o.events).retries > 0
    ensures var o := Execute(cfg, State(NewSession(server, implicit), Idle), actions);
            var w := Sees(cfg, NOTHING, o.events);
            var connected := Connected(id, isMongos, true, retryableWrites);
            var next := Step(cfg, o.state, Select(Selected(granted, candidate, connected)));
            if MayTry(w, granted, retryableWrites) then next.state.phase.Building?
            else next.state.phase.Idle? && w.op.Some? && next.events == [OperationEnded(w.op.value.id)]
  {
    var o := Execute(cfg, State(NewSession(server, implicit), Idle), actions);
    RunsAreFine(cfg, server, implicit, actions);
    NextTry(cfg, Sees(cfg, NOTHING, o.events), o.state.session, o.state.phase.run, granted, candidate, id, isMongos,
            retryableWrites);
  }

  lemma NextTry(cfg: Config, w: Watch, s: Session, run: Run, granted: bool, candidate: Address, id: ConnectionId,
                isMongos: bool, retryableWrites: bool)
    requires Knows(State(s, Selecting(run)), w) && w.retries > 0
    ensures var connected := Connected(id, isMongos, true, retryableWrites);
            var next := StepSelecting(cfg, s, run, Selected(granted, candidate, connected));
            if MayTry(w, granted, retryableWrites) then next.state.phase.Building?
            else next.state.phase.Idle? && next.events == [OperationEnded(w.op.value.id)]
  {
  }
}
