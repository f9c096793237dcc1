/** The operation executor as a machine over one session (driver/src/client/executor.rs,
    driver/src/client/executor/retry.rs, driver/src/client/session/action.rs).

    A step is what happens between two points where the executor waits for the outside: server
    selection and connection check-out, building and sending a command, receiving a reply. What the
    outside answers is the step's input. A step yields the next state and the observable events.
 */
module Executor {
  import opened Wrappers
  import opened Machines
  import opened Errors
  import opened Sessions

  type OpId = nat

  datatype OpName = CommitName | AbortName | OtherName

  /** What the executor asks of an operation. `pinned` is the pin an abort takes over from its
      session; `batchesReplies` marks operations that may leave `Starting` while handling a reply. */
  datatype Op = Op(
    id: OpId,
    name: OpName,
    retryability: Retryability,
    backpressureRetryable: bool,
    supportsSessions: bool,
    pinned: Option<TransactionPin>,
    batchesReplies: bool)

  datatype Config = Config(loadBalanced: bool, maxAdaptiveRetries: nat)

  const MAX_RW_RETRIES := 1

  datatype Retry = Retry(attempt: nat, txnNumber: Option<int>, overloaded: bool, maxRetries: nat)

  /** An operation inside the retry loop. `criteria` is the mongos the operation itself asked for
      when it was validated; it is read once, before the loop. */
  datatype Run = Run(op: Op, criteria: Option<Address>, retry: Option<Retry>)

  datatype Conn = Conn(address: Address, id: ConnectionId, isMongos: bool, pinnedHandle: bool)

  datatype Attempt = Attempt(conn: Conn, isTransactionOp: bool, txnNumber: Option<int>, retryability: Retryability)

  datatype Phase =
    | Idle
    | Selecting(run: Run)
    | Building(run: Run, attempt: Attempt)
    | Waiting(run: Run, attempt: Attempt)

  datatype State = State(session: Session, phase: Phase)

  datatype Command = Command(
    op: OpId,
    name: OpName,
    lsid: Option<Lsid>,
    txnNumber: Option<int>,
    startTransaction: bool,
    autocommit: bool,
    recoveryToken: Option<Token>,
    clusterTime: Option<ClusterTime>,
    conn: Conn)

  datatype Event =
    | TransactionStarted(lsid: Lsid, number: int)
    | TransactionCommitted
    | TransactionAborted
    | TransactionReset
    | TransactionUnpinned
    | WriteNumbered(lsid: Lsid, number: int, op: OpId)
    | OperationBegan(op: OpId, details: Op)
    | OperationEnded(op: OpId)
    | OperationDropped(op: OpId)
    | CommandBuilt(command: Command, sent: bool)
    | Unselected(op: OpId, error: Error)
    | Failed(op: OpId, error: Error)
    | Recovered(op: OpId)
    | Retrying(op: OpId, error: Error)
    | Reauthenticated(op: OpId)
    | ReplyMovedOn(op: OpId)
    | TokenReceived(token: Option<Token>)
    | TimeProcessed(clusterTime: ClusterTime, fromReply: bool)
    | OperationTimeProcessed(timestamp: Timestamp)

  // ---------------------------------------------------------------------
  // Inputs
  // ---------------------------------------------------------------------

  datatype Connecting =
    | ConnectFailed(error: Error)
    | Connected(id: ConnectionId, isMongos: bool, supportsSessions: bool, retryableWrites: bool)

  /** `granted` answers the token bucket, and is looked at for overload retries only. */
  datatype SelectInput =
    | SelectionFailed(granted: bool, error: Error)
    | Selected(granted: bool, candidate: Address, connecting: Connecting)

  /** `Unbuildable`: the operation could not be turned into a command. `Unsendable`: it could, but
      encoding or encrypting the message failed. */
  datatype BuildInput =
    | Unbuildable(error: Error)
    | Unsendable(error: Error, clientTime: Option<ClusterTime>)
    | Transmit(clientTime: Option<ClusterTime>)

  datatype TokenField = NoToken | HasToken(token: Token) | BadToken(error: Error)

  datatype Reply =
    | Malformed(error: Error)
    | Reply(clusterTime: Option<ClusterTime>, atClusterTime: Option<Timestamp>,
            operationTime: Option<Timestamp>, recoveryToken: TokenField, failure: Option<Error>)

  datatype Received = NetworkFailure(error: Error) | Replied(reply: Reply)

  /** `recovered`: the operation turned the error into a result. `handled`: the error, if any, from
      interpreting an ok reply. `movesOn`: a batching operation got far enough to leave `Starting`. */
  datatype ReplyInput = ReplyInput(
    received: Received, recovered: bool, handled: Option<Error>, movesOn: bool, reauthenticationError: Option<Error>)

  // ---------------------------------------------------------------------
  // Error labels and pins
  // ---------------------------------------------------------------------

  function LabelledTransient(e: Error): Error {
    if IsNetworkError(e) || IsServerSelectionError(e) then AddLabel(e, TRANSIENT_TRANSACTION_ERROR) else e
  }

  function Labelled(e: Error, retryability: Retryability, state: TransactionState): Error {
    match state
    case Starting => LabelledTransient(e)
    case InProgress => LabelledTransient(e)
    case Committed(_) =>
      var e' := if IsNetworkError(e) then AddLabel(e, RETRYABLE_WRITE_ERROR) else e;
      if ShouldAddUnknownCommitLabel(e') then AddLabel(e', UNKNOWN_TRANSACTION_COMMIT_RESULT) else e'
    case Aborted => if IsNetworkError(e) then AddLabel(e, RETRYABLE_WRITE_ERROR) else e
    case NoTransaction =>
      if retryability.WriteRetryable? && IsNetworkError(e) then AddLabel(e, RETRYABLE_WRITE_ERROR) else e
  }

  predicate Unpins(e: Error) {
    ContainsLabel(e, TRANSIENT_TRANSACTION_ERROR) || ContainsLabel(e, UNKNOWN_TRANSACTION_COMMIT_RESULT)
  }

  function AfterError(s: Session, labelled: Error): Session {
    if Unpins(labelled) then WithPin(s, None) else s
  }

  // ---------------------------------------------------------------------
  // Retry decisions
  // ---------------------------------------------------------------------

  predicate IsCommitOrAbort(op: Op) { op.name.CommitName? || op.name.AbortName? }

  predicate Overloaded(e: Error) { ContainsLabel(e, SYSTEM_OVERLOADED_ERROR) }

  predicate CanRetryError(r: Retryability, e: Error) {
    (r.WriteRetryable? && IsWriteRetryable(e)) || (r.ReadRetryable? && IsReadRetryable(e))
  }

  predicate CanRetry(op: Op, e: Error, isTransactionOp: bool) {
    || (Overloaded(e) && ContainsLabel(e, RETRYABLE_ERROR) && op.backpressureRetryable)
    || (op.retryability.ReadRetryable? && IsPoolCleared(e))
    || (CanRetryError(op.retryability, e) && !isTransactionOp)
  }

  function NextRetry(cfg: Config, retry: Option<Retry>, e: Error, txnNumber: Option<int>): Retry {
    match retry
    case None =>
      Retry(1, txnNumber, Overloaded(e), if Overloaded(e) then cfg.maxAdaptiveRetries else MAX_RW_RETRIES)
    case Some(r) =>
      Retry(r.attempt + 1,
            if r.txnNumber.None? then txnNumber else r.txnNumber,
            Overloaded(e),
            if Overloaded(e) then cfg.maxAdaptiveRetries else r.maxRetries)
  }

  function UpdatedForRetry(op: Op): Op {
    if op.name.AbortName? then op.(pinned := None) else op
  }

  function EffectiveRetryability(s: Session, op: Op, retryableWrites: bool): Retryability {
    if InTransaction(s) then NotRetryable
    else if op.retryability.WriteRetryable? && !retryableWrites then NotRetryable
    else op.retryability
  }

  // ---------------------------------------------------------------------
  // Steps of one operation
  // ---------------------------------------------------------------------

  function Finish(s: Session, op: Op, events: seq<Event>): Outcome<State, Event> {
    Outcome(State(ToInProgress(s), Idle), events + [OperationEnded(op.id)])
  }

  /** After a failed attempt: back to the top of the loop, or out of it. */
  function RetryOrFinish(cfg: Config, s: Session, run: Run, e: Error, isTransactionOp: bool, txnNumber: Option<int>,
                         events: seq<Event>): Outcome<State, Event>
  {
    if CanRetry(run.op, e, isTransactionOp)
    then Outcome(State(s, Selecting(run.(retry := Some(NextRetry(cfg, run.retry, e, txnNumber))))),
                 events + [Retrying(run.op.id, e)])
    else Finish(s, run.op, events)
  }

  /** The server an attempt goes to: the session's pinned mongos, else the one the operation asked
      for, else whatever selection came up with. */
  function Target(s: Session, run: Run, candidate: Address): Address {
    if s.transaction.pinned.Some? && s.transaction.pinned.value.Mongos? then s.transaction.pinned.value.address
    else if run.criteria.Some? then run.criteria.value
    else candidate
  }

  /** The connection handle an attempt must use, if one is pinned to the session or the operation. */
  function PinnedConnection(s: Session, op: Op): Option<ConnectionId> {
    if s.transaction.pinned.Some? && s.transaction.pinned.value.Connection?
    then Some(s.transaction.pinned.value.connection)
    else if op.pinned.Some? && op.pinned.value.Connection? then Some(op.pinned.value.connection)
    else None
  }

  function StepSelecting(cfg: Config, s: Session, run: Run, input: SelectInput): Outcome<State, Event> {
    var overloaded := run.retry.Some? && run.retry.value.overloaded;
    if run.retry.Some? && run.retry.value.attempt > run.retry.value.maxRetries then Finish(s, run.op, [])
    else if overloaded && !input.granted then Finish(s, run.op, [])
    else
      var run := if run.retry.Some? then run.(op := UpdatedForRetry(run.op)) else run;
      match input
      case SelectionFailed(_, error) =>
        if run.retry.Some? then Finish(s, run.op, [])
        else
          var e := Labelled(error, NotRetryable, s.transaction.state);
          Finish(AfterError(s, e), run.op, [Unselected(run.op.id, e)])
      case Selected(_, candidate, ConnectFailed(error)) =>
        var isTransactionOp := InTransaction(s) && !IsCommitOrAbort(run.op);
        var e := Labelled(error, run.op.retryability, s.transaction.state);
        RetryOrFinish(cfg, AfterError(s, e), run, e, isTransactionOp, None, [Failed(run.op.id, e)])
      case Selected(_, candidate, Connected(id, isMongos, supportsSessions, retryableWrites)) =>
        if !supportsSessions then Finish(s, run.op, [])
        else StepConnected(s, run, Target(s, run, candidate), id, isMongos, retryableWrites, overloaded)
  }

  function StepConnected(s: Session, run: Run, address: Address, id: ConnectionId, isMongos: bool,
                         retryableWrites: bool, overloaded: bool): Outcome<State, Event>
  {
    var retryability := EffectiveRetryability(s, run.op, retryableWrites);
    if run.retry.Some? && (if overloaded then !run.op.backpressureRetryable else retryability.NotRetryable?)
    then Finish(s, run.op, [])
    else
      var handle := PinnedConnection(s, run.op);
      var conn := Conn(address, if handle.Some? then handle.value else id, isMongos, handle.Some?);
      var isTransactionOp := InTransaction(s) && !IsCommitOrAbort(run.op);
      if run.retry.Some? && run.retry.value.txnNumber.Some? then
        Outcome(State(s, Building(run, Attempt(conn, isTransactionOp, run.retry.value.txnNumber, retryability))), [])
      else
        var s' := AfterTxnNumber(s, retryability);
        Outcome(
          State(s', Building(run, Attempt(conn, isTransactionOp, TxnNumberFor(s, retryability), retryability))),
          if AllocatesNumber(s, retryability)
          then [WriteNumbered(s'.server.id, s'.server.txnNumber, run.op.id)] else [])
  }

  const UNSUPPORTED_SESSION := Error(Other("operation does not support sessions"), {}, None, None)

  function BuiltCommand(s: Session, op: Op, a: Attempt, clientTime: Option<ClusterTime>): Command {
    var time := LaterOf(s.clusterTime, clientTime);
    if !op.supportsSessions then Command.Command(op.id, op.name, None, None, false, false, None, time, a.conn)
    else
      var state := s.transaction.state;
      Command.Command(op.id, op.name, Some(s.server.id), a.txnNumber, state.Starting?, !state.NoTransaction?,
              if a.conn.isMongos && (state.Committed? || state.Aborted?) then s.transaction.recoveryToken else None,
              time, a.conn)
  }

  function PinnedByBuild(cfg: Config, s: Session, op: Op, a: Attempt): Session {
    if !op.supportsSessions || !s.transaction.state.Starting? then s
    else if cfg.loadBalanced then (if a.conn.pinnedHandle then s else WithPin(s, Some(Connection(a.conn.id))))
    else if a.conn.isMongos then WithPin(s, Some(Mongos(a.conn.address)))
    else s
  }

  /** Building the first command of a load-balanced transaction pins the connection it will use. */
  function AfterBuild(cfg: Config, s: Session, op: Op, a: Attempt): Attempt {
    if op.supportsSessions && s.transaction.state.Starting? && cfg.loadBalanced
    then a.(conn := a.conn.(pinnedHandle := true)) else a
  }

  function StepBuilding(cfg: Config, s: Session, run: Run, a: Attempt, input: BuildInput): Outcome<State, Event> {
    if input.Unbuildable? then RetryOrFinish(cfg, s, run, input.error, a.isTransactionOp, a.txnNumber, [])
    else if !run.op.supportsSessions && !s.implicit then
      RetryOrFinish(cfg, s, run, UNSUPPORTED_SESSION, a.isTransactionOp, a.txnNumber, [])
    else
      var built := CommandBuilt(BuiltCommand(s, run.op, a, input.clientTime), input.Transmit?);
      var s' := PinnedByBuild(cfg, s, run.op, a);
      if input.Unsendable?
      then RetryOrFinish(cfg, s', run, input.error, a.isTransactionOp, a.txnNumber, [built])
      else Outcome(State(s', Waiting(run, AfterBuild(cfg, s, run.op, a))), [built])
  }

  datatype Parsed = Parsed(session: Session, error: Option<Error>, events: seq<Event>)

  /** The three times of a reply, folded into the session. */
  function AfterClocks(s: Session, clusterTime: Option<ClusterTime>, snapshot: Option<Timestamp>,
                       operationTime: Option<Timestamp>): Session
  {
    var s1 := if clusterTime.Some? then WithClusterTime(s, clusterTime.value) else s;
    var s2 := if snapshot.Some? then s1.(snapshotTime := snapshot) else s1;
    if operationTime.Some? then WithOperationTime(s2, operationTime.value) else s2
  }

  function ClockEvents(clusterTime: Option<ClusterTime>, operationTime: Option<Timestamp>): seq<Event> {
    (if clusterTime.Some? then [TimeProcessed(clusterTime.value, true)] else [])
    + (if operationTime.Some? then [OperationTimeProcessed(operationTime.value)] else [])
  }

  /** Folds a reply into the session: clocks first, then the recovery token of an ok mongos reply
      that arrives inside a transaction. */
  function ParseReply(s: Session, isMongos: bool, r: Reply): Parsed {
    match r
    case Malformed(e) => Parsed(s, Some(e), [])
    case Reply(clusterTime, atClusterTime, operationTime, recoveryToken, failure) =>
      var s3 := AfterClocks(s, clusterTime, atClusterTime, operationTime);
      var events := ClockEvents(clusterTime, operationTime);
      if failure.Some? then Parsed(s3, failure, events)
      else if !(isMongos && InTransaction(s3)) then Parsed(s3, None, events)
      else if recoveryToken.BadToken? then Parsed(s3, Some(recoveryToken.error), events)
      else
        var token := if recoveryToken.HasToken? then Some(recoveryToken.token) else None;
        Parsed(s3.(transaction := s3.transaction.(recoveryToken := token)), None, events + [TokenReceived(token)])
  }

  function Receive(s: Session, isMongos: bool, received: Received): Parsed {
    match received
    case NetworkFailure(e) => Parsed(s, Some(e), [])
    case Replied(reply) => ParseReply(s, isMongos, reply)
  }

  /** The session, the error the operation ends with, and the events, once a reply was interpreted. */
  function Interpret(s: Session, run: Run, a: Attempt, input: ReplyInput): Parsed {
    Interpreted(Receive(s, a.conn.isMongos, input.received), run, a, input)
  }

  function Interpreted(p: Parsed, run: Run, a: Attempt, input: ReplyInput): Parsed {
    if p.error.Some? then
      var dirty := p.session.(server := p.session.server.(dirty := true));
      var s1 := if IsNetworkError(p.error.value) then dirty else p.session;
      var e := Labelled(p.error.value, a.retryability, s1.transaction.state);
      if input.recovered
      then Parsed(AfterError(s1, e), None, p.events + [Failed(run.op.id, e)] + [Recovered(run.op.id)])
      else Parsed(AfterError(s1, e), Some(e), p.events + [Failed(run.op.id, e)])
    else
      var moves := run.op.batchesReplies && input.movesOn && p.session.transaction.state.Starting?;
      var s1 := if moves then ToInProgress(p.session) else p.session;
      var events := p.events + (if moves then [ReplyMovedOn(run.op.id)] else []);
      if input.handled.None? then Parsed(s1, None, events)
      else
        var e := Labelled(input.handled.value, a.retryability, s1.transaction.state);
        Parsed(AfterError(s1, e), Some(e), events + [Failed(run.op.id, e)])
  }

  function StepWaiting(cfg: Config, s: Session, run: Run, a: Attempt, input: ReplyInput): Outcome<State, Event> {
    AfterReply(cfg, Interpret(s, run, a, input), run, a, input.reauthenticationError)
  }

  /** What follows from a reply, given how reauthenticating ended, where that is needed. */
  function AfterReply(cfg: Config, p: Parsed, run: Run, a: Attempt, reauthenticationError: Option<Error>)
    : Outcome<State, Event>
  {
    if p.error.None? then Finish(p.session, run.op, p.events)
    else if !IsReauthenticationRequired(p.error.value) then
      RetryOrFinish(cfg, p.session, run, p.error.value, a.isTransactionOp, a.txnNumber, p.events)
    else if reauthenticationError.Some? then
      RetryOrFinish(cfg, p.session, run, reauthenticationError.value, a.isTransactionOp, a.txnNumber, p.events)
    else Outcome(State(p.session, Building(run, a)), p.events + [Reauthenticated(run.op.id)])
  }

  // ---------------------------------------------------------------------
  // Calls on a session
  // ---------------------------------------------------------------------

  /** `valid`: the checks before server selection passed. `supported`: the deployment and the
      options allow a transaction. */
  datatype Action =
    | StartCall(supported: bool, options: Option<TransactionOptions>)
    | CommitCall(id: OpId, valid: bool)
    | AbortCall(id: OpId, valid: bool)
    | OperationCall(op: Op, valid: bool)
    | Select(select: SelectInput)
    | Build(build: BuildInput)
    | Answer(answer: ReplyInput)
    | ClusterTimeCall(to: ClusterTime)
    | OperationTimeCall(ts: Timestamp)
    | Cancel

  function CommitOp(id: OpId): Op { Op(id, CommitName, WriteRetryable, true, true, None, false) }

  function AbortOp(id: OpId, pinned: Option<TransactionPin>): Op {
    Op(id, AbortName, WriteRetryable, true, true, pinned, false)
  }

  predicate ResetsTransaction(s: Session, name: OpName) {
    || (s.transaction.state.Committed? && !name.CommitName?)
    || (s.transaction.state.Aborted? && !name.AbortName?)
  }

  /** Validation and the transaction reset that precede the retry loop. */
  function Begin(s: Session, op: Op, valid: bool, events: seq<Event>): Outcome<State, Event> {
    if !valid then Outcome(State(s, Idle), events)
    else
      var resets := ResetsTransaction(s, op.name);
      var criteria := if op.pinned.Some? && op.pinned.value.Mongos? then Some(op.pinned.value.address) else None;
      Outcome(
        State(if resets then s.(transaction := NO_TRANSACTION) else s, Selecting(Run(op, criteria, None))),
        events + (if resets then [TransactionReset] else []) + [OperationBegan(op.id, op)])
  }

  function StartTransaction(s: Session, supported: bool, options: Option<TransactionOptions>): Outcome<State, Event> {
    if InTransaction(s) then Outcome(State(s, Idle), [])
    else
      var unpins := s.transaction.state.Committed?;
      var s1 := if unpins then WithPin(s, None) else s;
      var events := if unpins then [TransactionUnpinned] else [];
      if !supported then Outcome(State(s1, Idle), events)
      else
        var s2 := IncrementTxnNumber(s1);
        Outcome(State(s2.(transaction := Started(s2.transaction, options)), Idle),
                events + [TransactionStarted(s2.server.id, s2.server.txnNumber)])
  }

  function CommitTransaction(s: Session, id: OpId, valid: bool): Outcome<State, Event> {
    match s.transaction.state
    case NoTransaction => Outcome(State(s, Idle), [])
    case Aborted => Outcome(State(s, Idle), [])
    case Starting => Outcome(State(s.(transaction := CommittedAs(s.transaction, false)), Idle), [TransactionCommitted])
    case InProgress =>
      Begin(s.(transaction := CommittedAs(s.transaction, true)), CommitOp(id), valid, [TransactionCommitted])
    case Committed(dataCommitted) =>
      if dataCommitted then Begin(s, CommitOp(id), valid, []) else Outcome(State(s, Idle), [])
  }

  function AbortTransaction(s: Session, id: OpId, valid: bool): Outcome<State, Event> {
    var aborted := s.(transaction := AbortedFrom(s.transaction));
    match s.transaction.state
    case Starting => Outcome(State(aborted, Idle), [TransactionAborted])
    case InProgress => Begin(aborted, AbortOp(id, s.transaction.pinned), valid, [TransactionAborted])
    case _ => Outcome(State(s, Idle), [])
  }

  /** The action fits the phase: a call needs an idle session, an input needs the wait it answers, and
      an operation can be cancelled wherever it waits. */
  predicate Enabled(st: State, a: Action) {
    match a
    case Select(_) => st.phase.Selecting?
    case Build(_) => st.phase.Building?
    case Answer(_) => st.phase.Waiting?
    case Cancel => !st.phase.Idle?
    case _ => st.phase.Idle?
  }

  /** One action; an input nobody waits for changes nothing. A cancelled operation is dropped where it
      waits, with the session as it is then: what comes after the retry loop is not reached. */
  function Step(cfg: Config, st: State, a: Action): Outcome<State, Event> {
    var s := st.session;
    if !Enabled(st, a) then Outcome(st, [])
    else
      match a
      case StartCall(supported, options) => StartTransaction(s, supported, options)
      case CommitCall(id, valid) => CommitTransaction(s, id, valid)
      case AbortCall(id, valid) => AbortTransaction(s, id, valid)
      case OperationCall(op, valid) => Begin(s, op, valid, [])
      case Select(input) => StepSelecting(cfg, s, st.phase.run, input)
      case Build(input) => StepBuilding(cfg, s, st.phase.run, st.phase.attempt, input)
      case Answer(input) => StepWaiting(cfg, s, st.phase.run, st.phase.attempt, input)
      case ClusterTimeCall(to) => Outcome(State(WithClusterTime(s, to), Idle), [TimeProcessed(to, false)])
      case OperationTimeCall(ts) => Outcome(State(WithOperationTime(s, ts), Idle), [OperationTimeProcessed(ts)])
      case Cancel => Outcome(State(s, Idle), [OperationDropped(st.phase.run.op.id)])
  }

  function Stepper(cfg: Config): (State, Action) -> Outcome<State, Event> { (st, a) => Step(cfg, st, a) }

  /** A whole run: where it ends and everything it observably did. */
  function Execute(cfg: Config, st: State, actions: seq<Action>): Outcome<State, Event> {
    Fold(Stepper(cfg), st, actions)
  }
}
