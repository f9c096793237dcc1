/** What a server may rely on when it reads the events of one session, whatever the application,
    the network and the servers do. `Monitor` is an observer that sees events only; `Accept` says
    which event may come next. `RunsAreAccepted` proves that every run of the executor produces
    events the observer accepts, and that the observer's memory is the session's state.
 */
module Protocol {
  import opened Wrappers
  import opened Machines
  import opened Errors
  import opened Sessions
  import opened Executor

  datatype Monitor = Monitor(
    lsid: Lsid,
    highest: int,               // the last transaction number handed out on this lsid
    started: int,               // the number of the last transaction that was started
    state: TransactionState,
    token: Option<Token>,       // the token of the last ok mongos reply inside the transaction
    pin: Option<TransactionPin>,
    active: Option<OpId>,       // the operation between its begin and its end
    written: Option<int>,       // the number that operation was given for a retryable write
    sent: bool,                 // it built a command, and no excuse for another one followed
    retries: nat,
    times: set<ClusterTime>,    // every cluster time the session has processed
    operationTimes: set<Timestamp>)

  function Fresh(server: ServerSession): Monitor {
    Monitor(server.id, server.txnNumber, server.txnNumber, NoTransaction, None, None, None, None, false, 0, {}, {})
  }

  predicate Inside(state: TransactionState) { state.Starting? || state.InProgress? }

  predicate Over(state: TransactionState) { state.Committed? || state.Aborted? }

  function RetryBound(cfg: Config): nat {
    if cfg.maxAdaptiveRetries > MAX_RW_RETRIES then cfg.maxAdaptiveRetries else MAX_RW_RETRIES
  }

  // ---------------------------------------------------------------------
  // The observer
  // ---------------------------------------------------------------------

  function PinAfter(cfg: Config, m: Monitor, c: Executor.Command): Option<TransactionPin> {
    if !c.startTransaction then m.pin
    else if cfg.loadBalanced then (if c.conn.pinnedHandle then m.pin else Some(Connection(c.conn.id)))
    else if c.conn.isMongos then Some(Mongos(c.conn.address))
    else m.pin
  }

  function Observe(cfg: Config, m: Monitor, e: Event): Monitor {
    match e
    case TransactionStarted(_, number) =>
      m.(highest := number, started := number, state := Starting, token := None)
    case TransactionCommitted => m.(state := Committed(m.state.InProgress?))
    case TransactionAborted => m.(state := Aborted, pin := None)
    case TransactionReset => m.(state := NoTransaction, token := None, pin := None)
    case TransactionUnpinned => m.(pin := None)
    case WriteNumbered(_, number, _) => m.(highest := number, written := Some(number))
    case OperationBegan(op, _) => m.(active := Some(op), written := None, sent := false, retries := 0)
    case OperationDropped(_) => m.(active := None)
    case OperationEnded(op) => m.(active := None, state := if m.state.Starting? then InProgress else m.state)
    case CommandBuilt(c, _) => m.(sent := true, pin := PinAfter(cfg, m, c))
    case Unselected(_, error) => if Unpins(error) then m.(pin := None) else m
    case Failed(_, error) => if Unpins(error) then m.(pin := None) else m
    case Recovered(_) => m
    case Retrying(_, error) => m.(retries := m.retries + 1, sent := m.sent && !Overloaded(error))
    case Reauthenticated(_) => m.(sent := false)
    case ReplyMovedOn(_) => m.(state := InProgress)
    case TokenReceived(token) => m.(token := token)
    case TimeProcessed(time, _) => m.(times := m.times + {time})
    case OperationTimeProcessed(ts) => m.(operationTimes := m.operationTimes + {ts})
  }

  /** A command that names the session tells the server the truth about the transaction. */
  predicate AcceptSessionCommand(m: Monitor, c: Executor.Command) {
    && c.lsid == Some(m.lsid)
    && c.startTransaction == m.state.Starting?
    && c.autocommit == !m.state.NoTransaction?
    && c.recoveryToken == (if c.conn.isMongos && Over(m.state) then m.token else None)
    && c.txnNumber == (if m.state.NoTransaction? then m.written else Some(m.started))
    && (Inside(m.state) ==> !m.sent)
  }

  predicate AcceptCommand(m: Monitor, c: Executor.Command) {
    && m.active == Some(c.op)
    && (if c.lsid.Some? then AcceptSessionCommand(m, c)
        else c.txnNumber.None? && !c.startTransaction && !c.autocommit && c.recoveryToken.None?)
    && (m.pin.Some? && m.pin.value.Mongos? ==> c.conn.address == m.pin.value.address)
    && (m.pin.Some? && m.pin.value.Connection? ==> c.conn.id == m.pin.value.connection)
    && (forall t | t in m.times :: AtLeast(c.clusterTime, t))
  }

  predicate Accept(cfg: Config, m: Monitor, e: Event) {
    match e
    case TransactionStarted(lsid, number) =>
      lsid == m.lsid && number > m.highest && !Inside(m.state) && m.active.None? && m.pin.None?
    case TransactionCommitted => Inside(m.state) && m.active.None?
    case TransactionAborted => Inside(m.state) && m.active.None?
    case TransactionReset => Over(m.state) && m.active.None?
    case TransactionUnpinned => m.state.Committed? && m.active.None?
    case WriteNumbered(lsid, number, op) =>
      && lsid == m.lsid && number > m.highest
      && m.active == Some(op) && m.state.NoTransaction? && m.written.None?
    case OperationBegan(_, _) => m.active.None?
    case OperationEnded(op) => m.active == Some(op)
    case OperationDropped(op) => m.active == Some(op)
    case CommandBuilt(c, _) => AcceptCommand(m, c)
    case Unselected(op, _) => m.active == Some(op)
    case Failed(op, _) => m.active == Some(op)
    case Recovered(op) => m.active == Some(op)
    case Retrying(op, _) => m.active == Some(op) && m.retries <= RetryBound(cfg)
    case Reauthenticated(op) => m.active == Some(op)
    case ReplyMovedOn(op) => m.active == Some(op) && m.state.Starting?
    case TokenReceived(_) => m.active.Some? && Inside(m.state)
    case TimeProcessed(_, fromReply) => fromReply <==> m.active.Some?
    case OperationTimeProcessed(_) => true
  }

  function ObserveAll(cfg: Config, m: Monitor, events: seq<Event>): Monitor
    decreases |events|
  {
    if events == [] then m else ObserveAll(cfg, Observe(cfg, m, events[0]), events[1..])
  }

  predicate AcceptAll(cfg: Config, m: Monitor, events: seq<Event>)
    decreases |events|
  {
    events == [] || (Accept(cfg, m, events[0]) && AcceptAll(cfg, Observe(cfg, m, events[0]), events[1..]))
  }

  lemma {:induction false} Concat(cfg: Config, m: Monitor, first: seq<Event>, second: seq<Event>)
    ensures ObserveAll(cfg, m, first + second) == ObserveAll(cfg, ObserveAll(cfg, m, first), second)
    ensures AcceptAll(cfg, m, first + second)
       <==> AcceptAll(cfg, m, first) && AcceptAll(cfg, ObserveAll(cfg, m, first), second)
    decreases |first|
  {
    if first == [] {
      assert first + second == second;
    } else {
      assert (first + second)[1..] == first[1..] + second;
      Concat(cfg, Observe(cfg, m, first[0]), first[1..], second);
    }
  }

  lemma One(cfg: Config, m: Monitor, e: Event)
    ensures ObserveAll(cfg, m, [e]) == Observe(cfg, m, e)
    ensures AcceptAll(cfg, m, [e]) <==> Accept(cfg, m, e)
  {
  }

  /** One more event at the end. */
  lemma Snoc(cfg: Config, m: Monitor, events: seq<Event>, e: Event)
    ensures ObserveAll(cfg, m, events + [e]) == Observe(cfg, ObserveAll(cfg, m, events), e)
    ensures AcceptAll(cfg, m, events + [e]) <==> AcceptAll(cfg, m, events) && Accept(cfg, ObserveAll(cfg, m, events), e)
  {
    Concat(cfg, m, events, [e]);
    One(cfg, ObserveAll(cfg, m, events), e);
  }

  // ---------------------------------------------------------------------
  // The invariant
  // ---------------------------------------------------------------------

  /** The observer's memory is the session's state. */
  predicate Mirrors(s: Session, m: Monitor) {
    && m.lsid == s.server.id
    && m.highest == s.server.txnNumber
    && m.state == s.transaction.state
    && m.token == s.transaction.recoveryToken
    && m.pin == s.transaction.pinned
    && (s.transaction.state.NoTransaction? ==> s.transaction == NO_TRANSACTION)
    && (!s.transaction.state.NoTransaction? ==> m.started == s.server.txnNumber)
    && (s.transaction.state.Aborted? ==> s.transaction.pinned.None?)
    && TimesMirrored(s, m)
  }

  /** Both clocks stand at the latest time processed. */
  predicate TimesMirrored(s: Session, m: Monitor) {
    && (s.clusterTime.Some? ==> s.clusterTime.value in m.times)
    && (forall t | t in m.times :: AtLeast(s.clusterTime, t))
    && (s.operationTime.Some? ==> s.operationTime.value in m.operationTimes)
    && (forall t | t in m.operationTimes :: s.operationTime.Some? && !Earlier(s.operationTime.value, t))
  }

  predicate RetryMirrored(cfg: Config, s: Session, m: Monitor, run: Run) {
    && m.active == Some(run.op.id)
    && m.retries == (if run.retry.Some? then run.retry.value.attempt else 0)
    && m.retries <= RetryBound(cfg) + 1
    && (run.retry.Some? ==> run.retry.value.maxRetries <= RetryBound(cfg))
    && (run.retry.Some? && run.retry.value.txnNumber.Some? ==>
          run.retry.value.txnNumber.value == s.server.txnNumber)
    && (!s.transaction.state.NoTransaction? ==> m.written.None?)
    && (m.written.Some? ==> m.written.value == s.server.txnNumber)
    && (run.retry.Some? && s.transaction.state.NoTransaction? && run.retry.value.txnNumber.Some? ==> m.written.Some?)
  }

  predicate SelectingMirrored(cfg: Config, s: Session, m: Monitor, run: Run) {
    && RetryMirrored(cfg, s, m, run)
    && (m.written.Some? ==> run.retry.Some? && run.retry.value.txnNumber.Some?)
    && (InTransaction(s) && m.sent ==> run.retry.Some? && !run.retry.value.overloaded)
  }

  predicate AttemptMirrored(cfg: Config, s: Session, m: Monitor, run: Run, a: Attempt) {
    && RetryMirrored(cfg, s, m, run)
    && m.retries <= RetryBound(cfg)
    && a.txnNumber == (if s.transaction.state.NoTransaction? then m.written else Some(s.server.txnNumber))
    && (s.transaction.pinned.Some? && s.transaction.pinned.value.Mongos? ==>
          a.conn.address == s.transaction.pinned.value.address)
    && (s.transaction.pinned.Some? && s.transaction.pinned.value.Connection? ==>
          a.conn.id == s.transaction.pinned.value.connection)
  }

  predicate Inv(cfg: Config, st: State, m: Monitor) {
    && Mirrors(st.session, m)
    && match st.phase
       case Idle => m.active.None?
       case Selecting(run) => SelectingMirrored(cfg, st.session, m, run)
       case Building(run, a) =>
         AttemptMirrored(cfg, st.session, m, run, a) && (InTransaction(st.session) ==> !m.sent)
       case Waiting(run, a) => AttemptMirrored(cfg, st.session, m, run, a)
  }

  /** Events take the observer from `m` through accepted events to a memory that mirrors the outcome. */
  predicate Good(cfg: Config, m: Monitor, o: Outcome<State, Event>) {
    AcceptAll(cfg, m, o.events) && Inv(cfg, o.state, ObserveAll(cfg, m, o.events))
  }

  // ---------------------------------------------------------------------
  // Every step keeps it
  // ---------------------------------------------------------------------

  lemma FinishIsGood(cfg: Config, m: Monitor, s: Session, op: Op, events: seq<Event>)
    requires AcceptAll(cfg, m, events)
    requires var m' := ObserveAll(cfg, m, events); Mirrors(s, m') && m'.active == Some(op.id)
    ensures Good(cfg, m, Finish(s, op, events))
  {
    Snoc(cfg, m, events, OperationEnded(op.id));
  }

  lemma RetryOrFinishIsGood(cfg: Config, m: Monitor, s: Session, run: Run, e: Error, isTransactionOp: bool,
                            txnNumber: Option<int>, events: seq<Event>)
    requires AcceptAll(cfg, m, events)
    requires var m' := ObserveAll(cfg, m, events);
             && Mirrors(s, m') && RetryMirrored(cfg, s, m', run) && m'.retries <= RetryBound(cfg)
             && (txnNumber.Some? ==> txnNumber.value == s.server.txnNumber)
             && (m'.written.Some? ==> txnNumber.Some? || (run.retry.Some? && run.retry.value.txnNumber.Some?))
             && (s.transaction.state.NoTransaction? && txnNumber.Some? ==> m'.written.Some?)
    ensures Good(cfg, m, RetryOrFinish(cfg, s, run, e, isTransactionOp, txnNumber, events))
  {
    if CanRetry(run.op, e, isTransactionOp) {
      Snoc(cfg, m, events, Retrying(run.op.id, e));
    } else {
      FinishIsGood(cfg, m, s, run.op, events);
    }
  }

  lemma SelectionFailedIsGood(cfg: Config, m: Monitor, s: Session, run: Run, e: Error, events: seq<Event>)
    requires SelectingMirrored(cfg, s, m, run) && Mirrors(s, m) && events == [Unselected(run.op.id, e)]
    ensures Good(cfg, m, Finish(AfterError(s, e), run.op, events))
  {
    One(cfg, m, Unselected(run.op.id, e));
    FinishIsGood(cfg, m, AfterError(s, e), run.op, events);
  }

  lemma ConnectFailedIsGood(cfg: Config, m: Monitor, s: Session, run: Run, e: Error, isTransactionOp: bool,
                            events: seq<Event>)
    requires SelectingMirrored(cfg, s, m, run) && Mirrors(s, m) && m.retries <= RetryBound(cfg)
    requires events == [Failed(run.op.id, e)]
    ensures Good(cfg, m, RetryOrFinish(cfg, AfterError(s, e), run, e, isTransactionOp, None, events))
  {
    One(cfg, m, Failed(run.op.id, e));
    RetryOrFinishIsGood(cfg, m, AfterError(s, e), run, e, isTransactionOp, None, events);
  }

  lemma SelectingIsGood(cfg: Config, m: Monitor, s: Session, run: Run, input: SelectInput)
    requires Inv(cfg, State(s, Selecting(run)), m)
    ensures Good(cfg, m, StepSelecting(cfg, s, run, input))
  {
    var overloaded := run.retry.Some? && run.retry.value.overloaded;
    FinishIsGood(cfg, m, s, run.op, []);
    if run.retry.Some? && run.retry.value.attempt > run.retry.value.maxRetries {
    } else if overloaded && !input.granted {
    } else {
      var run' := if run.retry.Some? then run.(op := UpdatedForRetry(run.op)) else run;
      FinishIsGood(cfg, m, s, run'.op, []);
      match input {
        case SelectionFailed(_, error) =>
          var e := Labelled(error, NotRetryable, s.transaction.state);
          SelectionFailedIsGood(cfg, m, s, run', e, [Unselected(run'.op.id, e)]);
        case Selected(_, candidate, ConnectFailed(error)) =>
          var isTransactionOp := InTransaction(s) && !IsCommitOrAbort(run'.op);
          var e := Labelled(error, run'.op.retryability, s.transaction.state);
          ConnectFailedIsGood(cfg, m, s, run', e, isTransactionOp, [Failed(run'.op.id, e)]);
        case Selected(_, candidate, Connected(id, isMongos, supportsSessions, retryableWrites)) =>
          if supportsSessions {
            ConnectedIsGood(cfg, m, s, run', Target(s, run', candidate), id, isMongos, retryableWrites, overloaded);
          }
      }
    }
  }

  lemma ConnectedIsGood(cfg: Config, m: Monitor, s: Session, run: Run, address: Address, id: ConnectionId,
                        isMongos: bool, retryableWrites: bool, overloaded: bool)
    requires Inv(cfg, State(s, Selecting(run)), m)
    requires m.retries <= RetryBound(cfg)
    requires overloaded == (run.retry.Some? && run.retry.value.overloaded)
    requires s.transaction.pinned.Some? && s.transaction.pinned.value.Mongos? ==>
               address == s.transaction.pinned.value.address
    ensures Good(cfg, m, StepConnected(s, run, address, id, isMongos, retryableWrites, overloaded))
  {
    FinishIsGood(cfg, m, s, run.op, []);
    var retryability := EffectiveRetryability(s, run.op, retryableWrites);
    var handle := PinnedConnection(s, run.op);
    var conn := Conn(address, if handle.Some? then handle.value else id, isMongos, handle.Some?);
    var isTransactionOp := InTransaction(s) && !IsCommitOrAbort(run.op);
    var numbered := run.retry.Some? && run.retry.value.txnNumber.Some?;
    if run.retry.Some? && (if overloaded then !run.op.backpressureRetryable else retryability.NotRetryable?) {
    } else if numbered {
      KeepsNumber(cfg, m, s, run, Attempt(conn, isTransactionOp, run.retry.value.txnNumber, retryability));
    } else if AllocatesNumber(s, retryability) {
      GetsNumber(cfg, m, s, run, Attempt(conn, isTransactionOp, TxnNumberFor(s, retryability), retryability),
                 retryability);
    } else {
      NeedsNoNumber(cfg, m, s, run, Attempt(conn, isTransactionOp, TxnNumberFor(s, retryability), retryability),
                    retryability);
    }
  }

  /** The attempt uses a connection that fits the session's pin. */
  predicate FitsPin(s: Session, a: Attempt) {
    s.transaction.pinned.Some? ==>
      match s.transaction.pinned.value
      case Mongos(x) => a.conn.address == x
      case Connection(c) => a.conn.id == c
  }

  lemma KeepsNumber(cfg: Config, m: Monitor, s: Session, run: Run, a: Attempt)
    requires Inv(cfg, State(s, Selecting(run)), m) && m.retries <= RetryBound(cfg) && FitsPin(s, a)
    requires run.retry.Some? && run.retry.value.txnNumber.Some? && a.txnNumber == run.retry.value.txnNumber
    requires InTransaction(s) ==> !m.sent
    ensures Good(cfg, m, Outcome(State(s, Building(run, a)), []))
  {
  }

  lemma NeedsNoNumber(cfg: Config, m: Monitor, s: Session, run: Run, a: Attempt, retryability: Retryability)
    requires Inv(cfg, State(s, Selecting(run)), m) && m.retries <= RetryBound(cfg) && FitsPin(s, a)
    requires !AllocatesNumber(s, retryability) && a.txnNumber == TxnNumberFor(s, retryability)
    requires !(run.retry.Some? && run.retry.value.txnNumber.Some?)
    requires InTransaction(s) ==> !m.sent
    ensures Good(cfg, m, Outcome(State(AfterTxnNumber(s, retryability), Building(run, a)), []))
  {
  }

  lemma GetsNumber(cfg: Config, m: Monitor, s: Session, run: Run, a: Attempt, retryability: Retryability)
    requires Inv(cfg, State(s, Selecting(run)), m) && m.retries <= RetryBound(cfg) && FitsPin(s, a)
    requires AllocatesNumber(s, retryability) && a.txnNumber == TxnNumberFor(s, retryability)
    requires !(run.retry.Some? && run.retry.value.txnNumber.Some?)
    ensures var s' := AfterTxnNumber(s, retryability);
            Good(cfg, m,
                 Outcome(State(s', Building(run, a)), [WriteNumbered(s'.server.id, s'.server.txnNumber, run.op.id)]))
  {
    var s' := AfterTxnNumber(s, retryability);
    One(cfg, m, WriteNumbered(s'.server.id, s'.server.txnNumber, run.op.id));
  }

  lemma BuildingIsGood(cfg: Config, m: Monitor, s: Session, run: Run, a: Attempt, input: BuildInput)
    requires Inv(cfg, State(s, Building(run, a)), m)
    ensures Good(cfg, m, StepBuilding(cfg, s, run, a, input))
  {
    if input.Unbuildable? {
      UnbuiltIsGood(cfg, m, s, run, a, input.error);
    } else if !run.op.supportsSessions && !s.implicit {
      UnbuiltIsGood(cfg, m, s, run, a, UNSUPPORTED_SESSION);
    } else {
      var built := CommandBuilt(BuiltCommand(s, run.op, a, input.clientTime), input.Transmit?);
      BuiltIsAccepted(cfg, m, s, run, a, input.clientTime);
      BuiltIsMirrored(cfg, m, s, run, a, input.clientTime, input.Transmit?);
      if input.Unsendable? {
        UnsentIsGood(cfg, m, s, run, a, input.error, built);
      } else {
        SentIsGood(cfg, m, s, run, a, built);
      }
    }
  }

  /** No command was built. */
  lemma UnbuiltIsGood(cfg: Config, m: Monitor, s: Session, run: Run, a: Attempt, e: Error)
    requires Mirrors(s, m) && AttemptMirrored(cfg, s, m, run, a)
    ensures Good(cfg, m, RetryOrFinish(cfg, s, run, e, a.isTransactionOp, a.txnNumber, []))
  {
    AttemptFailedIsGood(cfg, m, s, run, a, e, []);
  }

  /** What building a command leaves in the observer and in the session. */
  predicate BuiltMirrored(cfg: Config, m: Monitor, s: Session, run: Run, a: Attempt, built: Event) {
    var m', s' := Observe(cfg, m, built), PinnedByBuild(cfg, s, run.op, a);
    Accept(cfg, m, built) && Mirrors(s', m') && AttemptMirrored(cfg, s', m', run, AfterBuild(cfg, s, run.op, a))
  }

  lemma BuiltIsMirrored(cfg: Config, m: Monitor, s: Session, run: Run, a: Attempt, clientTime: Option<ClusterTime>,
                        sent: bool)
    requires Inv(cfg, State(s, Building(run, a)), m) && AcceptCommand(m, BuiltCommand(s, run.op, a, clientTime))
    ensures BuiltMirrored(cfg, m, s, run, a, CommandBuilt(BuiltCommand(s, run.op, a, clientTime), sent))
  {
  }

  lemma SentIsGood(cfg: Config, m: Monitor, s: Session, run: Run, a: Attempt, built: Event)
    requires BuiltMirrored(cfg, m, s, run, a, built)
    ensures Good(cfg, m,
                 Outcome(State(PinnedByBuild(cfg, s, run.op, a), Waiting(run, AfterBuild(cfg, s, run.op, a))), [built]))
  {
    One(cfg, m, built);
  }

  lemma UnsentIsGood(cfg: Config, m: Monitor, s: Session, run: Run, a: Attempt, e: Error, built: Event)
    requires BuiltMirrored(cfg, m, s, run, a, built)
    ensures Good(cfg, m,
                 RetryOrFinish(cfg, PinnedByBuild(cfg, s, run.op, a), run, e, a.isTransactionOp, a.txnNumber, [built]))
  {
    One(cfg, m, built);
    RetryOrFinishIsGood(cfg, m, PinnedByBuild(cfg, s, run.op, a), run, e, a.isTransactionOp, a.txnNumber, [built]);
  }

  lemma BuiltIsAccepted(cfg: Config, m: Monitor, s: Session, run: Run, a: Attempt, clientTime: Option<ClusterTime>)
    requires Inv(cfg, State(s, Building(run, a)), m)
    ensures AcceptCommand(m, BuiltCommand(s, run.op, a, clientTime))
  {
    var c := BuiltCommand(s, run.op, a, clientTime);
    forall t | t in m.times ensures AtLeast(c.clusterTime, t) {
      assert AtLeast(s.clusterTime, t);
    }
  }

  /** Same position in the retry loop, so far as the observer can tell. */
  predicate SameRun(m: Monitor, m': Monitor) {
    && m'.active == m.active && m'.written == m.written && m'.retries == m.retries && m'.sent == m.sent
    && m'.started == m.started
  }

  predicate SameNumbers(s: Session, s': Session) {
    && s'.server.id == s.server.id && s'.server.txnNumber == s.server.txnNumber
    && (|| s'.transaction.state == s.transaction.state
        || (s.transaction.state.Starting? && s'.transaction.state.InProgress?))
    && (s'.transaction.pinned == s.transaction.pinned || s'.transaction.pinned.None?)
  }

  /** Events that fold a reply into a session leave the observer mirroring it, at the same position. */
  predicate Folds(cfg: Config, m: Monitor, s: Session, s': Session, events: seq<Event>) {
    && AcceptAll(cfg, m, events)
    && Mirrors(s', ObserveAll(cfg, m, events))
    && SameRun(m, ObserveAll(cfg, m, events))
    && SameNumbers(s, s')
  }

  lemma FoldsSnoc(cfg: Config, m: Monitor, s: Session, s': Session, s'': Session, events: seq<Event>, e: Event)
    requires Folds(cfg, m, s, s', events)
    requires var m' := ObserveAll(cfg, m, events);
             && Accept(cfg, m', e) && Mirrors(s'', Observe(cfg, m', e))
             && SameRun(m', Observe(cfg, m', e)) && SameNumbers(s', s'')
    ensures Folds(cfg, m, s, s'', events + [e])
  {
    Snoc(cfg, m, events, e);
  }

  lemma FoldsNothing(cfg: Config, m: Monitor, s: Session)
    requires Mirrors(s, m)
    ensures Folds(cfg, m, s, s, [])
  {
  }

  lemma ClusterTimeIsGood(cfg: Config, m: Monitor, s: Session, time: ClusterTime)
    requires Mirrors(s, m) && m.active.Some?
    ensures Folds(cfg, m, s, WithClusterTime(s, time), [TimeProcessed(time, true)])
  {
    One(cfg, m, TimeProcessed(time, true));
  }

  lemma SnapshotIsGood(cfg: Config, m: Monitor, s: Session, s': Session, events: seq<Event>,
                       snapshot: Option<Timestamp>)
    requires Folds(cfg, m, s, s', events)
    ensures Folds(cfg, m, s, s'.(snapshotTime := snapshot), events)
  {
  }

  lemma OperationTimeIsMirrored(s: Session, m: Monitor, ts: Timestamp)
    requires Mirrors(s, m)
    ensures Mirrors(WithOperationTime(s, ts), m.(operationTimes := m.operationTimes + {ts}))
  {
  }

  lemma OperationTimeIsGood(cfg: Config, m: Monitor, s: Session, s': Session, events: seq<Event>, ts: Timestamp)
    requires Folds(cfg, m, s, s', events)
    ensures Folds(cfg, m, s, WithOperationTime(s', ts), events + [OperationTimeProcessed(ts)])
  {
    OperationTimeIsMirrored(s', ObserveAll(cfg, m, events), ts);
    FoldsSnoc(cfg, m, s, s', WithOperationTime(s', ts), events, OperationTimeProcessed(ts));
  }

  lemma ClocksAreGood(cfg: Config, m: Monitor, s: Session, clusterTime: Option<ClusterTime>,
                      snapshot: Option<Timestamp>, operationTime: Option<Timestamp>)
    requires Mirrors(s, m) && m.active.Some?
    ensures Folds(cfg, m, s, AfterClocks(s, clusterTime, snapshot, operationTime),
                  ClockEvents(clusterTime, operationTime))
  {
    var s1 := if clusterTime.Some? then WithClusterTime(s, clusterTime.value) else s;
    var s2 := if snapshot.Some? then s1.(snapshotTime := snapshot) else s1;
    var time := if clusterTime.Some? then [TimeProcessed(clusterTime.value, true)] else [];
    if clusterTime.Some? { ClusterTimeIsGood(cfg, m, s, clusterTime.value); } else { FoldsNothing(cfg, m, s); }
    if snapshot.Some? { SnapshotIsGood(cfg, m, s, s1, time, snapshot); }
    if operationTime.Some? {
      OperationTimeIsGood(cfg, m, s, s2, time, operationTime.value);
    } else {
      assert time + [] == time;
    }
  }

  lemma TokenIsGood(cfg: Config, m: Monitor, s: Session, s': Session, events: seq<Event>, token: Option<Token>)
    requires Folds(cfg, m, s, s', events) && m.active.Some? && InTransaction(s')
    ensures Folds(cfg, m, s, s'.(transaction := s'.transaction.(recoveryToken := token)),
                  events + [TokenReceived(token)])
  {
    FoldsSnoc(cfg, m, s, s', s'.(transaction := s'.transaction.(recoveryToken := token)), events, TokenReceived(token));
  }

  lemma ParseIsGood(cfg: Config, m: Monitor, s: Session, isMongos: bool, r: Reply)
    requires Mirrors(s, m) && m.active.Some?
    ensures var p := ParseReply(s, isMongos, r); Folds(cfg, m, s, p.session, p.events)
  {
    if r.Reply? {
      ClocksAreGood(cfg, m, s, r.clusterTime, r.atClusterTime, r.operationTime);
      var s3 := AfterClocks(s, r.clusterTime, r.atClusterTime, r.operationTime);
      if r.failure.None? && isMongos && InTransaction(s3) && !r.recoveryToken.BadToken? {
        var token := if r.recoveryToken.HasToken? then Some(r.recoveryToken.token) else None;
        TokenIsGood(cfg, m, s, s3, ClockEvents(r.clusterTime, r.operationTime), token);
      }
    } else {
      FoldsNothing(cfg, m, s);
    }
  }

  lemma FailureIsGood(cfg: Config, m: Monitor, s: Session, s': Session, op: OpId, e: Error, events: seq<Event>)
    requires Folds(cfg, m, s, s', events) && m.active == Some(op)
    ensures Folds(cfg, m, s, AfterError(s', e), events + [Failed(op, e)])
    ensures Folds(cfg, m, s, AfterError(s'.(server := s'.server.(dirty := true)), e), events + [Failed(op, e)])
  {
    Snoc(cfg, m, events, Failed(op, e));
  }

  lemma RecoveryIsGood(cfg: Config, m: Monitor, s: Session, s': Session, op: OpId, events: seq<Event>)
    requires Folds(cfg, m, s, s', events) && m.active == Some(op)
    ensures Folds(cfg, m, s, s', events + [Recovered(op)])
  {
    FoldsSnoc(cfg, m, s, s', s', events, Recovered(op));
  }

  lemma InterpretIsGood(cfg: Config, m: Monitor, s: Session, run: Run, a: Attempt, input: ReplyInput)
    requires Mirrors(s, m) && m.active == Some(run.op.id)
    ensures var p := Interpret(s, run, a, input); Folds(cfg, m, s, p.session, p.events)
  {
    if input.received.Replied? { ParseIsGood(cfg, m, s, a.conn.isMongos, input.received.reply); }
    var p := Receive(s, a.conn.isMongos, input.received);
    if p.error.Some? {
      FailureIsGood(cfg, m, s, p.session, run.op.id,
                    Labelled(p.error.value, a.retryability, p.session.transaction.state), p.events);
      if input.recovered {
        var q := Interpret(s, run, a, input.(recovered := false));
        RecoveryIsGood(cfg, m, s, q.session, run.op.id, q.events);
      }
    } else {
      var moves := run.op.batchesReplies && input.movesOn && p.session.transaction.state.Starting?;
      var s1 := if moves then ToInProgress(p.session) else p.session;
      var events := p.events + (if moves then [ReplyMovedOn(run.op.id)] else []);
      if moves {
        FoldsSnoc(cfg, m, s, p.session, s1, p.events, ReplyMovedOn(run.op.id));
      } else {
        assert events == p.events;
      }
      if input.handled.Some? {
        FailureIsGood(cfg, m, s, s1, run.op.id, Labelled(input.handled.value, a.retryability, s1.transaction.state),
                      events);
      }
    }
  }

  /** Folding a reply into the session leaves the attempt as it was. */
  lemma FoldsKeepAttempt(cfg: Config, m: Monitor, s: Session, run: Run, a: Attempt, s': Session, events: seq<Event>)
    requires Mirrors(s, m) && AttemptMirrored(cfg, s, m, run, a) && Folds(cfg, m, s, s', events)
    ensures AttemptMirrored(cfg, s', ObserveAll(cfg, m, events), run, a)
  {
  }

  /** An attempt that ended in an error: another one, or the end of the operation. */
  lemma AttemptFailedIsGood(cfg: Config, m: Monitor, s: Session, run: Run, a: Attempt, e: Error, events: seq<Event>)
    requires AcceptAll(cfg, m, events) && Mirrors(s, ObserveAll(cfg, m, events))
    requires AttemptMirrored(cfg, s, ObserveAll(cfg, m, events), run, a)
    ensures Good(cfg, m, RetryOrFinish(cfg, s, run, e, a.isTransactionOp, a.txnNumber, events))
  {
    RetryOrFinishIsGood(cfg, m, s, run, e, a.isTransactionOp, a.txnNumber, events);
  }

  lemma ReauthenticatedIsGood(cfg: Config, m: Monitor, s: Session, run: Run, a: Attempt, events: seq<Event>)
    requires AcceptAll(cfg, m, events) && Mirrors(s, ObserveAll(cfg, m, events))
    requires AttemptMirrored(cfg, s, ObserveAll(cfg, m, events), run, a)
    ensures Good(cfg, m, Outcome(State(s, Building(run, a)), events + [Reauthenticated(run.op.id)]))
  {
    Snoc(cfg, m, events, Reauthenticated(run.op.id));
  }

  lemma WaitingIsGood(cfg: Config, m: Monitor, s: Session, run: Run, a: Attempt, input: ReplyInput)
    requires Inv(cfg, State(s, Waiting(run, a)), m)
    ensures Good(cfg, m, StepWaiting(cfg, s, run, a, input))
  {
    InterpretIsGood(cfg, m, s, run, a, input);
    var p := Interpret(s, run, a, input);
    FoldsKeepAttempt(cfg, m, s, run, a, p.session, p.events);
    if p.error.None? {
      FinishIsGood(cfg, m, p.session, run.op, p.events);
    } else if !IsReauthenticationRequired(p.error.value) {
      AttemptFailedIsGood(cfg, m, p.session, run, a, p.error.value, p.events);
    } else if input.reauthenticationError.Some? {
      AttemptFailedIsGood(cfg, m, p.session, run, a, input.reauthenticationError.value, p.events);
    } else {
      ReauthenticatedIsGood(cfg, m, p.session, run, a, p.events);
    }
  }

  lemma BeginIsGood(cfg: Config, m: Monitor, s: Session, op: Op, valid: bool, events: seq<Event>)
    requires AcceptAll(cfg, m, events)
    requires var m' := ObserveAll(cfg, m, events); Mirrors(s, m') && m'.active.None?
    ensures Good(cfg, m, Begin(s, op, valid, events))
  {
    if valid {
      var criteria := if op.pinned.Some? && op.pinned.value.Mongos? then Some(op.pinned.value.address) else None;
      if ResetsTransaction(s, op.name) {
        var reset := s.(transaction := NO_TRANSACTION);
        Snoc(cfg, m, events, TransactionReset);
        assert Mirrors(reset, Observe(cfg, ObserveAll(cfg, m, events), TransactionReset));
        BeganIsGood(cfg, m, reset, Run(op, criteria, None), events + [TransactionReset]);
      } else {
        assert events + [] == events;
        BeganIsGood(cfg, m, s, Run(op, criteria, None), events);
      }
    }
  }

  lemma BeganIsGood(cfg: Config, m: Monitor, s: Session, run: Run, events: seq<Event>)
    requires AcceptAll(cfg, m, events) && run.retry.None?
    requires var m' := ObserveAll(cfg, m, events); Mirrors(s, m') && m'.active.None?
    ensures Good(cfg, m, Outcome(State(s, Selecting(run)), events + [OperationBegan(run.op.id, run.op)]))
  {
    Snoc(cfg, m, events, OperationBegan(run.op.id, run.op));
  }

  lemma StartIsGood(cfg: Config, m: Monitor, s: Session, supported: bool, options: Option<TransactionOptions>)
    requires Inv(cfg, State(s, Idle), m)
    ensures Good(cfg, m, StartTransaction(s, supported, options))
  {
    if !InTransaction(s) {
      var events := if s.transaction.state.Committed? then [TransactionUnpinned] else [];
      if s.transaction.state.Committed? { One(cfg, m, TransactionUnpinned); }
      if supported { Snoc(cfg, m, events, TransactionStarted(s.server.id, s.server.txnNumber + 1)); }
    }
  }

  lemma CommitIsGood(cfg: Config, m: Monitor, s: Session, id: OpId, valid: bool)
    requires Inv(cfg, State(s, Idle), m)
    ensures Good(cfg, m, CommitTransaction(s, id, valid))
  {
    One(cfg, m, TransactionCommitted);
    if s.transaction.state.InProgress? {
      BeginIsGood(cfg, m, s.(transaction := CommittedAs(s.transaction, true)), CommitOp(id), valid,
                  [TransactionCommitted]);
    } else if s.transaction.state == Committed(true) {
      BeginIsGood(cfg, m, s, CommitOp(id), valid, []);
    }
  }

  lemma AbortIsGood(cfg: Config, m: Monitor, s: Session, id: OpId, valid: bool)
    requires Inv(cfg, State(s, Idle), m)
    ensures Good(cfg, m, AbortTransaction(s, id, valid))
  {
    One(cfg, m, TransactionAborted);
    if s.transaction.state.InProgress? {
      BeginIsGood(cfg, m, s.(transaction := AbortedFrom(s.transaction)), AbortOp(id, s.transaction.pinned), valid,
                  [TransactionAborted]);
    }
  }

  lemma ClusterTimeCallIsGood(cfg: Config, m: Monitor, s: Session, to: ClusterTime)
    requires Inv(cfg, State(s, Idle), m)
    ensures Good(cfg, m, Outcome(State(WithClusterTime(s, to), Idle), [TimeProcessed(to, false)]))
  {
    One(cfg, m, TimeProcessed(to, false));
  }

  lemma OperationTimeCallIsGood(cfg: Config, m: Monitor, s: Session, ts: Timestamp)
    requires Inv(cfg, State(s, Idle), m)
    ensures Good(cfg, m, Outcome(State(WithOperationTime(s, ts), Idle), [OperationTimeProcessed(ts)]))
  {
    One(cfg, m, OperationTimeProcessed(ts));
    OperationTimeIsMirrored(s, m, ts);
  }

  lemma CancelIsGood(cfg: Config, m: Monitor, st: State)
    requires Inv(cfg, st, m) && !st.phase.Idle?
    ensures Good(cfg, m, Outcome(State(st.session, Idle), [OperationDropped(st.phase.run.op.id)]))
  {
    One(cfg, m, OperationDropped(st.phase.run.op.id));
  }

  lemma StepIsGood(cfg: Config, m: Monitor, st: State, a: Action)
    requires Inv(cfg, st, m)
    ensures Good(cfg, m, Step(cfg, st, a))
  {
    var s := st.session;
    if Enabled(st, a) {
      match a {
        case StartCall(supported, options) => StartIsGood(cfg, m, s, supported, options);
        case CommitCall(id, valid) => CommitIsGood(cfg, m, s, id, valid);
        case AbortCall(id, valid) => AbortIsGood(cfg, m, s, id, valid);
        case OperationCall(op, valid) => BeginIsGood(cfg, m, s, op, valid, []);
        case Select(input) => SelectingIsGood(cfg, m, s, st.phase.run, input);
        case Build(input) => BuildingIsGood(cfg, m, s, st.phase.run, st.phase.attempt, input);
        case Answer(input) => WaitingIsGood(cfg, m, s, st.phase.run, st.phase.attempt, input);
        case ClusterTimeCall(to) => ClusterTimeCallIsGood(cfg, m, s, to);
        case OperationTimeCall(ts) => OperationTimeCallIsGood(cfg, m, s, ts);
        case Cancel => CancelIsGood(cfg, m, st);
      }
    }
  }

  /** Every run from a state the observer mirrors is accepted event by event, and mirrored at its end. */
  lemma {:induction false} RunsAreAccepted(cfg: Config, m: Monitor, st: State, actions: seq<Action>)
    requires Inv(cfg, st, m)
    ensures Good(cfg, m, Execute(cfg, st, actions))
    decreases |actions|
  {
    if actions != [] {
      var init, last := actions[..|actions|-1], actions[|actions|-1];
      RunsAreAccepted(cfg, m, st, init);
      var before := Execute(cfg, st, init);
      StepIsGood(cfg, ObserveAll(cfg, m, before.events), before.state, last);
      Concat(cfg, m, before.events, Step(cfg, before.state, last).events);
    }
  }

  lemma NewSessionsAreMirrored(cfg: Config, server: ServerSession, implicit: bool)
    ensures Inv(cfg, State(NewSession(server, implicit), Idle), Fresh(server))
  {
  }
}
