/** The executor as the driver writes it: two nested loops that update a session in place
    (driver/src/client/executor.rs:347-1047, 1186-1228; driver/src/client/session/action.rs:25-118,
    444-548). Every method is proved to do exactly what the machine of module `Executor` does when
    it is fed the same inputs in the same order. When the input that is due was not supplied, the
    operation is still waiting, and the method returns the phase it waits in.
 */
module ExecutorLoop {
  import opened Wrappers
  import opened Machines
  import opened Errors
  import opened Sessions
  import opened Executor

  lemma ExecuteAppend(cfg: Config, st: State, actions: seq<Action>, a: Action)
    ensures var before := Execute(cfg, st, actions);
            var last := Step(cfg, before.state, a);
            Execute(cfg, st, actions + [a]) == Outcome(last.state, before.events + last.events)
  {
    FoldAppend(Stepper(cfg), st, actions, a);
  }

  // ---------------------------------------------------------------------
  // Feeding the machine
  // ---------------------------------------------------------------------

  datatype Inputs = Inputs(selects: seq<SelectInput>, builds: seq<BuildInput>, answers: seq<ReplyInput>)

  /** The input that is due, taken from the supply. */
  function TakeInput(st: State, a: Action, inputs: Inputs): Option<Inputs> {
    match st.phase
    case Idle => None
    case Selecting(_) =>
      if inputs.selects != [] && a == Select(inputs.selects[0])
      then Some(inputs.(selects := inputs.selects[1..])) else None
    case Building(_, _) =>
      if inputs.builds != [] && a == Build(inputs.builds[0])
      then Some(inputs.(builds := inputs.builds[1..])) else None
    case Waiting(_, _) =>
      if inputs.answers != [] && a == Answer(inputs.answers[0])
      then Some(inputs.(answers := inputs.answers[1..])) else None
  }

  /** These are the actions of the machine from `st` on, each made from the input that was due; `rest` is
      what is left. */
  ghost predicate FedBy(cfg: Config, st: State, actions: seq<Action>, inputs: Inputs, rest: Inputs) {
    Fed(Stepper(cfg), TakeInput, st, actions, inputs) == Some(rest)
  }

  /** The operation is over or waits for an input that is not there. */
  predicate AtRest(phase: Phase, rest: Inputs) {
    match phase
    case Idle => true
    case Selecting(_) => rest.selects == []
    case Building(_, _) => rest.builds == []
    case Waiting(_, _) => rest.answers == []
  }

  lemma FedOneMore(cfg: Config, st: State, actions: seq<Action>, a: Action, inputs: Inputs, rest: Inputs, rest': Inputs)
    requires FedBy(cfg, st, actions, inputs, rest) && TakeInput(Execute(cfg, st, actions).state, a, rest) == Some(rest')
    ensures FedBy(cfg, st, actions + [a], inputs, rest')
  {
    FedAppend(Stepper(cfg), TakeInput, st, actions, a, inputs, rest);
  }

  lemma FedMore(cfg: Config, st: State, first: seq<Action>, mid: State, second: seq<Action>, inputs: Inputs,
                rest: Inputs, rest': Inputs)
    requires FedBy(cfg, st, first, inputs, rest) && Execute(cfg, st, first).state == mid
    requires FedBy(cfg, mid, second, rest, rest')
    ensures FedBy(cfg, st, first + second, inputs, rest')
  {
    FedConcat(Stepper(cfg), TakeInput, st, first, second, inputs, rest, rest');
  }

  // ---------------------------------------------------------------------
  // Pieces of one attempt
  // ---------------------------------------------------------------------

  method AddLabelsAndUpdatePin(session: ClientSession, error: Error, retryability: Retryability) returns (e: Error)
    modifies session
    ensures e == Labelled(error, retryability, old(session.transaction.state))
    ensures session.Value() == AfterError(old(session.Value()), e)
  {
    e := error;
    if session.transaction.state.Starting? || session.transaction.state.InProgress? {
      if IsNetworkError(e) || IsServerSelectionError(e) { e := AddLabel(e, TRANSIENT_TRANSACTION_ERROR); }
    } else if session.transaction.state.Committed? {
      if IsNetworkError(e) { e := AddLabel(e, RETRYABLE_WRITE_ERROR); }
      if ShouldAddUnknownCommitLabel(e) { e := AddLabel(e, UNKNOWN_TRANSACTION_COMMIT_RESULT); }
    } else if session.transaction.state.Aborted? {
      if IsNetworkError(e) { e := AddLabel(e, RETRYABLE_WRITE_ERROR); }
    } else {
      if retryability.WriteRetryable? && IsNetworkError(e) { e := AddLabel(e, RETRYABLE_WRITE_ERROR); }
    }
    if ContainsLabel(e, TRANSIENT_TRANSACTION_ERROR) || ContainsLabel(e, UNKNOWN_TRANSACTION_COMMIT_RESULT) {
      session.Unpin();
    }
  }

  method ParseResponse(session: ClientSession, isMongos: bool, reply: Reply)
    returns (error: Option<Error>, events: seq<Event>)
    modifies session
    ensures Parsed(session.Value(), error, events) == ParseReply(old(session.Value()), isMongos, reply)
  {
    events := [];
    if reply.Malformed? { return Some(reply.error), []; }
    events := AdvanceClocks(session, reply.clusterTime, reply.atClusterTime, reply.operationTime);
    if reply.failure.Some? { return reply.failure, events; }
    if isMongos && InTransaction(session.Value()) {
      match reply.recoveryToken {
        case BadToken(e) => return Some(e), events;
        case HasToken(t) => session.SetRecoveryToken(Some(t)); events := events + [TokenReceived(Some(t))];
        case NoToken => session.SetRecoveryToken(None); events := events + [TokenReceived(None)];
      }
    }
    error := None;
  }

  method AdvanceClocks(session: ClientSession, clusterTime: Option<ClusterTime>, snapshot: Option<Timestamp>,
                       operationTime: Option<Timestamp>)
    returns (events: seq<Event>)
    modifies session
    ensures session.Value() == AfterClocks(old(session.Value()), clusterTime, snapshot, operationTime)
    ensures events == ClockEvents(clusterTime, operationTime)
  {
    events := [];
    if clusterTime.Some? {
      session.AdvanceClusterTime(clusterTime.value);
      events := events + [TimeProcessed(clusterTime.value, true)];
    }
    if snapshot.Some? { session.SetSnapshotTime(snapshot.value); }
    if operationTime.Some? {
      session.AdvanceOperationTime(operationTime.value);
      events := events + [OperationTimeProcessed(operationTime.value)];
    }
  }

  method BuildCommand(cfg: Config, session: ClientSession, op: Op, a: Attempt, input: BuildInput)
    returns (result: Result<Command, Error>, a': Attempt)
    modifies session
    ensures result == (if input.Unbuildable? then Err(input.error)
                       else if !op.supportsSessions && !session.implicit then Err(UNSUPPORTED_SESSION)
                       else Ok(BuiltCommand(old(session.Value()), op, a, input.clientTime)))
    ensures session.Value() ==
            if result.Ok? then PinnedByBuild(cfg, old(session.Value()), op, a) else old(session.Value())
    ensures a' == if result.Ok? then AfterBuild(cfg, old(session.Value()), op, a) else a
  {
    a' := a;
    if input.Unbuildable? { return Err(input.error), a; }
    var cmd := Command.Command(op.id, op.name, None, None, false, false, None, None, a.conn);
    if op.supportsSessions {
      cmd := cmd.(lsid := Some(session.server.id));
      if a.txnNumber.Some? { cmd := cmd.(txnNumber := a.txnNumber); }
      match session.transaction.state {
        case Starting =>
          cmd := cmd.(startTransaction := true, autocommit := true);
          if cfg.loadBalanced {
            if !a.conn.pinnedHandle {
              session.Pin(Connection(a.conn.id));
              a' := a.(conn := a.conn.(pinnedHandle := true));
            }
          } else if a.conn.isMongos {
            session.Pin(Mongos(a.conn.address));
          }
        case InProgress => cmd := cmd.(autocommit := true);
        case Committed(_) =>
          cmd := cmd.(autocommit := true);
          if a.conn.isMongos { cmd := cmd.(recoveryToken := session.transaction.recoveryToken); }
        case Aborted =>
          cmd := cmd.(autocommit := true);
          if a.conn.isMongos { cmd := cmd.(recoveryToken := session.transaction.recoveryToken); }
        case NoTransaction =>
      }
    } else if !session.implicit {
      return Err(UNSUPPORTED_SESSION), a;
    }
    var maxClusterTime := LaterOf(session.clusterTime, input.clientTime);
    result := Ok(cmd.(clusterTime := maxClusterTime));
  }

  /** What is left of an exchange on one connection: still waiting, or finished with or without an error. */
  datatype Exchange = Pending(phase: Phase) | Finished(error: Option<Error>)

  /** The outcome of the machine when the exchange on a connection has come this far. */
  function ExchangeOutcome(cfg: Config, s: Session, run: Run, a: Attempt, x: Exchange,
                           events: seq<Event>): Outcome<State, Event> {
    match x
    case Pending(phase) => Outcome(State(s, phase), events)
    case Finished(None) => Finish(s, run.op, events)
    case Finished(Some(e)) => RetryOrFinish(cfg, s, run, e, a.isTransactionOp, a.txnNumber, events)
  }

  /** One reply, from the wire to the operation's result. */
  method HandleReply(session: ClientSession, run: Run, a: Attempt, input: ReplyInput)
    returns (error: Option<Error>, events: seq<Event>)
    modifies session
    ensures Parsed(session.Value(), error, events) == Interpret(old(session.Value()), run, a, input)
  {
    error, events := None, [];
    match input.received {
      case NetworkFailure(e) => error := Some(e);
      case Replied(reply) => error, events := ParseResponse(session, a.conn.isMongos, reply);
    }
    if error.Some? {
      if IsNetworkError(error.value) { session.MarkDirty(); }
      var e := AddLabelsAndUpdatePin(session, error.value, a.retryability);
      events := events + [Failed(run.op.id, e)];
      error := Some(e);
      if input.recovered {
        error, events := None, events + [Recovered(run.op.id)];
      }
    } else {
      if run.op.batchesReplies && input.movesOn && session.transaction.state.Starting? {
        session.MarkInProgress();
        events := events + [ReplyMovedOn(run.op.id)];
      }
      if input.handled.Some? {
        var e := AddLabelsAndUpdatePin(session, input.handled.value, a.retryability);
        events := events + [Failed(run.op.id, e)];
        error := Some(e);
      }
    }
  }

  lemma ExchangeAfter(cfg: Config, s: Session, run: Run, a: Attempt, x: Exchange, first: seq<Event>, second: seq<Event>)
    ensures var o := ExchangeOutcome(cfg, s, run, a, x, second);
            ExchangeOutcome(cfg, s, run, a, x, first + second) == Outcome(o.state, first + o.events)
  {
    assert (first + second) + [OperationEnded(run.op.id)] == first + (second + [OperationEnded(run.op.id)]);
    if x.Finished? && x.error.Some? {
      var e := x.error.value;
      assert (first + second) + [Retrying(run.op.id, e)] == first + (second + [Retrying(run.op.id, e)]);
    }
  }

  method SendCommand(cfg: Config, session: ClientSession, run: Run, a: Attempt, build: BuildInput)
    returns (x: Exchange, a': Attempt, events: seq<Event>)
    modifies session
    ensures ExchangeOutcome(cfg, session.Value(), run, a', x, events)
         == StepBuilding(cfg, old(session.Value()), run, a, build)
    ensures a'.isTransactionOp == a.isTransactionOp && a'.txnNumber == a.txnNumber
    ensures x.Pending? ==> x.phase == Waiting(run, a')
  {
    var cmd;
    cmd, a' := BuildCommand(cfg, session, run.op, a, build);
    if cmd.Err? { return Finished(Some(cmd.error)), a', []; }
    events := [CommandBuilt(cmd.value, build.Transmit?)];
    x := if build.Unsendable? then Finished(Some(build.error)) else Pending(Waiting(run, a'));
  }

  method ReceiveReply(cfg: Config, session: ClientSession, run: Run, a: Attempt, answer: ReplyInput)
    returns (x: Exchange, events: seq<Event>)
    modifies session
    ensures ExchangeOutcome(cfg, session.Value(), run, a, x, events)
         == StepWaiting(cfg, old(session.Value()), run, a, answer)
    ensures x.Pending? ==> x.phase == Building(run, a)
  {
    var error;
    error, events := HandleReply(session, run, a, answer);
    if error.None? || !IsReauthenticationRequired(error.value) { return Finished(error), events; }
    if answer.reauthenticationError.Some? { return Finished(answer.reauthenticationError), events; }
    return Pending(Building(run, a)), events + [Reauthenticated(run.op.id)];
  }

  /** `execute_operation_on_connection`: build, send, receive, and start over after a
      reauthentication. */
  method ExecuteOnConnection(cfg: Config, session: ClientSession, run: Run, attempt: Attempt, inputs: Inputs)
    returns (x: Exchange, events: seq<Event>, actions: seq<Action>, rest: Inputs)
    modifies session
    ensures Execute(cfg, State(old(session.Value()), Building(run, attempt)), actions)
         == ExchangeOutcome(cfg, session.Value(), run, attempt, x, events)
    ensures FedBy(cfg, State(old(session.Value()), Building(run, attempt)), actions, inputs, rest)
    ensures x.Pending? ==> AtRest(x.phase, rest)
    ensures rest.selects == inputs.selects
  {
    ghost var start := State(session.Value(), Building(run, attempt));
    var a := attempt;
    x, events, actions, rest := Pending(Building(run, a)), [], [], inputs;
    while rest.builds != []
      invariant x == Pending(Building(run, a))
      invariant Execute(cfg, start, actions) == Outcome(State(session.Value(), Building(run, a)), events)
      invariant FedBy(cfg, start, actions, inputs, rest) && rest.selects == inputs.selects
      invariant a.isTransactionOp == attempt.isTransactionOp && a.txnNumber == attempt.txnNumber
      decreases |rest.builds|
    {
      var more;
      var build := rest.builds[0];
      ExecuteAppend(cfg, start, actions, Build(build));
      FedOneMore(cfg, start, actions, Build(build), inputs, rest, rest.(builds := rest.builds[1..]));
      rest := rest.(builds := rest.builds[1..]);
      x, a, more := SendCommand(cfg, session, run, a, build);
      ExchangeAfter(cfg, session.Value(), run, a, x, events, more);
      events, actions := events + more, actions + [Build(build)];
      if x.Finished? || rest.answers == [] { return; }

      var answer := rest.answers[0];
      ExecuteAppend(cfg, start, actions, Answer(answer));
      FedOneMore(cfg, start, actions, Answer(answer), inputs, rest, rest.(answers := rest.answers[1..]));
      rest := rest.(answers := rest.answers[1..]);
      x, more := ReceiveReply(cfg, session, run, a, answer);
      ExchangeAfter(cfg, session.Value(), run, a, x, events, more);
      events, actions := events + more, actions + [Answer(answer)];
      if x.Finished? { return; }
    }
  }

  // ---------------------------------------------------------------------
  // The retry loop
  // ---------------------------------------------------------------------

  /** How one pass through selection and connection check-out ends. */
  datatype Selection = Again(run: Run) | Ready(run: Run, attempt: Attempt) | Stop(op: Op)

  function SelectionOutcome(s: Session, next: Selection, events: seq<Event>): Outcome<State, Event> {
    match next
    case Again(run) => Outcome(State(s, Selecting(run)), events)
    case Ready(run, attempt) => Outcome(State(s, Building(run, attempt)), events)
    case Stop(op) => Finish(s, op, events)
  }

  method SelectAndConnect(cfg: Config, session: ClientSession, current: Run, input: SelectInput)
    returns (next: Selection, events: seq<Event>)
    modifies session
    ensures SelectionOutcome(session.Value(), next, events) == StepSelecting(cfg, old(session.Value()), current, input)
  {
    var run := current;
    events := [];
    var overloaded := run.retry.Some? && run.retry.value.overloaded;
    if run.retry.Some? {
      if run.retry.value.attempt > run.retry.value.maxRetries { return Stop(run.op), []; }
      if overloaded && !input.granted { return Stop(run.op), []; }
      run := run.(op := UpdatedForRetry(run.op));
    }
    if input.SelectionFailed? {
      if run.retry.Some? { return Stop(run.op), []; }
      var e := AddLabelsAndUpdatePin(session, input.error, NotRetryable);
      return Stop(run.op), [Unselected(run.op.id, e)];
    }
    var address := Target(session.Value(), run, input.candidate);
    var isTransactionOp := InTransaction(session.Value()) && !IsCommitOrAbort(run.op);
    if input.connecting.ConnectFailed? {
      var e := AddLabelsAndUpdatePin(session, input.connecting.error, run.op.retryability);
      events := [Failed(run.op.id, e)];
      if !CanRetry(run.op, e, isTransactionOp) { return Stop(run.op), events; }
      return Again(run.(retry := Some(NextRetry(cfg, run.retry, e, None)))), events + [Retrying(run.op.id, e)];
    }
    if !input.connecting.supportsSessions { return Stop(run.op), []; }
    var retryability := EffectiveRetryability(session.Value(), run.op, input.connecting.retryableWrites);
    if (overloaded && !run.op.backpressureRetryable) || (!overloaded && retryability.NotRetryable?) {
      if run.retry.Some? { return Stop(run.op), []; }
    }
    var handle := PinnedConnection(session.Value(), run.op);
    var conn := Conn(address, if handle.Some? then handle.value else input.connecting.id,
                     input.connecting.isMongos, handle.Some?);
    var txnNumber := if run.retry.Some? then run.retry.value.txnNumber else None;
    if txnNumber.None? {
      if AllocatesNumber(session.Value(), retryability) {
        events := [WriteNumbered(session.server.id, session.server.txnNumber + 1, run.op.id)];
      }
      txnNumber := session.GetTxnNumberForOperation(retryability);
    }
    next := Ready(run, Attempt(conn, isTransactionOp, txnNumber, retryability));
  }

  /** The loop is left, or waits for an input that was not supplied. */
  datatype LoopEnd = Left(op: Op) | Still(phase: Phase)

  function LoopOutcome(s: Session, end: LoopEnd, events: seq<Event>): Outcome<State, Event> {
    match end
    case Left(op) => Finish(s, op, events)
    case Still(phase) => Outcome(State(s, phase), events)
  }

  lemma FinishAfter(s: Session, op: Op, first: seq<Event>, second: seq<Event>)
    ensures Finish(s, op, first + second)
         == Outcome(Finish(s, op, second).state, first + Finish(s, op, second).events)
  {
    assert (first + second) + [OperationEnded(op.id)] == first + (second + [OperationEnded(op.id)]);
  }

  /** `execute_operation_with_retry`. */
  method ExecuteWithRetry(cfg: Config, session: ClientSession, op: Op, criteria: Option<Address>, inputs: Inputs)
    returns (end: LoopEnd, events: seq<Event>, actions: seq<Action>, rest: Inputs)
    modifies session
    ensures Execute(cfg, State(old(session.Value()), Selecting(Run(op, criteria, None))), actions)
         == LoopOutcome(session.Value(), end, events)
    ensures FedBy(cfg, State(old(session.Value()), Selecting(Run(op, criteria, None))), actions, inputs, rest)
    ensures end.Still? ==> AtRest(end.phase, rest)
  {
    ghost var start := State(session.Value(), Selecting(Run(op, criteria, None)));
    var run := Run(op, criteria, None);
    events, actions, rest := [], [], inputs;
    while rest.selects != []
      invariant Execute(cfg, start, actions) == Outcome(State(session.Value(), Selecting(run)), events)
      invariant FedBy(cfg, start, actions, inputs, rest)
      decreases |rest.selects|
    {
      var input := rest.selects[0];
      ExecuteAppend(cfg, start, actions, Select(input));
      FedOneMore(cfg, start, actions, Select(input), inputs, rest, rest.(selects := rest.selects[1..]));
      actions, rest := actions + [Select(input)], rest.(selects := rest.selects[1..]);
      var next, selectEvents := SelectAndConnect(cfg, session, run, input);
      match next {
        case Stop(stopped) =>
          FinishAfter(session.Value(), stopped, events, selectEvents);
          return Left(stopped), events + selectEvents, actions, rest;
        case Again(again) =>
          events, run := events + selectEvents, again;
        case Ready(ready, attempt) =>
          events, run := events + selectEvents, ready;
          ghost var mid := State(session.Value(), Building(run, attempt));
          ghost var before := rest;
          var x, connEvents, connActions;
          x, connEvents, connActions, rest := ExecuteOnConnection(cfg, session, run, attempt, rest);
          FoldConcat(Stepper(cfg), start, actions, connActions);
          FedMore(cfg, start, actions, mid, connActions, inputs, before, rest);
          FinishAfter(session.Value(), run.op, events, connEvents);
          ghost var sofar := events;
          events, actions := events + connEvents, actions + connActions;
          match x {
            case Pending(phase) => return Still(phase), events, actions, rest;
            case Finished(None) => return Left(run.op), events, actions, rest;
            case Finished(Some(e)) =>
              if !CanRetry(run.op, e, attempt.isTransactionOp) { return Left(run.op), events, actions, rest; }
              assert sofar + (connEvents + [Retrying(run.op.id, e)]) == events + [Retrying(run.op.id, e)];
              events := events + [Retrying(run.op.id, e)];
              run := run.(retry := Some(NextRetry(cfg, run.retry, e, attempt.txnNumber)));
          }
      }
    }
    end := Still(Selecting(run));
  }

  // ---------------------------------------------------------------------
  // Calls on a session
  // ---------------------------------------------------------------------

  /** The call and then the inputs that were due, until the operation is over or an input is missing. */
  ghost predicate RunsFrom(cfg: Config, st: State, call: Action, actions: seq<Action>, inputs: Inputs, phase: Phase) {
    && actions != [] && actions[0] == call
    && exists rest :: FedBy(cfg, Step(cfg, st, call).state, actions[1..], inputs, rest) && AtRest(phase, rest)
  }

  lemma CallOnly(cfg: Config, st: State, call: Action, inputs: Inputs)
    ensures RunsFrom(cfg, st, call, [call], inputs, Idle)
  {
    assert FedBy(cfg, Step(cfg, st, call).state, [call][1..], inputs, inputs);
  }

  /** A call that leads to the same state is fed the same way. */
  lemma SameFeed(cfg: Config, st: State, call: Action, st': State, call': Action, actions: seq<Action>, inputs: Inputs,
                 phase: Phase)
    requires RunsFrom(cfg, st, call, actions, inputs, phase) && Step(cfg, st, call).state == Step(cfg, st', call').state
    ensures RunsFrom(cfg, st', call', [call'] + actions[1..], inputs, phase)
  {
    assert ([call'] + actions[1..])[1..] == actions[1..];
  }

  /** `execute_operation_with_details_inner`: validate, reset a finished transaction, loop, and
      leave `Starting`. */
  method ExecuteOperation(cfg: Config, session: ClientSession, op: Op, valid: bool, inputs: Inputs)
    returns (phase: Phase, events: seq<Event>, actions: seq<Action>)
    modifies session
    ensures RunsFrom(cfg, State(old(session.Value()), Idle), OperationCall(op, valid), actions, inputs, phase)
    ensures Execute(cfg, State(old(session.Value()), Idle), actions) == Outcome(State(session.Value(), phase), events)
  {
    ghost var start := State(session.Value(), Idle);
    actions, events := [OperationCall(op, valid)], [];
    FoldOne(Stepper(cfg), start, OperationCall(op, valid));
    if !valid {
      CallOnly(cfg, start, OperationCall(op, valid), inputs);
      return Idle, [], actions;
    }
    var criteria := if op.pinned.Some? && op.pinned.value.Mongos? then Some(op.pinned.value.address) else None;
    if (session.transaction.state.Committed? && !op.name.CommitName?)
       || (session.transaction.state.Aborted? && !op.name.AbortName?) {
      session.ResetTransaction();
      events := events + [TransactionReset];
    }
    events := events + [OperationBegan(op.id, op)];
    var end, loopEvents, loopActions, rest := ExecuteWithRetry(cfg, session, op, criteria, inputs);
    FoldConcat(Stepper(cfg), start, actions, loopActions);
    events, actions := events + loopEvents, actions + loopActions;
    assert actions[1..] == loopActions;
    match end {
      case Still(waiting) => phase := waiting;
      case Left(ended) =>
        session.MarkInProgress();
        events := events + [OperationEnded(ended.id)];
        phase := Idle;
    }
  }

  method StartTransactionCall(cfg: Config, session: ClientSession, supported: bool, options: Option<TransactionOptions>)
    returns (started: bool, events: seq<Event>)
    modifies session
    ensures Outcome(State(session.Value(), Idle), events)
         == Step(cfg, State(old(session.Value()), Idle), StartCall(supported, options))
    ensures started <==> session.Value().transaction.state.Starting? && !InTransaction(old(session.Value()))
  {
    events := [];
    if session.transaction.state.Starting? || session.transaction.state.InProgress? { return false, []; }
    if session.transaction.state.Committed? {
      session.Unpin();
      events := [TransactionUnpinned];
    }
    if !supported { return false, events; }
    session.server := session.server.(txnNumber := session.server.txnNumber + 1);
    session.transaction := session.transaction.(state := Starting, options := options, recoveryToken := None);
    return true, events + [TransactionStarted(session.server.id, session.server.txnNumber)];
  }

  /** A commit or an abort that sends its command: `call` did `extra` first. */
  method SendEnd(cfg: Config, session: ClientSession, op: Op, valid: bool, inputs: Inputs,
                 ghost start: State, call: Action, extra: seq<Event>)
    returns (phase: Phase, events: seq<Event>, actions: seq<Action>)
    requires var o := Step(cfg, State(session.Value(), Idle), OperationCall(op, valid));
             Step(cfg, start, call) == Outcome(o.state, extra + o.events)
    modifies session
    ensures RunsFrom(cfg, start, call, actions, inputs, phase)
    ensures Execute(cfg, start, actions) == Outcome(State(session.Value(), phase), events)
  {
    ghost var mid := State(session.Value(), Idle);
    phase, events, actions := ExecuteOperation(cfg, session, op, valid, inputs);
    FoldSwap(Stepper(cfg), mid, start, actions[0], call, actions[1..], extra);
    assert actions == [actions[0]] + actions[1..];
    SameFeed(cfg, mid, OperationCall(op, valid), start, call, actions, inputs, phase);
    events, actions := extra + events, [call] + actions[1..];
  }

  method CommitTransactionCall(cfg: Config, session: ClientSession, id: OpId, valid: bool, inputs: Inputs)
    returns (phase: Phase, events: seq<Event>, actions: seq<Action>)
    modifies session
    ensures RunsFrom(cfg, State(old(session.Value()), Idle), CommitCall(id, valid), actions, inputs, phase)
    ensures Execute(cfg, State(old(session.Value()), Idle), actions) == Outcome(State(session.Value(), phase), events)
  {
    ghost var start := State(session.Value(), Idle);
    FoldOne(Stepper(cfg), start, CommitCall(id, valid));
    CallOnly(cfg, start, CommitCall(id, valid), inputs);
    phase, events, actions := Idle, [], [CommitCall(id, valid)];
    match session.transaction.state {
      case NoTransaction =>
      case Aborted =>
      case Starting =>
        session.transaction := session.transaction.(state := Committed(false));
        events := [TransactionCommitted];
      case InProgress =>
        session.transaction := session.transaction.(state := Committed(true));
        phase, events, actions :=
          SendEnd(cfg, session, CommitOp(id), valid, inputs, start, CommitCall(id, valid), [TransactionCommitted]);
      case Committed(dataCommitted) =>
        if dataCommitted {
          phase, events, actions :=
            SendEnd(cfg, session, CommitOp(id), valid, inputs, start, CommitCall(id, valid), []);
        }
    }
  }

  method AbortTransactionCall(cfg: Config, session: ClientSession, id: OpId, valid: bool, inputs: Inputs)
    returns (phase: Phase, events: seq<Event>, actions: seq<Action>)
    modifies session
    ensures RunsFrom(cfg, State(old(session.Value()), Idle), AbortCall(id, valid), actions, inputs, phase)
    ensures Execute(cfg, State(old(session.Value()), Idle), actions) == Outcome(State(session.Value(), phase), events)
  {
    ghost var start := State(session.Value(), Idle);
    FoldOne(Stepper(cfg), start, AbortCall(id, valid));
    CallOnly(cfg, start, AbortCall(id, valid), inputs);
    phase, events, actions := Idle, [], [AbortCall(id, valid)];
    if session.transaction.state.Starting? {
      session.transaction := AbortedFrom(session.transaction);
      events := [TransactionAborted];
    } else if session.transaction.state.InProgress? {
      var abort := AbortOp(id, session.transaction.pinned);
      session.transaction := AbortedFrom(session.transaction);
      phase, events, actions :=
        SendEnd(cfg, session, abort, valid, inputs, start, AbortCall(id, valid), [TransactionAborted]);
    }
  }
}
