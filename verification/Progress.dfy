/** What the executor gets done when the outside plays along: which commands a call sends, what is sent
    again after which error, and what a reply leaves in the session
    (driver/src/client/executor.rs:347-905, 1186-1228; driver/src/client/session/action.rs:25-118, 444-548;
    driver/src/error.rs:280-345).
 */
module Progress {
  import opened Wrappers
  import opened Machines
  import opened Errors
  import opened Sessions
  import opened Executor
  import Retries

  // ---------------------------------------------------------------------
  // Runs of a few steps
  // ---------------------------------------------------------------------

  /** A server that can be reached and supports sessions. */
  datatype Reach = Reach(granted: bool, candidate: Address, id: ConnectionId, isMongos: bool, retryableWrites: bool)

  function Reaches(to: Reach): Action {
    Select(Selected(to.granted, to.candidate, Connected(to.id, to.isMongos, true, to.retryableWrites)))
  }

  /** A server is reached and the command goes out. */
  function Sending(to: Reach, time: Option<ClusterTime>): seq<Action> { [Reaches(to), Build(Transmit(time))] }

  /** Whether a command can be built: an operation that does not support sessions cannot use an explicit one. */
  predicate Usable(op: Op, s: Session) { op.supportsSessions || s.implicit }

  /** The transaction is over for an operation that does not end it again. */
  predicate LeavesTransaction(state: TransactionState, op: Op) {
    (state.Committed? && !op.name.CommitName?) || (state.Aborted? && !op.name.AbortName?)
  }

  // ---------------------------------------------------------------------
  // The first command
  // ---------------------------------------------------------------------

  /** A fresh number is due: the operation is a retryable write outside transactions, and the server can
      retry writes. */
  predicate Fresh(state: TransactionState, op: Op, to: Reach) {
    state.NoTransaction? && op.retryability.WriteRetryable? && to.retryableWrites
  }

  /** The number a command carries. */
  function NumberDue(s: Session, op: Op, to: Reach): Option<int> {
    if !s.transaction.state.NoTransaction? then Some(s.server.txnNumber)
    else if Fresh(s.transaction.state, op, to) then Some(s.server.txnNumber + 1) else None
  }

  /** How the attempt is retried. */
  function RetryabilityOf(s: Session, op: Op, to: Reach): Retryability {
    if s.transaction.state.Starting? || s.transaction.state.InProgress? then NotRetryable
    else if op.retryability.WriteRetryable? && !to.retryableWrites then NotRetryable
    else op.retryability
  }

  /** The command is the operation's, and tells the server what the session is doing. */
  predicate Speaks(c: Command, s: Session, op: Op, number: Option<int>) {
    && c.op == op.id && c.name == op.name
    && (op.supportsSessions ==>
          && c.lsid == Some(s.server.id) && c.txnNumber == number
          && c.startTransaction == s.transaction.state.Starting?
          && c.autocommit == !s.transaction.state.NoTransaction?)
  }

  /** The session with its number, if a fresh one was due. */
  function Numbered(s: Session, op: Op, to: Reach): Session {
    if Fresh(s.transaction.state, op, to) then s.(server := s.server.(txnNumber := s.server.txnNumber + 1)) else s
  }

  function Numbering(s: Session, op: Op, to: Reach): seq<Event> {
    if Fresh(s.transaction.state, op, to) then [WriteNumbered(s.server.id, s.server.txnNumber + 1, op.id)] else []
  }

  /** The same session, but for its pin. */
  predicate SameButPin(s: Session, s': Session) {
    s' == s.(transaction := s.transaction.(pinned := s'.transaction.pinned))
  }

  /** The attempt is about the operation, the session and the server at hand. */
  predicate Tries(a: Attempt, s: Session, op: Op, to: Reach, number: Option<int>) {
    && a.txnNumber == number && a.retryability == RetryabilityOf(s, op, to)
    && a.isTransactionOp == (InTransaction(s) && op.name.OtherName?)
  }

  function MongosOf(pin: Option<TransactionPin>): Option<Address> {
    if pin.Some? && pin.value.Mongos? then Some(pin.value.address) else None
  }

  function HandleOf(pin: Option<TransactionPin>): Option<ConnectionId> {
    if pin.Some? && pin.value.Connection? then Some(pin.value.connection) else None
  }

  /** The connection leads where the session's pin says, else where the operation's does, else to the server
      at hand. */
  predicate GoesTo(conn: Conn, session: Option<TransactionPin>, asked: Option<TransactionPin>, to: Reach) {
    && conn.address == MongosOf(session).UnwrapOr(MongosOf(asked).UnwrapOr(to.candidate))
    && conn.id == HandleOf(session).UnwrapOr(HandleOf(asked).UnwrapOr(to.id))
    && conn.isMongos == to.isMongos
  }

  lemma ConnectsFirst(cfg: Config, s: Session, run: Run, to: Reach) returns (a: Attempt)
    requires run.retry.None? && run.criteria == MongosOf(run.op.pinned)
    ensures GoesTo(a.conn, s.transaction.pinned, run.op.pinned, to)
    ensures Tries(a, s, run.op, to, NumberDue(s, run.op, to))
    ensures Step(cfg, State(s, Selecting(run)), Reaches(to)) ==
            Outcome(State(Numbered(s, run.op, to), Building(run, a)), Numbering(s, run.op, to))
  {
    a := Step(cfg, State(s, Selecting(run)), Reaches(to)).state.phase.attempt;
  }

  lemma Builds(cfg: Config, s: Session, run: Run, a: Attempt, time: Option<ClusterTime>) returns (c: Command, o: State)
    requires Usable(run.op, s)
    ensures Step(cfg, State(s, Building(run, a)), Build(Transmit(time))) == Outcome(o, [CommandBuilt(c, true)])
    ensures Speaks(c, s, run.op, a.txnNumber) && c.conn == a.conn
    ensures o.phase.Waiting? && o.phase.run == run && SameButPin(s, o.session)
    ensures !s.transaction.state.Starting? ==> o.session == s
    ensures o.phase.attempt == a.(conn := o.phase.attempt.conn)
  {
    c := BuiltCommand(s, run.op, a, time);
    o := Step(cfg, State(s, Building(run, a)), Build(Transmit(time))).state;
  }

  /** The first attempt of an operation sends one command. */
  lemma FirstAttemptSends(cfg: Config, s: Session, run: Run, to: Reach, time: Option<ClusterTime>)
    returns (c: Command, o: State)
    requires run.retry.None? && Usable(run.op, s) && run.criteria == MongosOf(run.op.pinned)
    ensures GoesTo(c.conn, s.transaction.pinned, run.op.pinned, to)
    ensures Execute(cfg, State(s, Selecting(run)), Sending(to, time)) ==
            Outcome(o, Numbering(s, run.op, to) + [CommandBuilt(c, true)])
    ensures Speaks(c, s, run.op, NumberDue(s, run.op, to))
    ensures o.phase.Waiting? && o.phase.run == run && SameButPin(Numbered(s, run.op, to), o.session)
    ensures !s.transaction.state.Starting? ==> o.session == Numbered(s, run.op, to)
    ensures Tries(o.phase.attempt, s, run.op, to, NumberDue(s, run.op, to))
  {
    var a := ConnectsFirst(cfg, s, run, to);
    c, o := Builds(cfg, Numbered(s, run.op, to), run, a, time);
    FoldTwo(Stepper(cfg), State(s, Selecting(run)), Reaches(to), Build(Transmit(time)));
  }

  /** A call on a session sends one command, with a fresh number exactly where one is due. A transaction
      that is over is left first. */
  lemma OperationSends(cfg: Config, s: Session, op: Op, to: Reach, time: Option<ClusterTime>)
    returns (c: Command, o: State)
    requires Usable(op, s)
    ensures var left := LeavesTransaction(s.transaction.state, op);
            var s' := if left then s.(transaction := NO_TRANSACTION) else s;
            && Execute(cfg, State(s, Idle), [OperationCall(op, true)] + Sending(to, time)) ==
               Outcome(o, (if left then [TransactionReset] else []) + [OperationBegan(op.id, op)] +
                          (Numbering(s', op, to) + [CommandBuilt(c, true)]))
            && Speaks(c, s', op, NumberDue(s', op, to)) && GoesTo(c.conn, s'.transaction.pinned, op.pinned, to)
            && o.phase.Waiting? && o.phase.run.op == op && o.phase.run.retry.None?
            && SameButPin(Numbered(s', op, to), o.session)
            && Tries(o.phase.attempt, s', op, to, NumberDue(s', op, to))
  {
    var left := LeavesTransaction(s.transaction.state, op);
    var s' := if left then s.(transaction := NO_TRANSACTION) else s;
    var first := Step(cfg, State(s, Idle), OperationCall(op, true));
    var run := first.state.phase.run;
    assert first == Outcome(State(s', Selecting(run)),
                            (if left then [TransactionReset] else []) + [OperationBegan(op.id, op)]);
    c, o := FirstAttemptSends(cfg, s', run, to, time);
    FoldOne(Stepper(cfg), State(s, Idle), OperationCall(op, true));
    FoldConcat(Stepper(cfg), State(s, Idle), [OperationCall(op, true)], Sending(to, time));
  }

  // ---------------------------------------------------------------------
  // Transactions
  // ---------------------------------------------------------------------

  /** A transaction starts exactly when none is under way and the deployment supports it, with a number
      that is one more than the last. */
  lemma StartStarts(cfg: Config, s: Session, supported: bool, options: Option<TransactionOptions>)
    ensures var o := Step(cfg, State(s, Idle), StartCall(supported, options));
            var unpins := if s.transaction.state.Committed? then [TransactionUnpinned] else [];
            if supported && !s.transaction.state.Starting? && !s.transaction.state.InProgress?
            then && o.events == unpins + [TransactionStarted(s.server.id, s.server.txnNumber + 1)]
                 && o.state.session.server == s.server.(txnNumber := s.server.txnNumber + 1)
                 && o.state.session.transaction.state.Starting? && o.state.session.transaction.options == options
                 && o.state.session.transaction.recoveryToken.None?
            else o.events <= unpins && o.state.session.server == s.server
                 && o.state.session.transaction.state == s.transaction.state
  {
  }

  /** A call that turns into an operation sends what the operation sends. */
  lemma EndSends(cfg: Config, s: Session, call: Action, began: Session, op: Op, before: seq<Event>, to: Reach,
                 time: Option<ClusterTime>)
    returns (c: Command, o: State)
    requires op.supportsSessions && !op.name.OtherName? && op.retryability.WriteRetryable?
    requires began.transaction.state.Committed? || began.transaction.state.Aborted?
    requires Step(cfg, State(s, Idle), call) ==
             Outcome(State(began, Selecting(Run(op, MongosOf(op.pinned), None))), before + [OperationBegan(op.id, op)])
    ensures GoesTo(c.conn, began.transaction.pinned, op.pinned, to)
    ensures Execute(cfg, State(s, Idle), [call] + Sending(to, time)) ==
            Outcome(o, before + [OperationBegan(op.id, op), CommandBuilt(c, true)])
    ensures Speaks(c, began, op, Some(began.server.txnNumber)) && c.autocommit && !c.startTransaction
    ensures o.phase.Waiting? && o.phase.run.op == op && o.phase.run.retry.None? && o.session == began
    ensures Tries(o.phase.attempt, began, op, to, Some(began.server.txnNumber))
  {
    var first := Step(cfg, State(s, Idle), call);
    c, o := FirstAttemptSends(cfg, began, first.state.phase.run, to, time);
    FoldOne(Stepper(cfg), State(s, Idle), call);
    FoldConcat(Stepper(cfg), State(s, Idle), [call], Sending(to, time));
    assert (before + [OperationBegan(op.id, op)]) + ([] + [CommandBuilt(c, true)]) ==
           before + [OperationBegan(op.id, op), CommandBuilt(c, true)];
  }

  /** A commit sends `commitTransaction`, in the transaction and under its number, exactly when an operation
      of the transaction came before it; a commit of a commit sends it again. */
  lemma CommitSends(cfg: Config, s: Session, id: OpId, to: Reach, time: Option<ClusterTime>)
    returns (c: Command, o: State)
    requires s.transaction.state.InProgress? || s.transaction.state == Committed(true)
    ensures Execute(cfg, State(s, Idle), [CommitCall(id, true)] + Sending(to, time)) ==
            Outcome(o, (if s.transaction.state.InProgress? then [TransactionCommitted] else []) +
                       [OperationBegan(id, CommitOp(id)), CommandBuilt(c, true)])
    ensures c.op == id && c.name.CommitName? && c.lsid == Some(s.server.id)
    ensures c.txnNumber == Some(s.server.txnNumber) && c.autocommit && !c.startTransaction
    ensures GoesTo(c.conn, s.transaction.pinned, None, to)
    ensures o.phase.Waiting? && o.phase.run.op == CommitOp(id) && o.phase.run.retry.None?
    ensures o.session.transaction.state == Committed(true) && o.session.server == s.server
    ensures Tries(o.phase.attempt, o.session, CommitOp(id), to, Some(s.server.txnNumber))
  {
    var began := s.(transaction := s.transaction.(state := Committed(true)));
    c, o := EndSends(cfg, s, CommitCall(id, true), began, CommitOp(id),
                     if s.transaction.state.InProgress? then [TransactionCommitted] else [], to, time);
  }

  /** In every other state a commit sends nothing; it is over at once. */
  lemma CommitSendsNothing(cfg: Config, s: Session, id: OpId, valid: bool)
    requires !s.transaction.state.InProgress? && s.transaction.state != Committed(true)
    ensures Step(cfg, State(s, Idle), CommitCall(id, valid)) ==
            if s.transaction.state.Starting?
            then Outcome(State(s.(transaction := s.transaction.(state := Committed(false))), Idle),
                         [TransactionCommitted])
            else Outcome(State(s, Idle), [])
  {
  }

  /** An abort sends `abortTransaction`, in the transaction and under its number, over the connection or to the
      mongos the transaction was pinned to, exactly when an operation of the transaction came before it. */
  lemma AbortSends(cfg: Config, s: Session, id: OpId, to: Reach, time: Option<ClusterTime>)
    returns (c: Command, o: State)
    requires s.transaction.state.InProgress?
    ensures Execute(cfg, State(s, Idle), [AbortCall(id, true)] + Sending(to, time)) ==
            Outcome(o, [TransactionAborted, OperationBegan(id, AbortOp(id, s.transaction.pinned)),
                        CommandBuilt(c, true)])
    ensures c.op == id && c.name.AbortName? && c.lsid == Some(s.server.id)
    ensures c.txnNumber == Some(s.server.txnNumber) && c.autocommit && !c.startTransaction
    ensures GoesTo(c.conn, s.transaction.pinned, None, to)
    ensures o.phase.Waiting? && o.session.transaction.state.Aborted? && o.session.server == s.server
    ensures o.session.transaction.pinned.None?
    ensures Tries(o.phase.attempt, o.session, o.phase.run.op, to, Some(s.server.txnNumber))
    ensures o.phase.run.op == AbortOp(id, s.transaction.pinned) && o.phase.run.retry.None?
  {
    var began := s.(transaction := AbortedFrom(s.transaction));
    var op := AbortOp(id, s.transaction.pinned);
    c, o := EndSends(cfg, s, AbortCall(id, true), began, op, [TransactionAborted], to, time);
    assert [TransactionAborted] + [OperationBegan(op.id, op), CommandBuilt(c, true)] ==
           [TransactionAborted, OperationBegan(op.id, op), CommandBuilt(c, true)];
  }

  lemma AbortSendsNothing(cfg: Config, s: Session, id: OpId, valid: bool)
    requires !s.transaction.state.InProgress?
    ensures var o := Step(cfg, State(s, Idle), AbortCall(id, valid));
            if s.transaction.state.Starting?
            then o.events == [TransactionAborted] && o.state.phase.Idle? && o.state.session.transaction.state.Aborted?
                 && o.state.session.server == s.server
            else o == Outcome(State(s, Idle), [])
  {
  }

  // ---------------------------------------------------------------------
  // Error labels
  // ---------------------------------------------------------------------

  /** The driver adds this label to an error, given how the attempt is retried and where the transaction stands. */
  predicate Adds(name: string, e: Error, retryability: Retryability, state: TransactionState) {
    || (name == "TransientTransactionError"
        && (state.Starting? || state.InProgress?) && (Retries.LostConnection(e) || e.kind.ServerSelection?))
    || (name == "RetryableWriteError"
        && Retries.LostConnection(e)
        && (state.Committed? || state.Aborted? || (state.NoTransaction? && retryability.WriteRetryable?)))
    || (name == "UnknownTransactionCommitResult"
        && state.Committed? && !ContainsLabel(e, "TransientTransactionError")
        && (|| Retries.LostConnection(e) || e.kind.ServerSelection? || ContainsLabel(e, "RetryableWriteError")
            || SdamCode(e) in {Some(50), Some(64), Some(91)}))
  }

  /** Exactly those labels are added, and nothing else about the error changes. */
  lemma LabelsAreExactly(e: Error, retryability: Retryability, state: TransactionState, name: string)
    ensures var labelled := Labelled(e, retryability, state);
            && (ContainsLabel(labelled, name) <==> ContainsLabel(e, name) || Adds(name, e, retryability, state))
            && labelled == e.(labels := labelled.labels) && SdamCode(labelled) == SdamCode(e)
  {
  }

  // ---------------------------------------------------------------------
  // Sending again
  // ---------------------------------------------------------------------

  /** The attempt ended with this error. */
  predicate FailsWith(input: ReplyInput, e: Error) {
    && !input.recovered
    && match input.received
       case NetworkFailure(error) => error == e
       case Replied(Malformed(error)) => error == e
       case Replied(Reply(_, _, _, _, failure)) => failure == Some(e)
  }

  /** Outside a transaction under way: a read that lost its connection or got one of the codes for reads; a
      write whose error is marked as retryable, or that lost its connection, if it is retried at all. */
  predicate WorthAnother(op: Op, a: Attempt, state: TransactionState, e: Error) {
    || (op.retryability.ReadRetryable? && Retries.ReadAgain(e))
    || (op.retryability.WriteRetryable? && ContainsLabel(e, "RetryableWriteError"))
    || (op.retryability.WriteRetryable? && Retries.LostConnection(e)
        && (a.retryability.WriteRetryable? || !state.NoTransaction?))
  }

  /** No overload, and no demand for a new login. */
  predicate Ordinary(e: Error) { !ContainsLabel(e, "SystemOverloadedError") && SdamCode(e) != Some(391) }

  /** The same session as far as commands go. */
  predicate SameStanding(s: Session, s': Session) {
    && s'.server.id == s.server.id && s'.server.txnNumber == s.server.txnNumber
    && s'.transaction.state == s.transaction.state && s'.implicit == s.implicit
    && (s'.transaction.pinned == s.transaction.pinned || s'.transaction.pinned.None?)
  }

  lemma ReceivedError(s: Session, isMongos: bool, input: ReplyInput, e: Error)
    requires FailsWith(input, e)
    ensures var p := Receive(s, isMongos, input.received); p.error == Some(e) && SameStanding(s, p.session)
  {
  }

  lemma DeservesAnother(op: Op, a: Attempt, state: TransactionState, e: Error)
    requires WorthAnother(op, a, state, e) && Ordinary(e) && !state.Starting? && !state.InProgress?
    ensures var labelled := Labelled(e, a.retryability, state); Ordinary(labelled) && CanRetry(op, labelled, false)
  {
    LabelsAreExactly(e, a.retryability, state, "SystemOverloadedError");
    LabelsAreExactly(e, a.retryability, state, "RetryableWriteError");
  }

  lemma AnswerRetries(cfg: Config, s: Session, run: Run, a: Attempt, input: ReplyInput, e: Error)
    returns (s': Session, events: seq<Event>)
    requires run.retry.None? && !InTransaction(s) && !a.isTransactionOp && FailsWith(input, e)
    requires WorthAnother(run.op, a, s.transaction.state, e) && Ordinary(e)
    ensures Step(cfg, State(s, Waiting(run, a)), Answer(input)) ==
            Outcome(State(s', Selecting(run.(retry := Some(Retry(1, a.txnNumber, false, 1))))), events)
    ensures SameStanding(s, s')
  {
    var p := Receive(s, a.conn.isMongos, input.received);
    ReceivedError(s, a.conn.isMongos, input, e);
    DeservesAnother(run.op, a, s.transaction.state, e);
    var q := Interpreted(p, run, a, input);
    s', events := RetriesAfter(cfg, q, run, a, input.reauthenticationError);
  }

  lemma RetriesAfter(cfg: Config, p: Parsed, run: Run, a: Attempt, reauthenticationError: Option<Error>)
    returns (s': Session, events: seq<Event>)
    requires run.retry.None? && p.error.Some? && Ordinary(p.error.value) && CanRetry(run.op, p.error.value, false)
    requires !a.isTransactionOp
    ensures AfterReply(cfg, p, run, a, reauthenticationError) ==
            Outcome(State(s', Selecting(run.(retry := Some(Retry(1, a.txnNumber, false, 1))))), events)
    ensures s' == p.session
  {
    s', events := p.session, p.events + [Retrying(run.op.id, p.error.value)];
  }

  /** The next attempt keeps the number. */
  lemma ConnectsAgain(cfg: Config, s: Session, run: Run, number: Option<int>, to: Reach) returns (op: Op, a: Attempt)
    requires run.retry == Some(Retry(1, number, false, 1)) && !InTransaction(s)
    requires run.op.retryability.ReadRetryable? || (run.op.retryability.WriteRetryable? && to.retryableWrites)
    requires number.None? ==> run.op.retryability.ReadRetryable? && s.transaction.state.NoTransaction?
    ensures Step(cfg, State(s, Selecting(run)), Reaches(to)) == Outcome(State(s, Building(run.(op := op), a)), [])
    ensures op == (if run.op.name.AbortName? then run.op.(pinned := None) else run.op) && a.txnNumber == number
    ensures a.conn.id == HandleOf(s.transaction.pinned).UnwrapOr(HandleOf(op.pinned).UnwrapOr(to.id))
  {
    var o := Step(cfg, State(s, Selecting(run)), Reaches(to));
    op, a := o.state.phase.run.op, o.state.phase.attempt;
  }

  /** A failed attempt that is worth another is followed by another command, under the same number. */
  lemma SentAgain(cfg: Config, s: Session, run: Run, a: Attempt, input: ReplyInput, e: Error, to: Reach,
                  time: Option<ClusterTime>)
    returns (c: Command, between: seq<Event>, o: State)
    requires run.retry.None? && !InTransaction(s) && !a.isTransactionOp && FailsWith(input, e) && Usable(run.op, s)
    requires WorthAnother(run.op, a, s.transaction.state, e) && Ordinary(e)
    requires run.op.retryability.WriteRetryable? ==> to.retryableWrites && a.txnNumber.Some?
    requires a.txnNumber.None? ==> s.transaction.state.NoTransaction?
    ensures Execute(cfg, State(s, Waiting(run, a)), [Answer(input)] + Sending(to, time)) ==
            Outcome(o, between + [CommandBuilt(c, true)])
    ensures Speaks(c, s, run.op, a.txnNumber) && o.phase.Waiting?
    ensures run.op.name.AbortName? && s.transaction.pinned.None? ==> c.conn.id == to.id
  {
    var s', op, a';
    s', between := AnswerRetries(cfg, s, run, a, input, e);
    var run' := run.(retry := Some(Retry(1, a.txnNumber, false, 1)));
    op, a' := ConnectsAgain(cfg, s', run', a.txnNumber, to);
    c, o := Builds(cfg, s', run'.(op := op), a', time);
    FoldTwo(Stepper(cfg), State(s', Selecting(run')), Reaches(to), Build(Transmit(time)));
    FoldOne(Stepper(cfg), State(s, Waiting(run, a)), Answer(input));
    FoldConcat(Stepper(cfg), State(s, Waiting(run, a)), [Answer(input)], Sending(to, time));
    assert [] + [CommandBuilt(c, true)] == [CommandBuilt(c, true)];
  }

  /** What a run does that goes on after a first part. */
  lemma GoesOn(cfg: Config, st: State, first: seq<Action>, mid: State, events: seq<Event>, second: seq<Action>,
               o: State, more: seq<Event>)
    requires Execute(cfg, st, first) == Outcome(mid, events) && Execute(cfg, mid, second) == Outcome(o, more)
    ensures Execute(cfg, st, first + second) == Outcome(o, events + more)
  {
    FoldConcat(Stepper(cfg), st, first, second);
  }

  /** An operation outside transactions that fails with an error worth another attempt sends its command twice, as
      soon as there is a server for the second one. Both commands carry the same number: a fresh one for a write,
      none for a read. */
  lemma OperationIsSentAgain(cfg: Config, s: Session, op: Op, to: Reach, time: Option<ClusterTime>, input: ReplyInput,
                             e: Error, again: Reach, later: Option<ClusterTime>)
    returns (first: Command, second: Command, before: seq<Event>, between: seq<Event>, o: State)
    requires !s.transaction.state.Starting? && !s.transaction.state.InProgress? && op.name.OtherName? && Usable(op, s)
    requires FailsWith(input, e) && Ordinary(e)
    requires match op.retryability
             case ReadRetryable => Retries.ReadAgain(e)
             case WriteRetryable =>
               && (Retries.LostConnection(e) || ContainsLabel(e, "RetryableWriteError"))
               && to.retryableWrites && again.retryableWrites
             case NotRetryable => false
    ensures Execute(cfg, State(s, Idle),
                    [OperationCall(op, true)] + Sending(to, time) + ([Answer(input)] + Sending(again, later))) ==
            Outcome(o, before + [CommandBuilt(first, true)] + (between + [CommandBuilt(second, true)]))
    ensures first.op == second.op == op.id && first.name == second.name == op.name
    ensures op.supportsSessions ==>
              && first.lsid == second.lsid == Some(s.server.id)
              && first.txnNumber == second.txnNumber ==
                 (if op.retryability.WriteRetryable? then Some(s.server.txnNumber + 1) else None)
    ensures o.phase.Waiting?
  {
    var mid;
    first, mid := OperationSends(cfg, s, op, to, time);
    var left := LeavesTransaction(s.transaction.state, op);
    var s' := if left then s.(transaction := NO_TRANSACTION) else s;
    second, between, o :=
      SentAgain(cfg, mid.session, mid.phase.run, mid.phase.attempt, input, e, again, later);
    var began := (if left then [TransactionReset] else []) + [OperationBegan(op.id, op)];
    before := began + Numbering(s', op, to);
    assert began + (Numbering(s', op, to) + [CommandBuilt(first, true)]) == before + [CommandBuilt(first, true)];
    GoesOn(cfg, State(s, Idle), [OperationCall(op, true)] + Sending(to, time), mid,
           before + [CommandBuilt(first, true)], [Answer(input)] + Sending(again, later), o,
           between + [CommandBuilt(second, true)]);
  }

  /** So does a commit, under the transaction's number. */
  lemma CommitIsSentAgain(cfg: Config, s: Session, id: OpId, to: Reach, time: Option<ClusterTime>, input: ReplyInput,
                          e: Error, again: Reach, later: Option<ClusterTime>)
    returns (first: Command, second: Command, before: seq<Event>, between: seq<Event>, o: State)
    requires s.transaction.state.InProgress? || s.transaction.state == Committed(true)
    requires FailsWith(input, e) && Ordinary(e) && again.retryableWrites
    requires Retries.LostConnection(e) || ContainsLabel(e, "RetryableWriteError")
    ensures Execute(cfg, State(s, Idle),
                    [CommitCall(id, true)] + Sending(to, time) + ([Answer(input)] + Sending(again, later))) ==
            Outcome(o, before + [CommandBuilt(first, true)] + (between + [CommandBuilt(second, true)]))
    ensures first.name.CommitName? && second.name.CommitName? && first.autocommit && second.autocommit
    ensures first.lsid == second.lsid == Some(s.server.id)
    ensures first.txnNumber == second.txnNumber == Some(s.server.txnNumber)
  {
    var mid;
    first, mid := CommitSends(cfg, s, id, to, time);
    second, between, o :=
      SentAgain(cfg, mid.session, mid.phase.run, mid.phase.attempt, input, e, again, later);
    var committed := if s.transaction.state.InProgress? then [TransactionCommitted] else [];
    before := committed + [OperationBegan(id, CommitOp(id))];
    assert committed + [OperationBegan(id, CommitOp(id)), CommandBuilt(first, true)] ==
           before + [CommandBuilt(first, true)];
    GoesOn(cfg, State(s, Idle), [CommitCall(id, true)] + Sending(to, time), mid, before + [CommandBuilt(first, true)],
           [Answer(input)] + Sending(again, later), o, between + [CommandBuilt(second, true)]);
  }

  /** And an abort. The connection it was pinned to is for the first command only. */
  lemma AbortIsSentAgain(cfg: Config, s: Session, id: OpId, to: Reach, time: Option<ClusterTime>, input: ReplyInput,
                         e: Error, again: Reach, later: Option<ClusterTime>)
    returns (first: Command, second: Command, before: seq<Event>, between: seq<Event>, o: State)
    requires s.transaction.state.InProgress?
    requires FailsWith(input, e) && Ordinary(e) && again.retryableWrites
    requires Retries.LostConnection(e) || ContainsLabel(e, "RetryableWriteError")
    ensures Execute(cfg, State(s, Idle),
                    [AbortCall(id, true)] + Sending(to, time) + ([Answer(input)] + Sending(again, later))) ==
            Outcome(o, before + [CommandBuilt(first, true)] + (between + [CommandBuilt(second, true)]))
    ensures first.name.AbortName? && second.name.AbortName? && first.autocommit && second.autocommit
    ensures first.conn.id == HandleOf(s.transaction.pinned).UnwrapOr(to.id) && second.conn.id == again.id
    ensures first.lsid == second.lsid == Some(s.server.id)
    ensures first.txnNumber == second.txnNumber == Some(s.server.txnNumber)
  {
    var mid;
    first, mid := AbortSends(cfg, s, id, to, time);
    second, between, o :=
      SentAgain(cfg, mid.session, mid.phase.run, mid.phase.attempt, input, e, again, later);
    var op := AbortOp(id, s.transaction.pinned);
    before := [TransactionAborted, OperationBegan(id, op)];
    assert [TransactionAborted, OperationBegan(id, op), CommandBuilt(first, true)] ==
           before + [CommandBuilt(first, true)];
    GoesOn(cfg, State(s, Idle), [AbortCall(id, true)] + Sending(to, time), mid, before + [CommandBuilt(first, true)],
           [Answer(input)] + Sending(again, later), o, between + [CommandBuilt(second, true)]);
  }

  /** The tries an operation has had. */
  function TriesSoFar(run: Run): nat { if run.retry.Some? then run.retry.value.attempt else 0 }

  /** The number the retries of an operation share, once there is one. */
  function SharedNumber(run: Run, a: Attempt): Option<int> {
    if run.retry.Some? && run.retry.value.txnNumber.Some? then run.retry.value.txnNumber else a.txnNumber
  }

  lemma AnswerIsOverload(cfg: Config, s: Session, run: Run, a: Attempt, input: ReplyInput, e: Error)
    returns (s': Session, events: seq<Event>)
    requires FailsWith(input, e) && Retries.Overload(e) && SdamCode(e) != Some(391) && run.op.backpressureRetryable
    ensures Step(cfg, State(s, Waiting(run, a)), Answer(input)) ==
            Outcome(State(s', Selecting(run.(retry := Some(Retry(TriesSoFar(run) + 1, SharedNumber(run, a), true,
                                                                 cfg.maxAdaptiveRetries))))),
                    events)
    ensures SameStanding(s, s')
  {
    ReceivedError(s, a.conn.isMongos, input, e);
    LabelsAreExactly(e, a.retryability, s.transaction.state, "SystemOverloadedError");
    LabelsAreExactly(e, a.retryability, s.transaction.state, "RetryableError");
    var p := Receive(s, a.conn.isMongos, input.received);
    var q := Interpreted(p, run, a, input);
    s', events := q.session, q.events + [Retrying(run.op.id, q.error.value)];
  }

  lemma ConnectsAfterOverload(cfg: Config, s: Session, run: Run, to: Reach) returns (op: Op, a: Attempt)
    requires run.retry.Some? && run.retry.value.overloaded && run.retry.value.attempt <= run.retry.value.maxRetries
    requires run.retry.value.txnNumber.Some? && run.op.backpressureRetryable && to.granted
    ensures Step(cfg, State(s, Selecting(run)), Reaches(to)) == Outcome(State(s, Building(run.(op := op), a)), [])
    ensures op == run.op.(pinned := op.pinned) && a.txnNumber == run.retry.value.txnNumber
  {
    var o := Step(cfg, State(s, Selecting(run)), Reaches(to));
    op, a := o.state.phase.run.op, o.state.phase.attempt;
  }

  /** A server that is overloaded and says so gets the command again, inside transactions too, under the same
      number, as often as the client allows and the token bucket grants. */
  lemma OverloadIsSentAgain(cfg: Config, s: Session, run: Run, a: Attempt, input: ReplyInput, e: Error, to: Reach,
                            time: Option<ClusterTime>)
    returns (c: Command, between: seq<Event>, o: State)
    requires FailsWith(input, e) && Retries.Overload(e) && SdamCode(e) != Some(391) && run.op.backpressureRetryable
    requires TriesSoFar(run) < cfg.maxAdaptiveRetries && to.granted && Usable(run.op, s)
    requires SharedNumber(run, a).Some?
    ensures Execute(cfg, State(s, Waiting(run, a)), [Answer(input)] + Sending(to, time)) ==
            Outcome(o, between + [CommandBuilt(c, true)])
    ensures Speaks(c, s, run.op, SharedNumber(run, a)) && o.phase.Waiting?
  {
    var s', op, a';
    s', between := AnswerIsOverload(cfg, s, run, a, input, e);
    var run' := run.(retry := Some(Retry(TriesSoFar(run) + 1, SharedNumber(run, a), true, cfg.maxAdaptiveRetries)));
    op, a' := ConnectsAfterOverload(cfg, s', run', to);
    c, o := Builds(cfg, s', run'.(op := op), a', time);
    FoldTwo(Stepper(cfg), State(s', Selecting(run')), Reaches(to), Build(Transmit(time)));
    FoldOne(Stepper(cfg), State(s, Waiting(run, a)), Answer(input));
    FoldConcat(Stepper(cfg), State(s, Waiting(run, a)), [Answer(input)], Sending(to, time));
    assert [] + [CommandBuilt(c, true)] == [CommandBuilt(c, true)];
  }

  /** After a new login the command goes out once more, over the same connection and under the same number. */
  lemma LoginSendsAgain(cfg: Config, s: Session, run: Run, a: Attempt, input: ReplyInput, e: Error,
                        time: Option<ClusterTime>)
    returns (c: Command, between: seq<Event>, o: State)
    requires FailsWith(input, e) && SdamCode(e) == Some(391) && input.reauthenticationError.None? && Usable(run.op, s)
    ensures Execute(cfg, State(s, Waiting(run, a)), [Answer(input), Build(Transmit(time))]) ==
            Outcome(o, between + [CommandBuilt(c, true)])
    ensures Speaks(c, s, run.op, a.txnNumber) && c.conn == a.conn && o.phase.Waiting?
  {
    var p := Receive(s, a.conn.isMongos, input.received);
    ReceivedError(s, a.conn.isMongos, input, e);
    LabelsAreExactly(e, a.retryability, s.transaction.state, "");
    var q := Interpreted(p, run, a, input);
    between := q.events + [Reauthenticated(run.op.id)];
    assert Step(cfg, State(s, Waiting(run, a)), Answer(input)) ==
           Outcome(State(q.session, Building(run, a)), between);
    c, o := Builds(cfg, q.session, run, a, time);
    FoldTwo(Stepper(cfg), State(s, Waiting(run, a)), Answer(input), Build(Transmit(time)));
  }

  // ---------------------------------------------------------------------
  // What a reply leaves behind
  // ---------------------------------------------------------------------

  /** The times of a reply are taken in, whether it reports success or failure. */
  lemma TimesAreTakenIn(cfg: Config, s: Session, run: Run, a: Attempt, input: ReplyInput)
    requires input.received.Replied? && input.received.reply.Reply?
    ensures var reply := input.received.reply;
            var o := Step(cfg, State(s, Waiting(run, a)), Answer(input));
            && (reply.clusterTime.Some? ==>
                  && AtLeast(o.state.session.clusterTime, reply.clusterTime.value)
                  && TimeProcessed(reply.clusterTime.value, true) in o.events)
            && (reply.operationTime.Some? ==>
                  && o.state.session.operationTime.Some?
                  && !Earlier(o.state.session.operationTime.value, reply.operationTime.value)
                  && OperationTimeProcessed(reply.operationTime.value) in o.events)
            && (reply.atClusterTime.Some? ==> o.state.session.snapshotTime == reply.atClusterTime)
  {
    var reply := input.received.reply;
    var p := ParseReply(s, a.conn.isMongos, reply);
    ParsedTimes(s, a.conn.isMongos, reply);
    KeepsTimes(cfg, p, run, a, input);
  }

  lemma ParsedTimes(s: Session, isMongos: bool, reply: Reply)
    requires reply.Reply?
    ensures var p := ParseReply(s, isMongos, reply);
            && (reply.clusterTime.Some? ==>
                  && AtLeast(p.session.clusterTime, reply.clusterTime.value)
                  && TimeProcessed(reply.clusterTime.value, true) in p.events)
            && (reply.operationTime.Some? ==>
                  && p.session.operationTime.Some?
                  && !Earlier(p.session.operationTime.value, reply.operationTime.value)
                  && OperationTimeProcessed(reply.operationTime.value) in p.events)
            && (reply.atClusterTime.Some? ==> p.session.snapshotTime == reply.atClusterTime)
  {
    var clocks := ClockEvents(reply.clusterTime, reply.operationTime);
    if reply.clusterTime.Some? { assert clocks[0] == TimeProcessed(reply.clusterTime.value, true); }
    if reply.operationTime.Some? {
      assert clocks[|clocks| - 1] == OperationTimeProcessed(reply.operationTime.value);
    }
  }

  predicate SameTimes(s: Session, s': Session) {
    && s'.clusterTime == s.clusterTime && s'.operationTime == s.operationTime && s'.snapshotTime == s.snapshotTime
    && s'.transaction.recoveryToken == s.transaction.recoveryToken
  }

  /** Nothing that follows touches the times or takes events back. */
  lemma KeepsTimes(cfg: Config, p: Parsed, run: Run, a: Attempt, input: ReplyInput)
    ensures var o := AfterReply(cfg, Interpreted(p, run, a, input), run, a, input.reauthenticationError);
            SameTimes(p.session, o.state.session) && p.events <= o.events
  {
    InterpretKeepsTimes(p, run, a, input);
    AfterReplyKeepsTimes(cfg, Interpreted(p, run, a, input), run, a, input.reauthenticationError);
  }

  lemma InterpretKeepsTimes(p: Parsed, run: Run, a: Attempt, input: ReplyInput)
    ensures var q := Interpreted(p, run, a, input); SameTimes(p.session, q.session) && p.events <= q.events
  {
  }

  lemma AfterReplyKeepsTimes(cfg: Config, p: Parsed, run: Run, a: Attempt, reauthenticationError: Option<Error>)
    ensures var o := AfterReply(cfg, p, run, a, reauthenticationError);
            SameTimes(p.session, o.state.session) && p.events <= o.events
  {
  }

  /** An ok reply of a mongos inside a transaction replaces the recovery token. */
  lemma TokenIsTakenIn(cfg: Config, s: Session, run: Run, a: Attempt, input: ReplyInput)
    requires input.received.Replied? && input.received.reply.Reply?
    requires var reply := input.received.reply; reply.failure.None? && !reply.recoveryToken.BadToken?
    requires a.conn.isMongos && InTransaction(s)
    ensures var field := input.received.reply.recoveryToken;
            var token := if field.HasToken? then Some(field.token) else None;
            var o := Step(cfg, State(s, Waiting(run, a)), Answer(input));
            o.state.session.transaction.recoveryToken == token && TokenReceived(token) in o.events
  {
    KeepsTimes(cfg, ParseReply(s, a.conn.isMongos, input.received.reply), run, a, input);
  }

  /** An ok reply that the operation accepts ends it. */
  lemma SuccessEnds(cfg: Config, s: Session, run: Run, a: Attempt, input: ReplyInput)
    requires input.received.Replied? && input.received.reply.Reply? && input.handled.None?
    requires var reply := input.received.reply; reply.failure.None? && !reply.recoveryToken.BadToken?
    ensures var o := Step(cfg, State(s, Waiting(run, a)), Answer(input));
            o.state.phase.Idle? && o.events != [] && o.events[|o.events| - 1] == OperationEnded(run.op.id)
  {
  }

  /** What came back instead of a reply is a lost connection. */
  predicate Loses(received: Received) {
    match received
    case NetworkFailure(e) => Retries.LostConnection(e)
    case Replied(Malformed(e)) => Retries.LostConnection(e)
    case Replied(Reply(_, _, _, _, failure)) => failure.Some? && Retries.LostConnection(failure.value)
  }

  /** A session whose command lost its connection is marked, and nothing takes the mark away. */
  lemma LostConnectionTaints(cfg: Config, st: State, action: Action)
    ensures st.session.server.dirty ==> Step(cfg, st, action).state.session.server.dirty
    ensures st.phase.Waiting? && action.Answer? && Loses(action.answer.received) ==>
              Step(cfg, st, action).state.session.server.dirty
    ensures Step(cfg, st, action).state.session.server.dirty && !st.session.server.dirty ==>
              st.phase.Waiting? && action.Answer?
  {
    if st.phase.Waiting? && action.Answer? {
      AnswerTaints(cfg, st.session, st.phase.run, st.phase.attempt, action.answer);
    }
  }

  lemma AnswerTaints(cfg: Config, s: Session, run: Run, a: Attempt, input: ReplyInput)
    ensures var o := StepWaiting(cfg, s, run, a, input);
            s.server.dirty || Loses(input.received) ==> o.state.session.server.dirty
  {
    ReceiveTaints(s, a.conn.isMongos, input.received);
    var p := Receive(s, a.conn.isMongos, input.received);
    InterpretTaints(p, run, a, input);
    AfterReplyTaints(cfg, Interpreted(p, run, a, input), run, a, input.reauthenticationError);
  }

  lemma ReceiveTaints(s: Session, isMongos: bool, received: Received)
    ensures var p := Receive(s, isMongos, received);
            p.session.server == s.server && (Loses(received) ==> p.error.Some? && Retries.LostConnection(p.error.value))
  {
  }

  lemma InterpretTaints(p: Parsed, run: Run, a: Attempt, input: ReplyInput)
    ensures Interpreted(p, run, a, input).session.server.dirty <==>
            p.session.server.dirty || (p.error.Some? && Retries.LostConnection(p.error.value))
  {
  }

  lemma AfterReplyTaints(cfg: Config, p: Parsed, run: Run, a: Attempt, reauthenticationError: Option<Error>)
    ensures AfterReply(cfg, p, run, a, reauthenticationError).state.session.server == p.session.server
  {
  }
}
