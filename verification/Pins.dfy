/** How far mongos pinning reaches: exactly when the next command's server is forced, a run in which
    one transaction wanders between servers, and where an abort is sent when it is retried.
 */
module Pins {
  import opened Wrappers
  import opened Machines
  import opened Errors
  import opened Sessions
  import opened Executor
  import opened Protocol
  import opened SessionRuns

  /** While an operation that asks for no particular server waits for selection, its server is forced
      exactly when a command of the transaction reached a mongos and the pin was not lost since. */
  lemma ServerIsForcedExactlyWhenPinned(cfg: Config, server: ServerSession, implicit: bool, actions: seq<Action>)
    requires !cfg.loadBalanced
    requires var st := Execute(cfg, State(NewSession(server, implicit), Idle), actions).state;
             st.phase.Selecting? && st.phase.run.criteria.None?
    ensures var o := Execute(cfg, State(NewSession(server, implicit), Idle), actions);
            var s, run := o.state.session, o.state.phase.run;
            (forall c: Address, c': Address :: Target(s, run, c) == Target(s, run, c'))
            <==> exists x: Address :: Since(o.events, OpensOn(x), Unpinning)
  {
    var o := Execute(cfg, State(NewSession(server, implicit), Idle), actions);
    var s, run := o.state.session, o.state.phase.run;
    NewSessionsAreMirrored(cfg, server, implicit);
    RunsAreAccepted(cfg, Fresh(server), State(NewSession(server, implicit), Idle), actions);
    ServersAreRemembered(cfg, server, o.events);
    if s.transaction.pinned.Some? && s.transaction.pinned.value.Mongos? {
      assert Since(o.events, OpensOn(s.transaction.pinned.value.address), Unpinning);
    } else {
      assert Target(s, run, 0) != Target(s, run, 1);
    }
  }

  // ---------------------------------------------------------------------
  // A transaction that wanders
  // ---------------------------------------------------------------------

  const PLAIN := Config(false, 2)
  const NETWORK_ERROR := Error(Io(None), {}, None, None)
  const OK_REPLY := ReplyInput(Replied(Reply.Reply(None, None, None, NoToken, None)), false, None, false, None)
  const LOST_REPLY := ReplyInput(NetworkFailure(NETWORK_ERROR), false, None, false, None)

  function Plain(id: OpId): Op { Op(id, OtherName, NotRetryable, false, true, None, false) }

  function OnMongos(x: Address): Action { Select(Selected(true, x, Connected(0, true, true, true))) }

  function Exchange(op: OpId, x: Address, reply: ReplyInput): seq<Action> {
    [OperationCall(Plain(op), true), OnMongos(x), Build(Transmit(None)), Answer(reply)]
  }

  function SentOn(s: Session, op: OpId, x: Address): Executor.Command {
    BuiltCommand(s, Plain(op), AttemptOn(s, x), None)
  }

  function AttemptOn(s: Session, x: Address): Attempt {
    Attempt(Conn(x, 0, true, false), true, Some(s.server.txnNumber), NotRetryable)
  }

  /** The first three steps of an operation inside a transaction without a pin. */
  lemma SendsWhereSelected(s: Session, op: OpId, x: Address)
    requires InTransaction(s) && s.transaction.pinned.None?
    ensures var run := Run(Plain(op), None, None);
            && Step(PLAIN, State(s, Idle), OperationCall(Plain(op), true))
               == Outcome(State(s, Selecting(run)), [OperationBegan(op, Plain(op))])
            && Step(PLAIN, State(s, Selecting(run)), OnMongos(x))
               == Outcome(State(s, Building(run, AttemptOn(s, x))), [])
            && Step(PLAIN, State(s, Building(run, AttemptOn(s, x))), Build(Transmit(None)))
               == Outcome(State(PinnedByBuild(PLAIN, s, Plain(op), AttemptOn(s, x)), Waiting(run, AttemptOn(s, x))),
                          [CommandBuilt(SentOn(s, op, x), true)])
  {
  }

  /** Inside a transaction that lost its pin, the next operation goes wherever selection sends it,
      and leaves the transaction without a pin. */
  lemma UnpinnedGoesAnywhere(s: Session, op: OpId, x: Address)
    requires s.transaction.state.InProgress? && s.transaction.pinned.None?
    ensures var o := Execute(PLAIN, State(s, Idle), Exchange(op, x, OK_REPLY));
            && o.state.phase.Idle?
            && o.state.session.transaction.state.InProgress? && o.state.session.transaction.pinned.None?
            && o.events == UnpinnedEvents(s, op, x)
            && SentOn(s, op, x).autocommit && SentOn(s, op, x).conn.address == x
  {
    SendsWhereSelected(s, op, x);
    var run, a := Run(Plain(op), None, None), AttemptOn(s, x);
    var e := Exchange(op, x, OK_REPLY);
    FoldFour(Stepper(PLAIN), State(s, Idle), e[0], e[1], e[2], e[3]);
    var p := Interpret(s, run, a, OK_REPLY);
    assert p.events == [TokenReceived(None)] && p.error.None?;
    assert Step(PLAIN, State(s, Waiting(run, a)), Answer(OK_REPLY)) == Finish(p.session, Plain(op), p.events);
  }

  /** Losing the reply to the opening command takes the pin away for the rest of the transaction. */
  lemma LostReplyUnpins(s: Session, op: OpId, x: Address)
    requires s.transaction.state.Starting? && s.transaction.pinned.None?
    ensures var o := Execute(PLAIN, State(s, Idle), Exchange(op, x, LOST_REPLY));
            && o.state.phase.Idle?
            && o.state.session.transaction.state.InProgress? && o.state.session.transaction.pinned.None?
  {
    SendsWhereSelected(s, op, x);
    var run, a := Run(Plain(op), None, None), AttemptOn(s, x);
    var acts := Exchange(op, x, LOST_REPLY);
    FoldFour(Stepper(PLAIN), State(s, Idle), acts[0], acts[1], acts[2], acts[3]);
    var s' := PinnedByBuild(PLAIN, s, Plain(op), a);
    var e := AddLabel(NETWORK_ERROR, TRANSIENT_TRANSACTION_ERROR);
    var p := Interpret(s', run, a, LOST_REPLY);
    assert p.error == Some(e) && p.session.transaction.pinned.None?;
    assert SdamCode(e) == None;
    OnlyTransient(e);
    assert Step(PLAIN, State(s', Waiting(run, a)), Answer(LOST_REPLY)) == Finish(p.session, Plain(op), p.events);
  }

  lemma OnlyTransient(e: Error)
    requires e == AddLabel(NETWORK_ERROR, TRANSIENT_TRANSACTION_ERROR)
    ensures !CanRetry(Plain(0), e, true) && forall op :: !CanRetry(Plain(op), e, true)
  {
  }

  /** The two commands are neighbours in one transaction, without an error between, on two servers. */
  predicate Apart(log: seq<Event>, i: int, j: int) {
    && 0 <= i < j < |log| && log[i].CommandBuilt? && log[j].CommandBuilt?
    && log[i].command.autocommit && log[j].command.autocommit
    && log[i].command.conn.address != log[j].command.conn.address
    && forall k | i < k < j :: !Unpinning(log[k]) && !log[k].CommandBuilt?
  }

  lemma ApartLater(early: seq<Event>, log: seq<Event>, i: int, j: int)
    requires Apart(log, i, j)
    ensures Apart(early + log, |early| + i, |early| + j)
  {
    forall k | |early| + i < k < |early| + j ensures !Unpinning((early + log)[k]) && !(early + log)[k].CommandBuilt? {
      assert (early + log)[k] == log[k - |early|];
    }
  }

  /** What an operation of a transaction without a pin leaves in the log. */
  function UnpinnedEvents(s: Session, op: OpId, x: Address): seq<Event> {
    [OperationBegan(op, Plain(op)), CommandBuilt(SentOn(s, op, x), true), TokenReceived(None), OperationEnded(op)]
  }

  lemma EventsPart(s: Session, s': Session)
    requires s.transaction.state.InProgress? && s'.transaction.state.InProgress?
    ensures Apart(UnpinnedEvents(s, 1, 2) + UnpinnedEvents(s', 2, 3), 1, 5)
  {
  }

  lemma ExchangesPart(s: Session)
    requires s.transaction.state.InProgress? && s.transaction.pinned.None?
    ensures Apart(Execute(PLAIN, State(s, Idle), Exchange(1, 2, OK_REPLY) + Exchange(2, 3, OK_REPLY)).events, 1, 5)
  {
    UnpinnedGoesAnywhere(s, 1, 2);
    var mid := Execute(PLAIN, State(s, Idle), Exchange(1, 2, OK_REPLY)).state;
    UnpinnedGoesAnywhere(mid.session, 2, 3);
    FoldConcat(Stepper(PLAIN), State(s, Idle), Exchange(1, 2, OK_REPLY), Exchange(2, 3, OK_REPLY));
    EventsPart(s, mid.session);
  }

  /** So two neighbouring commands of one transaction, with no error between them, can go to two
      different mongos: pinning is not restored once an error took it away. */
  lemma NeighboursMayPart(server: ServerSession)
    ensures exists actions: seq<Action>, i, j :: Apart(Log(PLAIN, server, false, actions), i, j)
  {
    var st := State(NewSession(server, false), Idle);
    var start, lost := [StartCall(true, None)], Exchange(0, 1, LOST_REPLY);
    var tail := Exchange(1, 2, OK_REPLY) + Exchange(2, 3, OK_REPLY);
    FoldOne(Stepper(PLAIN), st, start[0]);
    var o1 := Execute(PLAIN, st, start);
    LostReplyUnpins(o1.state.session, 0, 1);
    var o2 := Execute(PLAIN, o1.state, lost);
    ExchangesPart(o2.state.session);
    var o3 := Execute(PLAIN, o2.state, tail);
    FoldConcat(Stepper(PLAIN), o1.state, lost, tail);
    ApartLater(o2.events, o3.events, 1, 5);
    FoldConcat(Stepper(PLAIN), st, start, lost + tail);
    ApartLater(o1.events, o2.events + o3.events, |o2.events| + 1, |o2.events| + 5);
    var i := |o1.events| + |o2.events| + 1;
    assert Apart(Log(PLAIN, server, false, start + (lost + tail)), i, i + 4);
  }

  // ---------------------------------------------------------------------
  // Aborts
  // ---------------------------------------------------------------------

  predicate LoopInput(a: Action) { a.Select? || a.Build? || a.Answer? }

  predicate AbortingOn(st: State, x: Address) {
    && st.session.transaction.pinned.None?
    && (!st.phase.Idle? ==> st.session.transaction.state.Aborted? && st.phase.run.criteria == Some(x))
    && (st.phase.Building? || st.phase.Waiting? ==> st.phase.attempt.conn.address == x)
  }

  predicate OnlyOn(events: seq<Event>, x: Address) {
    forall i | 0 <= i < |events| && events[i].CommandBuilt? :: events[i].command.conn.address == x
  }

  /** An abort whose transaction was pinned to a mongos is sent to that mongos on every attempt. The
      operation drops its pin before a retry, but the server it asked for was read once, before. */
  lemma {:induction false} AbortStaysOnItsMongos(cfg: Config, s: Session, id: OpId, inputs: seq<Action>, x: Address)
    requires s.transaction.state.InProgress? && s.transaction.pinned == Some(Mongos(x))
    requires forall i | 0 <= i < |inputs| :: LoopInput(inputs[i])
    ensures var o := Execute(cfg, State(s, Idle), [AbortCall(id, true)] + inputs);
            AbortingOn(o.state, x) && OnlyOn(o.events, x)
    decreases |inputs|
  {
    if inputs == [] {
      assert [AbortCall(id, true)] + inputs == [AbortCall(id, true)];
      FoldOne(Stepper(cfg), State(s, Idle), AbortCall(id, true));
    } else {
      var init, last := inputs[..|inputs|-1], inputs[|inputs|-1];
      AbortStaysOnItsMongos(cfg, s, id, init, x);
      assert [AbortCall(id, true)] + inputs == ([AbortCall(id, true)] + init) + [last];
      FoldAppend(Stepper(cfg), State(s, Idle), [AbortCall(id, true)] + init, last);
      AbortStep(cfg, Execute(cfg, State(s, Idle), [AbortCall(id, true)] + init).state, last, x);
    }
  }

  lemma AbortStep(cfg: Config, st: State, a: Action, x: Address)
    requires AbortingOn(st, x) && LoopInput(a)
    ensures AbortingOn(Step(cfg, st, a).state, x) && OnlyOn(Step(cfg, st, a).events, x)
  {
    if Enabled(st, a) {
      match a {
        case Select(input) => AbortSelect(cfg, st, input, x);
        case Build(input) => AbortBuild(cfg, st, input, x);
        case Answer(input) => AbortAnswer(cfg, st, input, x);
      }
    }
  }

  lemma AbortSelect(cfg: Config, st: State, input: SelectInput, x: Address)
    requires AbortingOn(st, x) && st.phase.Selecting?
    ensures var o := StepSelecting(cfg, st.session, st.phase.run, input); AbortingOn(o.state, x) && OnlyOn(o.events, x)
  {
  }

  lemma AbortAnswer(cfg: Config, st: State, input: ReplyInput, x: Address)
    requires AbortingOn(st, x) && st.phase.Waiting?
    ensures var o := StepWaiting(cfg, st.session, st.phase.run, st.phase.attempt, input);
            AbortingOn(o.state, x) && OnlyOn(o.events, x)
  {
    var run, a := st.phase.run, st.phase.attempt;
    AbortInterpret(st.session, run, a, input, x);
    var p := Interpret(st.session, run, a, input);
    if p.error.Some? && !IsReauthenticationRequired(p.error.value) {
      AbortRetry(cfg, p.session, run, p.error.value, a, p.events, x);
    } else if p.error.Some? && input.reauthenticationError.Some? {
      AbortRetry(cfg, p.session, run, input.reauthenticationError.value, a, p.events, x);
    }
  }

  lemma AbortRetry(cfg: Config, s: Session, run: Run, e: Error, a: Attempt, events: seq<Event>, x: Address)
    requires s.transaction.state.Aborted? && s.transaction.pinned.None? && run.criteria == Some(x) && OnlyOn(events, x)
    ensures var o := RetryOrFinish(cfg, s, run, e, a.isTransactionOp, a.txnNumber, events);
            AbortingOn(o.state, x) && OnlyOn(o.events, x)
  {
  }

  lemma AbortBuild(cfg: Config, st: State, input: BuildInput, x: Address)
    requires AbortingOn(st, x) && st.phase.Building?
    ensures var o := StepBuilding(cfg, st.session, st.phase.run, st.phase.attempt, input);
            AbortingOn(o.state, x) && OnlyOn(o.events, x)
  {
    var s, run, a := st.session, st.phase.run, st.phase.attempt;
    if input.Unbuildable? {
      AbortRetry(cfg, s, run, input.error, a, [], x);
    } else if !run.op.supportsSessions && !s.implicit {
      AbortRetry(cfg, s, run, UNSUPPORTED_SESSION, a, [], x);
    } else if input.Unsendable? {
      AbortRetry(cfg, s, run, input.error, a, [CommandBuilt(BuiltCommand(s, run.op, a, input.clientTime), false)], x);
    }
  }

  lemma AbortInterpret(s: Session, run: Run, a: Attempt, input: ReplyInput, x: Address)
    requires s.transaction.state.Aborted? && s.transaction.pinned.None?
    ensures var p := Interpret(s, run, a, input);
            p.session.transaction.state.Aborted? && p.session.transaction.pinned.None? && OnlyOn(p.events, x)
  {
    if input.received.Replied? { AbortParse(s, a.conn.isMongos, input.received.reply, x); }
    var p := Receive(s, a.conn.isMongos, input.received);
    if p.error.Some? {
      var e := Labelled(p.error.value, a.retryability, Aborted);
      assert OnlyOn(p.events + [Failed(run.op.id, e)], x);
    }
  }

  lemma AbortParse(s: Session, isMongos: bool, reply: Reply, x: Address)
    requires s.transaction.state.Aborted? && s.transaction.pinned.None?
    ensures var p := ParseReply(s, isMongos, reply);
            p.session.transaction.state.Aborted? && p.session.transaction.pinned.None? && OnlyOn(p.events, x)
  {
  }
}
