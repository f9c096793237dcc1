/** Operations whose future is dropped while their session lives on (driver/src/client/executor.rs:431-443):
    the state of a transaction is advanced after the retry loop only, so a dropped first operation leaves the
    transaction to be opened again.
 */
module Dropped {
  import opened Wrappers
  import opened Machines
  import opened Errors
  import opened Sessions
  import opened Executor
  import opened Protocol
  import opened SessionRuns
  import opened Pins

  /** An operation that sends its command to a server that is no mongos and is then dropped. */
  function Abandoned(op: OpId): seq<Action> {
    [OperationCall(Plain(op), true), Select(Selected(true, 0, Connected(0, false, true, true))),
     Build(Transmit(None)), Cancel]
  }

  function Opening(s: Session, op: OpId): Executor.Command { BuiltCommand(s, Plain(op), OnServer(s), None) }

  function OnServer(s: Session): Attempt {
    Attempt(Conn(0, 0, false, false), true, Some(s.server.txnNumber), NotRetryable)
  }

  /** The session is left exactly as it was found, and the command opened the transaction. */
  lemma AbandonedLeavesNothing(s: Session, op: OpId)
    requires s.transaction.state.Starting? && s.transaction.pinned.None?
    ensures Execute(PLAIN, State(s, Idle), Abandoned(op)) ==
            Outcome(State(s, Idle),
                    [OperationBegan(op, Plain(op)), CommandBuilt(Opening(s, op), true), OperationDropped(op)])
    ensures Opening(s, op).startTransaction && Opening(s, op).op == op
  {
    var a, run := Abandoned(op), Run(Plain(op), None, None);
    FoldFour(Stepper(PLAIN), State(s, Idle), a[0], a[1], a[2], a[3]);
    assert Step(PLAIN, State(s, Idle), a[0]) == Outcome(State(s, Selecting(run)), [OperationBegan(op, Plain(op))]);
    assert Step(PLAIN, State(s, Selecting(run)), a[1]) == Outcome(State(s, Building(run, OnServer(s))), []);
    assert Step(PLAIN, State(s, Building(run, OnServer(s))), a[2])
        == Outcome(State(s, Waiting(run, OnServer(s))), [CommandBuilt(Opening(s, op), true)]);
  }

  /** Two operations open the same transaction. */
  predicate OpenedTwice(log: seq<Event>, i: nat, j: nat) {
    && i < j < |log|
    && log[i].CommandBuilt? && log[j].CommandBuilt?
    && log[i].command.startTransaction && log[j].command.startTransaction
    && log[i].command.op != log[j].command.op
    && forall k | i < k < j :: !log[k].TransactionStarted?
  }

  lemma DroppedOperationOpensAgain(server: ServerSession)
    ensures exists actions: seq<Action>, i: nat, j: nat :: OpenedTwice(Log(PLAIN, server, false, actions), i, j)
  {
    var st := State(NewSession(server, false), Idle);
    var start := [StartCall(true, None)];
    FoldOne(Stepper(PLAIN), st, start[0]);
    var st1 := Execute(PLAIN, st, start).state;
    AbandonedLeavesNothing(st1.session, 0);
    AbandonedLeavesNothing(st1.session, 1);
    FoldConcat(Stepper(PLAIN), st1, Abandoned(0), Abandoned(1));
    FoldConcat(Stepper(PLAIN), st, start, Abandoned(0) + Abandoned(1));
    var log := Log(PLAIN, server, false, start + (Abandoned(0) + Abandoned(1)));
    assert log == Execute(PLAIN, st, start).events +
                  ([OperationBegan(0, Plain(0)), CommandBuilt(Opening(st1.session, 0), true), OperationDropped(0)] +
                   [OperationBegan(1, Plain(1)), CommandBuilt(Opening(st1.session, 1), true), OperationDropped(1)]);
    assert OpenedTwice(log, 2, 5);
  }
}
